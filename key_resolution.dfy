/**
 * The configuration-key cache of `ConfigurationManager.GetKeyByType`, as a function from the cache
 * before a call to the key returned and the cache after it.
 */
module KeyResolution {
  import opened Wrappers
  import opened Types

  /** The key a type prescribes: the Name of its ConfigurationKey attribute, or else its simple name. */
  function DeclaredKey(t: TypeId): (k: string)
    ensures t.configurationKey.Some? ==> k == t.configurationKey.value
    ensures t.configurationKey.None? ==> k == t.name
  {
    match t.configurationKey
    case Some(name) => name
    case None => t.name
  }

  datatype Resolution = Resolution(key: string, cache: map<TypeId, string>)

  /**
   * One lookup for a non-null type: a cached type gets its cached key and leaves the cache as it
   * was; any other type gets the key it prescribes, which is added to the cache. Either way the
   * cache afterwards holds exactly one more type at most, maps it to the key returned, and keeps
   * every earlier entry.
   */
  function Resolve(cache: map<TypeId, string>, t: TypeId): (r: Resolution)
    ensures t in cache ==> r.key == cache[t] && r.cache == cache
    ensures t !in cache ==> r.key == DeclaredKey(t)
    ensures r.cache.Keys == cache.Keys + {t} && r.cache[t] == r.key
    ensures forall u :: u in cache ==> r.cache[u] == cache[u]
  {
    if t in cache then Resolution(cache[t], cache)
    else Resolution(DeclaredKey(t), cache[t := DeclaredKey(t)])
  }

  /** Every cached key is the one its type prescribes. */
  ghost predicate Coherent(cache: map<TypeId, string>)
  {
    forall u :: u in cache ==> cache[u] == DeclaredKey(u)
  }

  /** On a coherent cache a lookup returns the prescribed key, hit or miss, and the cache stays coherent. */
  lemma ResolveCoherent(cache: map<TypeId, string>, t: TypeId)
    requires Coherent(cache)
    ensures Resolve(cache, t).key == DeclaredKey(t)
    ensures Coherent(Resolve(cache, t).cache)
  {
  }

  /** A second lookup of the same type returns the same key and changes nothing. */
  lemma ResolveIdempotent(cache: map<TypeId, string>, t: TypeId)
    ensures Resolve(Resolve(cache, t).cache, t) == Resolve(cache, t)
  {
  }

  /** The cache after looking up `ts` in order. */
  function ResolveAll(cache: map<TypeId, string>, ts: seq<TypeId>): (r: map<TypeId, string>)
    decreases |ts|
  {
    if |ts| == 0 then cache else ResolveAll(Resolve(cache, ts[0]).cache, ts[1..])
  }

  /** Lookups only add entries: every entry present before a run of lookups is present, unchanged, after it. */
  lemma {:induction false} ResolveAllKeepsEntries(cache: map<TypeId, string>, ts: seq<TypeId>, u: TypeId)
    requires u in cache
    ensures u in ResolveAll(cache, ts) && ResolveAll(cache, ts)[u] == cache[u]
    decreases |ts|
  {
    if |ts| > 0 {
      ResolveAllKeepsEntries(Resolve(cache, ts[0]).cache, ts[1..], u);
    }
  }

  /** Once a type has been looked up, it gets the same key however many other lookups happen in between. */
  lemma KeyStableAcrossLookups(cache: map<TypeId, string>, t: TypeId, ts: seq<TypeId>)
    ensures Resolve(ResolveAll(Resolve(cache, t).cache, ts), t).key == Resolve(cache, t).key
  {
    ResolveAllKeepsEntries(Resolve(cache, t).cache, ts, t);
  }
}
