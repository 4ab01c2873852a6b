/**
 * `string.Format` (and `StringBuilder.AppendFormat`) for templates made of literal text, the
 * escapes `{{` and `}}`, and index placeholders `{n}`. A placeholder whose index has no argument,
 * an unmatched brace, or an unterminated placeholder is a `FormatException` (None).
 */
module Formatting {
  import opened Wrappers

  predicate IsDigit(c: char) { '0' <= c <= '9' }

  /** No character of `s` is a brace, so `Format` copies it unchanged. */
  predicate NoBraces(s: string)
  {
    forall i :: 0 <= i < |s| ==> s[i] != '{' && s[i] != '}'
  }

  /** The length of the longest prefix of `s` made of decimal digits. */
  function DigitCount(s: string): (n: nat)
    ensures n <= |s|
    ensures forall i :: 0 <= i < n ==> IsDigit(s[i])
    ensures n < |s| ==> !IsDigit(s[n])
    decreases |s|
  {
    if |s| == 0 || !IsDigit(s[0]) then 0 else 1 + DigitCount(s[1..])
  }

  /** The number written in decimal by the digits `s`. */
  function DigitsValue(s: string): nat
    requires forall i :: 0 <= i < |s| ==> IsDigit(s[i])
    decreases |s|
  {
    if |s| == 0 then 0
    else
      assert IsDigit(s[|s| - 1]);
      DigitsValue(s[..|s| - 1]) * 10 + (s[|s| - 1] as int - '0' as int)
  }

  function Prepend(p: string, r: Option<string>): Option<string>
  {
    match r
    case None => None
    case Some(s) => Some(p + s)
  }

  /** `string.Format(template, args)`: None where .NET throws a `FormatException`. */
  function Format(template: string, args: seq<string>): (r: Option<string>)
    ensures NoBraces(template) ==> r == Some(template)
    decreases |template|, 1
  {
    if |template| == 0 then Some([])
    else if template[0] == '{' then Placeholder(template[1..], args)
    else if template[0] == '}' then
      if |template| >= 2 && template[1] == '}' then Prepend("}", Format(template[2..], args)) else None
    else
      assert NoBraces(template) ==> NoBraces(template[1..]);
      assert [template[0]] + template[1..] == template;
      Prepend([template[0]], Format(template[1..], args))
  }

  /** What follows an opening brace: a second `{` (an escaped brace), or digits and a closing `}`. */
  function Placeholder(s: string, args: seq<string>): Option<string>
    decreases |s| + 1, 0
  {
    if |s| >= 1 && s[0] == '{' then Prepend("{", Format(s[1..], args))
    else
      var n := DigitCount(s);
      if n == 0 || |s| <= n || s[n] != '}' then None
      else
        var index := DigitsValue(s[..n]);
        if index >= |args| then None else Prepend(args[index], Format(s[n + 1..], args))
  }

  lemma PrependEmpty(r: Option<string>)
    ensures Prepend("", r) == r
  {
    if r.Some? {
      assert "" + r.value == r.value;
    }
  }

  lemma PrependTwice(a: string, b: string, r: Option<string>)
    ensures Prepend(a, Prepend(b, r)) == Prepend(a + b, r)
  {
    if r.Some? {
      assert a + (b + r.value) == (a + b) + r.value;
    }
  }

  /** A first character that is no brace is copied in front of the rest's expansion. */
  lemma FormatPlainChar(t: string, args: seq<string>)
    requires |t| > 0 && t[0] != '{' && t[0] != '}'
    ensures Format(t, args) == Prepend([t[0]], Format(t[1..], args))
  {
  }

  /** Literal text before the rest of a template is copied unchanged in front of the rest's expansion. */
  lemma {:induction false} FormatLiteral(p: string, rest: string, args: seq<string>)
    requires NoBraces(p)
    ensures Format(p + rest, args) == Prepend(p, Format(rest, args))
    decreases |p|
  {
    if |p| == 0 {
      assert p + rest == rest;
      PrependEmpty(Format(rest, args));
    } else {
      var t := p + rest;
      assert t[0] == p[0] && t[0] != '{' && t[0] != '}';
      assert t[1..] == p[1..] + rest;
      FormatPlainChar(t, args);
      assert NoBraces(p[1..]) by {
        assert forall i :: 0 <= i < |p| - 1 ==> p[1..][i] == p[i + 1];
      }
      FormatLiteral(p[1..], rest, args);
      PrependTwice([p[0]], p[1..], Format(rest, args));
      assert [p[0]] + p[1..] == p;
    }
  }

  /** A one-digit placeholder `{d}` is replaced by argument `d`. */
  lemma FormatArgument(d: char, rest: string, args: seq<string>)
    requires IsDigit(d) && (d as int - '0' as int) < |args|
    ensures Format(['{', d, '}'] + rest, args) == Prepend(args[d as int - '0' as int], Format(rest, args))
  {
    var t := ['{', d, '}'] + rest;
    var s := t[1..];
    assert s == [d, '}'] + rest;
    assert DigitCount(s[1..]) == 0;
    assert DigitCount(s) == 1;
    assert s[..1] == [d];
    assert DigitsValue([d][..0]) == 0;
    assert DigitsValue(s[..1]) == d as int - '0' as int;
    assert s[2..] == rest;
  }

  lemma NoBracesJoin(a: string, b: string)
    requires NoBraces(a) && NoBraces(b)
    ensures NoBraces(a + b)
  {
    assert forall i :: 0 <= i < |a + b| ==> (a + b)[i] == if i < |a| then a[i] else b[i - |a|];
  }

  /** `{0}` + separator + `{1}` joins the two arguments with the separator. */
  lemma {:induction false} TwoPlaceholders(separator: string, a: string, b: string)
    requires NoBraces(separator)
    ensures Format(['{', '0', '}'] + separator + ['{', '1', '}'], [a, b]) == Some(a + separator + b)
  {
    var args := [a, b];
    var second: string := ['{', '1', '}'];
    assert ['{', '0', '}'] + separator + second == ['{', '0', '}'] + (separator + second);
    FormatArgument('0', separator + second, args);
    FormatLiteral(separator, second, args);
    assert second == ['{', '1', '}'] + "";
    FormatArgument('1', "", args);
    assert Format("", args) == Some("");
    assert b + "" == b;
    assert a + (separator + b) == a + separator + b;
  }

  /** Literal text followed by `{0}` is the text followed by the argument. */
  lemma {:induction false} LiteralThenPlaceholder(p: string, x: string)
    requires NoBraces(p)
    ensures Format(p + ['{', '0', '}'], [x]) == Some(p + x)
  {
    var placeholder: string := ['{', '0', '}'];
    FormatLiteral(p, placeholder, [x]);
    assert placeholder == ['{', '0', '}'] + "";
    FormatArgument('0', "", [x]);
    assert Format("", [x]) == Some("");
    assert x + "" == x;
  }

  /** `{0}` + literal text + `{0}` puts the argument on both sides of the text. */
  lemma {:induction false} PlaceholderAround(t: string, x: string)
    requires NoBraces(t)
    ensures Format(['{', '0', '}'] + t + ['{', '0', '}'], [x]) == Some(x + t + x)
  {
    assert ['{', '0', '}'] + t + ['{', '0', '}'] == ['{', '0', '}'] + (t + ['{', '0', '}']);
    FormatArgument('0', t + ['{', '0', '}'], [x]);
    LiteralThenPlaceholder(t, x);
    assert x + (t + x) == x + t + x;
  }

  /** Literal text, `{0}`, literal text: the argument between the two texts. */
  lemma {:induction false} PlaceholderBetween(p: string, q: string, x: string)
    requires NoBraces(p) && NoBraces(q)
    ensures Format(p + ['{', '0', '}'] + q, [x]) == Some(p + x + q)
  {
    assert p + ['{', '0', '}'] + q == p + (['{', '0', '}'] + q);
    FormatLiteral(p, ['{', '0', '}'] + q, [x]);
    FormatArgument('0', q, [x]);
    assert Format(q, [x]) == Some(q);
    assert p + (x + q) == p + x + q;
  }

  /** A placeholder `{d}` whose index has no argument is a `FormatException`, wherever it stands. */
  lemma {:induction false} MissingArgument(p: string, d: char, rest: string, args: seq<string>)
    requires NoBraces(p) && IsDigit(d) && d as int - '0' as int >= |args|
    ensures Format(p + ['{', d, '}'] + rest, args) == None
  {
    var t := ['{', d, '}'] + rest;
    assert p + ['{', d, '}'] + rest == p + t;
    FormatLiteral(p, t, args);
    var s := t[1..];
    assert s == [d, '}'] + rest;
    assert DigitCount(s[1..]) == 0;
    assert DigitCount(s) == 1;
    assert s[..1] == [d];
    assert DigitsValue([d][..0]) == 0;
    assert DigitsValue(s[..1]) == d as int - '0' as int;
  }

  /** A `}` that is not doubled is a `FormatException`. */
  lemma {:induction false} LoneClosingBrace(p: string, rest: string, args: seq<string>)
    requires NoBraces(p) && (|rest| == 0 || rest[0] != '}')
    ensures Format(p + ['}'] + rest, args) == None
  {
    var t := ['}'] + rest;
    assert p + ['}'] + rest == p + t;
    FormatLiteral(p, t, args);
    assert t[0] == '}' && (|t| < 2 || t[1] != '}');
  }

  /** A `{` followed only by digits up to the end of the template is a `FormatException`. */
  lemma {:induction false} UnterminatedPlaceholder(p: string, digits: string, args: seq<string>)
    requires NoBraces(p) && forall i :: 0 <= i < |digits| ==> IsDigit(digits[i])
    ensures Format(p + ['{'] + digits, args) == None
  {
    var t := ['{'] + digits;
    assert p + ['{'] + digits == p + t;
    FormatLiteral(p, t, args);
    assert t[1..] == digits;
    assert DigitCount(digits) == |digits|;
  }
}
