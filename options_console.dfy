/**
 * The option editor's items: `OptionsConsoleItem` shows one configuration entry under the text
 * after the last ':' of its key and writes a new value only when it differs from the stored one;
 * `AddOptionConsoleItem` adds an entry under the key of the item it was opened from. The prompts
 * and rendering are left out: the entered strings are parameters.
 */
module OptionsConsole {
  import opened Wrappers

  /** `s.LastIndexOf(c)`: the position of the last `c` in `s`, or -1. */
  function LastIndexOf(s: string, c: char): (r: int)
    ensures -1 <= r < |s|
    ensures r >= 0 ==> s[r] == c
    ensures forall j :: r < j < |s| ==> s[j] != c
    decreases |s|
  {
    if |s| == 0 then -1
    else if s[|s| - 1] == c then |s| - 1
    else LastIndexOf(s[..|s| - 1], c)
  }

  /** A position holding `c` with no `c` after it is the last index of `c`. */
  lemma LastIndexOfIs(s: string, c: char, k: int)
    requires -1 <= k < |s| && (k >= 0 ==> s[k] == c)
    requires forall j :: k < j < |s| ==> s[j] != c
    ensures LastIndexOf(s, c) == k
  {
  }

  /**
   * The display name of an item with key `key` (OptionsConsoleItem.cs, constructor): the text after
   * the last ':' of a key that has one, the key itself otherwise. It is the longest suffix of the
   * key without ':', so it is empty for a key ending in ':'.
   */
  function DisplayNameOf(key: string): (name: string)
    ensures ':' !in name
    ensures |name| <= |key| && name == key[|key| - |name|..]
    ensures ':' !in key ==> name == key
    ensures ':' in key ==> key[|key| - |name| - 1] == ':'
  {
    if ':' in key then
      var i := LastIndexOf(key, ':');
      key[i + 1..]
    else key
  }

  /** The last ':' of a composed key is the last one of the added name, or else the separator. */
  lemma LastColonOfComposed(parentKey: string, name: string)
    ensures LastIndexOf(parentKey + ":" + name, ':') ==
      if LastIndexOf(name, ':') >= 0 then |parentKey| + 1 + LastIndexOf(name, ':') else |parentKey|
  {
    var key := parentKey + ":" + name;
    var n := |parentKey|;
    var i := LastIndexOf(name, ':');
    assert key[n] == ':';
    assert forall j :: n < j < |key| ==> key[j] == name[j - n - 1];
    if i >= 0 {
      LastIndexOfIs(key, ':', n + 1 + i);
    } else {
      LastIndexOfIs(key, ':', n);
    }
  }

  /** The display name is what follows the last ':', or the whole key when there is none. */
  lemma DisplayNameByLastColon(key: string)
    ensures DisplayNameOf(key) == key[LastIndexOf(key, ':') + 1..]
  {
    if LastIndexOf(key, ':') >= 0 {
      assert key[LastIndexOf(key, ':')] == ':';
    } else {
      assert ':' !in key;
    }
  }

  /** Composing a key under a parent path keeps the display name of the part added. */
  lemma ComposedKeyDisplayName(parentKey: string, name: string)
    ensures DisplayNameOf(parentKey + ":" + name) == DisplayNameOf(name)
  {
    var key := parentKey + ":" + name;
    var n := |parentKey|;
    LastColonOfComposed(parentKey, name);
    DisplayNameByLastColon(key);
    DisplayNameByLastColon(name);
    var i := LastIndexOf(name, ':');
    assert key[n + 1..] == name;
    assert key[n + 1 + i + 1..] == name[i + 1..];
  }

  /** The entered name is shown again under its parent exactly when it has no ':' of its own. */
  lemma ComposedKeyRoundTrip(parentKey: string, name: string)
    ensures DisplayNameOf(parentKey + ":" + name) == name <==> ':' !in name
  {
    ComposedKeyDisplayName(parentKey, name);
  }

  /**
   * The options console module as the items use it: the stored values, whether a save-enabled
   * provider is present, and every `EditSetting` call made, in order.
   */
  class OptionsConsoleModule {
    var settings: map<string, string>
    const saveEnabled: bool
    var edits: seq<(string, string)>

    constructor (settings: map<string, string>, saveEnabled: bool)
      ensures this.settings == settings && this.saveEnabled == saveEnabled && edits == []
    {
      this.settings := settings;
      this.saveEnabled := saveEnabled;
      edits := [];
    }

    /** `GetSettingValue(key)`: the stored value, null for a key with no value. */
    function GetSettingValue(key: string): (r: Option<string>)
      reads this
      ensures r.Some? <==> key in settings
      ensures r.Some? ==> r.value == settings[key]
    {
      if key in settings then Some(settings[key]) else None
    }

    /** `EditSetting(key, value)`: records the call; the value is stored, and true returned, only with a save-enabled provider. */
    method EditSetting(key: string, value: string) returns (saved: bool)
      modifies this
      ensures edits == old(edits) + [(key, value)]
      ensures saved == saveEnabled
      ensures settings == if saveEnabled then old(settings)[key := value] else old(settings)
    {
      edits := edits + [(key, value)];
      saved := saveEnabled;
      if saved {
        settings := settings[key := value];
      }
    }
  }

  class OptionsConsoleItem {
    const consoleModule: OptionsConsoleModule
    /** The item's `Name`, which the base item shows. */
    const name: string
    var key: string

    /** `new OptionsConsoleItem(consoleModule, item)`: the full key is kept, the name is its display name. */
    constructor (consoleModule: OptionsConsoleModule, item: (string, string))
      ensures this.consoleModule == consoleModule && key == item.0 && name == DisplayNameOf(item.0)
    {
      this.consoleModule := consoleModule;
      name := DisplayNameOf(item.0);
      key := item.0;
    }

    /** The `Value` getter: the module's value for the item's key. */
    function Value(): (r: Option<string>)
      reads this, consoleModule
      ensures r.Some? <==> key in consoleModule.settings
      ensures r.Some? ==> r.value == consoleModule.settings[key]
    {
      consoleModule.GetSettingValue(key)
    }

    /**
     * The `Value` setter: a value equal to the stored one makes no edit; any other value makes
     * exactly one `EditSetting(Key, value)`, after which it is stored if saving is enabled.
     */
    method SetValue(value: string)
      modifies consoleModule
      ensures Some(value) == old(Value()) ==> unchanged(consoleModule)
      ensures Some(value) != old(Value()) ==>
        consoleModule.edits == old(consoleModule.edits) + [(key, value)]
        && consoleModule.settings == if consoleModule.saveEnabled then old(consoleModule.settings)[key := value] else old(consoleModule.settings)
      ensures consoleModule.saveEnabled ==> Value() == Some(value)
    {
      if Some(value) != Value() {
        var saved := consoleModule.EditSetting(key, value);
      }
    }
  }

  /**
   * What `AddOptionConsoleItem.Display` reads from the item it was opened from: that item's own
   * `Parent` and, when it is an `OptionsConsoleItem`, its `Key`.
   */
  datatype ConsoleItem = ConsoleItem(parent: Option<ConsoleItem>, optionsKey: Option<string>)

  /**
   * The key an entered name is stored under: below the key of an options item, the name itself
   * below any other item. Below an options item the key starts with that item's key and a ':', and
   * shows the same display name as the entered name.
   */
  function EditKey(parent: ConsoleItem, name: string): (k: string)
    ensures parent.optionsKey.None? ==> k == name
    ensures parent.optionsKey.Some? ==>
      |k| > |parent.optionsKey.value| && k[..|parent.optionsKey.value| + 1] == parent.optionsKey.value + ":"
      && k[|parent.optionsKey.value| + 1..] == name && DisplayNameOf(k) == DisplayNameOf(name)
  {
    match parent.optionsKey
    case None => name
    case Some(parentKey) =>
      ComposedKeyDisplayName(parentKey, name);
      parentKey + ":" + name
  }

  class AddOptionConsoleItem {
    const consoleModule: OptionsConsoleModule
    var parent: Option<ConsoleItem>

    /** `Name`. */
    const name: string := "Add new option"

    constructor (consoleModule: OptionsConsoleModule)
      ensures this.consoleModule == consoleModule && parent == None
    {
      this.consoleModule := consoleModule;
      parent := None;
    }

    /** `DisplayName` is the item's name. */
    function DisplayName(): (r: string)
      ensures r == "Add new option"
    {
      name
    }

    /**
     * `Display(parent)` with the entered name and value: `Parent` becomes the given item's parent,
     * and the module receives exactly one `EditSetting` for the composed key and the entered value.
     */
    method Display(parentItem: ConsoleItem, enteredName: string, enteredValue: string)
      modifies this, consoleModule
      ensures parent == parentItem.parent
      ensures consoleModule.edits == old(consoleModule.edits) + [(EditKey(parentItem, enteredName), enteredValue)]
      ensures consoleModule.settings ==
        if consoleModule.saveEnabled then old(consoleModule.settings)[EditKey(parentItem, enteredName) := enteredValue]
        else old(consoleModule.settings)
    {
      parent := parentItem.parent;
      var editKey := EditKey(parentItem, enteredName);
      var saved := consoleModule.EditSetting(editKey, enteredValue);
    }
  }
}
