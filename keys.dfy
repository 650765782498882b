/** Key-name resolution: `KEY_MAP`, `get_hotkey` and `get_key_name`.

    The evdev `ecodes` module is abstract here: `codeOf` gives the integer of
    each `KEY_*` attribute the module defines (aliases may share a code),
    `labelOf` is the reverse table `ecodes.KEY`, whose entry is either one
    name or a list of alias names, and `evKey` is `ecodes.EV_KEY`. */
module Keys {
  import opened Wrappers
  import opened Text

  datatype KeyLabel = Name(name: string) | Aliases(first: string, others: seq<string>)

  datatype Ecodes = Ecodes(codeOf: map<string, int>, labelOf: map<int, KeyLabel>, evKey: int)

  /** `KEY_MAP`, in its insertion order: each configurable name with the
      `ecodes` attribute that gives its code. */
  const KeyMap: seq<(string, string)> := [
    ("f1", "KEY_F1"), ("f2", "KEY_F2"), ("f3", "KEY_F3"), ("f4", "KEY_F4"),
    ("f5", "KEY_F5"), ("f6", "KEY_F6"), ("f7", "KEY_F7"), ("f8", "KEY_F8"),
    ("f9", "KEY_F9"), ("f10", "KEY_F10"), ("f11", "KEY_F11"), ("f12", "KEY_F12"),
    ("scroll_lock", "KEY_SCROLLLOCK"), ("pause", "KEY_PAUSE"),
    ("insert", "KEY_INSERT"), ("home", "KEY_HOME"), ("end", "KEY_END"),
    ("pageup", "KEY_PAGEUP"), ("pagedown", "KEY_PAGEDOWN"),
    ("capslock", "KEY_CAPSLOCK"), ("numlock", "KEY_NUMLOCK")
  ]

  /** The attribute get_hotkey falls back to. */
  const DefaultKey: string := "KEY_F12"

  /** The module defines every attribute the program reads at load time:
      those of KEY_MAP, and KEY_A and KEY_SPACE for keyboard detection. */
  predicate WellFormed(e: Ecodes) {
    && (forall i :: 0 <= i < |KeyMap| ==> KeyMap[i].1 in e.codeOf)
    && DefaultKey in e.codeOf && "KEY_A" in e.codeOf && "KEY_SPACE" in e.codeOf
  }

  /** The codes of KEY_MAP are pairwise distinct, as they are in evdev. */
  predicate DistinctTableCodes(e: Ecodes)
    requires WellFormed(e)
  {
    forall i, j :: 0 <= i < j < |KeyMap| ==> e.codeOf[KeyMap[i].1] != e.codeOf[KeyMap[j].1]
  }

  function TableNames(): (ns: seq<string>)
    ensures |ns| == |KeyMap|
    ensures forall i :: 0 <= i < |KeyMap| ==> ns[i] == KeyMap[i].0
  {
    seq(|KeyMap|, i requires 0 <= i < |KeyMap| => KeyMap[i].0)
  }

  function TableCodes(e: Ecodes): (cs: seq<int>)
    requires WellFormed(e)
    ensures |cs| == |KeyMap|
    ensures forall i :: 0 <= i < |KeyMap| ==> cs[i] == e.codeOf[KeyMap[i].1]
  {
    seq(|KeyMap|, i requires 0 <= i < |KeyMap| => e.codeOf[KeyMap[i].1])
  }

  /** The first position at or after `from` where `x` occurs in `s`. */
  function IndexOf<T(==)>(s: seq<T>, x: T, from: nat): (r: Option<nat>)
    requires from <= |s|
    ensures r.Some? ==> from <= r.value < |s| && s[r.value] == x
    ensures r.Some? ==> forall j :: from <= j < r.value ==> s[j] != x
    ensures r.None? ==> forall j :: from <= j < |s| ==> s[j] != x
    decreases |s| - from
  {
    if from == |s| then None
    else if s[from] == x then Some(from)
    else IndexOf(s, x, from + 1)
  }

  /** `get_hotkey(key_name)`: look the lower-cased name up in KEY_MAP; a
      single character `c` names the attribute `KEY_C` when `ecodes` has it;
      anything else falls back to F12 (after a printed warning). */
  function Hotkey(e: Ecodes, keyName: string): (code: int)
    requires WellFormed(e)
  {
    var k := Lower(keyName);
    match IndexOf(TableNames(), k, 0)
    case Some(i) => e.codeOf[KeyMap[i].1]
    case None =>
      if |k| == 1 && "KEY_" + Upper(k) in e.codeOf then e.codeOf["KEY_" + Upper(k)]
      else e.codeOf[DefaultKey]
  }

  /** The name `ecodes.KEY` gives for a code, the first alias of a list. */
  function Canonical(l: KeyLabel): string {
    match l
    case Name(n) => n
    case Aliases(f, _) => f
  }

  /** `get_key_name(keycode)`: the upper-cased first KEY_MAP name whose
      code matches; otherwise the `ecodes.KEY` name (first alias), or
      `KEY_<decimal>` when the code is unknown, with `KEY_` removed. */
  function KeyName(e: Ecodes, keycode: int): (name: string)
    requires WellFormed(e)
  {
    match IndexOf(TableCodes(e), keycode, 0)
    case Some(i) => Upper(KeyMap[i].0)
    case None =>
      var entry := if keycode in e.labelOf then e.labelOf[keycode] else Name("KEY_" + IntToString(keycode));
      RemoveAll(Canonical(entry), "KEY_")
  }

  /** The names of KEY_MAP are pairwise distinct (they are dictionary keys). */
  lemma TableNamesDistinct()
    ensures forall i, j :: 0 <= i < j < |KeyMap| ==> KeyMap[i].0 != KeyMap[j].0
  {
  }

  /** get_hotkey is case-insensitive: names equal up to case resolve alike. */
  lemma HotkeyCaseInsensitive(e: Ecodes, a: string, b: string)
    requires WellFormed(e)
    requires Lower(a) == Lower(b)
    ensures Hotkey(e, a) == Hotkey(e, b)
  {
  }

  /** The three outcomes of get_hotkey: a KEY_MAP name (in any case) gives
      its table code; otherwise a single character `c` gives `KEY_C` when
      that attribute exists; otherwise the result is the code of F12. */
  lemma HotkeyCases(e: Ecodes, keyName: string)
    requires WellFormed(e)
    ensures forall i :: 0 <= i < |KeyMap| && Lower(keyName) == KeyMap[i].0 ==>
              Hotkey(e, keyName) == e.codeOf[KeyMap[i].1]
    ensures (forall i :: 0 <= i < |KeyMap| ==> Lower(keyName) != KeyMap[i].0) &&
            |keyName| == 1 && "KEY_" + Upper(keyName) in e.codeOf ==>
              Hotkey(e, keyName) == e.codeOf["KEY_" + Upper(keyName)]
    ensures (forall i :: 0 <= i < |KeyMap| ==> Lower(keyName) != KeyMap[i].0) &&
            (|keyName| != 1 || "KEY_" + Upper(keyName) !in e.codeOf) ==>
              Hotkey(e, keyName) == e.codeOf[DefaultKey]
  {
    TableNamesDistinct();
    UpperOfLower(keyName);
  }

  /** Round trip through the table: resolving a KEY_MAP name written in any
      case and naming the code again gives the name upper-cased. */
  lemma HotkeyNameRoundTrip(e: Ecodes, keyName: string, i: nat)
    requires WellFormed(e) && DistinctTableCodes(e)
    requires i < |KeyMap| && Lower(keyName) == KeyMap[i].0
    ensures KeyName(e, Hotkey(e, keyName)) == Upper(keyName)
  {
    HotkeyCases(e, keyName);
    var code := e.codeOf[KeyMap[i].1];
    assert TableCodes(e)[i] == code;
    assert IndexOf(TableCodes(e), code, 0) == Some(i);
    UpperOfLower(keyName);
  }

  /** A code that is neither in KEY_MAP nor known to `ecodes` is named by
      its decimal value (with a minus sign if negative). */
  lemma UnknownKeyName(e: Ecodes, keycode: int)
    requires WellFormed(e)
    requires forall i :: 0 <= i < |KeyMap| ==> e.codeOf[KeyMap[i].1] != keycode
    requires keycode !in e.labelOf
    ensures KeyName(e, keycode) == IntToString(keycode)
  {
    RemoveAllPrefix("KEY_", IntToString(keycode));
    NoOccurrenceWithoutHead(IntToString(keycode), "KEY_");
    RemoveAllUnchanged(IntToString(keycode), "KEY_");
  }

  /** A code outside KEY_MAP whose canonical `ecodes` name is `KEY_` followed
      by a suffix in which `KEY_` does not occur is named by that suffix. */
  lemma LabelledKeyName(e: Ecodes, keycode: int, suffix: string)
    requires WellFormed(e)
    requires forall i :: 0 <= i < |KeyMap| ==> e.codeOf[KeyMap[i].1] != keycode
    requires keycode in e.labelOf && Canonical(e.labelOf[keycode]) == "KEY_" + suffix
    requires NoOccurrence(suffix, "KEY_")
    ensures KeyName(e, keycode) == suffix
  {
    RemoveAllPrefix("KEY_", suffix);
    RemoveAllUnchanged(suffix, "KEY_");
  }

  /** Round trip for a single-character hotkey: when `KEY_C` exists, its
      code is outside KEY_MAP and `ecodes.KEY` names it `KEY_C` first, the
      key is displayed as the upper-cased character. */
  lemma SingleCharRoundTrip(e: Ecodes, keyName: string)
    requires WellFormed(e) && |keyName| == 1
    requires forall i :: 0 <= i < |KeyMap| ==> Lower(keyName) != KeyMap[i].0
    requires "KEY_" + Upper(keyName) in e.codeOf
    requires forall i :: 0 <= i < |KeyMap| ==> e.codeOf[KeyMap[i].1] != e.codeOf["KEY_" + Upper(keyName)]
    requires e.codeOf["KEY_" + Upper(keyName)] in e.labelOf
    requires Canonical(e.labelOf[e.codeOf["KEY_" + Upper(keyName)]]) == "KEY_" + Upper(keyName)
    ensures KeyName(e, Hotkey(e, keyName)) == Upper(keyName)
  {
    HotkeyCases(e, keyName);
    LabelledKeyName(e, e.codeOf["KEY_" + Upper(keyName)], Upper(keyName));
  }
}
