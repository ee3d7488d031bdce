/**
 * The global input manager: a registry of keyboard shortcuts keyed by a
 * composite string (`Ctrl+Shift+R`), an enabled flag and event options.
 *
 * The registry is a JavaScript `Map`, so it is modelled as the map itself
 * plus the insertion order of its keys, which is the order `values()`
 * visits. A shortcut's callback is represented by an identifier.
 */
module InputManager {
  import opened Common
  import opened Strings

  /** A registered shortcut. Modifiers are optional: `None` is `undefined`. */
  datatype Shortcut = Shortcut(
    key: string,
    ctrl: Option<bool>,
    shift: Option<bool>,
    alt: Option<bool>,
    meta: Option<bool>,
    handler: nat,
    description: string)

  datatype KeyEvent = KeyEvent(key: string, ctrlKey: bool, shiftKey: bool, altKey: bool, metaKey: bool)

  datatype InputOptions = InputOptions(preventDefault: bool, stopPropagation: bool, capture: bool)

  /** A `Partial<InputOptions>`: the fields given. */
  datatype OptionsUpdate = OptionsUpdate(preventDefault: Option<bool>, stopPropagation: Option<bool>, capture: Option<bool>)

  const DefaultOptions := InputOptions(true, true, false)

  /** `if (shortcut.ctrl)`: only `true` is truthy among `undefined`, `false` and `true`. */
  predicate Truthy(b: Option<bool>) {
    b == Some(true)
  }

  /** The composite key: the set modifiers in the order Ctrl, Shift, Alt, Meta, then the upper-cased key, joined by `+`. */
  function CompositeKey(key: string, ctrl: Option<bool>, shift: Option<bool>, alt: Option<bool>, meta: Option<bool>): string {
    (if Truthy(ctrl) then "Ctrl+" else "") +
    ((if Truthy(shift) then "Shift+" else "") +
    ((if Truthy(alt) then "Alt+" else "") +
    ((if Truthy(meta) then "Meta+" else "") +
    Upper(key))))
  }

  function ShortcutKey(s: Shortcut): string {
    CompositeKey(s.key, s.ctrl, s.shift, s.alt, s.meta)
  }

  /** Strips `prefix` from the front of `s` when it is there. */
  function StripPrefix(s: string, prefix: string): (bool, string) {
    if |prefix| <= |s| && s[..|prefix|] == prefix then (true, s[|prefix|..]) else (false, s)
  }

  /** Reads a composite key back: which modifiers it names and the key after them. */
  function ReadCompositeKey(k: string): (bool, bool, bool, bool, string) {
    var (c, k1) := StripPrefix(k, "Ctrl+");
    var (s, k2) := StripPrefix(k1, "Shift+");
    var (a, k3) := StripPrefix(k2, "Alt+");
    var (m, k4) := StripPrefix(k3, "Meta+");
    (c, s, a, m, k4)
  }

  predicate StartsWith(s: string, prefix: string) {
    |prefix| <= |s| && s[..|prefix|] == prefix
  }

  /** Stripping an optional prefix gives back the flag and the rest, when the rest does not itself start with it. */
  lemma StripStep(flag: bool, prefix: string, rest: string)
    requires !StartsWith(rest, prefix)
    ensures StripPrefix((if flag then prefix else "") + rest, prefix) == (flag, rest)
  {
    if flag {
      assert (prefix + rest)[..|prefix|] == prefix;
      assert (prefix + rest)[|prefix|..] == rest;
    } else {
      assert "" + rest == rest;
    }
  }

  /** A string without `+`, or one that begins with a different letter, does not start with a modifier name. */
  lemma NotStart(s: string, prefix: string)
    requires prefix != [] && prefix[|prefix| - 1] == '+'
    requires '+' !in s || (s != [] && s[0] != prefix[0])
    ensures !StartsWith(s, prefix)
  {
    if |prefix| <= |s| {
      assert s[..|prefix|][|prefix| - 1] == s[|prefix| - 1];
      assert s[..|prefix|][0] == s[0];
    }
  }

  lemma UpperNoPlus(key: string)
    requires '+' !in key
    ensures '+' !in Upper(key)
  {
  }

  /**
   * A composite key names its modifiers and its key unambiguously, provided
   * the key itself holds no `+`: reading it back gives the truthy modifiers
   * and the upper-cased key.
   */
  lemma CompositeKeyReadsBack(key: string, ctrl: Option<bool>, shift: Option<bool>, alt: Option<bool>, meta: Option<bool>)
    requires '+' !in key
    ensures ReadCompositeKey(CompositeKey(key, ctrl, shift, alt, meta)) ==
      (Truthy(ctrl), Truthy(shift), Truthy(alt), Truthy(meta), Upper(key))
  {
    var u := Upper(key);
    UpperNoPlus(key);
    var k3 := (if Truthy(meta) then "Meta+" else "") + u;
    var k2 := (if Truthy(alt) then "Alt+" else "") + k3;
    var k1 := (if Truthy(shift) then "Shift+" else "") + k2;
    var k0 := (if Truthy(ctrl) then "Ctrl+" else "") + k1;
    assert CompositeKey(key, ctrl, shift, alt, meta) == k0;
    NotStart(u, "Meta+");
    StripStep(Truthy(meta), "Meta+", u);
    NotStart(k3, "Alt+");
    StripStep(Truthy(alt), "Alt+", k3);
    NotStart(k2, "Shift+");
    StripStep(Truthy(shift), "Shift+", k2);
    NotStart(k1, "Ctrl+");
    StripStep(Truthy(ctrl), "Ctrl+", k1);
  }

  /** Two shortcuts share a composite key exactly when they set the same modifiers and their keys agree ignoring case. */
  lemma SameKeyIff(a: Shortcut, b: Shortcut)
    requires '+' !in a.key && '+' !in b.key
    ensures ShortcutKey(a) == ShortcutKey(b) <==>
      Truthy(a.ctrl) == Truthy(b.ctrl) && Truthy(a.shift) == Truthy(b.shift) &&
      Truthy(a.alt) == Truthy(b.alt) && Truthy(a.meta) == Truthy(b.meta) && Upper(a.key) == Upper(b.key)
  {
    CompositeKeyReadsBack(a.key, a.ctrl, a.shift, a.alt, a.meta);
    CompositeKeyReadsBack(b.key, b.ctrl, b.shift, b.alt, b.meta);
  }

  /** The match test: keys equal ignoring case, each modifier strictly equal to the event's, so `undefined` never equals a flag. */
  predicate Matches(s: Shortcut, e: KeyEvent) {
    Lower(s.key) == Lower(e.key) &&
    s.ctrl == Some(e.ctrlKey) && s.shift == Some(e.shiftKey) &&
    s.alt == Some(e.altKey) && s.meta == Some(e.metaKey)
  }

  /** A shortcut that leaves any modifier undefined matches no event. */
  lemma UndefinedModifierNeverMatches(s: Shortcut, e: KeyEvent)
    requires s.ctrl.None? || s.shift.None? || s.alt.None? || s.meta.None?
    ensures !Matches(s, e)
  {
  }

  /** The first shortcut, in the order given, that matches the event. */
  function FirstMatch(shortcuts: seq<Shortcut>, e: KeyEvent): (r: Option<nat>)
    ensures r.Some? ==> r.value < |shortcuts| && Matches(shortcuts[r.value], e)
    ensures r.Some? ==> forall j :: 0 <= j < r.value ==> !Matches(shortcuts[j], e)
    ensures r.None? <==> forall j :: 0 <= j < |shortcuts| ==> !Matches(shortcuts[j], e)
  {
    Find(shortcuts, (s: Shortcut) => Matches(s, e))
  }

  /** `setOptions`: the given fields override, the others are kept. */
  function MergeOptions(o: InputOptions, u: OptionsUpdate): (r: InputOptions)
    ensures u.preventDefault.None? ==> r.preventDefault == o.preventDefault
    ensures u.preventDefault.Some? ==> r.preventDefault == u.preventDefault.value
    ensures u.stopPropagation.None? ==> r.stopPropagation == o.stopPropagation
    ensures u.stopPropagation.Some? ==> r.stopPropagation == u.stopPropagation.value
    ensures u.capture.None? ==> r.capture == o.capture
    ensures u.capture.Some? ==> r.capture == u.capture.value
  {
    InputOptions(u.preventDefault.GetOr(o.preventDefault), u.stopPropagation.GetOr(o.stopPropagation), u.capture.GetOr(o.capture))
  }

  /** What a key press does: the handler run, if any, and whether the event was cancelled and stopped. */
  datatype KeyOutcome = KeyOutcome(handler: Option<nat>, prevented: bool, stopped: bool)

  /** `order` without `k`, the others in order. */
  function Without(order: seq<string>, k: string): (r: seq<string>)
    ensures forall x :: x in r <==> x in order && x != k
  {
    if order == [] then []
    else if order[0] == k then Without(order[1..], k)
    else [order[0]] + Without(order[1..], k)
  }

  /** Removing a key from a list of distinct keys leaves them distinct. */
  lemma {:induction false} WithoutDistinct(order: seq<string>, k: string)
    requires Distinct(order)
    ensures Distinct(Without(order, k))
  {
    if order != [] {
      assert Distinct(order[1..]);
      WithoutDistinct(order[1..], k);
      if order[0] != k {
        var rest := Without(order[1..], k);
        assert order[0] !in rest;
        var r := [order[0]] + rest;
        forall i, j | 0 <= i < j < |r| ensures r[i] != r[j] {
          if i > 0 { assert r[i] == rest[i - 1] && r[j] == rest[j - 1]; }
          else { assert r[j] == rest[j - 1]; }
        }
      }
    }
  }

  predicate Distinct(order: seq<string>) {
    forall i, j :: 0 <= i < j < |order| ==> order[i] != order[j]
  }

  /** The entries under `order`, in that order. */
  function Entries(order: seq<string>, m: map<string, Shortcut>): (vs: seq<Shortcut>)
    requires forall i :: 0 <= i < |order| ==> order[i] in m
    ensures |vs| == |order| && forall i :: 0 <= i < |order| ==> vs[i] == m[order[i]]
  {
    seq(|order|, i requires 0 <= i < |order| => m[order[i]])
  }

  /** The key of each shortcut, in order. */
  function Keys(d: seq<Shortcut>): (ks: seq<string>)
    ensures |ks| == |d| && forall i :: 0 <= i < |d| ==> ks[i] == ShortcutKey(d[i])
  {
    seq(|d|, i requires 0 <= i < |d| => ShortcutKey(d[i]))
  }

  /** The insertion order and the map after `Map.set(keys[i], vals[i])` for each `i` in turn, starting empty. */
  function Registered<K, V>(keys: seq<K>, vals: seq<V>): (seq<K>, map<K, V>)
    requires |keys| == |vals|
    decreases |keys|
  {
    if keys == [] then ([], map[])
    else
      var (o, m) := Registered(keys[..|keys| - 1], vals[..|vals| - 1]);
      var k := keys[|keys| - 1];
      (if k in m then o else o + [k], m[k := vals[|vals| - 1]])
  }

  /** Registration puts exactly the registered keys in the map. */
  lemma {:induction false} RegisteredDomain<K, V>(keys: seq<K>, vals: seq<V>)
    requires |keys| == |vals|
    ensures forall k :: k in Registered(keys, vals).1 <==> k in keys
    decreases |keys|
  {
    if keys != [] {
      var n := |keys| - 1;
      RegisteredDomain(keys[..n], vals[..n]);
      assert keys == keys[..n] + [keys[n]];
    }
  }

  /** One more registration: `Map.set` of the next key on the registrations so far. */
  lemma RegisteredStep<K, V>(keys: seq<K>, vals: seq<V>, n: nat)
    requires |keys| == |vals| && n < |keys|
    ensures var (o, m) := Registered(keys[..n], vals[..n]);
      Registered(keys[..n + 1], vals[..n + 1]) == (if keys[n] in m then o else o + [keys[n]], m[keys[n] := vals[n]])
  {
    assert keys[..n + 1][..n] == keys[..n] && vals[..n + 1][..n] == vals[..n];
  }

  /** Pairwise different keys each get their own entry, in the order registered. */
  lemma {:induction false} RegisteredDistinct<K, V>(keys: seq<K>, vals: seq<V>)
    requires |keys| == |vals|
    requires forall i, j :: 0 <= i < j < |keys| ==> keys[i] != keys[j]
    ensures Registered(keys, vals).0 == keys
    ensures |Registered(keys, vals).1| == |keys|
    ensures forall i :: 0 <= i < |keys| ==> keys[i] in Registered(keys, vals).1 && Registered(keys, vals).1[keys[i]] == vals[i]
    decreases |keys|
  {
    if keys != [] {
      var n := |keys| - 1;
      var p, q := keys[..n], vals[..n];
      RegisteredDistinct(p, q);
      RegisteredDomain(p, q);
      assert keys[n] !in p;
      assert keys == p + [keys[n]];
      forall i | 0 <= i < n
        ensures keys[i] in Registered(keys, vals).1 && Registered(keys, vals).1[keys[i]] == vals[i]
      {
        assert keys[i] == p[i];
      }
    }
  }

  /** The ten shortcuts registered at construction. */
  function DefaultShortcuts(): (d: seq<Shortcut>)
    ensures |d| == 10 && forall i :: 0 <= i < 10 ==> d[i] == DefaultShortcut(i)
  {
    seq(10, i requires 0 <= i < 10 => DefaultShortcut(i))
  }

  /** The `i`-th default, in registration order. */
  function DefaultShortcut(i: nat): Shortcut
    requires i < 10
  {
    if i == 0 then Shortcut("r", Some(true), None, None, None, 0, "Start Recording")
    else if i == 1 then Shortcut("r", Some(true), Some(true), None, None, 1, "Stop Recording")
    else if i == 2 then Shortcut("c", Some(true), None, None, None, 2, "Toggle Camera")
    else if i == 3 then Shortcut("p", Some(true), None, None, None, 3, "Play Preview")
    else if i == 4 then Shortcut("p", Some(true), Some(true), None, None, 4, "Pause Preview")
    else if i == 5 then Shortcut("e", Some(true), None, None, None, 5, "Export to MP4")
    else if i == 6 then Shortcut("e", Some(true), Some(true), None, None, 6, "Export to GIF")
    else if i == 7 then Shortcut("ArrowLeft", Some(true), None, None, None, 7, "Previous Page")
    else if i == 8 then Shortcut("ArrowRight", Some(true), None, None, None, 8, "Next Page")
    else Shortcut(",", Some(true), None, None, None, 9, "Open Settings")
  }

  /** The upper-cased key's length and first character: enough to tell the default keys apart. */
  lemma UpperSignature(a: string, b: string)
    requires a != [] && b != [] && Upper(a) == Upper(b)
    ensures |a| == |b| && UpperChar(a[0]) == UpperChar(b[0])
  {
    assert Upper(a)[0] == Upper(b)[0];
  }

  /** What tells two composite keys apart when neither key holds `+`: the four flags, the key's length and its first letter upper-cased. */
  function Signature(s: Shortcut): (bool, bool, bool, bool, nat, char)
    requires s.key != []
  {
    (Truthy(s.ctrl), Truthy(s.shift), Truthy(s.alt), Truthy(s.meta), |s.key|, UpperChar(s.key[0]))
  }

  /** Shortcuts with pairwise different signatures have pairwise different composite keys. */
  lemma KeysDistinctBySignature(d: seq<Shortcut>)
    requires forall i :: 0 <= i < |d| ==> d[i].key != [] && '+' !in d[i].key
    requires forall i, j :: 0 <= i < j < |d| ==> Signature(d[i]) != Signature(d[j])
    ensures forall i, j :: 0 <= i < j < |d| ==> ShortcutKey(d[i]) != ShortcutKey(d[j])
  {
    forall i, j | 0 <= i < j < |d|
      ensures ShortcutKey(d[i]) != ShortcutKey(d[j])
    {
      SameKeyIff(d[i], d[j]);
      if ShortcutKey(d[i]) == ShortcutKey(d[j]) {
        UpperSignature(d[i].key, d[j].key);
      }
    }
  }

  /** The signature of the `i`-th default: Shift or not, the key's length and its upper-cased first letter. */
  function DefaultSignature(i: nat): (bool, nat, char)
    requires i < 10
  {
    if i == 0 then (false, 1, 'R') else if i == 1 then (true, 1, 'R')
    else if i == 2 then (false, 1, 'C') else if i == 3 then (false, 1, 'P')
    else if i == 4 then (true, 1, 'P') else if i == 5 then (false, 1, 'E')
    else if i == 6 then (true, 1, 'E') else if i == 7 then (false, 9, 'A')
    else if i == 8 then (false, 10, 'A') else (false, 1, ',')
  }

  lemma DefaultSignatureOf(i: nat)
    requires i < 10
    ensures var s := DefaultShortcut(i);
      s.key != [] && '+' !in s.key && Signature(s) == (true, DefaultSignature(i).0, false, false, DefaultSignature(i).1, DefaultSignature(i).2)
  {
  }

  /** No two defaults share a composite key, so the registry ends up with all ten. */
  lemma DefaultKeysDistinct()
    ensures forall i, j :: 0 <= i < j < |DefaultShortcuts()| ==> ShortcutKey(DefaultShortcuts()[i]) != ShortcutKey(DefaultShortcuts()[j])
  {
    var d := DefaultShortcuts();
    forall i | 0 <= i < 10 ensures d[i].key != [] && '+' !in d[i].key {
      DefaultSignatureOf(i);
    }
    forall i, j | 0 <= i < j < 10 ensures Signature(d[i]) != Signature(d[j]) {
      DefaultSignatureOf(i);
      DefaultSignatureOf(j);
    }
    KeysDistinctBySignature(d);
  }

  /** A match with no match before it is the first match. */
  lemma FirstMatchAt(shortcuts: seq<Shortcut>, e: KeyEvent, i: nat)
    requires i < |shortcuts| && Matches(shortcuts[i], e)
    requires forall j :: 0 <= j < i ==> !Matches(shortcuts[j], e)
    ensures FirstMatch(shortcuts, e) == Some(i)
  {
  }

  /** Every default leaves Alt and Meta undefined, so under strict equality no key press ever runs one of them. */
  lemma DefaultsNeverMatch(e: KeyEvent)
    ensures FirstMatch(DefaultShortcuts(), e) == None
  {
    var d := DefaultShortcuts();
    assert forall j :: 0 <= j < |d| ==> d[j].alt.None?;
    AltUndefinedNeverMatches(d, e);
  }

  /** A list whose shortcuts all leave Alt undefined has no match for any event. */
  lemma AltUndefinedNeverMatches(d: seq<Shortcut>, e: KeyEvent)
    requires forall j :: 0 <= j < |d| ==> d[j].alt.None?
    ensures FirstMatch(d, e) == None
  {
    forall j | 0 <= j < |d| ensures !Matches(d[j], e) {
      UndefinedModifierNeverMatches(d[j], e);
    }
  }

  class Manager {
    /** The keys of the `Map`, in insertion order. */
    var order: seq<string>
    var shortcuts: map<string, Shortcut>
    var isEnabled: bool
    var options: InputOptions

    /** The order lists each key of the map once, and each entry sits under its own composite key. */
    predicate Valid()
      reads this
    {
      Distinct(order) &&
      (forall i :: 0 <= i < |order| ==> order[i] in shortcuts) &&
      (forall k :: k in shortcuts ==> k in order) &&
      (forall k :: k in shortcuts ==> ShortcutKey(shortcuts[k]) == k)
    }

    /** `this.shortcuts.values()`, in iteration order. */
    function Values(): (vs: seq<Shortcut>)
      requires Valid()
      reads this
    {
      Entries(order, shortcuts)
    }

    /** The private constructor: default options, enabled, and the ten default shortcuts. */
    constructor ()
      ensures Valid()
      ensures Values() == DefaultShortcuts() && |shortcuts| == 10
      ensures isEnabled && options == DefaultOptions
    {
      order := [];
      shortcuts := map[];
      isEnabled := true;
      options := DefaultOptions;
      new;
      SetupDefaultShortcuts();
    }

    /** `Map.set`: an existing key keeps its place and takes the new shortcut; a new key goes last. */
    method AddShortcut(s: Shortcut)
      requires Valid()
      modifies this`order, this`shortcuts
      ensures Valid()
      ensures shortcuts == old(shortcuts)[ShortcutKey(s) := s]
      ensures order == if ShortcutKey(s) in old(shortcuts) then old(order) else old(order) + [ShortcutKey(s)]
      ensures |shortcuts| <= |old(shortcuts)| + 1
    {
      var k := ShortcutKey(s);
      if k !in shortcuts {
        order := order + [k];
      }
      shortcuts := shortcuts[k := s];
    }

    /** `removeShortcut`: deletes the entry under the key built from the arguments, if any. */
    method RemoveShortcut(key: string, ctrl: Option<bool>, shift: Option<bool>, alt: Option<bool>, meta: Option<bool>)
      requires Valid()
      modifies this`order, this`shortcuts
      ensures Valid()
      ensures shortcuts == old(shortcuts) - {CompositeKey(key, ctrl, shift, alt, meta)}
      ensures order == Without(old(order), CompositeKey(key, ctrl, shift, alt, meta))
    {
      var k := CompositeKey(key, ctrl, shift, alt, meta);
      WithoutDistinct(order, k);
      shortcuts := shortcuts - {k};
      order := Without(order, k);
      forall i | 0 <= i < |order| ensures order[i] in shortcuts {
        assert order[i] in Without(old(order), k);
      }
    }

    /** `updateShortcut`: deletes the old key, then sets the new one. */
    method UpdateShortcut(oldShortcut: Shortcut, newShortcut: Shortcut)
      requires Valid()
      modifies this`order, this`shortcuts
      ensures Valid()
      ensures shortcuts == (old(shortcuts) - {ShortcutKey(oldShortcut)})[ShortcutKey(newShortcut) := newShortcut]
      ensures ShortcutKey(newShortcut) in shortcuts && shortcuts[ShortcutKey(newShortcut)] == newShortcut
      ensures ShortcutKey(oldShortcut) in shortcuts <==> ShortcutKey(oldShortcut) == ShortcutKey(newShortcut)
      ensures ShortcutKey(newShortcut) in old(shortcuts) && ShortcutKey(newShortcut) != ShortcutKey(oldShortcut) ==>
        order == Without(old(order), ShortcutKey(oldShortcut))
      ensures ShortcutKey(newShortcut) !in old(shortcuts) || ShortcutKey(newShortcut) == ShortcutKey(oldShortcut) ==>
        order == Without(old(order), ShortcutKey(oldShortcut)) + [ShortcutKey(newShortcut)]
    {
      RemoveShortcut(oldShortcut.key, oldShortcut.ctrl, oldShortcut.shift, oldShortcut.alt, oldShortcut.meta);
      AddShortcut(newShortcut);
    }

    method Enable()
      modifies this`isEnabled
      ensures isEnabled
    {
      isEnabled := true;
    }

    method Disable()
      modifies this`isEnabled
      ensures !isEnabled
    {
      isEnabled := false;
    }

    method SetOptions(u: OptionsUpdate)
      modifies this`options
      ensures options == MergeOptions(old(options), u)
    {
      options := MergeOptions(options, u);
    }

    /** `findMatchingShortcut`: the loop over the map's values, returning the first match. */
    method FindMatchingShortcut(e: KeyEvent) returns (r: Option<Shortcut>)
      requires Valid()
      ensures r.Some? <==> FirstMatch(Values(), e).Some?
      ensures r.Some? ==> r.value == Values()[FirstMatch(Values(), e).value]
    {
      ghost var vs := Values();
      var i := 0;
      while i < |order|
        invariant 0 <= i <= |order|
        invariant forall j :: 0 <= j < i ==> !Matches(vs[j], e)
      {
        var s := shortcuts[order[i]];
        if Matches(s, e) {
          FirstMatchAt(vs, e, i);
          return Some(s);
        }
        i := i + 1;
      }
      return None;
    }

    /** `handleKeyDown`: nothing when disabled; otherwise runs the first match's handler and applies the options. */
    method HandleKeyDown(e: KeyEvent) returns (outcome: KeyOutcome)
      requires Valid()
      ensures !isEnabled ==> outcome == KeyOutcome(None, false, false)
      ensures isEnabled ==> match FirstMatch(Values(), e) {
        case None => outcome == KeyOutcome(None, false, false)
        case Some(i) => outcome == KeyOutcome(Some(Values()[i].handler), options.preventDefault, options.stopPropagation)
      }
    {
      if !isEnabled {
        return KeyOutcome(None, false, false);
      }
      var found := FindMatchingShortcut(e);
      if found.Some? {
        outcome := KeyOutcome(Some(found.value.handler), options.preventDefault, options.stopPropagation);
      } else {
        outcome := KeyOutcome(None, false, false);
      }
    }

    /**
     * `setupDefaultShortcuts`: one `addShortcut` call per default, in order,
     * on an empty registry; no key repeats, so all ten are registered.
     */
    method SetupDefaultShortcuts()
      requires Valid() && order == []
      modifies this`order, this`shortcuts
      ensures Valid()
      ensures Values() == DefaultShortcuts() && |shortcuts| == 10
    {
      DefaultKeysDistinct();
      AddAll(DefaultShortcuts());
    }

    /** Registers the shortcuts one after the other, as `Registered` describes. */
    method AddAll(d: seq<Shortcut>)
      requires Valid() && order == []
      requires forall i, j :: 0 <= i < j < |d| ==> ShortcutKey(d[i]) != ShortcutKey(d[j])
      modifies this`order, this`shortcuts
      ensures Valid()
      ensures Values() == d && |shortcuts| == |d|
    {
      assert shortcuts == map[] by {
        assert forall k :: k !in shortcuts;
      }
      var keys := Keys(d);
      for n := 0 to |d|
        invariant Valid()
        invariant order == Registered(keys[..n], d[..n]).0
        invariant shortcuts == Registered(keys[..n], d[..n]).1
      {
        RegisteredStep(keys, d, n);
        AddShortcut(d[n]);
      }
      assert keys[..|d|] == keys && d[..|d|] == d;
      RegisteredDistinct(keys, d);
      assert Values() == d;
    }
  }
}
