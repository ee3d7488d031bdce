/**
 * The window-level shortcut list: shortcuts are kept in registration order,
 * a key press runs the first one that matches, and a modifier a shortcut
 * sets must be held while extra held modifiers are ignored.
 */
module KeyboardShortcuts {
  import opened Common
  import opened Strings

  /** A shortcut; `None` is an omitted modifier. `channel` is what its handler sends. */
  datatype Binding = Binding(
    key: string,
    ctrlKey: Option<bool>,
    shiftKey: Option<bool>,
    altKey: Option<bool>,
    metaKey: Option<bool>,
    channel: string)

  datatype KeyEvent = KeyEvent(key: string, ctrlKey: bool, shiftKey: bool, altKey: bool, metaKey: bool)

  /** A modifier the shortcut requires: only an explicit `true` is truthy. */
  predicate Required(m: Option<bool>) {
    m == Some(true)
  }

  /** The `find` predicate: keys equal ignoring case and each required modifier held. */
  predicate Matches(b: Binding, e: KeyEvent) {
    Lower(b.key) == Lower(e.key) &&
    (!Required(b.ctrlKey) || e.ctrlKey) &&
    (!Required(b.shiftKey) || e.shiftKey) &&
    (!Required(b.altKey) || e.altKey) &&
    (!Required(b.metaKey) || e.metaKey)
  }

  /** `Array.prototype.find`, as the index of the first match. */
  function FirstMatch(bs: seq<Binding>, e: KeyEvent): (r: Option<nat>)
    ensures r.Some? ==> r.value < |bs| && Matches(bs[r.value], e)
    ensures r.Some? ==> forall j :: 0 <= j < r.value ==> !Matches(bs[j], e)
    ensures r.None? <==> forall j :: 0 <= j < |bs| ==> !Matches(bs[j], e)
  {
    Find(bs, (b: Binding) => Matches(b, e))
  }

  /** `shortcuts.filter(s => s.key !== key)`: exact, case-sensitive comparison. */
  function WithoutKey(bs: seq<Binding>, key: string): (r: seq<Binding>)
    ensures forall i :: 0 <= i < |r| ==> r[i].key != key
    ensures forall b :: b in r <==> b in bs && b.key != key
  {
    Filter(bs, (b: Binding) => b.key != key)
  }

  /** Removing a key nobody uses leaves the list as it was. */
  lemma WithoutAbsentKey(bs: seq<Binding>, key: string)
    requires forall i :: 0 <= i < |bs| ==> bs[i].key != key
    ensures WithoutKey(bs, key) == bs
  {
    FilterAll(bs, (b: Binding) => b.key != key);
  }

  /** Removing by key commutes with appending: each part loses its own entries with that key. */
  lemma WithoutKeyAppend(a: seq<Binding>, b: seq<Binding>, key: string)
    ensures WithoutKey(a + b, key) == WithoutKey(a, key) + WithoutKey(b, key)
  {
    FilterConcat(a, b, (x: Binding) => x.key != key);
  }

  /**
   * A shortcut shadows a later one when their keys agree ignoring case and it
   * requires no modifier the later one does not: every press that matches the
   * later one matches it first.
   */
  lemma Shadows(a: Binding, b: Binding, e: KeyEvent)
    requires Lower(a.key) == Lower(b.key)
    requires Required(a.ctrlKey) ==> Required(b.ctrlKey)
    requires Required(a.shiftKey) ==> Required(b.shiftKey)
    requires Required(a.altKey) ==> Required(b.altKey)
    requires Required(a.metaKey) ==> Required(b.metaKey)
    requires Matches(b, e)
    ensures Matches(a, e)
  {
  }

  /** The six shortcuts registered when the module loads. */
  function Defaults(): seq<Binding> {
    [ Binding("z", Some(true), None, None, None, "zoom-in"),
      Binding("z", Some(true), Some(true), None, None, "zoom-out"),
      Binding("r", Some(true), None, None, None, "toggle-recording"),
      Binding("c", Some(true), None, None, None, "toggle-camera"),
      Binding(" ", None, None, None, None, "toggle-playback"),
      Binding("Escape", None, None, None, None, "exit-preview") ]
  }

  /**
   * With the default list, Ctrl+Shift+Z also matches the Ctrl+Z entry before
   * it, so the zoom-out entry never runs: every press its predicate accepts
   * runs zoom-in instead.
   */
  lemma ZoomOutUnreachable(e: KeyEvent)
    ensures FirstMatch(Defaults(), e) != Some(1)
    ensures Matches(Defaults()[1], e) ==> FirstMatch(Defaults(), e) == Some(0)
  {
    var d := Defaults();
    if Matches(d[1], e) {
      Shadows(d[0], d[1], e);
    }
  }

  /** A plain Escape press (no modifiers) runs the exit-preview entry. */
  lemma EscapeExits()
    ensures FirstMatch(Defaults(), KeyEvent("Escape", false, false, false, false)) == Some(5)
  {
    var d := Defaults();
    var e := KeyEvent("Escape", false, false, false, false);
    assert Lower(d[5].key) == Lower(e.key);
    forall j | 0 <= j < 5 ensures !Matches(d[j], e) {
      assert |Lower(d[j].key)| != |Lower(e.key)|;
    }
  }

  class Shortcuts {
    var shortcuts: seq<Binding>

    constructor ()
      ensures shortcuts == []
    {
      shortcuts := [];
    }

    /** `addShortcut`: appended last; an equal entry may already be there. */
    method AddShortcut(b: Binding)
      modifies this`shortcuts
      ensures shortcuts == old(shortcuts) + [b]
    {
      shortcuts := shortcuts + [b];
    }

    /** `removeShortcut`: drops every entry with exactly this key, whatever its modifiers. */
    method RemoveShortcut(key: string)
      modifies this`shortcuts
      ensures shortcuts == WithoutKey(old(shortcuts), key)
    {
      shortcuts := WithoutKey(shortcuts, key);
    }

    /** `handleKeyDown`: the first matching entry runs, and the default action is prevented exactly when one matches. */
    method HandleKeyDown(e: KeyEvent) returns (channel: Option<string>, prevented: bool)
      ensures prevented <==> exists j :: 0 <= j < |shortcuts| && Matches(shortcuts[j], e)
      ensures channel.Some? <==> prevented
      ensures channel.Some? ==> exists j :: (0 <= j < |shortcuts| && Matches(shortcuts[j], e) &&
                                             channel.value == shortcuts[j].channel &&
                                             forall i :: 0 <= i < j ==> !Matches(shortcuts[i], e))
    {
      var found := FirstMatch(shortcuts, e);
      if found.Some? {
        channel, prevented := Some(shortcuts[found.value].channel), true;
      } else {
        channel, prevented := None, false;
      }
    }

    /** The module's load: a new instance, then the six default registrations. */
    static method Load() returns (k: Shortcuts)
      ensures fresh(k) && k.shortcuts == Defaults()
    {
      k := new Shortcuts();
      var d := Defaults();
      k.AddShortcut(d[0]);
      k.AddShortcut(d[1]);
      k.AddShortcut(d[2]);
      k.AddShortcut(d[3]);
      k.AddShortcut(d[4]);
      k.AddShortcut(d[5]);
      assert k.shortcuts == d;
    }
  }
}
