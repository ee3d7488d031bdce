/**
 * The state store: a record of named values with per-key listener sets.
 * Every update keeps a copy of the old record, installs the new one, and
 * then calls the listeners of each key whose value changed, with the new
 * and the old value.
 *
 * Values are compared the way `!==` compares them: primitives by content,
 * objects by identity (`Ref`). A listener is an identifier; notifying yields
 * the calls made, in order. Persistence reads and writes `localStorage`: the
 * stored record is a parameter where it is read, and an out-parameter where
 * it is written.
 */
module StateManager {
  import opened Common

  datatype Value = Undefined | Prim(text: string) | Ref(id: nat)

  type ListenerId = nat

  /** A plain object: its own keys in `Object.keys` order and their values. */
  datatype Record = Record(keys: seq<string>, values: map<string, Value>)

  predicate Distinct(ks: seq<string>) {
    forall i, j :: 0 <= i < j < |ks| ==> ks[i] != ks[j]
  }

  predicate WellFormed(r: Record) {
    Distinct(r.keys) &&
    (forall k :: k in r.values ==> k in r.keys) &&
    (forall i :: 0 <= i < |r.keys| ==> r.keys[i] in r.values)
  }

  /** `record[key]`: `undefined` for a key it does not have. */
  function Lookup(r: Record, k: string): Value {
    if k in r.values then r.values[k] else Undefined
  }

  /** The keys of `ks` the map does not have yet, in order. */
  function NewKeys(ks: seq<string>, m: map<string, Value>): (r: seq<string>)
    ensures forall x :: x in r <==> x in ks && x !in m
  {
    if ks == [] then []
    else if ks[0] in m then NewKeys(ks[1..], m)
    else [ks[0]] + NewKeys(ks[1..], m)
  }

  lemma {:induction false} NewKeysDistinct(ks: seq<string>, m: map<string, Value>)
    requires Distinct(ks)
    ensures Distinct(NewKeys(ks, m))
  {
    if ks != [] {
      assert Distinct(ks[1..]);
      NewKeysDistinct(ks[1..], m);
      if ks[0] !in m {
        var rest := NewKeys(ks[1..], m);
        assert ks[0] !in rest;
        var r := [ks[0]] + rest;
        forall i, j | 0 <= i < j < |r| ensures r[i] != r[j] {
          if i > 0 { assert r[i] == rest[i - 1] && r[j] == rest[j - 1]; }
          else { assert r[j] == rest[j - 1]; }
        }
      }
    }
  }

  /** `{ ...s, ...p }`: the keys of `s` in place, then `p`'s new keys; `p`'s values win. */
  function Merge(s: Record, p: Record): (r: Record)
    requires WellFormed(s) && WellFormed(p)
    ensures WellFormed(r)
    ensures forall k :: Lookup(r, k) == if k in p.values then p.values[k] else Lookup(s, k)
    ensures |r.keys| >= |s.keys| && r.keys[..|s.keys|] == s.keys
  {
    var extra := NewKeys(p.keys, s.values);
    NewKeysDistinct(p.keys, s.values);
    DistinctAppend(s.keys, extra);
    MergedKeys(s, p, extra);
    Record(s.keys + extra, s.values + p.values)
  }

  lemma DistinctAppend(a: seq<string>, b: seq<string>)
    requires Distinct(a) && Distinct(b) && forall x :: x in b ==> x !in a
    ensures Distinct(a + b)
  {
    var ks := a + b;
    forall i, j | 0 <= i < j < |ks| ensures ks[i] != ks[j] {
      if j >= |a| {
        assert ks[j] == b[j - |a|] && ks[j] in b;
        if i >= |a| { assert ks[i] == b[i - |a|]; }
        else { assert ks[i] == a[i] && ks[i] in a; }
      } else {
        assert ks[i] == a[i] && ks[j] == a[j];
      }
    }
  }

  lemma MergedKeys(s: Record, p: Record, extra: seq<string>)
    requires WellFormed(s) && WellFormed(p)
    requires forall x :: x in extra <==> x in p.keys && x !in s.values
    ensures forall k :: k in s.values + p.values ==> k in s.keys + extra
    ensures forall i :: 0 <= i < |s.keys + extra| ==> (s.keys + extra)[i] in s.values + p.values
  {
    var ks := s.keys + extra;
    forall i | 0 <= i < |ks| ensures ks[i] in s.values + p.values {
      if i >= |s.keys| { assert ks[i] == extra[i - |s.keys|]; }
    }
  }

  /** `state[key] = value`: an existing key keeps its place, a new key goes last. */
  function Assign(s: Record, k: string, v: Value): (r: Record)
    requires WellFormed(s)
    ensures WellFormed(r)
    ensures Lookup(r, k) == v
    ensures forall j :: j != k ==> Lookup(r, j) == Lookup(s, j)
    ensures k in s.values ==> r.keys == s.keys
  {
    if k in s.values then Record(s.keys, s.values[k := v])
    else Record(s.keys + [k], s.values[k := v])
  }

  /** Setting one key through a merge is the same as assigning it. */
  lemma MergeOneIsAssign(s: Record, k: string, v: Value)
    requires WellFormed(s)
    ensures Merge(s, Record([k], map[k := v])) == Assign(s, k, v)
  {
    var p := Record([k], map[k := v]);
    assert NewKeys(p.keys, s.values) == if k in s.values then [] else [k];
    assert s.values + p.values == s.values[k := v];
  }

  datatype StateOptions = StateOptions(persist: bool, storageKey: string)

  /** Whether the store reads and writes `localStorage`: `persist` set and a non-empty key. */
  predicate Persisting(o: StateOptions) {
    o.persist && o.storageKey != ""
  }

  /** `loadState`: the stored record when persisting and one is stored, otherwise the record given. */
  function LoadState(initial: Record, o: StateOptions, stored: Option<Record>): (r: Record)
    ensures !Persisting(o) ==> r == initial
    ensures stored.None? ==> r == initial
    ensures Persisting(o) && stored.Some? ==> r == stored.value
  {
    if !Persisting(o) then initial
    else match stored {
      case Some(saved) => saved
      case None => initial
    }
  }

  /** A listener call: the listener, the key, and the new and old values. */
  datatype Call = Call(listener: ListenerId, key: string, newValue: Value, oldValue: Value)

  /** The calls for one key: all its listeners, in their order, when the value changed by `!==`. */
  function KeyCalls(k: string, now: Record, before: Record, ls: map<string, seq<ListenerId>>): (cs: seq<Call>)
    ensures Lookup(now, k) == Lookup(before, k) || k !in ls ==> cs == []
    ensures Lookup(now, k) != Lookup(before, k) && k in ls ==> |cs| == |ls[k]|
    ensures forall i :: 0 <= i < |cs| ==> cs[i] == Call(ls[k][i], k, Lookup(now, k), Lookup(before, k))
  {
    if Lookup(now, k) != Lookup(before, k) && k in ls then
      seq(|ls[k]|, i requires 0 <= i < |ls[k]| => Call(ls[k][i], k, Lookup(now, k), Lookup(before, k)))
    else []
  }

  /** `notifyListeners`: the calls for each key of the new record, in key order. */
  function Notifications(ks: seq<string>, now: Record, before: Record, ls: map<string, seq<ListenerId>>): seq<Call>
  {
    if ks == [] then []
    else Notifications(ks[..|ks| - 1], now, before, ls) + KeyCalls(ks[|ks| - 1], now, before, ls)
  }

  /**
   * Every call is for a key of the new record whose value changed, to one of
   * that key's listeners, with the new and old values; and every such
   * listener of every such key is called.
   */
  lemma {:induction false} NotificationsExact(ks: seq<string>, now: Record, before: Record, ls: map<string, seq<ListenerId>>)
    ensures forall c :: c in Notifications(ks, now, before, ls) ==>
      c.key in ks && Lookup(now, c.key) != Lookup(before, c.key) && c.key in ls && c.listener in ls[c.key] &&
      c.newValue == Lookup(now, c.key) && c.oldValue == Lookup(before, c.key)
    ensures forall k, l :: k in ks && Lookup(now, k) != Lookup(before, k) && k in ls && l in ls[k] ==>
      Call(l, k, Lookup(now, k), Lookup(before, k)) in Notifications(ks, now, before, ls)
  {
    if ks != [] {
      var init, last := ks[..|ks| - 1], ks[|ks| - 1];
      NotificationsExact(init, now, before, ls);
      assert ks == init + [last];
      var cs := KeyCalls(last, now, before, ls);
      forall k, l | k in ks && Lookup(now, k) != Lookup(before, k) && k in ls && l in ls[k]
        ensures Call(l, k, Lookup(now, k), Lookup(before, k)) in Notifications(ks, now, before, ls)
      {
        if k != last {
          assert k in init;
        } else {
          var i :| 0 <= i < |ls[k]| && ls[k][i] == l;
          assert cs[i] == Call(l, k, Lookup(now, k), Lookup(before, k));
        }
      }
    }
  }

  /** When no value changed, no listener is called. */
  lemma {:induction false} NoChangeNoCalls(ks: seq<string>, now: Record, before: Record, ls: map<string, seq<ListenerId>>)
    requires forall k :: Lookup(now, k) == Lookup(before, k)
    ensures Notifications(ks, now, before, ls) == []
  {
    if ks != [] {
      NoChangeNoCalls(ks[..|ks| - 1], now, before, ls);
    }
  }

  /**
   * Without persistence, `resetState` and `reset(key)` reload the current
   * record itself: the state stays as it was, so nobody is notified.
   */
  lemma ResetWithoutPersistence(s: Record, o: StateOptions, stored: Option<Record>, k: string, ls: map<string, seq<ListenerId>>)
    requires WellFormed(s) && !Persisting(o)
    ensures LoadState(s, o, stored) == s
    ensures Assign(s, k, Lookup(LoadState(s, o, stored), k)) == s || k !in s.values
    ensures Notifications(s.keys, LoadState(s, o, stored), s, ls) == []
  {
    NoChangeNoCalls(s.keys, s, s, ls);
    if k in s.values {
      assert s.values[k := s.values[k]] == s.values;
    }
  }

  class Store {
    var state: Record
    var listeners: map<string, seq<ListenerId>>
    const options: StateOptions

    /** Each key's listeners form a set: none appears twice. */
    predicate Valid()
      reads this
    {
      WellFormed(state) &&
      forall k :: k in listeners ==> forall i, j :: 0 <= i < j < |listeners[k]| ==> listeners[k][i] != listeners[k][j]
    }

    /** The private constructor: the options, then the loaded initial record. */
    constructor (initial: Record, o: StateOptions, stored: Option<Record>)
      requires WellFormed(initial) && (stored.Some? ==> WellFormed(stored.value))
      ensures Valid() && state == LoadState(initial, o, stored) && listeners == map[] && options == o
    {
      options := o;
      state := LoadState(initial, o, stored);
      listeners := map[];
    }

    /** `getState`: a shallow copy, equal to the state. */
    method GetState() returns (r: Record)
      ensures r == state
    {
      r := state;
    }

    method Get(k: string) returns (v: Value)
      ensures v == Lookup(state, k)
    {
      v := Lookup(state, k);
    }

    /** `saveState`: what is written to `localStorage`, if anything. */
    method SaveState() returns (written: Option<Record>)
      ensures written == if Persisting(options) then Some(state) else None
    {
      written := if Persisting(options) then Some(state) else None;
    }

    /** The notification loop: for each key of the current record whose value changed, each of its listeners. */
    method NotifyListeners(before: Record) returns (calls: seq<Call>)
      ensures calls == Notifications(state.keys, state, before, listeners)
    {
      calls := [];
      var ks := state.keys;
      for i := 0 to |ks|
        invariant calls == Notifications(ks[..i], state, before, listeners)
      {
        var k := ks[i];
        var newValue, oldValue := Lookup(state, k), Lookup(before, k);
        assert ks[..i + 1][..i] == ks[..i];
        ghost var expected := KeyCalls(k, state, before, listeners);
        ghost var prefix := calls;
        if newValue != oldValue && k in listeners {
          var ls := listeners[k];
          for j := 0 to |ls|
            invariant calls == prefix + expected[..j]
          {
            calls := calls + [Call(ls[j], k, newValue, oldValue)];
            assert expected[..j + 1] == expected[..j] + [expected[j]];
          }
          assert expected[..|ls|] == expected;
        } else {
          assert expected == [];
        }
        assert calls == prefix + expected;
        assert Notifications(ks[..i + 1], state, before, listeners) == prefix + expected;
      }
      assert ks[..|ks|] == ks;
    }

    /** `setState`: the shallow merge, then notification and saving. */
    method SetState(partial: Record) returns (calls: seq<Call>, written: Option<Record>)
      requires Valid() && WellFormed(partial)
      modifies this`state
      ensures Valid()
      ensures state == Merge(old(state), partial)
      ensures calls == Notifications(state.keys, state, old(state), listeners)
      ensures written == if Persisting(options) then Some(state) else None
    {
      var before := state;
      state := Merge(state, partial);
      calls := NotifyListeners(before);
      written := SaveState();
    }

    /** `set(key, value)`. */
    method Set(k: string, v: Value) returns (calls: seq<Call>, written: Option<Record>)
      requires Valid()
      modifies this`state
      ensures Valid()
      ensures state == Assign(old(state), k, v)
      ensures calls == Notifications(state.keys, state, old(state), listeners)
      ensures written == if Persisting(options) then Some(state) else None
    {
      var before := state;
      state := Assign(state, k, v);
      calls := NotifyListeners(before);
      written := SaveState();
    }

    /** `transform(key, f)`: the key takes `f` of its current value. */
    method Transform(k: string, f: Value -> Value) returns (calls: seq<Call>, written: Option<Record>)
      requires Valid()
      modifies this`state
      ensures Valid()
      ensures state == Assign(old(state), k, f(Lookup(old(state), k)))
      ensures calls == Notifications(state.keys, state, old(state), listeners)
      ensures written == if Persisting(options) then Some(state) else None
    {
      var before := state;
      state := Assign(state, k, f(Lookup(state, k)));
      calls := NotifyListeners(before);
      written := SaveState();
    }

    /** `resetState`: the state is reloaded from itself, or from storage when persisting. */
    method ResetState(stored: Option<Record>) returns (calls: seq<Call>, written: Option<Record>)
      requires Valid() && (stored.Some? ==> WellFormed(stored.value))
      modifies this`state
      ensures Valid()
      ensures state == LoadState(old(state), options, stored)
      ensures calls == Notifications(state.keys, state, old(state), listeners)
      ensures written == if Persisting(options) then Some(state) else None
    {
      var before := state;
      state := LoadState(state, options, stored);
      calls := NotifyListeners(before);
      written := SaveState();
    }

    /** `reset(key)`: the key takes its value in the reloaded record. */
    method Reset(k: string, stored: Option<Record>) returns (calls: seq<Call>, written: Option<Record>)
      requires Valid()
      modifies this`state
      ensures Valid()
      ensures state == Assign(old(state), k, Lookup(LoadState(old(state), options, stored), k))
      ensures calls == Notifications(state.keys, state, old(state), listeners)
      ensures written == if Persisting(options) then Some(state) else None
    {
      var before := state;
      state := Assign(state, k, Lookup(LoadState(state, options, stored), k));
      calls := NotifyListeners(before);
      written := SaveState();
    }

    /** `subscribe`: adds the listener to the key's set; adding it again changes nothing. */
    method Subscribe(k: string, l: ListenerId)
      requires Valid()
      modifies this`listeners
      ensures Valid()
      ensures k in listeners && l in listeners[k]
      ensures old(k in listeners && l in listeners[k]) ==> listeners == old(listeners)
      ensures !old(k in listeners && l in listeners[k]) ==>
        listeners == old(listeners)[k := (if k in old(listeners) then old(listeners)[k] else []) + [l]]
    {
      var ls := if k in listeners then listeners[k] else [];
      if l !in ls {
        listeners := listeners[k := ls + [l]];
      }
    }

    /** The function `subscribe` returns: deletes the listener from the key's set, if the key has one. */
    method Unsubscribe(k: string, l: ListenerId)
      requires Valid()
      modifies this`listeners
      ensures Valid()
      ensures k in listeners <==> k in old(listeners)
      ensures k in listeners ==> l !in listeners[k]
      ensures k in listeners ==> forall x :: x in listeners[k] <==> x in old(listeners)[k] && x != l
      ensures k in listeners ==> listeners[k] == Filter(old(listeners)[k], Other(l))
      ensures forall j :: j != k && j in listeners ==> j in old(listeners) && listeners[j] == old(listeners)[j]
      ensures forall j :: j in old(listeners) ==> j in listeners
    {
      if k in listeners {
        var ls := listeners[k];
        var kept := RemoveListener(ls, l);
        listeners := listeners[k := kept];
      }
    }
  }

  /** Any listener other than `l`. */
  function Other(l: ListenerId): ListenerId -> bool {
    x => x != l
  }

  /**
   * `Set.delete` on a set kept as a duplicate-free list in insertion order:
   * the other listeners stay, in the order they were added.
   */
  function RemoveListener(ls: seq<ListenerId>, l: ListenerId): (r: seq<ListenerId>)
    requires forall i, j :: 0 <= i < j < |ls| ==> ls[i] != ls[j]
    ensures r == Filter(ls, Other(l))
    ensures forall x :: x in r <==> x in ls && x != l
    ensures forall i, j :: 0 <= i < j < |r| ==> r[i] != r[j]
  {
    FilterDistinct(ls, Other(l));
    if ls == [] then []
    else if ls[0] == l then
      assert forall i :: 0 <= i < |ls[1..]| ==> Other(l)(ls[1..][i]) by {
        forall i | 0 <= i < |ls[1..]| ensures ls[1..][i] != l {
          assert ls[1..][i] == ls[i + 1];
        }
      }
      FilterAll(ls[1..], Other(l));
      ls[1..]
    else
      [ls[0]] + RemoveListener(ls[1..], l)
  }

  /** The module-level singleton slot of `getInstance`. */
  class Instance {
    var instance: Store?

    constructor ()
      ensures instance == null
    {
      instance := null;
    }

    /** `getInstance`: the first call creates the store; later calls return it and ignore their arguments. */
    method GetInstance(initial: Record, o: StateOptions, stored: Option<Record>) returns (s: Store)
      requires WellFormed(initial) && (stored.Some? ==> WellFormed(stored.value))
      modifies this`instance
      ensures instance == s
      ensures old(instance) != null ==> s == old(instance)
      ensures old(instance) == null ==> fresh(s) && s.Valid() && s.state == LoadState(initial, o, stored) && s.options == o
    {
      if instance == null {
        instance := new Store(initial, o, stored);
      }
      s := instance;
    }
  }
}
