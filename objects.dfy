/**
 * A JavaScript plain object as the state container holds it: an ordered list
 * of entries (the order `Object.entries` reports) in which no key appears
 * twice. Assigning to an existing key overwrites it in place; assigning to a
 * new key appends it.
 */
module Objects {
  import opened Types

  type Entries = seq<(string, Value)>

  predicate UniqueKeys(e: Entries) {
    forall i, j :: 0 <= i < j < |e| ==> e[i].0 != e[j].0
  }

  /** A plain object: entries with pairwise distinct keys. */
  type Object = e: Entries | UniqueKeys(e) witness []

  function Keys(e: Entries): set<string> {
    set i | 0 <= i < |e| :: e[i].0
  }

  /** `obj[k]`: the value stored under `k`, or `None` for `undefined`. */
  function Lookup(e: Entries, k: string): Option<Value> {
    if e == [] then None
    else if e[0].0 == k then Some(e[0].1)
    else Lookup(e[1..], k)
  }

  lemma KeysCons(e: Entries)
    requires e != []
    ensures Keys(e) == {e[0].0} + Keys(e[1..])
  {
    forall x | x in Keys(e) ensures x in {e[0].0} + Keys(e[1..]) {
      var i :| 0 <= i < |e| && e[i].0 == x;
      if i > 0 { assert e[1..][i - 1].0 == x; }
    }
    forall x | x in Keys(e[1..]) ensures x in Keys(e) {
      var i :| 0 <= i < |e[1..]| && e[1..][i].0 == x;
      assert e[i + 1].0 == x;
    }
  }

  lemma KeysSnoc(e: Entries, x: (string, Value))
    ensures Keys(e + [x]) == Keys(e) + {x.0}
  {
    var r := e + [x];
    forall y | y in Keys(r) ensures y in Keys(e) + {x.0} {
      var i :| 0 <= i < |r| && r[i].0 == y;
      if i < |e| { assert r[i] == e[i]; }
    }
    forall y | y in Keys(e) ensures y in Keys(r) {
      var i :| 0 <= i < |e| && e[i].0 == y;
      assert r[i] == e[i];
    }
    assert r[|e|] == x;
  }

  /** The tail of an object is an object that lacks the head's key. */
  lemma TailOfObject(e: Object)
    requires e != []
    ensures UniqueKeys(e[1..])
    ensures e[0].0 !in Keys(e[1..])
  {
    forall x | x in Keys(e[1..]) ensures x != e[0].0 {
      var i :| 0 <= i < |e[1..]| && e[1..][i].0 == x;
      assert e[i + 1].0 == x;
    }
  }

  /** Putting an entry in front of an object that lacks its key gives an object. */
  lemma ConsObject(x: (string, Value), e: Object)
    requires x.0 !in Keys(e)
    ensures UniqueKeys([x] + e)
    ensures Keys([x] + e) == {x.0} + Keys(e)
  {
    var r := [x] + e;
    forall i, j | 0 <= i < j < |r| ensures r[i].0 != r[j].0 {
      if i == 0 {
        assert r[j].0 == e[j - 1].0;
        assert e[j - 1].0 in Keys(e);
      } else {
        assert r[i] == e[i - 1] && r[j] == e[j - 1];
      }
    }
    assert r[1..] == e;
    KeysCons(r);
  }

  /** `Lookup` finds exactly the keys of the list. */
  lemma {:induction false} LookupDefined(e: Entries, k: string)
    ensures Lookup(e, k).Some? <==> k in Keys(e)
  {
    if e != [] {
      KeysCons(e);
      LookupDefined(e[1..], k);
    }
  }

  /** In an object, the value found under the key of entry `i` is that entry's value. */
  lemma {:induction false} LookupAt(e: Object, i: nat)
    requires i < |e|
    ensures Lookup(e, e[i].0) == Some(e[i].1)
  {
    if i > 0 {
      TailOfObject(e);
      assert e[1..][i - 1] == e[i];
      LookupAt(e[1..], i - 1);
    }
  }

  /**
   * `obj[k] = v` on a plain object (the proxy's `target[key] = value`): the
   * key then holds `v`, every other key keeps its value, an existing key keeps
   * its position and a new key is appended at the end.
   */
  function Put(e: Object, k: string, v: Value): (r: Object)
    ensures Keys(r) == Keys(e) + {k}
    ensures Lookup(r, k) == Some(v)
    ensures forall j :: j != k ==> Lookup(r, j) == Lookup(e, j)
    ensures k !in Keys(e) ==> r == e + [(k, v)]
    ensures k in Keys(e) ==> |r| == |e| && forall i :: 0 <= i < |e| ==> r[i].0 == e[i].0
  {
    if e == [] then
      KeysSnoc(e, (k, v));
      [(k, v)]
    else
      TailOfObject(e);
      KeysCons(e);
      var tail: Object := e[1..];
      if e[0].0 == k then
        ConsObject((k, v), tail);
        [(k, v)] + tail
      else
        var rest := Put(tail, k, v);
        ConsObject(e[0], rest);
        assert [e[0]] + tail == e;
        [e[0]] + rest
  }

  /**
   * Writing the entries of `es` into `s` one after another, in `es`'s order
   * (a loop of `obj[key] = value` over `Object.entries(es)`). No entry of `s`
   * is dropped.
   */
  function Assign(s: Object, es: Object): (r: Object)
    ensures |s| <= |r|
    ensures Keys(s) <= Keys(r)
    decreases |es|
  {
    if es == [] then s
    else
      TailOfObject(es);
      Assign(Put(s, es[0].0, es[0].1), es[1..])
  }

  /** `Lookup` on an object finds exactly its keys, each with its entry's value. */
  lemma LookupMatches(e: Object, k: string)
    ensures Lookup(e, k).Some? <==> k in Keys(e)
    ensures forall i :: 0 <= i < |e| && e[i].0 == k ==> Lookup(e, k) == Some(e[i].1)
  {
    LookupDefined(e, k);
    forall i | 0 <= i < |e| && e[i].0 == k ensures Lookup(e, k) == Some(e[i].1) {
      LookupAt(e, i);
    }
  }

  /** The keys after `Assign(s, es)` are those of both objects. */
  lemma {:induction false} AssignKeys(s: Object, es: Object)
    ensures Keys(Assign(s, es)) == Keys(s) + Keys(es)
    decreases |es|
  {
    if es != [] {
      TailOfObject(es);
      KeysCons(es);
      AssignKeys(Put(s, es[0].0, es[0].1), es[1..]);
    }
  }

  /** After `Assign(s, es)` the keys `s` already had keep their positions. */
  lemma {:induction false} AssignKeepsOrder(s: Object, es: Object)
    ensures forall i :: 0 <= i < |s| ==> Assign(s, es)[i].0 == s[i].0
    decreases |es|
  {
    if es != [] {
      TailOfObject(es);
      var next := Put(s, es[0].0, es[0].1);
      AssignKeepsOrder(next, es[1..]);
      forall i | 0 <= i < |s| ensures next[i].0 == s[i].0 {
        if es[0].0 !in Keys(s) {
          assert next == s + [(es[0].0, es[0].1)];
        }
      }
    }
  }

  /**
   * After `Assign(s, es)` a key holds its value in `es` if `es` has it, and
   * its value in `s` otherwise.
   */
  lemma {:induction false} AssignLookup(s: Object, es: Object, k: string)
    ensures Lookup(Assign(s, es), k) == if k in Keys(es) then Lookup(es, k) else Lookup(s, k)
    decreases |es|
  {
    if es != [] {
      TailOfObject(es);
      KeysCons(es);
      AssignLookup(Put(s, es[0].0, es[0].1), es[1..], k);
    }
  }
}
