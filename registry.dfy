/**
 * The presence registries `onlineVisitors` and `onlineAgents`: plain
 * JavaScript objects keyed by socket id. Such an object keeps its (non-numeric)
 * keys in insertion order, assigning to an existing key keeps its place, and
 * `delete` of an absent key does nothing. `Object.values` and `Object.keys(..).find`
 * observe that order, so the registry is a sequence of slots, not a map.
 */
module Registry {
  import opened Wrappers
  import opened Lists

  datatype Slot<V> = Slot(key: string, value: V)

  /** No socket id appears twice. */
  ghost predicate KeysDistinct<V>(r: seq<Slot<V>>) {
    forall i, j :: 0 <= i < j < |r| ==> r[i].key != r[j].key
  }

  /** Position of `k`, if present. */
  function IndexOf<V>(r: seq<Slot<V>>, k: string): (o: Option<nat>)
    ensures o.Some? ==> o.value < |r| && r[o.value].key == k
    ensures o.Some? ==> forall j :: 0 <= j < o.value ==> r[j].key != k
    ensures o.None? ==> forall j :: 0 <= j < |r| ==> r[j].key != k
  {
    if r == [] then None
    else if r[0].key == k then Some(0)
    else match IndexOf(r[1..], k)
      case None => None
      case Some(i) => Some(i + 1)
  }

  /** `obj[k]`, `undefined` being `None`. */
  function Lookup<V>(r: seq<Slot<V>>, k: string): Option<V> {
    match IndexOf(r, k)
    case None => None
    case Some(i) => Some(r[i].value)
  }

  /**
   * `obj[k] = v`: an existing key keeps its place, a new key goes last.
   * The registry grows by one slot exactly when `k` was absent, `k`'s slot
   * holds `v`, and every other slot stays where it was.
   */
  function Put<V>(r: seq<Slot<V>>, k: string, v: V): (r': seq<Slot<V>>)
    ensures |r'| == (if IndexOf(r, k).Some? then |r| else |r| + 1)
    ensures r'[if IndexOf(r, k).Some? then IndexOf(r, k).value else |r|] == Slot(k, v)
    ensures forall j :: 0 <= j < |r| && r[j].key != k ==> r'[j] == r[j]
    ensures forall j :: 0 <= j < |r| && (IndexOf(r, k).None? || j != IndexOf(r, k).value) ==> r'[j] == r[j]
  {
    match IndexOf(r, k)
    case None => r + [Slot(k, v)]
    case Some(i) => r[i := Slot(k, v)]
  }

  /** `delete obj[k]`: every slot with key `k` goes, the rest keep their order. */
  function Delete<V>(r: seq<Slot<V>>, k: string): (r': seq<Slot<V>>)
    ensures |r'| <= |r|
    ensures forall j :: 0 <= j < |r'| ==> r'[j].key != k
  {
    if r == [] then []
    else if r[0].key == k then Delete(r[1..], k)
    else [r[0]] + Delete(r[1..], k)
  }

  /** The keys that `r` holds. */
  function KeySet<V>(r: seq<Slot<V>>): set<string> {
    set i | 0 <= i < |r| :: r[i].key
  }

  lemma PutKeepsDistinct<V>(r: seq<Slot<V>>, k: string, v: V)
    requires KeysDistinct(r)
    ensures KeysDistinct(Put(r, k, v))
  {
  }

  /** After `obj[k] = v`, `obj[k]` is `v` and every other key reads as before. */
  lemma PutLookup<V>(r: seq<Slot<V>>, k: string, v: V, k': string)
    requires KeysDistinct(r)
    ensures Lookup(Put(r, k, v), k) == Some(v)
    ensures k' != k ==> Lookup(Put(r, k, v), k') == Lookup(r, k')
  {
    var r' := Put(r, k, v);
    PutKeepsDistinct(r, k, v);
    var at := if IndexOf(r, k).Some? then IndexOf(r, k).value else |r|;
    assert r'[at] == Slot(k, v);
    assert IndexOf(r', k) == Some(at) by {
      var o := IndexOf(r', k);
      assert o.Some? && r'[o.value].key == k;
    }
    if k' != k {
      match IndexOf(r, k')
      case None =>
        assert forall j :: 0 <= j < |r'| ==> r'[j].key != k';
      case Some(i) =>
        assert r'[i].key == k' && r'[i] == r[i];
    }
  }

  lemma PutKeySet<V>(r: seq<Slot<V>>, k: string, v: V)
    ensures KeySet(Put(r, k, v)) == KeySet(r) + {k}
  {
    var r' := Put(r, k, v);
    match IndexOf(r, k)
    case None =>
      assert r'[|r|].key == k;
      assert forall i :: 0 <= i < |r| ==> r'[i] == r[i];
    case Some(i) =>
      assert r'[i].key == k;
      assert forall j :: 0 <= j < |r| && j != i ==> r'[j] == r[j];
  }

  /** Deleting keeps exactly the slots whose key differs, in their order. */
  lemma {:induction false} DeleteKeepsOthers<V>(r: seq<Slot<V>>, k: string)
    ensures forall s :: s in Delete(r, k) ==> s in r && s.key != k
    ensures forall s :: s in r && s.key != k ==> s in Delete(r, k)
    ensures Subseq(Delete(r, k), r)
  {
    if r != [] {
      DeleteKeepsOthers(r[1..], k);
      assert r == [r[0]] + r[1..];
      if r[0].key != k {
        assert ([r[0]] + Delete(r[1..], k))[1..] == Delete(r[1..], k);
      }
    }
  }

  lemma DeleteKeySet<V>(r: seq<Slot<V>>, k: string)
    ensures KeySet(Delete(r, k)) == KeySet(r) - {k}
  {
    DeleteKeepsOthers(r, k);
    var d := Delete(r, k);
    forall x | x in KeySet(r) - {k} ensures x in KeySet(d) {
      var i :| 0 <= i < |r| && r[i].key == x;
      assert r[i] in d;
      var j :| 0 <= j < |d| && d[j] == r[i];
    }
    forall x | x in KeySet(d) ensures x in KeySet(r) - {k} {
      var j :| 0 <= j < |d| && d[j].key == x;
      assert d[j] in r;
    }
  }

  /** `delete` of an absent key leaves the object as it was. */
  lemma {:induction false} DeleteAbsent<V>(r: seq<Slot<V>>, k: string)
    requires IndexOf(r, k).None?
    ensures Delete(r, k) == r
  {
    if r != [] {
      DeleteAbsent(r[1..], k);
    }
  }

  /** Deleting twice is deleting once. */
  lemma DeleteIdempotent<V>(r: seq<Slot<V>>, k: string)
    ensures Delete(Delete(r, k), k) == Delete(r, k)
  {
    DeleteAbsent(Delete(r, k), k);
  }

  /** Deleting one key leaves every other key's value as it was. */
  lemma {:induction false} DeleteLookup<V>(r: seq<Slot<V>>, k: string, k': string)
    requires KeysDistinct(r)
    ensures Lookup(Delete(r, k), k) == None
    ensures k' != k ==> Lookup(Delete(r, k), k') == Lookup(r, k')
  {
    if r != [] {
      DeleteLookup(r[1..], k, k');
    }
  }

  lemma {:induction false} DeleteKeepsDistinct<V>(r: seq<Slot<V>>, k: string)
    requires KeysDistinct(r)
    ensures KeysDistinct(Delete(r, k))
  {
    if r != [] {
      DeleteKeepsDistinct(r[1..], k);
      if r[0].key != k {
        DeleteKeepsOthers(r[1..], k);
        var d := Delete(r[1..], k);
        forall j | 0 <= j < |d| ensures d[j].key != r[0].key {
          var s := d[j];
          assert s in Delete(r[1..], k);
          assert s in r[1..];
          var m :| 0 <= m < |r[1..]| && r[1..][m] == s;
          assert r[m + 1] == s;
        }
      }
    }
  }
}
