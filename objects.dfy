/** A JavaScript plain object keyed by strings, as the services use it for card
    declarations, per-round points and score totals: its entries in enumeration
    (insertion) order. Assigning `o[k] = v` replaces an existing entry in place and
    appends a new key at the end. */
module Objects {
  import opened Common

  type Obj<V> = seq<(string, V)>

  /** A JavaScript object never holds the same key twice. */
  ghost predicate UniqueKeys<V>(o: Obj<V>) {
    forall i, j :: 0 <= i < j < |o| ==> o[i].0 != o[j].0
  }

  ghost predicate HasKey<V>(o: Obj<V>, k: string) {
    exists i :: 0 <= i < |o| && o[i].0 == k
  }

  /** `o[k]`: the value stored under `k`, or undefined. */
  function Get<V>(o: Obj<V>, k: string): (r: Option<V>)
    ensures r.None? <==> !HasKey(o, k)
  {
    if o == [] then None
    else if o[0].0 == k then Some(o[0].1)
    else
      var r := Get(o[1..], k);
      assert forall i :: 1 <= i < |o| ==> o[1..][i - 1] == o[i];
      r
  }

  /** `o[k] = v`. */
  function Set<V>(o: Obj<V>, k: string, v: V): (r: Obj<V>)
    ensures |r| == if HasKey(o, k) then |o| else |o| + 1
    ensures forall i :: 0 <= i < |o| ==> r[i].0 == o[i].0
    ensures !HasKey(o, k) ==> r == o + [(k, v)]
    ensures Get(r, k) == Some(v)
    ensures forall j :: j != k ==> Get(r, j) == Get(o, j)
  {
    if o == [] then [(k, v)]
    else
      var r := if o[0].0 == k then [(k, v)] + o[1..] else [o[0]] + Set(o[1..], k, v);
      assert o == [o[0]] + o[1..];
      assert forall j :: Get(r, j) == (if r[0].0 == j then Some(r[0].1) else Get(r[1..], j)) by {
        forall j ensures Get(r, j) == (if r[0].0 == j then Some(r[0].1) else Get(r[1..], j)) {
          GetCons(r[0], r[1..], j);
        }
      }
      assert forall j :: Get(o, j) == (if o[0].0 == j then Some(o[0].1) else Get(o[1..], j)) by {
        forall j ensures Get(o, j) == (if o[0].0 == j then Some(o[0].1) else Get(o[1..], j)) {
          GetCons(o[0], o[1..], j);
        }
      }
      HasKeyTail(o, k);
      r
  }

  /** Reading a key of an object whose first entry is `e`. */
  lemma GetCons<V>(e: (string, V), t: Obj<V>, j: string)
    ensures Get([e] + t, j) == if e.0 == j then Some(e.1) else Get(t, j)
  {
    assert ([e] + t)[1..] == t;
  }

  /** Assigning a key keeps the keys of an object distinct. */
  lemma SetKeepsUnique<V>(o: Obj<V>, k: string, v: V)
    requires UniqueKeys(o)
    ensures UniqueKeys(Set(o, k, v))
  {
    var r := Set(o, k, v);
    if !HasKey(o, k) {
      forall i, j | 0 <= i < j < |r| ensures r[i].0 != r[j].0 {
        if j == |o| {
          assert r[j].0 == k && r[i].0 == o[i].0;
        }
      }
    }
  }

  /** A value `Get` reads is stored at some position under that key. */
  lemma {:induction false} GetFound<V>(o: Obj<V>, k: string)
    requires Get(o, k).Some?
    ensures exists i :: 0 <= i < |o| && o[i] == (k, Get(o, k).value)
  {
    if o[0].0 != k {
      GetFound(o[1..], k);
      var i :| 0 <= i < |o[1..]| && o[1..][i] == (k, Get(o, k).value);
      assert o[i + 1] == o[1..][i];
    }
  }

  /** In an object with distinct keys, the entry at a key's position is what `Get` reads. */
  lemma {:induction false} GetAt<V>(o: Obj<V>, i: nat)
    requires UniqueKeys(o) && i < |o|
    ensures Get(o, o[i].0) == Some(o[i].1)
  {
    if i > 0 {
      assert o[1..][i - 1] == o[i];
      GetAt(o[1..], i - 1);
    }
  }

  lemma HasKeyTail<V>(o: Obj<V>, k: string)
    requires o != []
    ensures o[0].0 != k ==> (HasKey(o, k) <==> HasKey(o[1..], k))
  {
    if o[0].0 != k && HasKey(o, k) {
      var i :| 0 <= i < |o| && o[i].0 == k;
      assert o[1..][i - 1].0 == k;
    }
    if HasKey(o[1..], k) {
      var i :| 0 <= i < |o[1..]| && o[1..][i].0 == k;
      assert o[i + 1].0 == k;
    }
  }
}
