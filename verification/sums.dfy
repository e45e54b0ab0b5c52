/** Sums over the values of a finite map, and insertion of numbered rows. */
module Sums {

  ghost function Pick<T>(s: set<T>): (x: T)
    requires s != {}
    ensures x in s
  {
    var x :| x in s; x
  }

  ghost function Sum(w: map<int, int>): int
    decreases |w|
  {
    if w == map[] then 0 else var k := Pick(w.Keys); w[k] + Sum(w - {k})
  }

  lemma {:induction false} SumTakeOut(w: map<int, int>, k: int)
    requires k in w
    ensures Sum(w) == w[k] + Sum(w - {k})
    decreases |w|
  {
    var j := Pick(w.Keys);
    if j != k {
      SumTakeOut(w - {j}, k);
      SumTakeOut(w - {k}, j);
      assert w - {j} - {k} == w - {k} - {j};
    }
  }

  lemma SumAdd(w: map<int, int>, k: int, v: int)
    requires k !in w
    ensures Sum(w[k := v]) == Sum(w) + v
  {
    SumTakeOut(w[k := v], k);
    assert w[k := v] - {k} == w;
  }

  lemma {:induction false} SumConstant(w: map<int, int>, c: int)
    requires forall k :: k in w ==> w[k] == c
    ensures Sum(w) == c * |w|
    decreases |w|
  {
    if w != map[] {
      var k := Pick(w.Keys);
      SumTakeOut(w, k);
      SumConstant(w - {k}, c);
      assert (w - {k}).Keys == w.Keys - {k};
      OneMore(c, |w - {k}|);
    }
  }

  lemma OneMore(c: int, n: int)
    ensures c * n + c == c * (n + 1)
  {
  }

  // Inserting rows[i] under ids[i], one after the other.
  function Insert<T>(m: map<int, T>, ids: seq<int>, rows: seq<T>): map<int, T>
    requires |ids| == |rows|
  {
    if ids == [] then m
    else Insert(m, ids[..|ids| - 1], rows[..|rows| - 1])[ids[|ids| - 1] := rows[|rows| - 1]]
  }

  ghost predicate Fresh<T>(m: map<int, T>, ids: seq<int>) {
    && (forall i :: 0 <= i < |ids| ==> ids[i] !in m && 0 < ids[i])
    && (forall i, j :: 0 <= i < j < |ids| ==> ids[i] != ids[j])
  }

  lemma {:induction false} InsertFacts<T>(m: map<int, T>, ids: seq<int>, rows: seq<T>)
    requires |ids| == |rows| && Fresh(m, ids)
    ensures var r := Insert(m, ids, rows);
            && (forall k :: k in r <==> k in m || k in ids)
            && (forall k :: k in m ==> r[k] == m[k])
            && (forall i :: 0 <= i < |ids| ==> ids[i] in r && r[ids[i]] == rows[i])
    decreases |ids|
  {
    if ids != [] {
      var n := |ids| - 1;
      InsertFacts(m, ids[..n], rows[..n]);
      assert ids == ids[..n] + [ids[n]];
    }
  }

  ghost function UpperBound(keys: set<int>): (b: int)
    ensures forall k :: k in keys ==> k <= b
  {
    if keys == {} then 0
    else
      var k := Pick(keys);
      var b := UpperBound(keys - {k});
      assert forall x :: x in keys ==> x == k || x in keys - {k};
      if b < k then k else b
  }

  // A number that is not in use.
  ghost function FreshId<T>(m: map<int, T>): (id: int)
    ensures id !in m
  {
    UpperBound(m.Keys) + 1
  }

  lemma InsertSnoc<T>(m: map<int, T>, ids: seq<int>, rows: seq<T>, id: int, row: T)
    requires |ids| == |rows|
    ensures Insert(m, ids + [id], rows + [row]) == Insert(m, ids, rows)[id := row]
  {
    assert (ids + [id])[..|ids|] == ids && (rows + [row])[..|rows|] == rows;
  }
}
