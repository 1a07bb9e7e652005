/** Picking elements out of a sequence, in order: what a filtering loop does, said once and for all by
    the indices that it picks. */
module Selection {

  /** `idx` lists, in increasing order, exactly those indices below n that are wanted. */
  ghost predicate Lists(idx: seq<nat>, n: nat, wanted: nat -> bool) {
    && (forall a, b | 0 <= a < b < |idx| :: idx[a] < idx[b])
    && (forall a | 0 <= a < |idx| :: idx[a] < n)
    && (forall i: nat | i < n :: i in idx <==> wanted(i))
  }

  /** The indices below n that are wanted. */
  ghost function Wanted(n: nat, wanted: nat -> bool): set<nat> {
    set i: nat | i < n && wanted(i)
  }

  lemma ListsOneMore(idx: seq<nat>, n: nat, wanted: nat -> bool)
    requires Lists(idx, n, wanted)
    ensures Lists(idx + if wanted(n) then [n] else [], n + 1, wanted)
  {
    var more := idx + if wanted(n) then [n] else [];
    forall i: nat | i < n + 1 ensures i in more <==> wanted(i) {
      if i == n { assert n !in idx; }
    }
  }

  lemma WantedOneMore(n: nat, wanted: nat -> bool)
    ensures Wanted(n + 1, wanted) == Wanted(n, wanted) + if wanted(n) then {n} else {}
    ensures |Wanted(n + 1, wanted)| == |Wanted(n, wanted)| + if wanted(n) then 1 else 0
  {
    assert Wanted(n + 1, wanted) == Wanted(n, wanted) + if wanted(n) then {n} else {};
    assert n !in Wanted(n, wanted);
  }

  /** There are as many as are listed. */
  lemma {:induction false} ListsAll(idx: seq<nat>, n: nat, wanted: nat -> bool)
    requires Lists(idx, n, wanted)
    ensures |idx| == |Wanted(n, wanted)|
  {
    if n == 0 {
      assert idx == [];
    } else {
      var m := n - 1;
      WantedOneMore(m, wanted);
      if wanted(m) {
        LastListed(idx, m, wanted);
        ListsAll(idx[..|idx| - 1], m, wanted);
      } else {
        assert m !in idx;
        forall a | 0 <= a < |idx| ensures idx[a] < m {
          assert idx[a] in idx && idx[a] != m;
        }
        ListsAll(idx, m, wanted);
      }
    }
  }

  lemma LastListed(idx: seq<nat>, m: nat, wanted: nat -> bool)
    requires Lists(idx, m + 1, wanted) && wanted(m)
    ensures idx != [] && idx[|idx| - 1] == m && Lists(idx[..|idx| - 1], m, wanted)
  {
    assert m in idx;
    var a :| 0 <= a < |idx| && idx[a] == m;
    var k := |idx| - 1;
    assert forall x | 0 <= x < |idx| :: idx[x] <= idx[k];
    assert idx[k] == m;
    forall i: nat | i < m ensures i in idx[..k] <==> wanted(i) {
      if i in idx {
        var b :| 0 <= b < |idx| && idx[b] == i;
        assert b < k && idx[..k][b] == i;
      }
    }
  }
}
