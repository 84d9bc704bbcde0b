/** Dated directory names.

    Snapshots, update runs and staged wheels all live in directories named by a UTC
    timestamp, and every policy of the update cycle orders them by NAME. A `Stamp` is the
    rank of such a name in string order: only that order matters, never the clock. */
module Stamps {
  type Stamp = nat

  ghost predicate Descending(q: seq<Stamp>) {
    forall i, j :: 0 <= i < j < |q| ==> q[i] > q[j]
  }

  /** The set of the elements of a sequence. */
  function Elements<T>(q: seq<T>): (s: set<T>) {
    set x | x in q
  }

  /** The elements of `s` more recent than `than`. */
  function Newer(s: set<Stamp>, than: Stamp): set<Stamp> {
    set d | d in s && d > than
  }

  lemma NewestExists(s: set<Stamp>)
    requires s != {}
    ensures exists m :: m in s && forall x :: x in s ==> x <= m
  {
    var m :| m in s;
    if s == {m} {
      assert forall x :: x in s ==> x <= m;
    } else {
      NewestExists(s - {m});
      var n :| n in s - {m} && forall x :: x in s - {m} ==> x <= n;
      var top := if m <= n then n else m;
      assert top in s && forall x :: x in s ==> x <= top by {
        assert forall x :: x in s ==> x == m || x in s - {m};
      }
    }
  }

  function Newest(s: set<Stamp>): (m: Stamp)
    requires s != {}
    ensures m in s && forall x :: x in s ==> x <= m
  {
    NewestExists(s);
    var m :| m in s && forall x :: x in s ==> x <= m;
    m
  }

  /** `sorted(names, reverse=True)`: what every scan of a dated directory starts from. */
  function NewestFirst(s: set<Stamp>): (q: seq<Stamp>)
    ensures Descending(q)
    ensures forall x :: x in q <==> x in s
    ensures |q| == |s|
  {
    if s == {} then [] else
    var m := Newest(s);
    [m] + NewestFirst(s - {m})
  }

  /** In a newest-first list, the element at index `i` is preceded by exactly `i` newer ones. */
  lemma RankIsIndex(q: seq<Stamp>, i: nat)
    requires Descending(q) && i < |q|
    ensures |set x | x in q && x > q[i]| == i
  {
    DistinctCount(q[..i]);
    assert (set x | x in q && x > q[i]) == Elements(q[..i]) by {
      forall x | x in q && x > q[i] ensures x in q[..i] {
        var k :| 0 <= k < |q| && q[k] == x;
        assert k < i;
        assert q[..i][k] == x;
      }
    }
  }

  lemma {:induction false} DistinctCount(q: seq<Stamp>)
    requires Descending(q)
    ensures |Elements(q)| == |q|
  {
    if q == [] {
      assert Elements(q) == {};
    } else {
      DistinctCount(q[1..]);
      assert Elements(q) == {q[0]} + Elements(q[1..]) by {
        assert q == [q[0]] + q[1..];
      }
      assert q[0] !in q[1..];
    }
  }

  lemma SubsetSize<T>(a: set<T>, b: set<T>)
    requires a <= b
    ensures |a| <= |b|
  {
    assert b == a + (b - a);
  }
}
