/** Facts about sequences without repetition, and order-preserving deletion. */
module Sequences {
  ghost predicate NoDup<T>(q: seq<T>) {
    forall i, j | 0 <= i < j < |q| :: q[i] != q[j]
  }

  /** The elements of q that are not in d, in their original order. */
  ghost function Minus<T>(q: seq<T>, d: set<T>): (r: seq<T>)
  {
    if q == [] then []
    else if q[0] in d then Minus(q[1..], d)
    else [q[0]] + Minus(q[1..], d)
  }

  lemma {:induction false} MinusElements<T>(q: seq<T>, d: set<T>)
    ensures |Minus(q, d)| <= |q|
    ensures forall x | x in Minus(q, d) :: x in q && x !in d
    ensures forall x | x in q && x !in d :: x in Minus(q, d)
  {
    if q != [] {
      MinusElements(q[1..], d);
    }
  }

  lemma {:induction false} MinusNone<T>(q: seq<T>, d: set<T>)
    requires forall x | x in q :: x !in d
    ensures Minus(q, d) == q
  {
    if q != [] {
      MinusNone(q[1..], d);
    }
  }

  lemma {:induction false} MinusSnoc<T>(q: seq<T>, x: T, d: set<T>)
    ensures Minus(q + [x], d) == Minus(q, d) + if x in d then [] else [x]
  {
    if q != [] {
      MinusSnoc(q[1..], x, d);
      assert (q + [x])[1..] == q[1..] + [x];
    }
  }

  lemma {:induction false} MinusOne<T>(q: seq<T>, k: nat)
    requires NoDup(q) && k < |q|
    ensures Minus(q, {q[k]}) == q[..k] + q[k + 1..]
  {
    if k == 0 {
      MinusNone(q[1..], {q[0]});
    } else {
      MinusOne(q[1..], k - 1);
      assert q[..k] == [q[0]] + q[1..][..k - 1];
      assert q[k + 1..] == q[1..][k..];
    }
  }

  lemma {:induction false} MinusNoDup<T>(q: seq<T>, d: set<T>)
    requires NoDup(q)
    ensures NoDup(Minus(q, d))
  {
    MinusElements(q, d);
    if q != [] {
      MinusNoDup(q[1..], d);
      MinusElements(q[1..], d);
    }
  }

  lemma {:induction false} MinusMinus<T>(q: seq<T>, d: set<T>, e: set<T>)
    ensures Minus(Minus(q, d), e) == Minus(q, d + e)
  {
    if q != [] {
      MinusMinus(q[1..], d, e);
      var r := Minus(q[1..], d);
      if q[0] !in d {
        assert ([q[0]] + r)[1..] == r;
      }
    }
  }

  lemma OneFewer<T>(q: seq<T>, c: T)
    requires NoDup(q)
    ensures c in q ==> |Minus(q, {c})| == |q| - 1
    ensures c !in q ==> Minus(q, {c}) == q
  {
    if c in q {
      var k :| 0 <= k < |q| && q[k] == c;
      MinusOne(q, k);
    } else {
      MinusNone(q, {c});
    }
  }

  /** Deleting d from a queue removes exactly its members that are in d. */
  lemma {:induction false} MinusCount<T>(q: seq<T>, d: set<T>)
    requires NoDup(q)
    ensures |q| - |Minus(q, d)| == |set x | x in q && x in d|
  {
    if q == [] {
      assert (set x | x in q && x in d) == {};
    } else {
      var x, rest := q[0], q[1..];
      MinusCount(rest, d);
      assert x !in rest;
      assert (set y | y in q && y in d) == (set y | y in rest && y in d) + if x in d then {x} else {};
    }
  }

  lemma SeqAsSet<T>(q: seq<T>)
    requires NoDup(q)
    ensures |set x | x in q| == |q|
  {
    if q != [] {
      var r := q[..|q| - 1];
      SeqAsSet(r);
      assert (set x | x in q) == (set x | x in r) + {q[|q| - 1]};
    }
  }
}
