// Options and the few facts about sequences that the other modules share.
module Common {

  datatype Option<+T> = None | Some(value: T)

  ghost predicate NoDup<T>(q: seq<T>) {
    forall i, j :: 0 <= i < j < |q| ==> q[i] != q[j]
  }

  // The elements of a sequence that are not in d, in their order.
  function Without<T(==,!new)>(q: seq<T>, d: set<T>): (r: seq<T>)
    ensures forall x :: x in r <==> x in q && x !in d
    ensures |r| <= |q|
  {
    if q == [] then []
    else if q[0] in d then Without(q[1..], d)
    else [q[0]] + Without(q[1..], d)
  }

  lemma {:induction false} WithoutKeepsNoDup<T(!new)>(q: seq<T>, d: set<T>)
    requires NoDup(q)
    ensures NoDup(Without(q, d))
  {
    if q != [] {
      WithoutKeepsNoDup(q[1..], d);
    }
  }

  lemma {:induction false} WithoutTwice<T(!new)>(q: seq<T>, a: set<T>, b: set<T>)
    ensures Without(Without(q, a), b) == Without(q, a + b)
  {
    if q != [] {
      WithoutTwice(q[1..], a, b);
      assert q[0] !in a ==> Without(q, a)[1..] == Without(q[1..], a);
    }
  }

  lemma {:induction false} WithoutNothing<T(!new)>(q: seq<T>, d: set<T>)
    requires forall x :: x in q ==> x !in d
    ensures Without(q, d) == q
  {
    if q != [] {
      assert q[0] in q;
      WithoutNothing(q[1..], d);
    }
  }

  lemma {:induction false} WithoutShrinks<T(!new)>(q: seq<T>, d: set<T>, x: T)
    requires x in q && x in d
    ensures |Without(q, d)| < |q|
  {
    if q[0] != x {
      WithoutShrinks(q[1..], d, x);
    }
  }

  lemma NoDupSnoc<T>(q: seq<T>, x: T)
    requires NoDup(q) && x !in q
    ensures NoDup(q + [x]) && NoDup([x] + q)
  {
  }

  lemma NoDupTail<T>(q: seq<T>)
    requires NoDup(q) && q != []
    ensures NoDup(q[1..]) && q[0] !in q[1..]
    ensures forall x :: x in q <==> x == q[0] || x in q[1..]
  {
    assert q == [q[0]] + q[1..];
  }
}
