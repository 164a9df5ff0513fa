/** Java's `List.remove(Object)` on a list of ids: only the first element equal
    to the argument is taken out; an absent argument leaves the list as it was. */
module Lists {

  /** The index of the first occurrence of `x` in `xs`. */
  function FirstIndex(xs: seq<int>, x: int): (k: nat)
    requires x in xs
    ensures k < |xs| && xs[k] == x && x !in xs[..k]
  {
    if xs[0] == x then 0 else 1 + FirstIndex(xs[1..], x)
  }

  /** `xs` with its first occurrence of `x` removed, if there is one. */
  function RemoveFirst(xs: seq<int>, x: int): (r: seq<int>)
    ensures |r| == if x in xs then |xs| - 1 else |xs|
  {
    if xs == [] then []
    else if xs[0] == x then xs[1..]
    else [xs[0]] + RemoveFirst(xs[1..], x)
  }

  /** Removing an id that is present cuts exactly the element at its first
      occurrence; removing an absent id changes nothing. */
  lemma {:induction false} RemoveFirstCuts(xs: seq<int>, x: int)
    ensures x !in xs ==> RemoveFirst(xs, x) == xs
    ensures x in xs ==> RemoveFirst(xs, x) == xs[..FirstIndex(xs, x)] + xs[FirstIndex(xs, x) + 1..]
  {
    if xs != [] {
      RemoveFirstCuts(xs[1..], x);
      if xs[0] != x {
        if x in xs {
          assert x in xs[1..];
          var k := FirstIndex(xs[1..], x);
          assert FirstIndex(xs, x) == k + 1;
          assert [xs[0]] + xs[1..][..k] == xs[..k + 1];
          assert xs[1..][k + 1..] == xs[k + 2..];
        } else {
          assert [xs[0]] + xs[1..] == xs;
        }
      }
    }
  }

  /** As a multiset, removal takes away one copy of the id when there is one. */
  lemma {:induction false} RemoveFirstMultiset(xs: seq<int>, x: int)
    ensures multiset(RemoveFirst(xs, x)) == multiset(xs) - multiset{x}
  {
    if xs != [] {
      assert xs == [xs[0]] + xs[1..];
      assert multiset(xs) == multiset{xs[0]} + multiset(xs[1..]);
      if xs[0] != x {
        RemoveFirstMultiset(xs[1..], x);
        assert RemoveFirst(xs, x) == [xs[0]] + RemoveFirst(xs[1..], x);
        assert multiset(RemoveFirst(xs, x)) == multiset{xs[0]} + multiset(RemoveFirst(xs[1..], x));
      }
    }
  }

  /** Appending an id and then removing it gives back the list when the id was
      not there before; when it was, the earlier copy goes and the new one stays. */
  lemma {:induction false} AppendThenRemoveFirst(xs: seq<int>, x: int)
    ensures x !in xs ==> RemoveFirst(xs + [x], x) == xs
    ensures x in xs ==> RemoveFirst(xs + [x], x) == RemoveFirst(xs, x) + [x]
  {
    if xs == [] {
    } else {
      assert (xs + [x])[1..] == xs[1..] + [x];
      AppendThenRemoveFirst(xs[1..], x);
    }
  }
}
