/**
  The list operations the registry is built from: LINQ `Where` (and `List.RemoveAll`, which keeps
  what its predicate rejects) and `List.Remove`, which drops only the first occurrence.
 */
module Seqs {

  /** `a` can be obtained from `b` by deleting elements: `b`'s order is kept in `a`. */
  ghost predicate IsSubsequence<T>(a: seq<T>, b: seq<T>)
    decreases |b|
  {
    if a == [] then true
    else if b == [] then false
    else (a[0] == b[0] && IsSubsequence(a[1..], b[1..])) || IsSubsequence(a, b[1..])
  }

  /** The elements of `xs` that satisfy `keep`, in their order. */
  function Where<T>(xs: seq<T>, keep: T -> bool): (r: seq<T>)
    ensures |r| <= |xs|
    ensures forall i :: 0 <= i < |r| ==> keep(r[i])
    ensures forall x :: x in r ==> x in xs
  {
    if xs == [] then []
    else if keep(xs[0]) then [xs[0]] + Where(xs[1..], keep)
    else Where(xs[1..], keep)
  }

  /**
    `Where` selects by element: every kept element keeps all its occurrences and every other
    element loses all of them.
   */
  lemma {:induction false} WhereCount<T>(xs: seq<T>, keep: T -> bool)
    ensures multiset(Where(xs, keep)) <= multiset(xs)
    ensures forall x :: x in xs ==> multiset(Where(xs, keep))[x] == if keep(x) then multiset(xs)[x] else 0
  {
    if xs != [] {
      var tail := xs[1..];
      var rest := Where(tail, keep);
      WhereCount(tail, keep);
      assert multiset(xs) == multiset{xs[0]} + multiset(tail) by { assert xs == [xs[0]] + tail; }
      var head := if keep(xs[0]) then multiset{xs[0]} else multiset{};
      assert multiset(Where(xs, keep)) == head + multiset(rest) by {
        if keep(xs[0]) {
          assert Where(xs, keep) == [xs[0]] + rest;
        }
      }
      forall x | x in xs
        ensures multiset(Where(xs, keep))[x] == if keep(x) then multiset(xs)[x] else 0
      {
        if x !in tail {
          assert multiset(tail)[x] == 0;
          assert multiset(rest)[x] == 0;
        }
      }
    }
  }

  /** `Where` keeps the relative order of the elements it selects. */
  lemma {:induction false} WhereIsSubsequence<T>(xs: seq<T>, keep: T -> bool)
    ensures IsSubsequence(Where(xs, keep), xs)
  {
    if xs != [] {
      WhereIsSubsequence(xs[1..], keep);
    }
  }

  /** Selecting from a list extended by one element selects from the list, then maybe that element. */
  lemma {:induction false} WhereSnoc<T>(xs: seq<T>, x: T, keep: T -> bool)
    ensures Where(xs + [x], keep) == Where(xs, keep) + (if keep(x) then [x] else [])
  {
    if xs == [] {
      assert xs + [x] == [x];
    } else {
      var ys := xs + [x];
      assert ys[0] == xs[0] && ys[1..] == xs[1..] + [x];
      WhereSnoc(xs[1..], x, keep);
      var head := if keep(xs[0]) then [xs[0]] else [];
      assert Where(ys, keep) == head + Where(ys[1..], keep);
      assert Where(xs, keep) == head + Where(xs[1..], keep);
    }
  }

  /** A predicate that holds on every element selects the whole list. */
  lemma {:induction false} WhereKeepsAll<T>(xs: seq<T>, keep: T -> bool)
    requires forall x :: x in xs ==> keep(x)
    ensures Where(xs, keep) == xs
  {
    if xs != [] {
      WhereKeepsAll(xs[1..], keep);
    }
  }

  /** The position of the first occurrence of `x` in `xs`. */
  function FirstIndex<T(==)>(xs: seq<T>, x: T): (i: nat)
    requires x in xs
    ensures i < |xs| && xs[i] == x
    ensures forall j :: 0 <= j < i ==> xs[j] != x
  {
    if xs[0] == x then 0 else 1 + FirstIndex(xs[1..], x)
  }

  /** `List.Remove(x)`: deletes the first occurrence of `x`, if any, and nothing else. */
  function RemoveFirst<T(==)>(xs: seq<T>, x: T): (r: seq<T>)
    ensures x !in xs ==> r == xs
    ensures |r| == if x in xs then |xs| - 1 else |xs|
  {
    if xs == [] then []
    else if xs[0] == x then xs[1..]
    else
      assert x in xs <==> x in xs[1..];
      [xs[0]] + RemoveFirst(xs[1..], x)
  }

  /** What `List.Remove` leaves of a member: everything before its first occurrence, then everything after it. */
  lemma RemoveFirstSplice<T>(xs: seq<T>, x: T)
    requires x in xs
    ensures RemoveFirst(xs, x) == xs[..FirstIndex(xs, x)] + xs[FirstIndex(xs, x) + 1..]
  {
    RemoveFirstAt(xs, x, FirstIndex(xs, x));
  }

  /** `RemoveFirstSplice` for a given position `i` of the first occurrence. */
  lemma {:induction false} RemoveFirstAt<T>(xs: seq<T>, x: T, i: nat)
    requires i < |xs| && xs[i] == x
    requires forall j :: 0 <= j < i ==> xs[j] != x
    ensures RemoveFirst(xs, x) == xs[..i] + xs[i + 1..]
  {
    if i > 0 {
      var tail := xs[1..];
      assert forall j :: 0 <= j < i - 1 ==> tail[j] != x by {
        forall j | 0 <= j < i - 1 ensures tail[j] != x {
          assert tail[j] == xs[j + 1];
        }
      }
      RemoveFirstAt(tail, x, i - 1);
      assert xs[..i] == [xs[0]] + tail[..i - 1];
      assert xs[i + 1..] == tail[i..];
    }
  }

  /** Removing an element just appended to a list that did not hold it gives the list back. */
  lemma {:induction false} RemoveFirstAppended<T>(xs: seq<T>, x: T)
    requires x !in xs
    ensures RemoveFirst(xs + [x], x) == xs
  {
    if xs != [] {
      assert (xs + [x])[1..] == xs[1..] + [x];
      RemoveFirstAppended(xs[1..], x);
      assert xs == [xs[0]] + xs[1..];
    }
  }

  /** `List.Remove` drops exactly one occurrence of a member and leaves a non-member's list alone. */
  lemma {:induction false} RemoveFirstCount<T>(xs: seq<T>, x: T)
    ensures multiset(RemoveFirst(xs, x)) == multiset(xs) - multiset{x}
  {
    if xs != [] {
      assert xs == [xs[0]] + xs[1..];
      if xs[0] != x {
        RemoveFirstCount(xs[1..], x);
        assert RemoveFirst(xs, x) == [xs[0]] + RemoveFirst(xs[1..], x);
      }
    }
  }

  /**
    Delegate removal (`-=` on an event): deletes the last occurrence of `x` in the invocation
    list, if any, and nothing else.
   */
  function RemoveLast<T(==)>(xs: seq<T>, x: T): (r: seq<T>)
    ensures x !in xs ==> r == xs
    ensures |r| == if x in xs then |xs| - 1 else |xs|
    decreases |xs|
  {
    if xs == [] then []
    else
      var n := |xs| - 1;
      assert xs == xs[..n] + [xs[n]];
      if xs[n] == x then xs[..n]
      else RemoveLast(xs[..n], x) + [xs[n]]
  }

  /** Delegate removal drops exactly one occurrence of a member and leaves a non-member's list alone. */
  lemma {:induction false} RemoveLastCount<T>(xs: seq<T>, x: T)
    ensures multiset(RemoveLast(xs, x)) == multiset(xs) - multiset{x}
    decreases |xs|
  {
    if xs != [] {
      var n := |xs| - 1;
      assert xs == xs[..n] + [xs[n]];
      if xs[n] != x {
        RemoveLastCount(xs[..n], x);
      }
    }
  }

  /** Delegate removal keeps everything after the last occurrence: it undoes the latest `+=` of `x`. */
  lemma RemoveLastAppended<T>(xs: seq<T>, x: T)
    ensures RemoveLast(xs + [x], x) == xs
  {
    assert (xs + [x])[..|xs|] == xs;
  }
}
