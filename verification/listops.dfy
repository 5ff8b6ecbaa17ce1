/**
 * The Python list built-ins the portfolio code relies on, over Dafny sequences:
 * `sum`, the `is not None` filter and `list.remove`.
 */
module ListOps {
  import opened Wrappers

  /** Python's `sum` over numbers; real addition is associative, so the fold order is immaterial. */
  function Sum(xs: seq<real>): real
  {
    if xs == [] then 0.0 else Sum(xs[..|xs| - 1]) + xs[|xs| - 1]
  }

  lemma {:induction false} SumConcat(a: seq<real>, b: seq<real>)
    ensures Sum(a + b) == Sum(a) + Sum(b)
  {
    if b == [] {
      assert a + b == a;
    } else {
      var b' := b[..|b| - 1];
      assert (a + b)[..|a + b| - 1] == a + b';
      SumConcat(a, b');
    }
  }

  /** A sum of zeros is zero. */
  lemma {:induction false} SumOfZeros(xs: seq<real>)
    requires forall i :: 0 <= i < |xs| ==> xs[i] == 0.0
    ensures Sum(xs) == 0.0
  {
    if xs != [] {
      SumOfZeros(xs[..|xs| - 1]);
    }
  }

  /** The values that are not None, in list order (`[x for x in xs if x is not None]`). */
  function Present(xs: seq<Option<real>>): seq<real>
  {
    if xs == [] then []
    else Present(xs[..|xs| - 1]) + (if xs[|xs| - 1].Some? then [xs[|xs| - 1].value] else [])
  }

  lemma {:induction false} PresentConcat(a: seq<Option<real>>, b: seq<Option<real>>)
    ensures Present(a + b) == Present(a) + Present(b)
  {
    if b == [] {
      assert a + b == a;
    } else {
      var b' := b[..|b| - 1];
      assert (a + b)[..|a + b| - 1] == a + b';
      assert (a + b)[|a + b| - 1] == b[|b| - 1];
      PresentConcat(a, b');
    }
  }

  /** Every present value of a list of Somes is kept: nothing is filtered out. */
  lemma {:induction false} PresentOfAllPresent(xs: seq<Option<real>>)
    requires AllPresent(xs)
    ensures |Present(xs)| == |xs|
    ensures forall i :: 0 <= i < |xs| ==> Present(xs)[i] == xs[i].value
  {
    if xs != [] {
      PresentOfAllPresent(xs[..|xs| - 1]);
    }
  }

  predicate AllPresent(xs: seq<Option<real>>)
  {
    forall i :: 0 <= i < |xs| ==> xs[i].Some?
  }

  lemma AllPresentConcat(a: seq<Option<real>>, b: seq<Option<real>>)
    ensures AllPresent(a + b) <==> AllPresent(a) && AllPresent(b)
  {
    if AllPresent(a + b) {
      assert forall i :: 0 <= i < |a| ==> a[i] == (a + b)[i];
      assert forall i :: 0 <= i < |b| ==> b[i] == (a + b)[|a| + i];
    }
  }

  /**
   * Python's `sum` over a list that may hold None: adding None raises TypeError,
   * which is None here.
   */
  function OptionalSum(xs: seq<Option<real>>): Option<real>
  {
    if AllPresent(xs) then Some(Sum(Present(xs))) else None
  }

  /** `sum` over a list raises exactly when the list holds a None, and otherwise adds up its values. */
  lemma OptionalSumValues(xs: seq<Option<real>>)
    ensures OptionalSum(xs).None? <==> None in xs
    ensures OptionalSum(xs).Some? ==>
      OptionalSum(xs).value == Sum(seq(|xs|, i requires 0 <= i < |xs| => if xs[i].Some? then xs[i].value else 0.0))
  {
    if AllPresent(xs) {
      PresentOfAllPresent(xs);
      assert Present(xs) == seq(|xs|, i requires 0 <= i < |xs| => if xs[i].Some? then xs[i].value else 0.0);
    }
  }

  /** The index of the first element equal to x. */
  function IndexOf<T(==)>(xs: seq<T>, x: T): (i: nat)
    requires x in xs
    ensures i < |xs| && xs[i] == x
    ensures x !in xs[..i]
  {
    if xs[0] == x then 0
    else
      assert x in xs[1..];
      var j := IndexOf(xs[1..], x);
      assert xs[..j + 1] == [xs[0]] + xs[1..][..j];
      1 + j
  }

  /** Python's `list.remove(x)` where x is in the list: the first equal element goes. */
  function RemoveFirst<T(==)>(xs: seq<T>, x: T): (r: seq<T>)
    requires x in xs
    ensures r == xs[..IndexOf(xs, x)] + xs[IndexOf(xs, x) + 1..]
  {
    if xs[0] == x then
      xs[1..]
    else
      assert x in xs[1..];
      var r' := RemoveFirst(xs[1..], x);
      var i := IndexOf(xs, x);
      assert i == 1 + IndexOf(xs[1..], x);
      assert xs[..i] == [xs[0]] + xs[1..][..i - 1];
      assert xs[i + 1..] == xs[1..][i..];
      [xs[0]] + r'
  }

  /** `list.remove` takes exactly one copy of x out of the list's multiset. */
  lemma RemoveFirstMultiset<T>(xs: seq<T>, x: T)
    requires x in xs
    ensures multiset(RemoveFirst(xs, x)) == multiset(xs) - multiset{x}
  {
    var i := IndexOf(xs, x);
    assert RemoveFirst(xs, x) == xs[..i] + xs[i + 1..];
    MultisetRemoveAt(xs, i);
  }

  /** Removing the element at one position takes one copy of it out of the multiset. */
  lemma MultisetRemoveAt<T>(xs: seq<T>, i: nat)
    requires i < |xs|
    ensures multiset(xs[..i] + xs[i + 1..]) == multiset(xs) - multiset{xs[i]}
  {
    assert xs == xs[..i] + [xs[i]] + xs[i + 1..];
    assert multiset(xs) == multiset(xs[..i]) + multiset{xs[i]} + multiset(xs[i + 1..]);
  }
}
