/** Inversions of a list, and what one exchange of neighbours does to them. */
module Orders {

  ghost predicate Sorted(xs: seq<int>) {
    forall i :: 0 <= i < |xs| - 1 ==> xs[i] <= xs[i + 1]
  }

  /** How many elements of xs are smaller than x. */
  function Smaller(xs: seq<int>, x: int): nat {
    if xs == [] then 0 else (if xs[0] < x then 1 else 0) + Smaller(xs[1..], x)
  }

  /** The number of pairs i < j with xs[i] > xs[j]. */
  function Inversions(xs: seq<int>): nat {
    if xs == [] then 0 else Smaller(xs[1..], xs[0]) + Inversions(xs[1..])
  }

  function Exchange(xs: seq<int>, i: nat): seq<int>
    requires i + 1 < |xs|
  {
    xs[i := xs[i + 1]][i + 1 := xs[i]]
  }

  lemma {:induction false} SmallerExchange(xs: seq<int>, i: nat, x: int)
    requires i + 1 < |xs|
    ensures Smaller(Exchange(xs, i), x) == Smaller(xs, x)
  {
    if i == 0 {
      assert xs[1..] == [xs[1]] + xs[2..];
      assert Exchange(xs, 0)[1..] == [xs[0]] + xs[2..];
    } else {
      SmallerExchange(xs[1..], i - 1, x);
      assert Exchange(xs, i)[1..] == Exchange(xs[1..], i - 1);
    }
  }

  /** Exchanging two neighbours that are out of order removes exactly one inversion. */
  lemma {:induction false} ExchangeRemovesOne(xs: seq<int>, i: nat)
    requires i + 1 < |xs| && xs[i] > xs[i + 1]
    ensures Inversions(Exchange(xs, i)) == Inversions(xs) - 1
  {
    var ys := Exchange(xs, i);
    if i == 0 {
      assert xs[1..] == [xs[1]] + xs[2..] && ys[1..] == [xs[0]] + xs[2..];
      assert xs[1..][1..] == xs[2..] && ys[1..][1..] == xs[2..];
    } else {
      assert ys[1..] == Exchange(xs[1..], i - 1) && ys[0] == xs[0];
      SmallerExchange(xs[1..], i - 1, xs[0]);
      ExchangeRemovesOne(xs[1..], i - 1);
    }
  }

  lemma ExchangePermutes(xs: seq<int>, i: nat)
    requires i + 1 < |xs|
    ensures multiset(Exchange(xs, i)) == multiset(xs)
  {
  }

  lemma {:induction false} NoneSmaller(xs: seq<int>, x: int)
    requires Sorted([x] + xs)
    ensures Smaller(xs, x) == 0
  {
    if xs != [] {
      assert ([x] + xs)[0] <= ([x] + xs)[1];
      assert Sorted([x] + xs[1..]) by {
        if |xs| > 1 {
          assert ([x] + xs)[1] <= ([x] + xs)[2];
        }
        forall i | 0 <= i < |[x] + xs[1..]| - 1
          ensures ([x] + xs[1..])[i] <= ([x] + xs[1..])[i + 1]
        {
          if i > 0 {
            assert ([x] + xs)[i + 1] <= ([x] + xs)[i + 2];
          }
        }
      }
      NoneSmaller(xs[1..], x);
    }
  }

  /** A list has no inversions iff it is sorted. */
  lemma {:induction false} SortedIffNone(xs: seq<int>)
    ensures Sorted(xs) <==> Inversions(xs) == 0
  {
    if |xs| >= 2 {
      SortedIffNone(xs[1..]);
      assert xs[1..][0] == xs[1];
      if Sorted(xs) {
        assert forall i :: 0 <= i < |xs[1..]| - 1 ==> xs[1..][i] == xs[i + 1] && xs[i + 1] <= xs[i + 2];
        assert [xs[0]] + xs[1..] == xs;
        NoneSmaller(xs[1..], xs[0]);
      }
      if Inversions(xs) == 0 {
        assert xs[0] <= xs[1];
        forall i | 0 <= i < |xs| - 1
          ensures xs[i] <= xs[i + 1]
        {
          if i > 0 {
            assert xs[1..][i - 1] <= xs[1..][i];
          }
        }
      }
    }
  }

  /** The initial list of main: n, n - 1, ..., 1. */
  function Descending(n: nat): (xs: seq<int>)
    ensures |xs| == n
  {
    if n == 0 then [] else [n] + Descending(n - 1)
  }

  lemma {:induction false} DescendingAt(n: nat, i: nat)
    requires i < n
    ensures Descending(n)[i] == n - i
  {
    if i > 0 {
      DescendingAt(n - 1, i - 1);
    }
  }

  lemma {:induction false} AllSmaller(n: nat, x: int)
    requires x > n
    ensures Smaller(Descending(n), x) == n
  {
    if n > 0 {
      AllSmaller(n - 1, x);
    }
  }

  lemma {:induction false} DescendingInversions(n: nat)
    ensures 2 * Inversions(Descending(n)) == n * (n - 1)
  {
    if n > 0 {
      AllSmaller(n - 1, n);
      DescendingInversions(n - 1);
    }
  }
}
