/** The loops and writes of pthreads/mtsort.c on the array, each under the mutexes that the program takes for it. */
module SortArrays {
  import opened Orders

  /** The body of fnsort between its locks, on the pair at i. */
  method CompareAndSwap(num: array<int>, i: nat)
    requires i + 1 < num.Length
    modifies num
    ensures num[..] == if old(num[i + 1] < num[i]) then Exchange(old(num[..]), i) else old(num[..])
    ensures Inversions(num[..]) == Inversions(old(num[..])) - (if old(num[i + 1] < num[i]) then 1 else 0)
  {
    if num[i + 1] < num[i] {
      ExchangeRemovesOne(num[..], i);
      var swap := num[i];
      num[i] := num[i + 1];
      num[i + 1] := swap;
    }
  }

  /** The scan of fncheck; it stops at the first pair that is out of order. */
  method Check(num: array<int>) returns (check: bool)
    requires num.Length >= 1
    ensures check <==> Sorted(num[..])
  {
    check := true;
    var i := 0;
    while i < num.Length - 1 && check
      invariant i <= num.Length - 1
      invariant check ==> forall j :: 0 <= j < i ==> num[j] <= num[j + 1]
      invariant !check ==> exists j :: 0 <= j < num.Length - 1 && num[j] > num[j + 1]
    {
      if num[i] > num[i + 1] {
        check := false;
      }
      i := i + 1;
    }
  }

  /** The list that main begins with. */
  method InitialList(n: nat) returns (list: array<int>)
    ensures list[..] == Descending(n)
    ensures 2 * Inversions(list[..]) == n * (n - 1)
  {
    list := new int[n];
    for i := 0 to n
      invariant forall j :: 0 <= j < i ==> list[j] == n - j
    {
      list[i] := n - i;
    }
    forall j | 0 <= j < n
      ensures list[j] == Descending(n)[j]
    {
      DescendingAt(n, j);
    }
    DescendingInversions(n);
    assert list[..] == Descending(n);
  }
}
