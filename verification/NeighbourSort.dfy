/**
 The concurrent sort of pthreads/mtsort.c: n - 1 sorter threads, each on one pair of neighbours, and a
 checker. One event is one statement of one thread; mutexes behave as POSIX mutexes.
*/
module NeighbourSort {
  import opened Prelude
  import opened Orders

  datatype Actor = Sorter(i: nat) | Checker

  // fnsort: the while test, the lock, the trylock, the back-off, the comparison, the three writes of the
  // swap (swap := num[0]; num[0] := num[1]; num[1] := swap), the two unlocks, the exit.
  datatype SorterPc =
    | Top | Lock0 | Try1 | BackOff | Compare | Swap1 | Swap2(swap: int) | Swap3(swap: int) | Unlock0 | Unlock1 | Done

  // fncheck: the while test, mutex i to lock, pair i to compare, the write of quitting, mutex i to unlock.
  datatype CheckerPc = CTop | CLock(i: nat) | CScan(i: nat) | CSet(check: bool) | CUnlock(i: nat) | CDone

  // swaps counts the completed swaps.
  datatype State = State(
    list: seq<int>, locks: seq<Option<Actor>>, sorters: seq<SorterPc>, checker: CheckerPc, quitting: bool, swaps: nat)

  predicate Shape(s: State) {
    |s.list| >= 1 && |s.locks| == |s.list| && |s.sorters| == |s.list| - 1
  }

  predicate Enabled(s: State, a: Actor)
    requires Shape(s)
  {
    match a
    case Sorter(i) =>
      i < |s.sorters| && !s.sorters[i].Done? && (s.sorters[i].Lock0? ==> s.locks[i] == None)
    case Checker =>
      !s.checker.CDone? && (s.checker.CLock? && s.checker.i < |s.list| ==> s.locks[s.checker.i] == None)
  }

  function SorterNext(s: State, i: nat): State
    requires Shape(s) && Enabled(s, Sorter(i))
  {
    var at := (pc: SorterPc) => s.(sorters := s.sorters[i := pc]);
    match s.sorters[i]
    case Top => at(if s.quitting then Done else Lock0)
    case Lock0 => at(Try1).(locks := s.locks[i := Some(Sorter(i))])
    case Try1 =>
      if s.locks[i + 1] == None then at(Compare).(locks := s.locks[i + 1 := Some(Sorter(i))])
      else at(BackOff)
    case BackOff => at(Top).(locks := s.locks[i := None])
    case Compare => at(if s.list[i + 1] < s.list[i] then Swap1 else Unlock0)
    case Swap1 => at(Swap2(s.list[i]))
    case Swap2(swap) => at(Swap3(swap)).(list := s.list[i := s.list[i + 1]])
    case Swap3(swap) => at(Unlock0).(list := s.list[i + 1 := swap], swaps := s.swaps + 1)
    case Unlock0 => at(Unlock1).(locks := s.locks[i := None])
    case Unlock1 => at(Top).(locks := s.locks[i + 1 := None])
  }

  function CheckerNext(s: State): State
    requires Shape(s) && Enabled(s, Checker)
  {
    match s.checker
    case CTop => s.(checker := if s.quitting then CDone else CLock(0))
    case CLock(i) =>
      if i < |s.list| then s.(checker := CLock(i + 1), locks := s.locks[i := Some(Checker)])
      else s.(checker := CScan(0))
    case CScan(i) =>
      if i < |s.list| - 1 then s.(checker := if s.list[i] > s.list[i + 1] then CSet(false) else CScan(i + 1))
      else s.(checker := CSet(true))
    case CSet(check) => s.(checker := CUnlock(0), quitting := check)
    case CUnlock(i) =>
      if i < |s.list| then s.(checker := CUnlock(i + 1), locks := s.locks[i := None]) else s.(checker := CTop)
  }

  function Next(s: State, a: Actor): State
    requires Shape(s) && Enabled(s, a)
  {
    match a
    case Sorter(i) => SorterNext(s, i)
    case Checker => CheckerNext(s)
  }

  function Init(xs: seq<int>): State
    requires |xs| >= 1
  {
    State(xs, seq(|xs|, _ => None), seq(|xs| - 1, _ => Top), CTop, false, 0)
  }

  // -------------------------------------------------------------------- the invariant

  predicate SorterHolds(pc: SorterPc, i: nat, j: nat) {
    match pc
    case Top | Lock0 | Done => false
    case Try1 | BackOff => j == i
    case Unlock1 => j == i + 1
    case _ => j == i || j == i + 1
  }

  predicate CheckerHolds(pc: CheckerPc, j: nat) {
    match pc
    case CTop | CDone => false
    case CLock(i) => j < i
    case CScan(_) | CSet(_) => true
    case CUnlock(i) => j >= i
  }

  predicate HoldsLock(s: State, a: Actor, j: nat) {
    match a
    case Sorter(i) => i < |s.sorters| && SorterHolds(s.sorters[i], i, j)
    case Checker => CheckerHolds(s.checker, j)
  }

  ghost predicate LocksOwned(s: State) {
    && Shape(s)
    && (forall a, j :: 0 <= j < |s.locks| ==> (s.locks[j] == Some(a) <==> HoldsLock(s, a, j)))
    && (s.checker.CLock? || s.checker.CUnlock? ==> s.checker.i <= |s.list|)
    && (s.checker.CScan? ==> s.checker.i <= |s.list| - 1)
  }

  /** A sorter in the middle of a swap has found its pair out of order, and the pair is as it left it. */
  predicate SwapFits(list: seq<int>, i: nat, pc: SorterPc)
    requires i + 1 < |list|
  {
    match pc
    case Swap1 => list[i] > list[i + 1]
    case Swap2(swap) => list[i] == swap > list[i + 1]
    case Swap3(swap) => swap > list[i] == list[i + 1]
    case _ => true
  }

  ghost predicate SwapsFit(s: State)
    requires Shape(s)
  {
    forall i :: 0 <= i < |s.sorters| ==> SwapFits(s.list, i, s.sorters[i])
  }

  /** What actor a does to the locks: it takes free ones, or gives its own back, and touches no other. */
  predicate MovesItsLocks(s: State, s': State, a: Actor)
    requires Shape(s) && Shape(s')
  {
    && |s'.list| == |s.list|
    && (forall j :: 0 <= j < |s.locks| ==>
          s'.locks[j] == (if HoldsLock(s', a, j) then Some(a) else if HoldsLock(s, a, j) then None else s.locks[j]))
    && (forall j :: 0 <= j < |s.locks| && HoldsLock(s', a, j) ==> HoldsLock(s, a, j) || s.locks[j] == None)
  }

  lemma SorterMovesItsLocks(s: State, i: nat)
    requires LocksOwned(s) && Enabled(s, Sorter(i))
    ensures Shape(SorterNext(s, i)) && MovesItsLocks(s, SorterNext(s, i), Sorter(i))
  {
    assert HoldsLock(s, Sorter(i), i) ==> s.locks[i] == Some(Sorter(i));
  }

  lemma CheckerMovesItsLocks(s: State)
    requires LocksOwned(s) && Enabled(s, Checker)
    ensures Shape(CheckerNext(s)) && MovesItsLocks(s, CheckerNext(s), Checker)
  {
  }

  lemma OthersHold(s: State, a: Actor, b: Actor, j: nat)
    requires Shape(s) && Enabled(s, a) && b != a && j < |s.locks|
    ensures HoldsLock(Next(s, a), b, j) == HoldsLock(s, b, j)
  {
    hide SorterHolds, CheckerHolds;
  }

  lemma LocksEffect(s: State, a: Actor)
    requires LocksOwned(s) && Enabled(s, a)
    ensures Shape(Next(s, a)) && MovesItsLocks(s, Next(s, a), a)
    ensures forall b, j :: b != a && 0 <= j < |s.locks| ==> HoldsLock(Next(s, a), b, j) == HoldsLock(s, b, j)
  {
    match a {
      case Sorter(i) => SorterMovesItsLocks(s, i);
      case Checker => CheckerMovesItsLocks(s);
    }
    hide HoldsLock, MovesItsLocks;
    forall b, j | b != a && 0 <= j < |s.locks|
      ensures HoldsLock(Next(s, a), b, j) == HoldsLock(s, b, j)
    {
      OthersHold(s, a, b, j);
    }
  }

  lemma LocksStep(s: State, a: Actor)
    requires LocksOwned(s) && Enabled(s, a)
    ensures LocksOwned(Next(s, a))
  {
    var s' := Next(s, a);
    LocksEffect(s, a);
    assert s'.checker.CLock? || s'.checker.CUnlock? ==> s'.checker.i <= |s'.list|;
    assert s'.checker.CScan? ==> s'.checker.i <= |s'.list| - 1;
    hide Next, HoldsLock, Enabled;
  }

  /** Mutual exclusion. */
  lemma OneOwner(s: State, a: Actor, b: Actor, j: nat)
    requires LocksOwned(s) && j < |s.locks| && a != b && HoldsLock(s, a, j)
    ensures !HoldsLock(s, b, j)
  {
    assert s.locks[j] == Some(a);
  }

  /** Two sorters next to each other are not both past their locks. */
  lemma NeighbourWaits(s: State, i: nat, j: nat)
    requires LocksOwned(s) && i < |s.sorters| && j < |s.sorters| && (j == i + 1 || i == j + 1)
    requires SorterHolds(s.sorters[i], i, i) && SorterHolds(s.sorters[i], i, i + 1)
    ensures !(s.sorters[j].Swap1? || s.sorters[j].Swap2? || s.sorters[j].Swap3? || s.sorters[j].Compare?)
  {
    OneOwner(s, Sorter(i), Sorter(j), if j == i + 1 then i + 1 else i);
  }

  /** Locks keep sorters that work on the same element apart. */
  lemma SwapsStep(s: State, a: Actor)
    requires LocksOwned(s) && SwapsFit(s) && Enabled(s, a)
    ensures SwapsFit(Next(s, a))
  {
    var s' := Next(s, a);
    if a.Sorter? && (s.sorters[a.i].Swap2? || s.sorters[a.i].Swap3?) {
      var i := a.i;
      forall j | 0 <= j < |s'.sorters|
        ensures SwapFits(s'.list, j, s'.sorters[j])
      {
        assert SwapFits(s.list, j, s.sorters[j]);
        if j == i + 1 || i == j + 1 {
          NeighbourWaits(s, i, j);
        }
      }
    } else {
      assert s'.list == s.list;
      forall j | 0 <= j < |s'.sorters|
        ensures SwapFits(s'.list, j, s'.sorters[j])
      {
        assert SwapFits(s.list, j, s.sorters[j]);
      }
    }
  }

  // -------------------------------------------------------------------- permutation and swap count

  /** The list as it was before the swaps that are still in progress. */
  function Logical(s: State): (xs: seq<int>)
    requires Shape(s)
    ensures |xs| == |s.list|
  {
    seq(|s.list|, j requires 0 <= j < |s.list| =>
      if j < |s.sorters| && s.sorters[j].Swap3? then s.sorters[j].swap else s.list[j])
  }

  ghost predicate Accounted(s: State, xs: seq<int>)
    requires Shape(s)
  {
    && multiset(Logical(s)) == multiset(xs)
    && Inversions(Logical(s)) + s.swaps == Inversions(xs)
  }

  lemma LogicalSorter(s: State, i: nat)
    requires LocksOwned(s) && SwapsFit(s) && Enabled(s, Sorter(i))
    ensures Shape(SorterNext(s, i))
    ensures if s.sorters[i].Swap3?
            then Logical(s)[i] > Logical(s)[i + 1] && Logical(SorterNext(s, i)) == Exchange(Logical(s), i)
            else Logical(SorterNext(s, i)) == Logical(s)
  {
    var s' := SorterNext(s, i);
    assert SwapFits(s.list, i, s.sorters[i]);
    if (s.sorters[i].Swap2? || s.sorters[i].Swap3?) && i + 1 < |s.sorters| {
      NeighbourWaits(s, i, i + 1);
    }
    hide LocksOwned, SwapsFit;
    if s.sorters[i].Swap3? {
      assert Logical(s') == Exchange(Logical(s), i);
    } else {
      assert Logical(s') == Logical(s);
    }
  }

  /** The last write of a swap exchanges two logical neighbours that are out of order; nothing else changes the list. */
  lemma LogicalStep(s: State, a: Actor)
    requires LocksOwned(s) && SwapsFit(s) && Enabled(s, a)
    ensures Shape(Next(s, a))
    ensures if a.Sorter? && s.sorters[a.i].Swap3?
            then Logical(s)[a.i] > Logical(s)[a.i + 1] && Logical(Next(s, a)) == Exchange(Logical(s), a.i)
                 && Next(s, a).swaps == s.swaps + 1
            else Logical(Next(s, a)) == Logical(s) && Next(s, a).swaps == s.swaps
  {
    if a.Sorter? {
      LogicalSorter(s, a.i);
    } else {
      assert Logical(Next(s, a)) == Logical(s);
    }
    hide LocksOwned, SwapsFit, Logical;
  }

  lemma AccountedStep(s: State, a: Actor, xs: seq<int>)
    requires LocksOwned(s) && SwapsFit(s) && Accounted(s, xs) && Enabled(s, a)
    ensures Shape(Next(s, a)) && Accounted(Next(s, a), xs)
  {
    LogicalStep(s, a);
    if a.Sorter? && s.sorters[a.i].Swap3? {
      ExchangeRemovesOne(Logical(s), a.i);
      ExchangePermutes(Logical(s), a.i);
    }
  }

  // -------------------------------------------------------------------- quitting

  /**
   The checker has found the pairs up to i in order; once it says quit the list is sorted and nobody swaps;
   nobody is done before it says so.
  */
  ghost predicate Checked(s: State)
    requires Shape(s)
  {
    && (s.checker.CScan? ==> s.checker.i < |s.list| && forall j :: 0 <= j < s.checker.i ==> s.list[j] <= s.list[j + 1])
    && (s.checker == CSet(true) ==> Sorted(s.list))
    && (s.quitting ==>
          && Sorted(s.list) && (s.checker.CUnlock? || s.checker.CTop? || s.checker.CDone?)
          && forall i :: 0 <= i < |s.sorters| ==> !Swapping(s.sorters[i]))
    && (s.checker.CDone? ==> s.quitting)
    && (forall i :: 0 <= i < |s.sorters| ==> s.sorters[i].Done? ==> s.quitting)
  }

  predicate Swapping(pc: SorterPc) { pc.Swap1? || pc.Swap2? || pc.Swap3? }

  /** While the checker holds every mutex no sorter is past its first lock. */
  lemma CheckerAlone(s: State, i: nat)
    requires LocksOwned(s) && (s.checker.CScan? || s.checker.CSet?) && i < |s.sorters|
    ensures s.sorters[i].Top? || s.sorters[i].Lock0? || s.sorters[i].Done?
  {
    OneOwner(s, Checker, Sorter(i), i);
    OneOwner(s, Checker, Sorter(i), i + 1);
  }

  lemma CheckedStep(s: State, a: Actor)
    requires LocksOwned(s) && SwapsFit(s) && Checked(s) && Enabled(s, a)
    ensures Shape(Next(s, a)) && Checked(Next(s, a))
  {
    var s' := Next(s, a);
    if s.checker.CScan? || s.checker.CSet? {
      forall i | 0 <= i < |s.sorters|
        ensures s.sorters[i].Top? || s.sorters[i].Lock0? || s.sorters[i].Done?
      {
        CheckerAlone(s, i);
      }
    }
    hide LocksOwned, SwapsFit;
  }

  // -------------------------------------------------------------------- runs

  ghost predicate Inv(s: State, xs: seq<int>) {
    LocksOwned(s) && SwapsFit(s) && Accounted(s, xs) && Checked(s)
  }

  ghost predicate Runs(s: State, schedule: seq<Actor>)
    requires Shape(s)
    decreases |schedule|
  {
    schedule == [] ||
    (Enabled(s, schedule[0]) && Shape(Next(s, schedule[0])) && Runs(Next(s, schedule[0]), schedule[1..]))
  }

  ghost function After(s: State, schedule: seq<Actor>): State
    requires Shape(s) && Runs(s, schedule)
    decreases |schedule|
  {
    if schedule == [] then s else After(Next(s, schedule[0]), schedule[1..])
  }

  lemma InvStep(s: State, xs: seq<int>, a: Actor)
    requires Inv(s, xs) && Enabled(s, a)
    ensures Shape(Next(s, a)) && Inv(Next(s, a), xs)
  {
    hide LocksOwned, SwapsFit, Accounted, Checked, Next, Enabled;
    LocksStep(s, a);
    SwapsStep(s, a);
    AccountedStep(s, a, xs);
    CheckedStep(s, a);
  }

  lemma InitInv(xs: seq<int>)
    requires |xs| >= 1
    ensures Inv(Init(xs), xs)
  {
    assert Logical(Init(xs)) == xs;
  }

  lemma {:induction false} InvRun(s: State, xs: seq<int>, schedule: seq<Actor>)
    requires Inv(s, xs) && Runs(s, schedule)
    ensures Inv(After(s, schedule), xs)
    decreases |schedule|
  {
    assert Shape(s);
    hide LocksOwned, SwapsFit, Accounted, Checked;
    if schedule != [] {
      InvStep(s, xs, schedule[0]);
      InvRun(Next(s, schedule[0]), xs, schedule[1..]);
    }
  }

  /**
   In every state of every run, up to the swaps in progress, the list is a permutation of the input and
   the swaps done and the inversions left add up to the inversions of the input.
  */
  lemma PermutationThroughout(xs: seq<int>, schedule: seq<Actor>)
    requires |xs| >= 1 && Runs(Init(xs), schedule)
    ensures var s := After(Init(xs), schedule);
            && Shape(s) && multiset(Logical(s)) == multiset(xs)
            && Inversions(Logical(s)) + s.swaps == Inversions(xs)
            && ((forall i :: 0 <= i < |s.sorters| ==> !s.sorters[i].Swap3?) ==> Logical(s) == s.list)
  {
    InitInv(xs);
    InvRun(Init(xs), xs, schedule);
  }

  /** Every run that quits has sorted the list, with exactly as many swaps as the input has inversions. */
  lemma QuitsSorted(xs: seq<int>, schedule: seq<Actor>)
    requires |xs| >= 1 && Runs(Init(xs), schedule) && After(Init(xs), schedule).quitting
    ensures var s := After(Init(xs), schedule);
            && Sorted(s.list) && multiset(s.list) == multiset(xs) && s.swaps == Inversions(xs)
  {
    InitInv(xs);
    InvRun(Init(xs), xs, schedule);
    var s := After(Init(xs), schedule);
    assert Logical(s) == s.list;
    SortedIffNone(s.list);
  }

  /** The run of main, on n, n - 1, ..., 1: n(n - 1)/2 swaps. */
  lemma MainSwaps(n: nat, schedule: seq<Actor>)
    requires n >= 1 && Runs(Init(Descending(n)), schedule) && After(Init(Descending(n)), schedule).quitting
    ensures 2 * After(Init(Descending(n)), schedule).swaps == n * (n - 1)
  {
    QuitsSorted(Descending(n), schedule);
    DescendingInversions(n);
  }

  /** Quitting is for good, and the list does not change any more. */
  lemma {:induction false} StaysSorted(s: State, xs: seq<int>, schedule: seq<Actor>)
    requires Inv(s, xs) && s.quitting && Runs(s, schedule)
    ensures After(s, schedule).quitting && After(s, schedule).list == s.list
    decreases |schedule|
  {
    if schedule != [] {
      var s' := Next(s, schedule[0]);
      InvStep(s, xs, schedule[0]);
      assert s'.quitting && s'.list == s.list;
      hide LocksOwned, SwapsFit, Accounted, Checked, Next;
      StaysSorted(s', xs, schedule[1..]);
    }
  }

  // -------------------------------------------------------------------- progress

  ghost predicate AllDone(s: State)
    requires Shape(s)
  {
    s.checker.CDone? && forall i :: 0 <= i < |s.sorters| ==> s.sorters[i].Done?
  }

  /** Actor a is stopped at mutex j, and b holds it. */
  predicate WaitsFor(s: State, a: Actor, b: Actor)
    requires Shape(s)
  {
    match a
    case Sorter(i) => i < |s.sorters| && s.sorters[i].Lock0? && s.locks[i] == Some(b)
    case Checker => s.checker.CLock? && s.checker.i < |s.list| && s.locks[s.checker.i] == Some(b)
  }

  /** A sorter holds no mutex while it waits; so whoever waits for a sorter waits for one that can go on. */
  lemma SortersDoNotWait(s: State, a: Actor, i: nat)
    requires LocksOwned(s) && WaitsFor(s, a, Sorter(i))
    ensures i < |s.sorters| && Enabled(s, Sorter(i)) && !s.sorters[i].Lock0?
  {
    var j := if a.Sorter? then a.i else s.checker.i;
    assert HoldsLock(s, Sorter(i), j);
  }

  /** The wait-for graph has no cycle: every path of waits has at most two edges. */
  lemma NoWaitCycle(s: State, a: Actor, b: Actor, c: Actor)
    requires LocksOwned(s) && WaitsFor(s, a, b) && WaitsFor(s, b, c)
    ensures b == Checker && c.Sorter? && a != c && forall d :: !WaitsFor(s, c, d)
  {
    if b.Sorter? {
      SortersDoNotWait(s, a, b.i);
    }
    assert HoldsLock(s, c, s.checker.i);
  }

  /** Until all threads are done some thread can take a step. */
  lemma NeverStuck(s: State) returns (a: Actor)
    requires LocksOwned(s) && !AllDone(s)
    ensures Enabled(s, a)
  {
    if Enabled(s, Checker) {
      a := Checker;
    } else if s.checker.CDone? {
      var i :| 0 <= i < |s.sorters| && !s.sorters[i].Done?;
      a := Sorter(i);
      if !Enabled(s, a) {
        assert s.locks[i].Some? && HoldsLock(s, s.locks[i].value, i);
        a := s.locks[i].value;
        SortersDoNotWait(s, Sorter(i), a.i);
      }
    } else {
      var j := s.checker.i;
      assert s.locks[j].Some? && HoldsLock(s, s.locks[j].value, j);
      a := s.locks[j].value;
      SortersDoNotWait(s, Checker, a.i);
    }
  }
}
