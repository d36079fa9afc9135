/** From every state of the concurrent sort there is a way on to the end. */
module SortFinishes {
  import opened Prelude
  import opened Orders
  import opened NeighbourSort

  ghost predicate Reaches(s: State, s': State)
    requires Shape(s)
  {
    exists schedule :: Runs(s, schedule) && After(s, schedule) == s'
  }

  /** One event in front of a run. */
  lemma Before(s: State, a: Actor, s': State)
    requires Shape(s) && Enabled(s, a) && Shape(Next(s, a)) && Reaches(Next(s, a), s')
    ensures Reaches(s, s')
  {
    var schedule :| Runs(Next(s, a), schedule) && After(Next(s, a), schedule) == s';
    var whole := [a] + schedule;
    assert whole[0] == a && whole[1..] == schedule;
    assert Runs(s, whole) && After(s, whole) == s';
  }

  lemma Stay(s: State)
    requires Shape(s)
    ensures Reaches(s, s)
  {
    assert Runs(s, []) && After(s, []) == s;
  }

  lemma {:induction false} RunsOn(s: State, first: seq<Actor>, rest: seq<Actor>)
    requires Shape(s) && Runs(s, first) && Shape(After(s, first)) && Runs(After(s, first), rest)
    ensures Runs(s, first + rest) && After(s, first + rest) == After(After(s, first), rest)
    decreases |first|
  {
    if first == [] {
      assert first + rest == rest;
    } else {
      assert (first + rest)[0] == first[0] && (first + rest)[1..] == first[1..] + rest;
      RunsOn(Next(s, first[0]), first[1..], rest);
    }
  }

  lemma Chain(s: State, t: State, u: State)
    requires Shape(s) && Shape(t) && Reaches(s, t) && Reaches(t, u)
    ensures Reaches(s, u)
  {
    var first :| Runs(s, first) && After(s, first) == t;
    var rest :| Runs(t, rest) && After(t, rest) == u;
    RunsOn(s, first, rest);
    assert Runs(s, first + rest) && After(s, first + rest) == u;
  }

  // -------------------------------------------------------------------- sorters go home

  /** Not between its first lock and its last unlock. */
  predicate AtHome(pc: SorterPc) { pc.Top? || pc.Lock0? || pc.Done? }

  function StepsHome(pc: SorterPc): nat {
    match pc
    case Top | Lock0 | Done => 0
    case Unlock1 | BackOff => 1
    case Unlock0 => 2
    case Swap3(_) => 3
    case Swap2(_) => 4
    case Swap1 => 5
    case Compare => 6
    case Try1 => 7
  }

  predicate SorterSteps(s: State, s': State, i: nat) {
    && Shape(s) && Shape(s') && |s'.list| == |s.list| && s'.checker == s.checker && s'.quitting == s.quitting
    && s'.swaps >= s.swaps
    && forall j :: 0 <= j < |s.sorters| && j != i ==> s'.sorters[j] == s.sorters[j]
  }

  /** A sorter that is past its first lock never waits again before it is back at the top of its loop. */
  lemma {:induction false} GoHome(s: State, xs: seq<int>, i: nat) returns (s': State)
    requires Inv(s, xs) && i < |s.sorters|
    ensures Inv(s', xs) && SorterSteps(s, s', i) && Reaches(s, s') && AtHome(s'.sorters[i])
    ensures if AtHome(s.sorters[i]) then s' == s else s'.sorters[i].Top?
    ensures Swapping(s.sorters[i]) ==> s'.swaps > s.swaps
    decreases StepsHome(s.sorters[i])
  {
    hide Accounted, Checked, SwapsFit, Reaches;
    if AtHome(s.sorters[i]) {
      s' := s;
      Stay(s);
    } else {
      var a := Sorter(i);
      InvStep(s, xs, a);
      s' := GoHome(Next(s, a), xs, i);
      Before(s, a, s');
    }
  }

  ghost predicate AllHome(s: State) {
    forall i :: 0 <= i < |s.sorters| ==> AtHome(s.sorters[i])
  }

  lemma {:induction false} AllGoHome(s: State, xs: seq<int>, n: nat) returns (s': State)
    requires Inv(s, xs) && n <= |s.sorters|
    requires forall i :: n <= i < |s.sorters| ==> AtHome(s.sorters[i])
    ensures Inv(s', xs) && Reaches(s, s') && AllHome(s')
    decreases n
  {
    hide Accounted, Checked, SwapsFit, Reaches;
    if n == 0 {
      s' := s;
      Stay(s);
    } else {
      var t := GoHome(s, xs, n - 1);
      s' := AllGoHome(t, xs, n - 1);
      Chain(s, t, s');
    }
  }

  // -------------------------------------------------------------------- the checker goes home

  predicate CheckerHome(pc: CheckerPc) { pc.CTop? || pc.CDone? }

  function CheckerSteps(pc: CheckerPc, n: nat): nat
    requires pc.CLock? || pc.CUnlock? ==> pc.i <= n
    requires pc.CScan? ==> pc.i < n
  {
    match pc
    case CTop | CDone => 0
    case CUnlock(i) => n - i + 1
    case CSet(_) => n + 2
    case CScan(i) => 2 * n + 3 - i
    case CLock(i) => 3 * n + 4 - i
  }

  /** With the sorters at home every mutex is free or the checker's. */
  lemma CheckerCanGo(s: State)
    requires LocksOwned(s) && AllHome(s) && !CheckerHome(s.checker)
    ensures Enabled(s, Checker)
  {
    if s.checker.CLock? && s.checker.i < |s.list| {
      assert forall a :: !HoldsLock(s, a, s.checker.i);
    }
  }

  /** On a sorted list a checker that has not compared yet, or compared well so far, is going to quit. */
  predicate GoingToQuit(pc: CheckerPc) { pc.CLock? || pc.CScan? || pc == CSet(true) }

  lemma {:induction false} CheckerGoesHome(s: State, xs: seq<int>) returns (s': State)
    requires Inv(s, xs) && AllHome(s)
    ensures Inv(s', xs) && Reaches(s, s') && CheckerHome(s'.checker)
    ensures s'.sorters == s.sorters && s'.list == s.list && s'.swaps == s.swaps
    ensures s.quitting || (Sorted(s.list) && GoingToQuit(s.checker)) ==> s'.quitting
    decreases CheckerSteps(s.checker, |s.list|)
  {
    hide Accounted, SwapsFit, Reaches;
    if CheckerHome(s.checker) {
      s' := s;
      Stay(s);
    } else {
      CheckerCanGo(s);
      InvStep(s, xs, Checker);
      s' := CheckerGoesHome(Next(s, Checker), xs);
      Before(s, Checker, s');
    }
  }

  // -------------------------------------------------------------------- the whole way

  ghost predicate Resting(s: State, xs: seq<int>) {
    Inv(s, xs) && AllHome(s) && CheckerHome(s.checker)
  }

  lemma RestingLocks(s: State, xs: seq<int>)
    requires Resting(s, xs)
    ensures forall j :: 0 <= j < |s.locks| ==> s.locks[j] == None
  {
    forall j | 0 <= j < |s.locks|
      ensures s.locks[j] == None
    {
      assert forall a :: !HoldsLock(s, a, j);
    }
  }

  /** From rest, a sorter that has not quit takes its lock. */
  lemma TakeFirstLock(s: State, xs: seq<int>, i: nat) returns (s': State)
    requires Resting(s, xs) && i < |s.sorters| && !s.sorters[i].Done? && (s.quitting ==> s.sorters[i].Lock0?)
    ensures Inv(s', xs) && SorterSteps(s, s', i) && Reaches(s, s') && s'.sorters[i].Try1?
    ensures s'.list == s.list && s'.locks == s.locks[i := Some(Sorter(i))]
  {
    RestingLocks(s, xs);
    hide Accounted, SwapsFit, Reaches, Checked;
    var a := Sorter(i);
    var t := s;
    Stay(s);
    if s.sorters[i].Top? {
      InvStep(s, xs, a);
      t := Next(s, a);
      Stay(t);
      Before(s, a, t);
    }
    InvStep(t, xs, a);
    s' := Next(t, a);
    Stay(s');
    Before(t, a, s');
    Chain(s, t, s');
  }

  /** From rest, the sorter of a pair that is out of order can swap it. */
  lemma SwapPair(s: State, xs: seq<int>, i: nat) returns (s': State)
    requires Resting(s, xs) && !s.quitting && i < |s.sorters| && s.list[i] > s.list[i + 1]
    ensures Resting(s', xs) && Reaches(s, s') && s'.swaps > s.swaps && !s'.quitting && |s'.list| == |s.list|
  {
    RestingLocks(s, xs);
    var a := Sorter(i);
    assert !s.sorters[i].Done?;
    hide Accounted, SwapsFit, Reaches, Checked;
    var t := TakeFirstLock(s, xs, i);
    InvStep(t, xs, a);
    var u := Next(t, a);
    InvStep(u, xs, a);
    var v := Next(u, a);
    s' := GoHome(v, xs, i);
    Before(u, a, s');
    Before(t, a, s');
    Chain(s, t, s');
  }

  /** After quitting, a sorter at rest finds its way out. */
  lemma SorterLeaves(s: State, xs: seq<int>, i: nat) returns (s': State)
    requires Resting(s, xs) && s.quitting && i < |s.sorters|
    ensures Resting(s', xs) && SorterSteps(s, s', i) && Reaches(s, s') && s'.sorters[i].Done?
  {
    hide Accounted, SwapsFit, Reaches, Checked;
    var a := Sorter(i);
    if s.sorters[i].Done? {
      s' := s;
      Stay(s);
    } else {
      var t := s;
      Stay(s);
      if s.sorters[i].Lock0? {
        var u := TakeFirstLock(s, xs, i);
        t := GoHome(u, xs, i);
        Chain(s, u, t);
      }
      InvStep(t, xs, a);
      s' := Next(t, a);
      Stay(s');
      Before(t, a, s');
      Chain(s, t, s');
    }
  }

  lemma {:induction false} SortersLeave(s: State, xs: seq<int>, n: nat) returns (s': State)
    requires Resting(s, xs) && s.quitting && n <= |s.sorters|
    requires forall i :: n <= i < |s.sorters| ==> s.sorters[i].Done?
    ensures Resting(s', xs) && Reaches(s, s') && s'.quitting && forall i :: 0 <= i < |s'.sorters| ==>
        s'.sorters[i].Done?
    decreases n
  {
    hide Accounted, Checked, SwapsFit, Reaches;
    if n == 0 {
      s' := s;
      Stay(s);
    } else {
      var t := SorterLeaves(s, xs, n - 1);
      s' := SortersLeave(t, xs, n - 1);
      Chain(s, t, s');
    }
  }

  lemma Leave(s: State, xs: seq<int>) returns (s': State)
    requires Resting(s, xs) && s.quitting
    ensures Inv(s', xs) && Reaches(s, s') && AllDone(s')
  {
    s' := SortersLeave(s, xs, |s.sorters|);
    hide Accounted, Checked, SwapsFit, Reaches;
    if s'.checker.CTop? {
      var t := s';
      InvStep(t, xs, Checker);
      s' := Next(t, Checker);
      Stay(s');
      Before(t, Checker, s');
      Chain(s, t, s');
    }
  }

  /** On a sorted list the next round of the checker quits. */
  lemma CheckAndQuit(s: State, xs: seq<int>) returns (s': State)
    requires Resting(s, xs) && !s.quitting && Sorted(s.list)
    ensures Resting(s', xs) && Reaches(s, s') && s'.quitting
  {
    assert s.checker.CTop?;
    hide Accounted, Checked, SwapsFit, Reaches, Sorted;
    InvStep(s, xs, Checker);
    s' := CheckerGoesHome(Next(s, Checker), xs);
    Before(s, Checker, s');
  }

  lemma {:induction false} Finish(s: State, xs: seq<int>) returns (s': State)
    requires Resting(s, xs)
    ensures Inv(s', xs) && Reaches(s, s') && AllDone(s')
    decreases Inversions(xs) - s.swaps
  {
    if s.quitting {
      s' := Leave(s, xs);
    } else if Sorted(s.list) {
      var t := CheckAndQuit(s, xs);
      s' := Leave(t, xs);
      Chain(s, t, s');
    } else {
      var i :| 0 <= i < |s.list| - 1 && s.list[i] > s.list[i + 1];
      var t := SwapPair(s, xs, i);
      assert Inversions(xs) - t.swaps == Inversions(Logical(t));
      s' := Finish(t, xs);
      Chain(s, t, s');
    }
  }

  /**
   No run paints itself into a corner: every run can be continued to one in which all the threads have
   finished, and then the list is sorted.
  */
  lemma EveryRunCanFinish(xs: seq<int>, schedule: seq<Actor>) returns (rest: seq<Actor>)
    requires |xs| >= 1 && Runs(Init(xs), schedule)
    ensures Runs(Init(xs), schedule + rest)
    ensures var end := After(Init(xs), schedule + rest);
            Shape(end) && AllDone(end) && Sorted(end.list) && multiset(end.list) == multiset(xs)
  {
    InitInv(xs);
    InvRun(Init(xs), xs, schedule);
    var s := After(Init(xs), schedule);
    var t := AllGoHome(s, xs, |s.sorters|);
    var u := CheckerGoesHome(t, xs);
    var end := Finish(u, xs);
    Chain(s, t, u);
    Chain(s, u, end);
    rest :| Runs(s, rest) && After(s, rest) == end;
    RunsOn(Init(xs), schedule, rest);
    QuitsSorted(xs, schedule + rest);
  }
}
