/** Concrete runs, of the shipped and of the repaired code, in which a property fails that holds under a condition. */
module Mishaps {
  import opened Prelude
  import opened Machine
  import opened SoloRuns

  // The text of the repository under the ULONLY policy.
  const SHIPPED := Config(UlOnly, false, false)

  /** The only kernel thread, in user code of thread 1, with nothing held. */
  ghost predicate MainRuns(s: State) {
    s.sem == FREE && s.kthreads == map[1 := Kthread(1, User)] && 1 in s.d.threads
  }

  lemma LockIt(s0: State) returns (s: State)
    requires s0 == Init({1}, {})
    ensures Reaches(SHIPPED, s0, s) && MainRuns(s) && 1 in s.d.mutexes && s.d.mutexes[1].locked
  {
    hide Reaches;
    Start(SHIPPED, s0);
    s := Hop(SHIPPED, s0, s0, Call(1, Lock(1)));
    s := Hop(SHIPPED, s0, s, Go(1));
    s := Hop(SHIPPED, s0, s, Go(1));
  }

  /** lock(1); trylock(1); unlock(1) on one kernel thread: nothing can happen any more. */
  lemma TrylockWedgesTheProcess() returns (s: State)
    ensures Reaches(SHIPPED, Init({1}, {}), s)
    ensures forall e :: !Enabled(s, e)
  {
    hide Reaches;
    var s0 := Init({1}, {});
    s := LockIt(s0);
    s := Hop(SHIPPED, s0, s, Call(1, TryLock(1)));
    s := Hop(SHIPPED, s0, s, Go(1));
    s := Hop(SHIPPED, s0, s, Go(1));
    s := Hop(SHIPPED, s0, s, Call(1, Unlock(1)));
    assert s.sem[MutexSem] == Some(1) && s.kthreads == map[1 := Kthread(1, Wait(Unlock(1)))];
  }

  // -------------------------------------------------------------------- a thread gets lost

  /** Main creates a thread and joins it; the thread yields twice. Its second yield loses it. */
  lemma SecondYieldLosesTheThread() returns (s: State)
    ensures Reaches(SHIPPED, Init({}, {}), s)
    ensures 2 in s.d.threads && s.d.threads[2].state == Active && s.d.lost == {2}
    ensures s.d.runQ.items == [1] && 1 in s.d.threads && s.d.threads[1] == Thread(Waiting, 2, ToUser)
    ensures s.kthreads == map[1 := Kthread(2, Wait(Count))]
  {
    var s0 := Init({}, {});
    var d := s0.d;
    Start(SHIPPED, s0);
    assert s0 == One(d, 1, User);
    s := Created(SHIPPED, s0, s0, d, 1);
    d := s.d;
    assert d.runQ == RunQueue([2], true) && d.threads[2] == Thread(Active, 0, ToUser) && d.lost == {} && d.count == 2;
    s := Tested(SHIPPED, s0, s, d, 1, 2);
    s := StartsJoin(SHIPPED, s0, s, d, 1, 2);
    d := s.d;
    assert d.runQ == RunQueue([2, 1], true);
    assert d.threads[1] == Thread(Waiting, 2, ToUser) && d.threads[2].state == Active;
    s := TakenIn(s0, s, d, 1);
  }

  lemma TakenIn(s0: State, s: State, d: Data, th: Tid) returns (s': State)
    requires Reaches(SHIPPED, s0, s) && s == One(d, th, Wait(Count)) && d.count == 2 && d.lost == {}
    requires d.runQ == RunQueue([2, 1], true) && {1, 2} <= d.threads.Keys
    requires d.threads[1] == Thread(Waiting, 2, ToUser) && d.threads[2] == Thread(Active, 0, ToUser)
    ensures Reaches(SHIPPED, s0, s') && s'.d.lost == {2} && s'.kthreads == map[1 := Kthread(2, Wait(Count))]
    ensures s'.d.runQ.items == [1] && s'.d.threads == d.threads
  {
    hide Reaches;
    s' := Found(SHIPPED, s0, s, d, th);
    var d1 := s'.d;
    assert d1.runQ == RunQueue([1], true);
    s' := Dispatched(SHIPPED, s0, s', d1, th, 2);
    s' := Yielded(SHIPPED, s0, s', d1, 2);
    var d2 := s'.d;
    assert d2.threads == d.threads;
    assert d2.runQ == RunQueue([1, 2], true);
    assert FirstActive(d2.threads, d2.runQ.items) == 1 by {
      assert d2.runQ.items[1..] == [2];
    }
    s' := Found(SHIPPED, s0, s', d2, 2);
    var d3 := s'.d;
    assert d3.runQ == RunQueue([1], false);
    s' := Dispatched(SHIPPED, s0, s', d3, 2, 2);
    s' := Yielded(SHIPPED, s0, s', d3, 2);
    assert s'.d.threads == d.threads;
  }

  // -------------------------------------------------------------------- a join that never returns

  // Both repairs made, a kernel thread for every thread.
  const REPAIRED := Config(KlAlways, true, true)

  /** Two kernel threads, no semaphore taken. */
  function Two(d: Data, kt1: Kthread, kt2: Kthread): State {
    State(d, map[1 := kt1, 2 := kt2], 2, FREE, false)
  }

  const DATA1 := Data(map[1 := Thread(Running, 0, ToUser)], 1, 1, RunQueue([], true), {}, map[], map[])
  const BOTH: map<Tid, Thread> := map[1 := Thread(Running, 0, ToUser), 2 := Thread(Active, 0, ToUser)]
  const DATA2 := Data(BOTH, 2, 2, RunQueue([2], true), {}, map[], map[])
  const DATA3 := DATA2.(runQ := RunQueue([], true))
  const DATA4 := DATA3.(threads := BOTH[2 := Thread(Dead, 0, ToUser)], count := 1)

  lemma MainCreates(s0: State) returns (s: State)
    requires s0 == Init({}, {})
    ensures Reaches(REPAIRED, s0, s) && s == Two(DATA2, Kthread(1, User), Kthread(0, Wait(Count)))
  {
    hide Reaches;
    Start(REPAIRED, s0);
    assert s0 == State(DATA1, map[1 := Kthread(1, User)], 1, FREE, false);
    s := Hop(REPAIRED, s0, s0, Call(1, Create(0)));
    s := Hop(REPAIRED, s0, s, Go(1));
    s := Hop(REPAIRED, s0, s, Go(1));
    assert s == State(DATA2, map[1 := Kthread(1, Wait(Spawn))], 1, FREE, false);
    s := Spawned(s0, s);
  }

  lemma Spawned(s0: State, s: State) returns (s': State)
    requires Reaches(REPAIRED, s0, s) && s == State(DATA2, map[1 := Kthread(1, Wait(Spawn))], 1, FREE, false)
    ensures Reaches(REPAIRED, s0, s') && s' == Two(DATA2, Kthread(1, User), Kthread(0, Wait(Count)))
  {
    hide Reaches;
    s' := Hop(REPAIRED, s0, s, Go(1));
    s' := Hop(REPAIRED, s0, s', Go(1));
    assert s'.sem == FREE && s'.kthreads == map[1 := Kthread(1, User), 2 := Kthread(0, Wait(Count))];
  }

  lemma SecondCounts(s0: State, s: State) returns (s': State)
    requires Reaches(REPAIRED, s0, s) && s == Two(DATA2, Kthread(1, User), Kthread(0, Wait(Count)))
    ensures Reaches(REPAIRED, s0, s') && s' == Two(DATA2, Kthread(1, User), Kthread(0, Wait(Sched)))
  {
    hide Reaches;
    s' := Hop(REPAIRED, s0, s, Go(2));
    s' := Hop(REPAIRED, s0, s', Go(2));
    assert s'.sem == FREE;
  }

  lemma SecondFinds(s0: State, s: State) returns (s': State)
    requires Reaches(REPAIRED, s0, s) && s == Two(DATA2, Kthread(1, User), Kthread(0, Wait(Sched)))
    ensures Reaches(REPAIRED, s0, s') && s' == Two(DATA3, Kthread(1, User), Kthread(0, Wait(Disp(2))))
  {
    hide Reaches;
    s' := Hop(REPAIRED, s0, s, Go(2));
    s' := Hop(REPAIRED, s0, s', Go(2));
    assert s'.sem == FREE;
  }

  lemma SecondRuns(s0: State, s: State) returns (s': State)
    requires Reaches(REPAIRED, s0, s) && s == Two(DATA3, Kthread(1, User), Kthread(0, Wait(Disp(2))))
    ensures Reaches(REPAIRED, s0, s') && s' == Two(DATA3, Kthread(1, User), Kthread(2, User))
  {
    hide Reaches;
    s' := Hop(REPAIRED, s0, s, Go(2));
    s' := Hop(REPAIRED, s0, s', Go(2));
    assert s'.sem == FREE;
  }

  lemma SecondExits(s0: State, s: State) returns (s': State)
    requires Reaches(REPAIRED, s0, s) && s == Two(DATA3, Kthread(1, User), Kthread(2, User))
    ensures Reaches(REPAIRED, s0, s') && s' == Two(DATA4, Kthread(1, User), Kthread(2, Wait(Count)))
  {
    hide Reaches;
    s' := Hop(REPAIRED, s0, s, Call(2, Exit));
    s' := Hop(REPAIRED, s0, s', Go(2));
    s' := Hop(REPAIRED, s0, s', Go(2));
    assert s'.d.threads == DATA4.threads && s'.sem == FREE;
  }

  lemma MainCallsJoin(s0: State, s: State, d: Data, kt2: Kthread) returns (s': State)
    requires Reaches(REPAIRED, s0, s) && s == Two(d, Kthread(1, User), kt2) && 1 in d.threads
    ensures Reaches(REPAIRED, s0, s') && s' == Two(d, Kthread(1, Wait(Join(2))), kt2)
  {
    hide Reaches;
    s' := Hop(REPAIRED, s0, s, Call(1, Join(2)));
  }

  lemma MainLooksUp(s0: State, s: State, d: Data, kt2: Kthread) returns (s': State)
    requires Reaches(REPAIRED, s0, s) && s == Two(d, Kthread(1, User), kt2) && 1 in d.threads
    ensures Reaches(REPAIRED, s0, s')
    ensures s' == Two(d, Kthread(1, Wait(JoinSelf(2))), kt2).(sem := FREE[QueueSem := Some(1)])
  {
    hide Reaches;
    s' := MainCallsJoin(s0, s, d, kt2);
    s' := Hop(REPAIRED, s0, s', Go(1));
    s' := Hop(REPAIRED, s0, s', Go(1));
  }

  lemma MainTests(s0: State, s: State, d: Data, kt2: Kthread) returns (s': State)
    requires s == Two(d, Kthread(1, Wait(JoinSelf(2))), kt2).(sem := FREE[QueueSem := Some(1)])
    requires Reaches(REPAIRED, s0, s) && 2 !in d.runQ.items
    ensures Reaches(REPAIRED, s0, s') && s' == Two(d, Kthread(1, In(JoinTest(2, false))), kt2)
  {
    hide Reaches;
    s' := Hop(REPAIRED, s0, s, Go(1));
    s' := Hop(REPAIRED, s0, s', Go(1));
    assert s'.sem == FREE;
  }

  lemma MainWaits(s0: State, s: State) returns (s': State)
    requires Reaches(REPAIRED, s0, s) && s == Two(DATA4, Kthread(1, In(JoinTest(2, false))), Kthread(2, Wait(Count)))
    ensures Reaches(REPAIRED, s0, s') && s'.d == SetThread(DATA4, 1, Thread(Waiting, 2, ToUser))
  {
    hide Reaches;
    assert 2 in s.kthreads && s.kthreads[2].th == 2;
    s' := Hop(REPAIRED, s0, s, Go(1));
  }

  /** Main joins a thread that has exited but whose kernel thread still names it: main waits for the dead. */
  lemma JoinWaitsForTheDead() returns (s: State)
    ensures Reaches(REPAIRED, Init({}, {}), s)
    ensures 1 in s.d.threads && s.d.threads[1] == Thread(Waiting, 2, ToUser)
    ensures 2 in s.d.threads && s.d.threads[2].state == Dead
  {
    hide Reaches, Init;
    var s0 := Init({}, {});
    s := MainCreates(s0);
    s := SecondCounts(s0, s);
    s := SecondFinds(s0, s);
    s := SecondRuns(s0, s);
    s := SecondExits(s0, s);
    s := MainLooksUp(s0, s, DATA4, Kthread(2, Wait(Count)));
    s := MainTests(s0, s, DATA4, Kthread(2, Wait(Count)));
    s := MainWaits(s0, s);
  }

  // -------------------------------------------------------------------- a join that returns too early

  /**
   Main joins a thread that the other kernel thread has just taken out of the run queue: the join returns, and
   the thread has not even begun.
  */
  lemma JoinReturnsTooEarly() returns (s: State)
    ensures Reaches(REPAIRED, Init({}, {}), s)
    ensures s.kthreads == map[1 := Kthread(1, User), 2 := Kthread(0, Wait(Disp(2)))]
    ensures 2 in s.d.threads && s.d.threads[2].state == Active && s.d == DATA3
  {
    hide Reaches, Init;
    var s0 := Init({}, {});
    s := MainCreates(s0);
    s := SecondCounts(s0, s);
    s := SecondFinds(s0, s);
    var kt2 := Kthread(0, Wait(Disp(2)));
    s := MainLooksUp(s0, s, DATA3, kt2);
    s := MainTests(s0, s, DATA3, kt2);
    s := Hop(REPAIRED, s0, s, Go(1));
    assert s.kthreads == map[1 := Kthread(1, User), 2 := kt2];
  }

  // -------------------------------------------------------------------- an exit in the middle of a join

  // Main waits, and is not in the run queue yet; then thread 2 is dead; then main is in the run queue.
  const DATA5 := DATA3.(threads := BOTH[1 := Thread(Waiting, 2, ToUser)])
  const DATA6 := DATA5.(threads := DATA5.threads[2 := Thread(Dead, 0, ToUser)], count := 1)

  lemma MainMarksItself(s0: State, s: State) returns (s': State)
    requires Reaches(REPAIRED, s0, s) && s == Two(DATA3, Kthread(1, In(JoinTest(2, false))), Kthread(2, User))
    ensures Reaches(REPAIRED, s0, s') && s' == Two(DATA5, Kthread(1, Wait(JoinEnq)), Kthread(2, User))
  {
    hide Reaches;
    assert 2 in s.kthreads && s.kthreads[2].th == 2;
    s' := Hop(REPAIRED, s0, s, Go(1));
    assert s'.sem == FREE;
  }

  lemma ExitFindsNobody(s0: State, s: State) returns (s': State)
    requires Reaches(REPAIRED, s0, s) && s == Two(DATA5, Kthread(1, Wait(JoinEnq)), Kthread(2, User))
    ensures Reaches(REPAIRED, s0, s') && s' == Two(DATA6, Kthread(1, Wait(JoinEnq)), Kthread(2, Wait(Count)))
  {
    hide Reaches;
    s' := Hop(REPAIRED, s0, s, Call(2, Exit));
    s' := Hop(REPAIRED, s0, s', Go(2));
    s' := Hop(REPAIRED, s0, s', Go(2));
    assert s'.d.threads == DATA6.threads && s'.sem == FREE;
  }

  /**
   Main has tested its target, and the target exits before main is in the run queue: its exit walks over a
   queue without main, which lines up behind it and waits for the dead.
  */
  lemma ExitMissesTheJoiner() returns (s: State)
    ensures Reaches(REPAIRED, Init({}, {}), s)
    ensures s.d.runQ.items == [1] && 1 in s.d.threads && s.d.threads[1] == Thread(Waiting, 2, ToUser)
    ensures 2 in s.d.threads && s.d.threads[2].state == Dead
  {
    hide Reaches, Init;
    var s0 := Init({}, {});
    s := MainCreates(s0);
    s := SecondCounts(s0, s);
    s := SecondFinds(s0, s);
    s := SecondRuns(s0, s);
    s := MainLooksUp(s0, s, DATA3, Kthread(2, User));
    s := MainTests(s0, s, DATA3, Kthread(2, User));
    s := MainMarksItself(s0, s);
    s := ExitFindsNobody(s0, s);
    s := Hop(REPAIRED, s0, s, Go(1));
    s := Hop(REPAIRED, s0, s, Go(1));
  }
}
