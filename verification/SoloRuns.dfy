/** Runs on one kernel thread, call by call: what each call of the library does when nobody else moves. */
module SoloRuns {
  import opened Prelude
  import opened Machine
  import opened Placement

  ghost predicate Reaches(cfg: Config, s: State, s': State) {
    exists es :: Runs(cfg, s, es) && CleanRun(cfg, s, es) && After(cfg, s, es) == s'
  }

  lemma {:induction false} RunsThenOne(cfg: Config, s: State, es: seq<Event>, e: Event)
    requires Runs(cfg, s, es) && CleanRun(cfg, s, es) && Enabled(After(cfg, s, es), e) && CleanAt(After(cfg, s, es), e)
    ensures Runs(cfg, s, es + [e]) && CleanRun(cfg, s, es + [e])
    ensures After(cfg, s, es + [e]) == Next(cfg, After(cfg, s, es), e)
    decreases |es|
  {
    if es == [] {
      assert es + [e] == [e] && [e][1..] == [];
    } else {
      assert (es + [e])[1..] == es[1..] + [e] && (es + [e])[0] == es[0];
      RunsThenOne(cfg, Next(cfg, s, es[0]), es[1..], e);
    }
  }

  /** One more event at the end of a run. */
  lemma Hop(cfg: Config, s0: State, s: State, e: Event) returns (s': State)
    requires Reaches(cfg, s0, s) && Enabled(s, e) && CleanAt(s, e)
    ensures s' == Next(cfg, s, e) && Reaches(cfg, s0, s')
  {
    s' := Next(cfg, s, e);
    var es :| Runs(cfg, s0, es) && CleanRun(cfg, s0, es) && After(cfg, s0, es) == s;
    RunsThenOne(cfg, s0, es, e);
    assert After(cfg, s0, es + [e]) == s';
  }

  lemma {:induction false} RunsOn(cfg: Config, s: State, first: seq<Event>, rest: seq<Event>)
    requires Runs(cfg, s, first) && Runs(cfg, After(cfg, s, first), rest)
    ensures Runs(cfg, s, first + rest) && After(cfg, s, first + rest) == After(cfg, After(cfg, s, first), rest)
    decreases |first|
  {
    if first == [] {
      assert first + rest == rest;
    } else {
      assert (first + rest)[0] == first[0] && (first + rest)[1..] == first[1..] + rest;
      RunsOn(cfg, Next(cfg, s, first[0]), first[1..], rest);
    }
  }

  lemma Start(cfg: Config, s: State)
    ensures Reaches(cfg, s, s)
  {
    assert Runs(cfg, s, []) && CleanRun(cfg, s, []) && After(cfg, s, []) == s;
  }

  const FREE: map<Sem, Option<Kid>> := map[CondSem := None, MutexSem := None, QueueSem := None, KthreadSem := None]

  /** One kernel thread, at pc with thread th, no semaphore taken. */
  function One(d: Data, th: Tid, pc: Pc): State {
    State(d, map[1 := Kthread(th, pc)], 1, FREE, false)
  }

  /** One kernel thread. */
  function Solo(d: Data, kt: Kthread, sem: map<Sem, Option<Kid>>): State {
    State(d, map[1 := kt], 1, sem, false)
  }

  lemma Waited(cfg: Config, s0: State, d: Data, t: Tid, sec: Sec, sem: map<Sem, Option<Kid>>) returns (s': State)
    requires Reaches(cfg, s0, Solo(d, Kthread(t, Wait(sec)), sem))
    requires Needs(sec).Some? && Needs(sec).value in sem && sem[Needs(sec).value].None?
    ensures s' == Solo(d, Kthread(t, In(sec)), sem[Needs(sec).value := Some(1)]) && Reaches(cfg, s0, s')
  {
    hide Reaches;
    s' := Hop(cfg, s0, Solo(d, Kthread(t, Wait(sec)), sem), Go(1));
  }

  lemma Stepped(cfg: Config, s0: State, d: Data, t: Tid, sec: Sec, sem: map<Sem, Option<Kid>>) returns (s': State)
    requires Reaches(cfg, s0, Solo(d, Kthread(t, In(sec)), sem))
    requires Ready(d, t, sec) && !sec.Spawn? && !sec.TryLock? && !sec.Create?
    ensures var o := Section(cfg, d, map[1 := Kthread(t, In(sec))], t, sec);
            s' == Solo(o.d, o.kt, PostAll(sem, o.posts)) && Reaches(cfg, s0, s')
  {
    hide Reaches, Section, Ready, PostAll;
    s' := Hop(cfg, s0, Solo(d, Kthread(t, In(sec)), sem), Go(1));
  }

  lemma Entered(cfg: Config, s0: State, s: State, d: Data, th: Tid, sec: Sec) returns (s': State)
    requires Reaches(cfg, s0, s) && s == One(d, th, Wait(sec)) && Needs(sec).Some?
    ensures Reaches(cfg, s0, s')
    ensures s' == State(d, map[1 := Kthread(th, In(sec))], 1, FREE[Needs(sec).value := Some(1)], false)
  {
    hide Reaches;
    s' := Hop(cfg, s0, s, Go(1));
  }

  lemma Created(cfg: Config, s0: State, s: State, d: Data, t: Tid) returns (s': State)
    requires cfg.policy.UlOnly? && Reaches(cfg, s0, s) && s == One(d, t, User) && t in d.threads
    ensures Reaches(cfg, s0, s') && s' == One(CreateSection(cfg, d, t, 0).d, t, User)
  {
    hide Reaches;
    s' := Hop(cfg, s0, s, Call(1, Create(0)));
    s' := Hop(cfg, s0, s', Go(1));
    s' := Hop(cfg, s0, s', Go(1));
    assert s'.sem == FREE;
  }

  lemma Yielded(cfg: Config, s0: State, s: State, d: Data, t: Tid) returns (s': State)
    requires Reaches(cfg, s0, s) && s == One(d, t, User) && t in d.threads
    ensures Reaches(cfg, s0, s') && s' == One(Enqueue(Begin(d, t, Yield), t), t, Wait(Count))
  {
    hide Reaches, Begin, Enqueue;
    s' := Hop(cfg, s0, s, Call(1, Yield));
    s' := Hop(cfg, s0, s', Go(1));
    s' := Hop(cfg, s0, s', Go(1));
    assert s'.sem == FREE;
  }

  lemma LookedUp(cfg: Config, s0: State, s: State, d: Data, t: Tid, id: Tid) returns (s': State)
    requires Reaches(cfg, s0, s) && s == One(d, t, User) && t in d.threads
    ensures Reaches(cfg, s0, s')
    ensures s' == State(d, map[1 := Kthread(t, Wait(JoinSelf(id)))], 1, FREE[QueueSem := Some(1)], false)
  {
    hide Reaches;
    s' := Hop(cfg, s0, s, Call(1, Join(id)));
    s' := Entered(cfg, s0, s', d, t, Join(id));
    s' := Hop(cfg, s0, s', Go(1));
  }

  lemma Tested(cfg: Config, s0: State, s: State, d: Data, t: Tid, id: Tid) returns (s': State)
    requires Reaches(cfg, s0, s) && s == One(d, t, User) && t in d.threads && id in d.runQ.items
    ensures Reaches(cfg, s0, s') && s' == One(d, t, In(JoinTest(id, true)))
  {
    hide Reaches;
    s' := LookedUp(cfg, s0, s, d, t, id);
    s' := Hop(cfg, s0, s', Go(1));
    s' := Hop(cfg, s0, s', Go(1));
    assert s'.sem == FREE;
  }

  lemma StartsJoin(cfg: Config, s0: State, s: State, d: Data, t: Tid, id: Tid) returns (s': State)
    requires Reaches(cfg, s0, s) && s == One(d, t, In(JoinTest(id, true)))
    requires t in d.threads && id in d.threads && d.threads[id].state != Dead
    ensures Reaches(cfg, s0, s')
    ensures s' == One(Enqueue(SetThread(d, t, Thread(Waiting, id, ToUser)), t), t, Wait(Count))
  {
    hide Reaches, Enqueue;
    var d1 := SetThread(d, t, Thread(Waiting, id, ToUser));
    s' := Stepped(cfg, s0, d, t, JoinTest(id, true), FREE);
    assert PostAll(FREE, {}) == FREE;
    s' := Waited(cfg, s0, d1, t, JoinEnq, FREE);
    s' := Stepped(cfg, s0, d1, t, JoinEnq, FREE[QueueSem := Some(1)]);
    assert PostAll(FREE[QueueSem := Some(1)], {QueueSem}) == FREE;
  }

  lemma Scheduling(cfg: Config, s0: State, s: State, d: Data, th: Tid) returns (s': State)
    requires Reaches(cfg, s0, s) && s == One(d, th, Wait(Count)) && d.count != 0
    ensures Reaches(cfg, s0, s') && s' == One(d, th, Wait(Sched))
  {
    hide Reaches;
    s' := Entered(cfg, s0, s, d, th, Count);
    s' := Hop(cfg, s0, s', Go(1));
    assert s'.sem == FREE;
  }

  lemma Found(cfg: Config, s0: State, s: State, d: Data, th: Tid) returns (s': State)
    requires Reaches(cfg, s0, s) && s == One(d, th, Wait(Count)) && d.count != 0
    requires FirstActive(d.threads, d.runQ.items) < |d.runQ.items|
    ensures var i := FirstActive(d.threads, d.runQ.items);
            s' == One(d.(runQ := Remove(cfg, d.runQ, i)), th, Wait(Disp(d.runQ.items[i])))
    ensures Reaches(cfg, s0, s')
  {
    hide Reaches, FirstActive, Remove;
    s' := Scheduling(cfg, s0, s, d, th);
    s' := Entered(cfg, s0, s', d, th, Sched);
    s' := Hop(cfg, s0, s', Go(1));
    assert s'.sem == FREE;
  }

  lemma Dispatched(cfg: Config, s0: State, s: State, d: Data, th: Tid, t: Tid) returns (s': State)
    requires Reaches(cfg, s0, s) && s == One(d, th, Wait(Disp(t))) && t in d.threads && d.threads[t].resume == ToUser
    ensures Reaches(cfg, s0, s') && s' == One(d, t, User)
  {
    hide Reaches;
    s' := Hop(cfg, s0, s, Go(1));
    s' := Hop(cfg, s0, s', Go(1));
    assert s'.sem == FREE;
  }

  /** mypthread_exit: the kernel thread is left without a thread in hand. */
  lemma Exited(cfg: Config, s0: State, s: State, d: Data, t: Tid) returns (s': State)
    requires Reaches(cfg, s0, s) && s == One(d, t, User) && t in d.threads
    ensures Reaches(cfg, s0, s') && s' == One(ExitSection(d, t).d, t, Wait(Count))
  {
    hide Reaches, ExitSection;
    s' := Hop(cfg, s0, s, Call(1, Exit));
    s' := Entered(cfg, s0, s', d, t, Exit);
    ExitKthread(d, t);
    s' := Hop(cfg, s0, s', Go(1));
    assert s'.sem == FREE;
  }

  lemma ExitKthread(d: Data, t: Tid)
    requires t in d.threads
    ensures ExitSection(d, t).kt == Kthread(t, Wait(Count)) && ExitSection(d, t).posts == {QueueSem}
  {
  }

  /** mypthread_cond_wait up to the scheduler. */
  lemma Slept(cfg: Config, s0: State, s: State, d: Data, t: Tid, c: Cid, m: Mid) returns (s': State)
    requires Reaches(cfg, s0, s) && s == One(d, t, User) && t in d.threads && c in d.conds && m in d.mutexes
    ensures t in Release(d, m, t).threads && c in Release(d, m, t).conds
    ensures Reaches(cfg, s0, s') && s' == One(Enqueue(CwAddSection(Release(d, m, t), t, c, m).d, t), t, Wait(Count))
  {
    hide Reaches, Enqueue;
    s' := Released(cfg, s0, s, d, t, c, m);
    var d1 := Release(d, m, t);
    assert m in d1.mutexes;
    hide Release, Next, Enabled;
    var sem := FREE[CondSem := Some(1)];
    s' := Stepped(cfg, s0, d1, t, CwAdd(c, m), sem);
    assert PostAll(sem, {}) == sem;
    s' := Waited(cfg, s0, CwAddSection(d1, t, c, m).d, t, CwEnq, sem);
    s' := Stepped(cfg, s0, CwAddSection(d1, t, c, m).d, t, CwEnq, sem[QueueSem := Some(1)]);
    assert PostAll(sem[QueueSem := Some(1)], {QueueSem, CondSem}) == FREE;
  }

  lemma Released(cfg: Config, s0: State, s: State, d: Data, t: Tid, c: Cid, m: Mid) returns (s': State)
    requires Reaches(cfg, s0, s) && s == One(d, t, User) && t in d.threads && c in d.conds && m in d.mutexes
    ensures t in Release(d, m, t).threads && c in Release(d, m, t).conds
    ensures Reaches(cfg, s0, s') && s' == Solo(Release(d, m, t), Kthread(t, In(CwAdd(c, m))), FREE[CondSem := Some(1)])
  {
    hide Reaches;
    s' := Hop(cfg, s0, s, Call(1, CondWait(c, m)));
    assert s' == Solo(d, Kthread(t, Wait(CondWait(c, m))), FREE);
    hide Release, Next, Enabled;
    var sem := FREE[CondSem := Some(1)];
    s' := Waited(cfg, s0, d, t, CondWait(c, m), FREE);
    s' := Stepped(cfg, s0, d, t, CondWait(c, m), sem);
    assert PostAll(sem, {}) == sem;
    s' := Waited(cfg, s0, d, t, CwUnlock(c, m), sem);
    s' := Stepped(cfg, s0, d, t, CwUnlock(c, m), sem[MutexSem := Some(1)]);
    assert PostAll(sem[MutexSem := Some(1)], {MutexSem}) == sem;
  }

  /** From the scheduler to the user code of the first ACTIVE thread. */
  lemma Switched(cfg: Config, s0: State, s: State, d: Data, th: Tid, i: nat) returns (s': State)
    requires Reaches(cfg, s0, s) && s == One(d, th, Wait(Count)) && d.count != 0
    requires i < |d.runQ.items| && i == FirstActive(d.threads, d.runQ.items)
    requires d.runQ.items[i] in d.threads && d.threads[d.runQ.items[i]].resume == ToUser
    ensures Reaches(cfg, s0, s') && s' == One(d.(runQ := Remove(cfg, d.runQ, i)), d.runQ.items[i], User)
  {
    hide Reaches, FirstActive, Remove;
    s' := Found(cfg, s0, s, d, th);
    s' := Dispatched(cfg, s0, s', s'.d, th, d.runQ.items[i]);
  }
}
