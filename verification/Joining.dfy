/** mypthread_join and mypthread_exit: who is woken, and who waits for a thread that is already gone. */
module Joining {
  import opened Machine
  import opened Semaphores
  import opened Placement
  import opened Whereabouts

  predicate AwaitsExit(d: Data, t: Tid) { t in d.threads && d.threads[t].state == Waiting }

  /** Thread t waits for a thread that has already exited. */
  predicate Stranded(d: Data, t: Tid) {
    AwaitsExit(d, t) && d.threads[t].dep in d.threads && d.threads[d.threads[t].dep].state == Dead
  }

  /** The event is the exit section of thread id. */
  predicate IsExitOf(s: State, e: Event, id: Tid) {
    e.Go? && e.k in s.kthreads && s.kthreads[e.k] == Kthread(id, In(Exit))
  }

  lemma WaitingOffLists(d: Data, w: Spots, t: Tid)
    requires DataInv(d, w) && AwaitsExit(d, t)
    ensures t in w && w[t].list == NoList && !w[t].place.Gone? && t != d.gen + 1 && 1 <= t <= d.gen
    ensures forall m :: m in d.mutexes ==> t !in d.mutexes[m].blocked
    ensures forall c :: c in d.conds ==> t !in d.conds[c]
    ensures t in d.runQ.items <==> w[t].place == Queued
  {
    assert Consistent(d.threads[t].state, w[t]);
  }

  /** Of the other threads' sections only the exit of dep touches a waiting thread. */
  lemma SectionOnWaiting(cfg: Config, d: Data, w: Spots, kthreads: map<Kid, Kthread>, self: Tid, sec: Sec, t: Tid)
    requires DataInv(d, w) && Ready(d, self, sec) && AwaitsExit(d, t) && (t == self ==> IsPassive(sec))
    ensures var d' := Section(cfg, d, kthreads, self, sec).d;
            && t in d'.threads
            && d'.threads[t] == (if sec.Exit? && d.threads[t].dep == self && t in d.runQ.items
                                 then d.threads[t].(state := Active) else d.threads[t])
  {
    WaitingOffLists(d, w, t);
    hide DataInv, FirstActive, Remove, IsRunning;
  }

  /** Sections that do not write the state of their own thread. */
  predicate IsPassive(sec: Sec) {
    !sec.Exit? && !sec.JoinTest? && !sec.Lock? && !sec.CwAdd?
  }

  lemma WaitingIsElsewhere(s: State, w: Spots, k: Kid, t: Tid)
    requires Inv(s, w) && k in s.kthreads && AwaitsExit(s.d, t) && s.kthreads[k].th == t
    ensures s.kthreads[k].pc.In? ==> IsPassive(s.kthreads[k].pc.sec)
    ensures !s.kthreads[k].pc.User?
  {
    assert Housed(s.d, w, k, s.kthreads[k]);
    hide SemsHeld, DataInv;
  }

  /**
   A waiting thread becomes ACTIVE at the exit of the thread it joined, if it is in the run queue by then, and
   at no other event, whatever the rest of the system does.
  */
  lemma WokenExactlyAtExit(cfg: Config, s: State, w: Spots, e: Event, t: Tid)
    requires Inv(s, w) && Enabled(s, e) && AwaitsExit(s.d, t)
    ensures var d' := Next(cfg, s, e).d;
            && t in d'.threads
            && d'.threads[t].dep == s.d.threads[t].dep
            && d'.threads[t].state ==
                 (if IsExitOf(s, e, s.d.threads[t].dep) && t in s.d.runQ.items then Active else Waiting)
  {
    hide SemsHeld, DataInv, Section;
    var kt := s.kthreads[e.k];
    if kt.th == t {
      WaitingIsElsewhere(s, w, e.k, t);
    }
    if e.Go? && kt.pc.In? {
      SectionOnWaiting(cfg, s.d, w, s.kthreads, kt.th, kt.pc.sec, t);
    }
    hide Inv;
  }

  /** An exit leaves every BLOCKED thread alone, even one whose dependent_th is still set from an old join. */
  lemma ExitLeavesBlockedAlone(d: Data, w: Spots, self: Tid, t: Tid)
    requires DataInv(d, w) && self in d.threads && d.threads[self].state != Dead
    requires t in d.threads && t != self && d.threads[t].state == Blocked
    ensures ExitSection(d, self).d.threads[t] == d.threads[t]
  {
    if t in d.runQ.items && d.threads[t].dep == self {
      ExitWakesWaiting(d.threads, d.runQ.items, self, t);
      assert false;
    }
  }

  // -------------------------------------------------------------------- waiting for a dead thread

  /** The join test passes although the target is dead: some kernel thread has not moved on from it. */
  predicate JoinsTheDead(s: State, e: Event, t: Tid) {
    && e.Go? && e.k in s.kthreads && s.kthreads[e.k].th == t && s.kthreads[e.k].pc.In?
    && var sec := s.kthreads[e.k].pc.sec;
       sec.JoinTest? && !sec.found && IsRunning(s.kthreads, sec.id)
       && sec.id in s.d.threads && s.d.threads[sec.id].state == Dead
  }

  /** The target exits after the test of join and before the waiting thread is in the run queue. */
  predicate ExitsTooEarly(s: State, e: Event, t: Tid) {
    AwaitsExit(s.d, t) && IsExitOf(s, e, s.d.threads[t].dep) && t !in s.d.runQ.items
  }

  /** Threads that are not waiting start to wait only in the test of join. */
  lemma SectionStartsWaiting(cfg: Config, d: Data, w: Spots, kthreads: map<Kid, Kthread>, k: Kid, self: Tid,
      sec: Sec, t: Tid)
    requires Here(d, w, k, self, sec) && !AwaitsExit(d, t)
    ensures var d' := Section(cfg, d, kthreads, self, sec).d;
            AwaitsExit(d', t) ==>
              && t == self && sec.JoinTest? && d' == SetThread(d, self, Thread(Waiting, sec.id, ToUser))
              && (if sec.found then sec.id in d.threads && d.threads[sec.id].state != Dead
                  else IsRunning(kthreads, sec.id))
  {
    hide DataInv, FirstActive, Remove, IsRunning;
  }

  lemma HandNotQueued(d: Data, w: Spots, t: Tid)
    requires DataInv(d, w) && t in w && w[t].place.On?
    ensures t !in d.runQ.items
  {
    hide Listed, Stated, Joined;
  }

  lemma DeadUnmoved(cfg: Config, d: Data, kthreads: map<Kid, Kthread>, self: Tid, sec: Sec, t: Tid)
    requires Ready(d, self, sec) && t in d.threads && t <= d.gen
    requires OwnsSelf(sec) ==> self in d.threads && d.threads[self].state != Dead && self !in d.runQ.items
    requires d.threads[t].state == Dead ==>
               && t !in d.runQ.items
               && (forall m :: m in d.mutexes ==> t !in d.mutexes[m].blocked)
               && (forall c :: c in d.conds ==> t !in d.conds[c])
    ensures var d' := Section(cfg, d, kthreads, self, sec).d;
            t in d'.threads && (d'.threads[t].state == Dead <==> d.threads[t].state == Dead || (sec.Exit? && t == self))
  {
    hide FirstActive, Remove, IsRunning, Append;
  }

  /** The dead stay dead, and only an exit makes a thread dead. */
  lemma SectionOnDead(cfg: Config, d: Data, w: Spots, kthreads: map<Kid, Kthread>, k: Kid, self: Tid, sec: Sec, t: Tid)
    requires Here(d, w, k, self, sec) && t in d.threads
    ensures var d' := Section(cfg, d, kthreads, self, sec).d;
            t in d'.threads && (d'.threads[t].state == Dead <==> d.threads[t].state == Dead || (sec.Exit? && t == self))
  {
    assert DataInv(d, w) && Ready(d, self, sec);
    hide DataInv, Here, Section, Ready;
    if OwnsSelf(sec) {
      SelfInHand(d, w, k, self, sec);
      HandNotQueued(d, w, self);
    }
    DeadOffLists(d, w, t);
    DeadUnmoved(cfg, d, kthreads, self, sec, t);
  }

  /** So a dependent_th that names a dead thread at the call of create is still harmless at the create itself. */
  lemma {:induction false} DeadStayDead(cfg: Config, s: State, w: Spots, es: seq<Event>, t: Tid)
    requires Inv(s, w) && Runs(cfg, s, es) && CleanRun(cfg, s, es) && t in s.d.threads && s.d.threads[t].state == Dead
    ensures Harmless(After(cfg, s, es).d, t)
    decreases |es|
  {
    hide Inv;
    if es != [] {
      var w1 := InvStep(cfg, s, w, es[0]);
      DeadStep(cfg, s, w, es[0], t);
      hide Next;
      DeadStayDead(cfg, Next(cfg, s, es[0]), w1, es[1..], t);
    }
  }

  lemma DeadStep(cfg: Config, s: State, w: Spots, e: Event, t: Tid)
    requires Inv(s, w) && Enabled(s, e) && t in s.d.threads && s.d.threads[t].state == Dead
    ensures t in Next(cfg, s, e).d.threads && Next(cfg, s, e).d.threads[t].state == Dead
  {
    var kt := s.kthreads[e.k];
    if e.Go? && kt.pc.In? {
      HandOf(s, w, e.k);
      SectionOnDead(cfg, s.d, w, s.kthreads, e.k, kt.th, kt.pc.sec, t);
    } else if e.Call? {
      UserHand(s, w, e.k);
      assert Consistent(s.d.threads[t].state, w[t]);
    }
    hide Section, Inv, DataInv;
  }

  lemma DeadOffLists(d: Data, w: Spots, t: Tid)
    requires DataInv(d, w) && t in d.threads
    ensures 1 <= t <= d.gen
    ensures d.threads[t].state == Dead ==>
              && t !in d.runQ.items
              && (forall m :: m in d.mutexes ==> t !in d.mutexes[m].blocked)
              && (forall c :: c in d.conds ==> t !in d.conds[c])
  {
    assert t in w && Consistent(d.threads[t].state, w[t]);
  }

  lemma WaitingNamesAThread(d: Data, w: Spots, t: Tid)
    requires DataInv(d, w) && AwaitsExit(d, t)
    ensures d.threads[t].dep in d.threads
    ensures 0 !in d.threads
  {
  }

  lemma SectionStrands(cfg: Config, s: State, w: Spots, k: Kid, t: Tid)
    requires Inv(s, w) && Enabled(s, Go(k)) && s.kthreads[k].pc.In? && !Stranded(s.d, t)
    requires 0 !in Next(cfg, s, Go(k)).d.threads
    ensures Stranded(Next(cfg, s, Go(k)).d, t) <==> JoinsTheDead(s, Go(k), t) || ExitsTooEarly(s, Go(k), t)
  {
    var kt := s.kthreads[k];
    var sec := kt.pc.sec;
    var d := s.d;
    HandOf(s, w, k);
    SectionSound(s, w, k);
    if !AwaitsExit(d, t) {
      StrandsTester(cfg, s, w, k, t);
    } else {
      if kt.th == t {
        WaitingIsElsewhere(s, w, k, t);
      }
      WaitingNamesAThread(d, w, t);
      SectionOnWaiting(cfg, d, w, s.kthreads, kt.th, sec, t);
      var dep := d.threads[t].dep;
      if dep in d.threads {
        SectionOnDead(cfg, d, w, s.kthreads, k, kt.th, sec, dep);
      }
      hide Inv, Here, Section, Sound;
    }
  }

  lemma StrandsTester(cfg: Config, s: State, w: Spots, k: Kid, t: Tid)
    requires Inv(s, w) && Enabled(s, Go(k)) && s.kthreads[k].pc.In? && !AwaitsExit(s.d, t)
    requires Here(s.d, w, k, s.kthreads[k].th, s.kthreads[k].pc.sec) && Sound(s.d, w, s.kthreads, s.kthreads[k].pc.sec)
    ensures Stranded(Next(cfg, s, Go(k)).d, t) <==> JoinsTheDead(s, Go(k), t) || ExitsTooEarly(s, Go(k), t)
  {
    var kt := s.kthreads[k];
    var d' := Next(cfg, s, Go(k)).d;
    SectionStartsWaiting(cfg, s.d, w, s.kthreads, k, kt.th, kt.pc.sec, t);
    if JoinsTheDead(s, Go(k), t) {
      assert d' == SetThread(s.d, t, Thread(Waiting, kt.pc.sec.id, ToUser));
      assert s.d.threads[t].state != Dead by {
        SelfInHand(s.d, w, k, kt.th, kt.pc.sec);
      }
    }
    hide Inv, Here, Section;
  }

  lemma NoThreadZero(cfg: Config, s: State, w: Spots, e: Event)
    requires Inv(s, w) && Enabled(s, e) && CleanAt(s, e)
    ensures 0 !in Next(cfg, s, e).d.threads
  {
    var w' := InvStep(cfg, s, w, e);
    hide Next, SemsHeld, Filed, Listed, Joined;
  }

  /**
   The two ways in which a thread comes to wait for a thread that is already gone, and there is no third.
   Neither is excluded by the shipped code when there is more than one kernel thread.
  */
  lemma StrandedExactly(cfg: Config, s: State, w: Spots, e: Event, t: Tid)
    requires Inv(s, w) && Enabled(s, e) && CleanAt(s, e) && !Stranded(s.d, t)
    ensures Stranded(Next(cfg, s, e).d, t) <==> JoinsTheDead(s, e, t) || ExitsTooEarly(s, e, t)
  {
    hide Inv;
    NoThreadZero(cfg, s, w, e);
    if e.Go? && s.kthreads[e.k].pc.In? {
      SectionStrands(cfg, s, w, e.k, t);
      hide Section;
    } else {
      hide Section;
    }
  }

  lemma TheDeadDoNotExit(s: State, w: Spots, k: Kid)
    requires Inv(s, w) && k in s.kthreads && s.kthreads[k].pc == In(Exit)
    ensures s.kthreads[k].th in s.d.threads && s.d.threads[s.kthreads[k].th].state != Dead
  {
    assert Housed(s.d, w, k, s.kthreads[k]);
    hide SemsHeld, DataInv;
  }

  /** And once it is so it stays so: such a thread waits for ever. */
  lemma StrandedForEver(cfg: Config, s: State, w: Spots, e: Event, t: Tid)
    requires Inv(s, w) && Enabled(s, e) && CleanAt(s, e) && Stranded(s.d, t)
    ensures Stranded(Next(cfg, s, e).d, t)
  {
    hide Inv, Next, Enabled, CleanAt;
    WokenExactlyAtExit(cfg, s, w, e, t);
    DeadStep(cfg, s, w, e, s.d.threads[t].dep);
    if IsExitOf(s, e, s.d.threads[t].dep) {
      TheDeadDoNotExit(s, w, e.k);
    }
  }

  predicate Strands(s: State, e: Event, t: Tid) { JoinsTheDead(s, e, t) || ExitsTooEarly(s, e, t) }

  predicate HasStranding(cfg: Config, s: State, es: seq<Event>, t: Tid)
    requires Runs(cfg, s, es)
    decreases |es|
  {
    es != [] && (Strands(s, es[0], t) || HasStranding(cfg, Next(cfg, s, es[0]), es[1..], t))
  }

  /** The runs at whose end a thread waits for a dead one: exactly those with one of the two events. */
  lemma {:induction false} StrandedRunExactly(cfg: Config, s: State, w: Spots, es: seq<Event>, t: Tid)
    requires Inv(s, w) && Runs(cfg, s, es) && CleanRun(cfg, s, es)
    ensures Stranded(After(cfg, s, es).d, t) <==> Stranded(s.d, t) || HasStranding(cfg, s, es, t)
    decreases |es|
  {
    hide Inv, Stranded;
    if es != [] {
      var w1 := InvStep(cfg, s, w, es[0]);
      if Stranded(s.d, t) {
        StrandedForEver(cfg, s, w, es[0], t);
      } else {
        StrandedExactly(cfg, s, w, es[0], t);
      }
      hide Next, Enabled, CleanAt, Strands;
      StrandedRunExactly(cfg, Next(cfg, s, es[0]), w1, es[1..], t);
    }
  }

  // -------------------------------------------------------------------- one kernel thread

  /** Under ULONLY there is one kernel thread and none is about to be created. */
  ghost predicate Alone(s: State) {
    && (forall k :: k in s.kthreads <==> k == 1)
    && (s.kthreads[1].pc.Wait? || s.kthreads[1].pc.In? ==> !s.kthreads[1].pc.sec.Spawn?)
  }

  lemma AloneStep(cfg: Config, s: State, e: Event)
    requires cfg.policy.UlOnly? && Alone(s) && Enabled(s, e)
    ensures Alone(Next(cfg, s, e))
  {
    hide Enqueue, FirstActive, Remove, IsRunning, WakeCond, Release;
  }

  ghost predicate StrandedAreLost(d: Data) {
    forall t :: Stranded(d, t) ==> t in d.lost
  }

  lemma LostGrows(cfg: Config, s: State, e: Event)
    requires Enabled(s, e)
    ensures s.d.lost <= Next(cfg, s, e).d.lost
  {
    hide FirstActive, Remove, IsRunning, WakeAll, WakeJoiners, PostAll;
  }

  lemma AloneStrandsNobody(cfg: Config, s: State, w: Spots, e: Event, t: Tid)
    requires Inv(s, w) && Alone(s) && Enabled(s, e)
    ensures !JoinsTheDead(s, e, t)
    ensures ExitsTooEarly(s, e, t) ==> t in s.d.lost
  {
    assert Housed(s.d, w, 1, s.kthreads[1]);
    if ExitsTooEarly(s, e, t) {
      WaitingOffLists(s.d, w, t);
    }
    hide SemsHeld, Listed, Joined;
  }

  lemma StrandedStep(cfg: Config, s: State, w: Spots, e: Event)
    requires Inv(s, w) && Alone(s) && StrandedAreLost(s.d) && Enabled(s, e) && CleanAt(s, e)
    ensures StrandedAreLost(Next(cfg, s, e).d)
  {
    hide Next, Inv, Alone;
    LostGrows(cfg, s, e);
    forall t | Stranded(Next(cfg, s, e).d, t)
      ensures t in Next(cfg, s, e).d.lost
    {
      if !Stranded(s.d, t) {
        StrandedExactly(cfg, s, w, e, t);
        AloneStrandsNobody(cfg, s, w, e, t);
      }
    }
  }

  lemma {:induction false} AloneRun(cfg: Config, s: State, w: Spots, es: seq<Event>) returns (w': Spots)
    requires cfg.policy.UlOnly? && Inv(s, w) && Alone(s) && StrandedAreLost(s.d)
    requires Runs(cfg, s, es) && CleanRun(cfg, s, es)
    ensures Inv(After(cfg, s, es), w') && StrandedAreLost(After(cfg, s, es).d)
    decreases |es|
  {
    hide Inv, Alone, StrandedAreLost;
    if es == [] {
      w' := w;
    } else {
      AloneStep(cfg, s, es[0]);
      StrandedStep(cfg, s, w, es[0]);
      var w1 := InvStep(cfg, s, w, es[0]);
      w' := AloneRun(cfg, Next(cfg, s, es[0]), w1, es[1..]);
    }
  }

  lemma AloneInit(ms: set<Mid>, cs: set<Cid>)
    ensures Inv(Init(ms, cs), START) && Alone(Init(ms, cs)) && StrandedAreLost(Init(ms, cs).d)
  {
    InitInv(ms, cs);
    hide Inv;
  }

  /** Under ULONLY, with the tail repaired, whoever waits in a join waits for a thread that is still to exit. */
  lemma JoinersWaitForTheLiving(cfg: Config, ms: set<Mid>, cs: set<Cid>, es: seq<Event>, t: Tid)
    requires cfg.policy.UlOnly? && cfg.movesTail
    requires Runs(cfg, Init(ms, cs), es) && CleanRun(cfg, Init(ms, cs), es)
    ensures var s := After(cfg, Init(ms, cs), es);
            AwaitsExit(s.d, t) ==> Live(s, s.d.threads[t].dep)
  {
    hide Inv, Alone;
    AloneInit(ms, cs);
    var w := AloneRun(cfg, Init(ms, cs), START, es);
    NoneLost(cfg, Init(ms, cs), es);
    var s := After(cfg, Init(ms, cs), es);
    if AwaitsExit(s.d, t) {
      WaiterNames(s, w, t);
      assert !Stranded(s.d, t);
    }
  }

  lemma WaiterNames(s: State, w: Spots, t: Tid)
    requires Inv(s, w) && AwaitsExit(s.d, t)
    ensures s.d.threads[t].dep in s.d.threads
  {
    hide DataInv, SemsHeld;
    WaitingNamesAThread(s.d, w, t);
  }
}
