/** Deadlock freedom of the internal semaphores, the leak in trylock, and when the scheduler gives up. */
module Progress {
  import opened Machine
  import opened Semaphores
  import opened Placement
  import opened Joining

  predicate Busy(s: State, k: Kid) {
    k in s.kthreads && (s.kthreads[k].pc.Wait? || s.kthreads[k].pc.In?)
  }

  /** How far kernel thread k is from the top of the nesting order. */
  function Slack(s: State, k: Kid): nat
    requires Busy(s, k)
  {
    var pc := s.kthreads[k].pc;
    if pc.In? || Needs(pc.sec).None? then 0 else 4 - Rank(Needs(pc.sec).value)
  }

  lemma InsideIsEnabled(s: State, w: Spots, k: Kid)
    requires Inv(s, w) && k in s.kthreads && s.kthreads[k].pc.In?
    ensures Enabled(s, Go(k))
  {
    assert Housed(s.d, w, k, s.kthreads[k]);
    hide SemsHeld, DataInv;
  }

  /** While nothing is leaked, whoever is inside the library can go on, or a chain of waits leads to one who can. */
  lemma {:induction false} SomeoneCanGo(s: State, w: Spots, k: Kid) returns (ks: seq<Kid>, xs: seq<Sem>)
    requires Inv(s, w) && !s.leaked && Busy(s, k)
    ensures WaitChain(s, ks, xs) && ks[0] == k && Enabled(s, Go(ks[|xs|]))
    decreases Slack(s, k)
  {
    var pc := s.kthreads[k].pc;
    ks, xs := [k], [];
    if pc.In? {
      InsideIsEnabled(s, w, k);
    } else {
      assert Stands(pc);
      var x := Needs(pc.sec).value;
      if s.sem[x].Some? {
        var j := s.sem[x].value;
        assert Holds(s.kthreads[j].pc, x);
        if s.kthreads[j].pc.Wait? {
          LockOrder(s.kthreads[j].pc, Needs(s.kthreads[j].pc.sec).value, x);
        }
        var ks', xs' := SomeoneCanGo(s, w, j);
        ks, xs := [k] + ks', [x] + xs';
        Lengthen(s, k, x, ks', xs');
      }
    }
  }

  lemma Lengthen(s: State, k: Kid, x: Sem, ks: seq<Kid>, xs: seq<Sem>)
    requires WaitChain(s, ks, xs) && WaitsFor(s, k, x, ks[0])
    ensures WaitChain(s, [k] + ks, [x] + xs)
  {
    forall i | 0 <= i < |[x] + xs|
      ensures WaitsFor(s, ([k] + ks)[i], ([x] + xs)[i], ([k] + ks)[i + 1])
    {
      if i > 0 {
        assert WaitsFor(s, ks[i - 1], xs[i - 1], ks[i - 1 + 1]);
      }
    }
  }

  // -------------------------------------------------------------------- the leak

  /** The event is a trylock that finds the mutex taken. */
  predicate IsBusyTry(s: State, e: Event) {
    && e.Go? && e.k in s.kthreads && s.kthreads[e.k].pc.In? && s.kthreads[e.k].pc.sec.TryLock?
    && var m := s.kthreads[e.k].pc.sec.m; m in s.d.mutexes && s.d.mutexes[m].locked
  }

  predicate HasBusyTry(cfg: Config, s: State, es: seq<Event>)
    requires Runs(cfg, s, es)
    decreases |es|
  {
    es != [] && (IsBusyTry(s, es[0]) || HasBusyTry(cfg, Next(cfg, s, es[0]), es[1..]))
  }

  lemma LeakStep(cfg: Config, s: State, e: Event)
    requires Enabled(s, e)
    ensures Next(cfg, s, e).leaked <==> s.leaked || (!cfg.postsBusy && IsBusyTry(s, e))
  {
    var kt := s.kthreads[e.k];
    if e.Go? && kt.pc.In? {
      SectionBalanced(cfg, s.d, s.kthreads, kt.th, kt.pc.sec);
    }
    hide Section, PostAll;
  }

  /** mutex_sem is leaked exactly by the runs in which a trylock of the shipped code finds its mutex taken. */
  lemma {:induction false} LeakedExactly(cfg: Config, s: State, es: seq<Event>)
    requires Runs(cfg, s, es)
    ensures After(cfg, s, es).leaked <==> s.leaked || (!cfg.postsBusy && HasBusyTry(cfg, s, es))
    decreases |es|
  {
    if es != [] {
      LeakStep(cfg, s, es[0]);
      LeakedExactly(cfg, Next(cfg, s, es[0]), es[1..]);
    }
    hide Next, IsBusyTry;
  }

  /** After a leak, a kernel thread in front of mutex_sem never moves again. */
  lemma {:induction false} LeakBlocksForEver(cfg: Config, s: State, es: seq<Event>, k: Kid)
    requires SemsHeld(s) && s.leaked && Runs(cfg, s, es)
    requires k in s.kthreads && Wants(s.kthreads[k].pc, MutexSem)
    ensures k in After(cfg, s, es).kthreads && After(cfg, s, es).kthreads[k] == s.kthreads[k]
    decreases |es|
  {
    if es != [] {
      var s' := Next(cfg, s, es[0]);
      assert es[0].k != k;
      assert k in s'.kthreads && s'.kthreads[k] == s.kthreads[k];
      LeakStep(cfg, s, es[0]);
      SemsStep(cfg, s, es[0]);
      hide Next, SemsHeld;
      LeakBlocksForEver(cfg, s', es[1..], k);
    }
  }

  /**
   Deadlock freedom: if trylock is repaired, or no trylock has found its mutex taken, then in every state of
   every run each kernel thread inside the library can go on, or a chain of waits leads from it to one that can.
  */
  lemma NoInternalDeadlock(cfg: Config, ms: set<Mid>, cs: set<Cid>, es: seq<Event>, k: Kid)
    returns (ks: seq<Kid>, xs: seq<Sem>)
    requires Runs(cfg, Init(ms, cs), es) && CleanRun(cfg, Init(ms, cs), es)
    requires cfg.postsBusy || !HasBusyTry(cfg, Init(ms, cs), es)
    requires Busy(After(cfg, Init(ms, cs), es), k)
    ensures var s := After(cfg, Init(ms, cs), es);
            WaitChain(s, ks, xs) && ks[0] == k && Enabled(s, Go(ks[|xs|]))
  {
    InitInv(ms, cs);
    LeakedExactly(cfg, Init(ms, cs), es);
    var w := InvRun(cfg, Init(ms, cs), START, es);
    ks, xs := SomeoneCanGo(After(cfg, Init(ms, cs), es), w, k);
  }

  // -------------------------------------------------------------------- the thread count

  function LiveThreads(d: Data): set<Tid> {
    set t | t in d.threads && d.threads[t].state != Dead
  }

  ghost predicate Counted(d: Data) { d.count == |LiveThreads(d)| }

  /** The counter and the set of threads change only in create and exit. */
  lemma CountEffect(cfg: Config, d: Data, kthreads: map<Kid, Kthread>, self: Tid, sec: Sec)
    requires Ready(d, self, sec) && (OwnsSelf(sec) ==> self in d.threads)
    ensures var d' := Section(cfg, d, kthreads, self, sec).d;
            && d'.count == d.count + (if sec.Create? then 1 else if sec.Exit? then -1 else 0)
            && d'.threads.Keys == (if sec.Create? then d.threads.Keys + {d.gen + 1} else d.threads.Keys)
            && (sec.Create? ==> d'.threads[d.gen + 1].state == Active)
  {
    hide FirstActive, Remove, IsRunning;
  }

  /** One thread more, one thread less, or the same ones. */
  lemma LiveChange(d: Data, d': Data, born: set<Tid>, gone: set<Tid>)
    requires d'.threads.Keys == d.threads.Keys + born && born !! d.threads.Keys && gone <= LiveThreads(d)
    requires forall t :: t in d.threads ==> (d'.threads[t].state == Dead <==> d.threads[t].state == Dead || t in gone)
    requires forall t :: t in born ==> d'.threads[t].state != Dead
    ensures |LiveThreads(d')| == |LiveThreads(d)| + |born| - |gone|
  {
    assert LiveThreads(d') == (LiveThreads(d) - gone) + born;
  }

  lemma BornAndGone(d: Data, w: Spots, k: Kid, self: Tid, sec: Sec)
    requires Here(d, w, k, self, sec)
    ensures d.gen + 1 !in d.threads && Ready(d, self, sec) && (OwnsSelf(sec) ==> self in d.threads)
    ensures sec.Exit? ==> self in LiveThreads(d)
  {
    if OwnsSelf(sec) {
      SelfInHand(d, w, k, self, sec);
    }
    hide Filed, Listed, Joined, Ready;
  }

  lemma CountChange(d: Data, d': Data, born: bool, gone: bool, self: Tid)
    requires Counted(d) && d.gen + 1 !in d.threads && (gone ==> self in LiveThreads(d)) && !(born && gone)
    requires d'.count == d.count + (if born then 1 else if gone then -1 else 0)
    requires d'.threads.Keys == (if born then d.threads.Keys + {d.gen + 1} else d.threads.Keys)
    requires born ==> d'.threads[d.gen + 1].state != Dead
    requires forall t :: t in d.threads ==>
               (d'.threads[t].state == Dead <==> d.threads[t].state == Dead || (gone && t == self))
    ensures Counted(d')
  {
    LiveChange(d, d', if born then {d.gen + 1} else {}, if gone then {self} else {});
  }

  lemma CountSection(cfg: Config, d: Data, w: Spots, kthreads: map<Kid, Kthread>, k: Kid, self: Tid, sec: Sec)
    requires Here(d, w, k, self, sec) && Counted(d)
    ensures Ready(d, self, sec) && Counted(Section(cfg, d, kthreads, self, sec).d)
  {
    BornAndGone(d, w, k, self, sec);
    hide Here, Section, Ready, OwnsSelf, Counted;
    CountEffect(cfg, d, kthreads, self, sec);
    AllOnDead(cfg, d, w, kthreads, k, self, sec);
    CountChange(d, Section(cfg, d, kthreads, self, sec).d, sec.Create?, sec.Exit?, self);
  }

  lemma AllOnDead(cfg: Config, d: Data, w: Spots, kthreads: map<Kid, Kthread>, k: Kid, self: Tid, sec: Sec)
    requires Here(d, w, k, self, sec) && Ready(d, self, sec)
    ensures var d' := Section(cfg, d, kthreads, self, sec).d;
            forall t :: t in d.threads ==>
              && t in d'.threads
              && (d'.threads[t].state == Dead <==> d.threads[t].state == Dead || (sec.Exit? && t == self))
  {
    hide Here, Section, Ready;
    var d' := Section(cfg, d, kthreads, self, sec).d;
    forall t | t in d.threads
      ensures t in d'.threads
      ensures d'.threads[t].state == Dead <==> d.threads[t].state == Dead || (sec.Exit? && t == self)
    {
      SectionOnDead(cfg, d, w, kthreads, k, self, sec, t);
    }
  }

  lemma CountBegin(s: State, w: Spots, k: Kid, api: Sec)
    requires Inv(s, w) && Enabled(s, Call(k, api)) && Counted(s.d)
    ensures Counted(Begin(s.d, s.kthreads[k].th, api))
  {
    hide Inv, DataInv, Counted;
    UserHand(s, w, k);
    BeginLive(s.d, s.kthreads[k].th, api);
  }

  lemma BeginLive(d: Data, t: Tid, api: Sec)
    requires t in d.threads && d.threads[t].state != Dead && Counted(d)
    ensures Counted(Begin(d, t, api))
  {
    assert LiveThreads(Begin(d, t, api)) == LiveThreads(d);
  }

  lemma CountStep(cfg: Config, s: State, w: Spots, e: Event)
    requires Inv(s, w) && Enabled(s, e) && Counted(s.d)
    ensures Counted(Next(cfg, s, e).d)
  {
    hide Section, Counted, Begin;
    var kt := s.kthreads[e.k];
    if e.Call? {
      CountBegin(s, w, e.k, e.api);
    } else if kt.pc.In? {
      HandOf(s, w, e.k);
      hide Inv, Here;
      CountSection(cfg, s.d, w, s.kthreads, e.k, kt.th, kt.pc.sec);
    }
  }

  lemma {:induction false} CountRun(cfg: Config, s: State, w: Spots, es: seq<Event>) returns (w': Spots)
    requires Inv(s, w) && Counted(s.d) && Runs(cfg, s, es) && CleanRun(cfg, s, es)
    ensures Inv(After(cfg, s, es), w') && Counted(After(cfg, s, es).d)
    decreases |es|
  {
    hide Inv, Counted, Next;
    if es == [] {
      w' := w;
    } else {
      CountStep(cfg, s, w, es[0]);
      var w1 := InvStep(cfg, s, w, es[0]);
      w' := CountRun(cfg, Next(cfg, s, es[0]), w1, es[1..]);
    }
  }

  predicate AllDead(d: Data) { forall t :: t in d.threads ==> d.threads[t].state == Dead }

  /** In the loop that looks for an ACTIVE thread. */
  predicate Searching(kt: Kthread) { kt.pc == Wait(Sched) || kt.pc == In(Sched) }

  lemma CountedDead(d: Data)
    requires Counted(d)
    ensures d.count == 0 <==> AllDead(d)
  {
    if AllDead(d) {
      assert LiveThreads(d) == {};
    } else {
      var t :| t in d.threads && d.threads[t].state != Dead;
      assert t in LiveThreads(d);
    }
  }

  /** Only the count test halts a kernel thread, or sends it on to look for an ACTIVE thread. */
  lemma HaltStep(cfg: Config, s: State, e: Event, k: Kid)
    requires SemsHeld(s) && Enabled(s, e) && k in s.kthreads
    ensures var s' := Next(cfg, s, e);
            && k in s'.kthreads
            && (s'.kthreads[k].pc == Halted <==>
                  s.kthreads[k].pc == Halted || (e == Go(k) && s.kthreads[k].pc == In(Count) && s.d.count == 0))
            && (Searching(s'.kthreads[k]) && !Searching(s.kthreads[k]) <==>
                  e == Go(k) && s.kthreads[k].pc == In(Count) && s.d.count != 0)
  {
    assert s.kcount + 1 !in s.kthreads;
    hide SemsHeld, Enqueue, FirstActive, Remove, IsRunning, WakeCond, Release, WakeJoiners, PostAll, Grab;
  }

  /**
   The scheduler gives a kernel thread up exactly at its count test, when every thread is dead, and a kernel thread
   begins to look for an ACTIVE thread exactly there, when some thread is not.
  */
  lemma HaltsExactlyWhenAllDead(cfg: Config, ms: set<Mid>, cs: set<Cid>, es: seq<Event>, e: Event, k: Kid)
    requires Runs(cfg, Init(ms, cs), es) && CleanRun(cfg, Init(ms, cs), es)
    requires Enabled(After(cfg, Init(ms, cs), es), e) && k in After(cfg, Init(ms, cs), es).kthreads
    ensures var s := After(cfg, Init(ms, cs), es); var s' := Next(cfg, s, e);
            && k in s'.kthreads
            && (s'.kthreads[k].pc == Halted <==>
                  s.kthreads[k].pc == Halted || (e == Go(k) && s.kthreads[k].pc == In(Count) && AllDead(s.d)))
            && (Searching(s'.kthreads[k]) && !Searching(s.kthreads[k]) <==>
                  e == Go(k) && s.kthreads[k].pc == In(Count) && !AllDead(s.d))
  {
    InitInv(ms, cs);
    assert LiveThreads(Init(ms, cs).d) == {1};
    hide Inv, Next, AllDead;
    var w := CountRun(cfg, Init(ms, cs), START, es);
    var s := After(cfg, Init(ms, cs), es);
    CountedDead(s.d);
    InvHasSems(s, w);
    HaltStep(cfg, s, e, k);
  }

  lemma InvHasSems(s: State, w: Spots)
    requires Inv(s, w)
    ensures SemsHeld(s)
  {
  }

  // -------------------------------------------------------------------- behind the last exit

  /** In front of or in the count test. */
  predicate AtCount(kt: Kthread) { kt.pc == Wait(Count) || kt.pc == In(Count) }

  /** Every thread is dead, and every kernel thread is in the scheduler, or done. */
  ghost predicate AllIdle(s: State) {
    && AllDead(s.d)
    && forall k :: k in s.kthreads ==>
         s.kthreads[k].pc.Halted? || AtCount(s.kthreads[k]) || Searching(s.kthreads[k])
  }

  lemma IdleWhenAllDead(s: State, w: Spots)
    requires Inv(s, w) && AllDead(s.d)
    ensures AllIdle(s)
  {
    hide SemsHeld, Resumes;
    forall k | k in s.kthreads
      ensures s.kthreads[k].pc.Halted? || AtCount(s.kthreads[k]) || Searching(s.kthreads[k])
    {
      assert Housed(s.d, w, k, s.kthreads[k]);
    }
  }

  /** The last exit leaves its kernel thread in front of the count test. */
  lemma LastExit(cfg: Config, s: State, w: Spots, k: Kid)
    requires Inv(s, w) && k in s.kthreads && s.kthreads[k].pc == In(Exit)
    requires forall t :: t in s.d.threads && t != s.kthreads[k].th ==> s.d.threads[t].state == Dead
    ensures Enabled(s, Go(k))
    ensures var s' := Next(cfg, s, Go(k)); AllDead(s'.d) && s'.kthreads[k].pc == Wait(Count)
  {
    assert Housed(s.d, w, k, s.kthreads[k]);
    InsideIsEnabled(s, w, k);
    hide SemsHeld, Filed, Listed, Resumes;
    var t0 := s.kthreads[k].th;
    forall t | t in s.d.threads && t != t0
      ensures t !in s.d.runQ.items
    {
      DeadIsNotQueued(s.d, w, t);
    }
    assert w[t0].place == On(k);
    DataQueue(s.d, w, t0);
  }

  lemma DeadIsNotQueued(d: Data, w: Spots, t: Tid)
    requires DataInv(d, w) && t in d.threads && d.threads[t].state == Dead
    ensures t !in d.runQ.items
  {
    assert t in w && Consistent(d.threads[t].state, w[t]);
  }

  lemma DataQueue(d: Data, w: Spots, t: Tid)
    requires DataInv(d, w) && t in w && w[t].place.On?
    ensures t !in d.runQ.items
  {
  }

  lemma IdleStep(cfg: Config, s: State, e: Event, k: Kid)
    requires AllIdle(s) && Enabled(s, e) && k in s.kthreads
    ensures var s' := Next(cfg, s, e);
            && AllIdle(s') && s'.d == s.d && k in s'.kthreads
            && (Searching(s.kthreads[k]) ==> Searching(s'.kthreads[k]))
            && (s.d.count == 0 && !Searching(s.kthreads[k]) ==> !Searching(s'.kthreads[k]))
  {
    FirstActiveIs(s.d.threads, s.d.runQ.items);
    hide FirstActive, PostAll;
  }

  lemma {:induction false} IdleRun(cfg: Config, s: State, es: seq<Event>, k: Kid)
    requires AllIdle(s) && s.d.count == 0 && Runs(cfg, s, es) && k in s.kthreads
    ensures var s' := After(cfg, s, es);
            && s'.d == s.d && k in s'.kthreads && AllIdle(s')
            && (if Searching(s.kthreads[k]) then Searching(s'.kthreads[k])
                else AtCount(s'.kthreads[k]) || s'.kthreads[k].pc.Halted?)
    decreases |es|
  {
    if es != [] {
      IdleStep(cfg, s, es[0], k);
      hide Next, Enabled, AllIdle;
      IdleRun(cfg, Next(cfg, s, es[0]), es[1..], k);
    }
  }

  /**
   Behind the last exit, in every run: nothing changes any more, a kernel thread at its count test halts there or is
   still at it, and one that has passed it goes on looking for an ACTIVE thread for ever.
  */
  lemma BehindTheLastExit(cfg: Config, ms: set<Mid>, cs: set<Cid>, es: seq<Event>, more: seq<Event>, k: Kid)
    requires Runs(cfg, Init(ms, cs), es) && CleanRun(cfg, Init(ms, cs), es)
    requires var s := After(cfg, Init(ms, cs), es); AllDead(s.d) && k in s.kthreads && Runs(cfg, s, more)
    ensures var s, s' := After(cfg, Init(ms, cs), es), After(cfg, After(cfg, Init(ms, cs), es), more);
            && s'.d == s.d && k in s'.kthreads
            && (if Searching(s.kthreads[k]) then Searching(s'.kthreads[k])
                else AtCount(s'.kthreads[k]) || s'.kthreads[k].pc.Halted?)
  {
    InitInv(ms, cs);
    assert LiveThreads(Init(ms, cs).d) == {1};
    hide Inv, AllDead, Init, AllIdle;
    var w := CountRun(cfg, Init(ms, cs), START, es);
    var s := After(cfg, Init(ms, cs), es);
    CountedDead(s.d);
    IdleWhenAllDead(s, w);
    IdleRun(cfg, s, more, k);
  }

  // -------------------------------------------------------------------- calls

  /** The calls of the library, with what they name. */
  predicate IsCall(d: Data, api: Sec) {
    match api
    case Create(_) | Exit | Yield | Join(_) => true
    case Lock(m) => m in d.mutexes
    case TryLock(m) => m in d.mutexes
    case Unlock(m) => m in d.mutexes
    case Wake(c, _) => c in d.conds
    case CondWait(c, m) => c in d.conds && m in d.mutexes
    case _ => false
  }

  /** A thread in user code can make any call on existing objects, in every state of every run. */
  lemma EveryCallIsOpen(cfg: Config, ms: set<Mid>, cs: set<Cid>, es: seq<Event>, k: Kid, api: Sec)
    requires Runs(cfg, Init(ms, cs), es) && CleanRun(cfg, Init(ms, cs), es)
    requires var s := After(cfg, Init(ms, cs), es); k in s.kthreads && s.kthreads[k].pc == User
    ensures Enabled(After(cfg, Init(ms, cs), es), Call(k, api)) <==> IsCall(After(cfg, Init(ms, cs), es).d, api)
  {
    InitInv(ms, cs);
    hide Inv, Init;
    var w := InvRun(cfg, Init(ms, cs), START, es);
    UserIsKnown(After(cfg, Init(ms, cs), es), w, k);
  }

  lemma UserIsKnown(s: State, w: Spots, k: Kid)
    requires Inv(s, w) && k in s.kthreads && s.kthreads[k].pc == User
    ensures s.kthreads[k].th in s.d.threads
  {
    assert Housed(s.d, w, k, s.kthreads[k]);
  }
}
