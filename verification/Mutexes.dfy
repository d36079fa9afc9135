/** mypthread_mutex_lock, trylock and unlock: exclusion, and no waiter left behind. */
module Mutexes {
  import opened Machine
  import opened Semaphores
  import opened Placement

  /** A free mutex has no blocked thread. */
  ghost predicate NoneStranded(d: Data) {
    forall m :: m in d.mutexes && !d.mutexes[m].locked ==> d.mutexes[m].blocked == []
  }

  /** A blocked thread will go back to the lock it was refused. */
  ghost predicate AllRetry(d: Data) {
    forall m, t :: m in d.mutexes && t in d.mutexes[m].blocked ==> t in d.threads && d.threads[t].resume == ToLock(m)
  }

  /** lock is true iff some thread holds the mutex, and at most one does. */
  ghost predicate Exclusive(mutex: Mutex) {
    && (mutex.locked <==> mutex.holders != {})
    && (forall a, b :: a in mutex.holders && b in mutex.holders ==> a == b)
  }

  ghost predicate AllExclusive(d: Data) {
    forall m :: m in d.mutexes ==> Exclusive(d.mutexes[m])
  }

  /** The section unlocks a mutex, on its own or inside cond_wait. */
  predicate Unlocks(sec: Sec) { sec.Unlock? || sec.CwUnlock? }

  /** The mutex is held by the thread, or free. */
  predicate MayUnlock(d: Data, m: Mid, t: Tid) {
    m in d.mutexes && (t in d.mutexes[m].holders || !d.mutexes[m].locked)
  }

  /** An unlock is by a holder, which is what POSIX asks of the callers of unlock and cond_wait, or of a free mutex. */
  predicate IsDisciplined(s: State, e: Event) {
    e.Go? && e.k in s.kthreads && s.kthreads[e.k].pc.In? && Unlocks(s.kthreads[e.k].pc.sec) ==>
      MayUnlock(s.d, s.kthreads[e.k].pc.sec.m, s.kthreads[e.k].th)
  }

  predicate Disciplined(cfg: Config, s: State, es: seq<Event>)
    requires Runs(cfg, s, es)
    decreases |es|
  {
    es == [] || (IsDisciplined(s, es[0]) && Disciplined(cfg, Next(cfg, s, es[0]), es[1..]))
  }

  /** Only an unlock of a mutex that somebody else holds breaks exclusion. */
  lemma ExclusiveSection(cfg: Config, d: Data, kthreads: map<Kid, Kthread>, self: Tid, sec: Sec)
    requires AllExclusive(d) && Ready(d, self, sec)
    ensures AllExclusive(Section(cfg, d, kthreads, self, sec).d) <==> (Unlocks(sec) ==> MayUnlock(d, sec.m, self))
  {
    if Unlocks(sec) {
      UnlockKeepsExclusionExactly(d, sec.m, self);
      ReleaseElsewhere(d, sec.m, self);
      hide Release, Exclusive;
    } else {
      hide FirstActive, Remove, IsRunning, WakeAll, WakeJoiners, Release;
    }
  }

  lemma ReleaseElsewhere(d: Data, m: Mid, t: Tid)
    requires m in d.mutexes
    ensures Release(d, m, t).mutexes.Keys == d.mutexes.Keys
    ensures forall m' :: m' in d.mutexes && m' != m ==> Release(d, m, t).mutexes[m'] == d.mutexes[m']
  {
  }

  /** An unlock keeps exclusion exactly when the caller holds the mutex or nobody does. */
  lemma UnlockKeepsExclusionExactly(d: Data, m: Mid, t: Tid)
    requires m in d.mutexes && Exclusive(d.mutexes[m])
    ensures m in Release(d, m, t).mutexes && (Exclusive(Release(d, m, t).mutexes[m]) <==> MayUnlock(d, m, t))
  {
    var holders := d.mutexes[m].holders;
    if t in holders {
      assert holders - {t} == {};
    } else {
      assert holders - {t} == holders;
    }
  }

  ghost predicate ExclusiveThroughout(cfg: Config, s: State, es: seq<Event>)
    requires Runs(cfg, s, es)
    decreases |es|
  {
    AllExclusive(s.d) && (es == [] || ExclusiveThroughout(cfg, Next(cfg, s, es[0]), es[1..]))
  }

  /** Mutual exclusion holds throughout exactly the runs in which no mutex is unlocked behind its holder's back. */
  lemma {:induction false} ExclusionExactly(cfg: Config, s: State, es: seq<Event>)
    requires AllExclusive(s.d) && Runs(cfg, s, es)
    ensures ExclusiveThroughout(cfg, s, es) <==> Disciplined(cfg, s, es)
    decreases |es|
  {
    if es != [] {
      var e := es[0];
      var kt := s.kthreads[e.k];
      if e.Go? && kt.pc.In? {
        ExclusiveSection(cfg, s.d, s.kthreads, kt.th, kt.pc.sec);
      }
      var s' := Next(cfg, s, e);
      assert AllExclusive(s'.d) <==> IsDisciplined(s, e);
      hide Section, Next, AllExclusive, IsDisciplined;
      if IsDisciplined(s, e) {
        ExclusionExactly(cfg, s', es[1..]);
      }
    }
  }

  /** Mutual exclusion over every run in which only holders unlock. */
  lemma {:induction false} MutualExclusion(cfg: Config, s: State, es: seq<Event>)
    requires AllExclusive(s.d) && Runs(cfg, s, es) && Disciplined(cfg, s, es)
    ensures AllExclusive(After(cfg, s, es).d)
    decreases |es|
  {
    if es != [] {
      var e := es[0];
      var kt := s.kthreads[e.k];
      if e.Go? && kt.pc.In? {
        ExclusiveSection(cfg, s.d, s.kthreads, kt.th, kt.pc.sec);
      }
      hide Section;
      MutualExclusion(cfg, Next(cfg, s, e), es[1..]);
    }
  }

  // -------------------------------------------------------------------- who takes, who gives back

  /** The event is inside section sec. */
  predicate InsideOf(s: State, e: Event, sec: Sec) {
    e.Go? && e.k in s.kthreads && s.kthreads[e.k].pc == In(sec)
  }

  /** A lock or a trylock that finds m free. */
  predicate TakesMutex(s: State, e: Event, m: Mid) {
    (InsideOf(s, e, Lock(m)) || InsideOf(s, e, TryLock(m))) && m in s.d.mutexes && !s.d.mutexes[m].locked
  }

  /** A lock that does not. */
  predicate IsRefused(s: State, e: Event, m: Mid) {
    InsideOf(s, e, Lock(m)) && m in s.d.mutexes && s.d.mutexes[m].locked
  }

  predicate GivesBack(s: State, e: Event, m: Mid) {
    e.Go? && e.k in s.kthreads && s.kthreads[e.k].pc.In? && Unlocks(s.kthreads[e.k].pc.sec)
    && s.kthreads[e.k].pc.sec.m == m
  }

  lemma MutexSection(cfg: Config, d: Data, kthreads: map<Kid, Kthread>, self: Tid, sec: Sec, m: Mid)
    requires Ready(d, self, sec) && m in d.mutexes && !((sec.Lock? || sec.TryLock? || Unlocks(sec)) && sec.m == m)
    ensures var d' := Section(cfg, d, kthreads, self, sec).d; m in d'.mutexes && d'.mutexes[m] == d.mutexes[m]
  {
    hide FirstActive, Remove, IsRunning, WakeAll, WakeJoiners;
  }

  /**
   All that ever happens to a mutex: a lock or trylock that finds it free makes the caller a holder, a lock that
   does not puts its caller last on the list, an unlock (also the one in cond_wait) frees it and empties the list.
  */
  lemma MutexChanges(cfg: Config, s: State, e: Event, m: Mid)
    requires Enabled(s, e) && m in s.d.mutexes
    ensures m in Next(cfg, s, e).d.mutexes
    ensures var was, now, t := s.d.mutexes[m], Next(cfg, s, e).d.mutexes[m], s.kthreads[e.k].th;
            if TakesMutex(s, e, m) then now == Mutex(true, was.blocked, was.holders + {t})
            else if IsRefused(s, e, m) then now == Mutex(true, was.blocked + [t], was.holders)
            else if GivesBack(s, e, m) then now == Mutex(false, [], was.holders - {t})
            else now == was
  {
    var kt := s.kthreads[e.k];
    if e.Go? && kt.pc.In? {
      var sec := kt.pc.sec;
      if !((sec.Lock? || sec.TryLock? || Unlocks(sec)) && sec.m == m) {
        MutexSection(cfg, s.d, s.kthreads, kt.th, sec, m);
        hide Section;
      }
    } else {
      hide Section;
    }
  }

  /**
   trylock: if the mutex is free, the caller holds it afterwards, and alone, and it is locked; if it is not, nothing
   changes. The caller is back in user code either way, and the data of the library is otherwise as it was.
  */
  lemma TrylockExactly(cfg: Config, s: State, k: Kid, m: Mid)
    requires Enabled(s, Go(k)) && s.kthreads[k].pc == In(TryLock(m)) && AllExclusive(s.d)
    ensures m in s.d.mutexes
    ensures var s', t, was := Next(cfg, s, Go(k)), s.kthreads[k].th, s.d.mutexes[m];
            && s'.kthreads == s.kthreads[k := Kthread(t, User)]
            && m in s'.d.mutexes && s'.d == s.d.(mutexes := s.d.mutexes[m := s'.d.mutexes[m]])
            && s'.d.mutexes[m] == (if was.locked then was else Mutex(true, was.blocked, {t}))
  {
    MutexChanges(cfg, s, Go(k), m);
    assert s.d.mutexes[m := s.d.mutexes[m]] == s.d.mutexes;
    assert Exclusive(s.d.mutexes[m]);
    hide Exclusive;
  }

  predicate NeverGivesBack(cfg: Config, s: State, es: seq<Event>, m: Mid, t: Tid)
    requires Runs(cfg, s, es)
    decreases |es|
  {
    es == [] || (!(GivesBack(s, es[0], m) && s.kthreads[es[0].k].th == t)
                 && NeverGivesBack(cfg, Next(cfg, s, es[0]), es[1..], m, t))
  }

  lemma HolderStays(cfg: Config, s: State, e: Event, m: Mid, t: Tid)
    requires AllExclusive(s.d) && Enabled(s, e) && IsDisciplined(s, e)
    requires m in s.d.mutexes && t in s.d.mutexes[m].holders && !(GivesBack(s, e, m) && s.kthreads[e.k].th == t)
    ensures var d' := Next(cfg, s, e).d; AllExclusive(d') && m in d'.mutexes && t in d'.mutexes[m].holders
    ensures !TakesMutex(s, e, m)
  {
    var kt := s.kthreads[e.k];
    assert Exclusive(s.d.mutexes[m]);
    if e.Go? && kt.pc.In? {
      ExclusiveSection(cfg, s.d, s.kthreads, kt.th, kt.pc.sec);
    }
    MutexChanges(cfg, s, e, m);
    hide Section;
  }

  /**
   Whoever got a mutex, by lock or by trylock, has it, alone, until its own unlock: over every disciplined run
   without one, and nobody else takes it meanwhile.
  */
  lemma {:induction false} HeldUntilGivenBack(cfg: Config, s: State, es: seq<Event>, m: Mid, t: Tid)
    requires AllExclusive(s.d) && m in s.d.mutexes && t in s.d.mutexes[m].holders
    requires Runs(cfg, s, es) && Disciplined(cfg, s, es) && NeverGivesBack(cfg, s, es, m, t)
    ensures var d' := After(cfg, s, es).d;
            m in d'.mutexes && d'.mutexes[m].locked && d'.mutexes[m].holders == {t}
    ensures es != [] ==> !TakesMutex(s, es[0], m)
    decreases |es|
  {
    if es == [] {
      assert Exclusive(s.d.mutexes[m]);
    } else {
      HolderStays(cfg, s, es[0], m, t);
      hide Next, Enabled, IsDisciplined, GivesBack, TakesMutex, AllExclusive;
      HeldUntilGivenBack(cfg, Next(cfg, s, es[0]), es[1..], m, t);
    }
  }

  /**
   When it is not so: a thread that is unlocking a mutex held by h, on a kernel thread that is not disturbed,
   can lock it next, and then both hold it.
  */
  lemma ForeignUnlockAdmitsTwo(cfg: Config, s: State, k: Kid, m: Mid, h: Tid) returns (s': State)
    requires SemsHeld(s) && k in s.kthreads && s.kthreads[k].pc == In(Unlock(m)) && s.kthreads[k].th in s.d.threads
    requires m in s.d.mutexes && s.d.mutexes[m].locked && h in s.d.mutexes[m].holders && h != s.kthreads[k].th
    ensures var es := [Go(k), Call(k, Lock(m)), Go(k), Go(k)]; Runs(cfg, s, es) && After(cfg, s, es) == s'
    ensures m in s'.d.mutexes && {h, s.kthreads[k].th} <= s'.d.mutexes[m].holders
  {
    var t := s.kthreads[k].th;
    assert Holds(In(Unlock(m)), MutexSem);
    var s1 := Next(cfg, s, Go(k));
    assert s1.sem[MutexSem].None? && s1.kthreads[k] == Kthread(t, User) && t in s1.d.threads;
    assert m in s1.d.mutexes && !s1.d.mutexes[m].locked && h in s1.d.mutexes[m].holders;
    s' := LockFree(cfg, s1, k, t, m);
    hide Next, Enabled;
    assert [Go(k), Call(k, Lock(m)), Go(k), Go(k)][1..] == [Call(k, Lock(m)), Go(k), Go(k)];
  }

  lemma LockFree(cfg: Config, s: State, k: Kid, t: Tid, m: Mid) returns (s': State)
    requires k in s.kthreads && s.kthreads[k] == Kthread(t, User) && t in s.d.threads
    requires m in s.d.mutexes && !s.d.mutexes[m].locked && MutexSem in s.sem && s.sem[MutexSem].None?
    ensures var es := [Call(k, Lock(m)), Go(k), Go(k)]; Runs(cfg, s, es) && After(cfg, s, es) == s'
    ensures m in s'.d.mutexes && s'.d.mutexes[m].holders == s.d.mutexes[m].holders + {t}
  {
    var s1 := Next(cfg, s, Call(k, Lock(m)));
    var s2 := Next(cfg, s1, Go(k));
    assert s2.kthreads[k] == Kthread(t, In(Lock(m)));
    s' := Next(cfg, s2, Go(k));
    assert Enabled(s, Call(k, Lock(m))) && Enabled(s1, Go(k)) && Enabled(s2, Go(k));
    hide Next, Enabled;
    var es := [Call(k, Lock(m)), Go(k), Go(k)];
    assert es[1..] == [Go(k), Go(k)] && [Go(k), Go(k)][1..] == [Go(k)] && [Go(k)][1..] == [];
    assert Runs(cfg, s2, [Go(k)]) && After(cfg, s2, [Go(k)]) == s';
    assert Runs(cfg, s1, [Go(k), Go(k)]) && After(cfg, s1, [Go(k), Go(k)]) == s';
  }

  // -------------------------------------------------------------------- waiters

  lemma StrandedSection(cfg: Config, d: Data, kthreads: map<Kid, Kthread>, self: Tid, sec: Sec)
    requires NoneStranded(d) && Ready(d, self, sec)
    ensures NoneStranded(Section(cfg, d, kthreads, self, sec).d)
  {
    hide FirstActive, Remove, IsRunning, WakeAll, WakeJoiners;
  }

  /** Over every run, whoever unlocks. */
  lemma {:induction false} NoWaiterOnAFreeMutex(cfg: Config, s: State, es: seq<Event>)
    requires NoneStranded(s.d) && Runs(cfg, s, es)
    ensures NoneStranded(After(cfg, s, es).d)
    decreases |es|
  {
    if es != [] {
      var e := es[0];
      var kt := s.kthreads[e.k];
      if e.Go? && kt.pc.In? {
        StrandedSection(cfg, s.d, s.kthreads, kt.th, kt.pc.sec);
      }
      hide Section;
      NoWaiterOnAFreeMutex(cfg, Next(cfg, s, e), es[1..]);
    }
  }

  lemma BlockedAreKnown(d: Data, w: Spots)
    requires DataInv(d, w)
    ensures forall m, t :: m in d.mutexes && t in d.mutexes[m].blocked ==>
              t in w && t in d.threads && t != d.gen + 1 && w[t].list == OnMutex(m) && d.threads[t].state == Blocked
  {
    forall m, t | m in d.mutexes && t in d.mutexes[m].blocked
      ensures t in w && t in d.threads && t != d.gen + 1 && w[t].list == OnMutex(m) && d.threads[t].state == Blocked
    {
      assert t in w && t in d.threads && Consistent(d.threads[t].state, w[t]);
    }
  }

  lemma HereHasInv(d: Data, w: Spots, k: Kid, self: Tid, sec: Sec)
    requires Here(d, w, k, self, sec)
    ensures DataInv(d, w)
  {
    hide DataInv;
  }

  lemma SelfNotBlocked(d: Data, w: Spots, k: Kid, self: Tid, sec: Sec)
    requires Here(d, w, k, self, sec) && OwnsSelf(sec) && !sec.LockEnq? && !sec.CwEnq?
    ensures DataInv(d, w) && forall m :: m in d.mutexes ==> self !in d.mutexes[m].blocked
  {
    hide DataInv, Here;
    HereHasInv(d, w, k, self, sec);
    SelfInHand(d, w, k, self, sec);
    BlockedAreKnown(d, w);
  }

  lemma RetryKept(cfg: Config, d: Data, kthreads: map<Kid, Kthread>, self: Tid, sec: Sec)
    requires AllRetry(d) && Ready(d, self, sec)
    requires forall m, t :: m in d.mutexes && t in d.mutexes[m].blocked ==> t != d.gen + 1
    requires sec.JoinTest? || sec.Lock? || sec.CwAdd? ==> forall m :: m in d.mutexes ==> self !in d.mutexes[m].blocked
    ensures AllRetry(Section(cfg, d, kthreads, self, sec).d)
  {
    hide FirstActive, Remove, IsRunning, Append;
  }

  lemma RetrySection(cfg: Config, d: Data, w: Spots, kthreads: map<Kid, Kthread>, k: Kid, self: Tid, sec: Sec)
    requires AllRetry(d) && Here(d, w, k, self, sec)
    ensures AllRetry(Section(cfg, d, kthreads, self, sec).d)
  {
    hide Filed, Listed, Stated, Joined, Section;
    BlockedAreKnown(d, w);
    if OwnsSelf(sec) && !sec.LockEnq? && !sec.CwEnq? {
      SelfNotBlocked(d, w, k, self, sec);
    }
    forall m, t | m in d.mutexes && t in d.mutexes[m].blocked
      ensures t != d.gen + 1
    {
      assert t in d.threads;
    }
    RetryKept(cfg, d, kthreads, self, sec);
  }

  /** What the event of an unlock does to the threads blocked on the mutex: all of them, at once. */
  lemma UnlockWakesEveryWaiter(cfg: Config, s: State, e: Event, m: Mid, t: Tid)
    requires AllRetry(s.d) && Enabled(s, e) && GivesBack(s, e, m)
    requires m in s.d.mutexes && t in s.d.mutexes[m].blocked
    ensures var d' := Next(cfg, s, e).d;
            && t in s.d.threads && m in d'.mutexes && d'.mutexes[m].blocked == [] && !d'.mutexes[m].locked
            && t in d'.threads && d'.threads[t] == Thread(Active, s.d.threads[t].dep, ToLock(m))
  {
  }

  /** The mutex invariants of a reachable state. */
  ghost predicate MutexInv(s: State, w: Spots) {
    Inv(s, w) && NoneStranded(s.d) && AllRetry(s.d) && AllExclusive(s.d)
  }

  lemma MutexStep(cfg: Config, s: State, w: Spots, e: Event) returns (w': Spots)
    requires MutexInv(s, w) && Enabled(s, e) && CleanAt(s, e) && IsDisciplined(s, e)
    ensures MutexInv(Next(cfg, s, e), w')
  {
    w' := InvStep(cfg, s, w, e);
    var kt := s.kthreads[e.k];
    if e.Go? && kt.pc.In? {
      HandOf(s, w, e.k);
      hide Inv;
      StrandedSection(cfg, s.d, s.kthreads, kt.th, kt.pc.sec);
      ExclusiveSection(cfg, s.d, s.kthreads, kt.th, kt.pc.sec);
      RetrySection(cfg, s.d, w, s.kthreads, e.k, kt.th, kt.pc.sec);
      hide Section, NoneStranded, AllRetry, AllExclusive;
    } else {
      YieldRetries(cfg, s, w, e);
      hide Inv;
    }
  }

  lemma CallerNotBlocked(s: State, w: Spots, e: Event)
    requires Inv(s, w) && Enabled(s, e) && e.Call?
    ensures s.d.threads[s.kthreads[e.k].th].state != Blocked
  {
    assert Housed(s.d, w, e.k, s.kthreads[e.k]);
    hide DataInv;
  }

  lemma BeginRetries(d: Data, w: Spots, t: Tid, api: Sec)
    requires DataInv(d, w) && AllRetry(d) && t in d.threads && d.threads[t].state != Blocked
    ensures AllRetry(Begin(d, t, api))
  {
    hide DataInv;
    BlockedAreKnown(d, w);
  }

  lemma YieldRetries(cfg: Config, s: State, w: Spots, e: Event)
    requires Inv(s, w) && AllRetry(s.d) && Enabled(s, e) && !(e.Go? && s.kthreads[e.k].pc.In?)
    ensures AllRetry(Next(cfg, s, e).d) && Next(cfg, s, e).d.mutexes == s.d.mutexes
  {
    hide DataInv, AllRetry, Ready;
    if e.Call? {
      CallerNotBlocked(s, w, e);
      BeginRetries(s.d, w, s.kthreads[e.k].th, e.api);
    }
  }

  lemma {:induction false} MutexRun(cfg: Config, s: State, w: Spots, es: seq<Event>) returns (w': Spots)
    requires MutexInv(s, w) && Runs(cfg, s, es) && Disciplined(cfg, s, es) && CleanRun(cfg, s, es)
    ensures MutexInv(After(cfg, s, es), w')
    decreases |es|
  {
    hide MutexInv;
    if es == [] {
      w' := w;
    } else {
      var w1 := MutexStep(cfg, s, w, es[0]);
      w' := MutexRun(cfg, Next(cfg, s, es[0]), w1, es[1..]);
    }
  }

  lemma MutexInit(ms: set<Mid>, cs: set<Cid>)
    ensures MutexInv(Init(ms, cs), START)
  {
    InitInv(ms, cs);
    hide Inv;
  }

  /** What a thread blocked on m can rely on: m is locked by one thread, whose unlock will wake it. */
  ghost predicate Wakeable(d: Data, m: Mid, t: Tid, h: Tid) {
    && m in d.mutexes && d.mutexes[m].locked && d.mutexes[m].holders == {h}
    && forall cfg: Config, kthreads ::
         var d' := Section(cfg, d, kthreads, h, Unlock(m)).d;
         && !d'.mutexes[m].locked && d'.mutexes[m].holders == {}
         && t in d.threads && t in d'.threads && d'.threads[t] == Thread(Active, d.threads[t].dep, ToLock(m))
  }

  lemma WaiterHasHolder(s: State, w: Spots, m: Mid, t: Tid) returns (h: Tid)
    requires MutexInv(s, w) && m in s.d.mutexes && t in s.d.mutexes[m].blocked
    ensures Wakeable(s.d, m, t, h)
  {
    assert Exclusive(s.d.mutexes[m]) && AllRetry(s.d);
    hide Inv;
    h :| h in s.d.mutexes[m].holders;
  }

  /** In every disciplined run a blocked thread has a holder whose unlock makes it ACTIVE, to retry the lock. */
  lemma EveryWaiterHasAHolder(cfg: Config, ms: set<Mid>, cs: set<Cid>, es: seq<Event>, m: Mid, t: Tid) returns (h: Tid)
    requires Runs(cfg, Init(ms, cs), es) && Disciplined(cfg, Init(ms, cs), es) && CleanRun(cfg, Init(ms, cs), es)
    requires var d := After(cfg, Init(ms, cs), es).d; m in d.mutexes && t in d.mutexes[m].blocked
    ensures Wakeable(After(cfg, Init(ms, cs), es).d, m, t, h)
  {
    hide MutexInv, Wakeable;
    MutexInit(ms, cs);
    var w := MutexRun(cfg, Init(ms, cs), START, es);
    h := WaiterHasHolder(After(cfg, Init(ms, cs), es), w, m, t);
  }
}
