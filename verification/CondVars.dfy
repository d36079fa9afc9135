/** mypthread_cond_wait, signal and broadcast: the release of the mutex and the wait are one step. */
module CondVars {
  import opened Machine
  import opened Semaphores
  import opened Prelude
  import opened Placement

  /** Kernel thread k is inside the section in which signal or broadcast takes threads off c's list. */
  predicate AtWake(s: State, k: Kid, c: Cid) {
    k in s.kthreads && s.kthreads[k].pc.In? && s.kthreads[k].pc.sec.WakeList? && s.kthreads[k].pc.sec.c == c
  }

  predicate WakesOn(s: State, e: Event, c: Cid) { e.Go? && AtWake(s, e.k, c) }

  /** No signal or broadcast on c takes effect during the run. */
  predicate NoWakeOn(cfg: Config, s: State, es: seq<Event>, c: Cid)
    requires Runs(cfg, s, es)
    decreases |es|
  {
    es == [] || (!WakesOn(s, es[0], c) && NoWakeOn(cfg, Next(cfg, s, es[0]), es[1..], c))
  }

  /** Thread t has released the mutex in cond_wait(c): about to join c's list, or on it. */
  predicate Awaiting(s: State, k: Kid, t: Tid, c: Cid) {
    || (c in s.d.conds && t in s.d.conds[c])
    || (k in s.kthreads && var kt := s.kthreads[k]; kt.th == t && kt.pc.In? && kt.pc.sec.CwAdd? && kt.pc.sec.c == c)
  }

  /** Only cond_wait and the sections that wake change the list of c. */
  lemma ListOfCond(cfg: Config, d: Data, kthreads: map<Kid, Kthread>, self: Tid, sec: Sec, c: Cid)
    requires Ready(d, self, sec) && c in d.conds && !(sec.WakeList? && sec.c == c)
    ensures var d' := Section(cfg, d, kthreads, self, sec).d;
            c in d'.conds && d'.conds[c] == (if sec.CwAdd? && sec.c == c then d.conds[c] + [self] else d.conds[c])
  {
    hide FirstActive, Remove, IsRunning, WakeAll, WakeJoiners;
  }

  lemma AwaitingStep(cfg: Config, s: State, e: Event, k: Kid, t: Tid, c: Cid)
    requires SemsHeld(s) && Enabled(s, e) && Awaiting(s, k, t, c) && c in s.d.conds && !WakesOn(s, e, c)
    ensures Awaiting(Next(cfg, s, e), k, t, c) && c in Next(cfg, s, e).d.conds
  {
    var kt := s.kthreads[e.k];
    assert s.kcount + 1 !in s.kthreads;
    if e.Go? && kt.pc.In? {
      ListOfCond(cfg, s.d, s.kthreads, kt.th, kt.pc.sec, c);
      hide Section, SemsHeld;
    } else {
      hide Section, SemsHeld;
    }
    var s' := Next(cfg, s, e);
    if t !in s.d.conds[c] && e.k != k {
      assert s'.kthreads[k] == s.kthreads[k];
    }
  }

  lemma {:induction false} AwaitingRun(cfg: Config, s: State, es: seq<Event>, k: Kid, t: Tid, c: Cid)
    requires SemsHeld(s) && Awaiting(s, k, t, c) && c in s.d.conds
    requires Runs(cfg, s, es) && NoWakeOn(cfg, s, es, c)
    ensures SemsHeld(After(cfg, s, es)) && Awaiting(After(cfg, s, es), k, t, c) && c in After(cfg, s, es).d.conds
    decreases |es|
  {
    hide SemsHeld, Awaiting;
    if es != [] {
      AwaitingStep(cfg, s, es[0], k, t, c);
      SemsStep(cfg, s, es[0]);
      AwaitingRun(cfg, Next(cfg, s, es[0]), es[1..], k, t, c);
    }
  }

  /**
   Atomic release-and-wait. Kernel thread k releases m inside cond_wait(c, m) on behalf of t. However
   the other kernel threads go on, the first signal or broadcast on c to take effect after that release
   finds t on the list of c.
  */
  lemma ReleaseAndWaitIsAtomic(cfg: Config, s: State, k: Kid, c: Cid, m: Mid, es: seq<Event>, k': Kid)
    requires SemsHeld(s) && Enabled(s, Go(k)) && s.kthreads[k].pc == In(CwUnlock(c, m)) && c in s.d.conds
    requires var s1 := Next(cfg, s, Go(k)); Runs(cfg, s1, es) && NoWakeOn(cfg, s1, es, c)
    requires AtWake(After(cfg, Next(cfg, s, Go(k)), es), k', c)
    ensures var s2 := After(cfg, Next(cfg, s, Go(k)), es);
            c in s2.d.conds && s.kthreads[k].th in s2.d.conds[c]
  {
    var s1 := Next(cfg, s, Go(k));
    var t := s.kthreads[k].th;
    assert s1.kthreads[k] == Kthread(t, In(CwAdd(c, m)));
    SemsStep(cfg, s, Go(k));
    AwaitingRun(cfg, s1, es, k, t, c);
    var s2 := After(cfg, s1, es);
    if t !in s2.d.conds[c] {
      OneHolder(s2, k, k', CondSem);
    }
  }

  /**
   A signal takes the first thread off the list and makes it ACTIVE, a broadcast does so to all of them; with
   nobody on the list both do nothing.
  */
  lemma WakeEffect(d: Data, c: Cid, all: bool)
    requires c in d.conds
    ensures var list := d.conds[c]; var d' := WakeCond(d, c, all);
            && c in d'.conds && d'.conds[c] == (if all || list == [] then [] else list[1..])
            && (list == [] ==> d' == d)
            && d'.threads.Keys == d.threads.Keys
            && (forall t :: t in d.threads ==>
                  d'.threads[t] == if t in list && (all || t == list[0])
                                   then d.threads[t].(state := Active) else d.threads[t])
  {
  }

  /** Kernel thread k is in the last section of signal (or, with all, broadcast) on c. */
  predicate AtWakeOf(s: State, k: Kid, c: Cid, all: bool) {
    k in s.kthreads && s.kthreads[k].pc == In(WakeList(c, all))
  }

  /** From s to s', thread t has come off the list of c and can run. */
  predicate IsWoken(s': State, c: Cid, t: Tid) {
    t in s'.d.threads && s'.d.threads[t].state == Active && c in s'.d.conds && t !in s'.d.conds[c]
  }

  lemma WaitersAreBlocked(d: Data, w: Spots, c: Cid)
    requires DataInv(d, w) && c in d.conds
    ensures Distinct(d.conds[c])
    ensures forall t :: t in d.conds[c] ==> t in d.threads && d.threads[t].state == Blocked
  {
    forall t | t in d.conds[c]
      ensures t in d.threads && d.threads[t].state == Blocked
    {
      assert t in w && Consistent(d.threads[t].state, w[t]);
    }
  }

  /** The event in which a signal or broadcast takes effect, and after which its caller is back in user code. */
  lemma WakeEvent(cfg: Config, s: State, w: Spots, k: Kid, c: Cid, all: bool)
    requires Inv(s, w) && AtWakeOf(s, k, c, all)
    ensures Enabled(s, Go(k)) && c in s.d.conds
    ensures var s' := Next(cfg, s, Go(k));
            && s'.kthreads == s.kthreads[k := s.kthreads[k].(pc := User)]
            && s'.d == WakeCond(s.d, c, all)
  {
    assert Housed(s.d, w, k, s.kthreads[k]);
    hide DataInv, WakeCond;
  }

  /**
   What the event of a signal or broadcast does, in every reachable state: a broadcast makes every thread on the
   list ACTIVE and empties it, a signal does that to the first one and leaves the others BLOCKED in their order;
   no other thread and no other list changes.
  */
  lemma WakesExactly(cfg: Config, s: State, w: Spots, k: Kid, c: Cid, all: bool)
    requires Inv(s, w) && AtWakeOf(s, k, c, all)
    ensures Enabled(s, Go(k)) && c in s.d.conds && c in Next(cfg, s, Go(k)).d.conds
    ensures var s' := Next(cfg, s, Go(k)); var list := s.d.conds[c]; var d' := s'.d;
            && s'.kthreads[k] == Kthread(s.kthreads[k].th, User)
            && d'.conds[c] == (if all || list == [] then [] else list[1..])
            && (forall t :: t in list && (all || t == list[0]) ==> IsWoken(s', c, t))
            && (forall t :: t in list && !all && t != list[0] ==> t in d'.threads && d'.threads[t].state == Blocked)
            && (forall t :: t in s.d.threads && t !in list ==> t in d'.threads && d'.threads[t] == s.d.threads[t])
            && d' == s.d.(threads := d'.threads, conds := s.d.conds[c := d'.conds[c]])
  {
    hide Inv, WakeCond;
    WakeEvent(cfg, s, w, k, c, all);
    assert DataInv(s.d, w) by { InvHasData(s, w); }
    WaitersAreBlocked(s.d, w, c);
    hide DataInv, Next, Enabled;
    WakeEffect(s.d, c, all);
    WakeFrame(s.d, c, all);
    FirstIsApart(s.d.conds[c]);
  }

  lemma InvHasData(s: State, w: Spots)
    requires Inv(s, w)
    ensures DataInv(s.d, w)
  {
    hide DataInv;
  }

  lemma WakeFrame(d: Data, c: Cid, all: bool)
    requires c in d.conds
    ensures var d' := WakeCond(d, c, all);
            c in d'.conds && d' == d.(threads := d'.threads, conds := d.conds[c := d'.conds[c]])
  {
    assert d.conds[c := d.conds[c]] == d.conds;
  }

  lemma FirstIsApart(list: seq<Tid>)
    requires Distinct(list)
    ensures list != [] ==> list[0] !in list[1..]
  {
  }

  lemma ListGrows(cfg: Config, s: State, e: Event, c: Cid)
    requires Enabled(s, e) && c in s.d.conds && !WakesOn(s, e, c)
    ensures c in Next(cfg, s, e).d.conds && s.d.conds[c] <= Next(cfg, s, e).d.conds[c]
  {
    var kt := s.kthreads[e.k];
    if e.Go? && kt.pc.In? {
      ListOfCond(cfg, s.d, s.kthreads, kt.th, kt.pc.sec, c);
    }
    hide Section;
  }

  /**
   Lost wake-ups are impossible. Kernel thread k releases m inside cond_wait(c, m) on behalf of t. The first signal
   or broadcast on c to take effect after that wakes t, or, if it is a signal and others came before t, the first
   of those, and then t is still in line.
  */
  lemma NoLostWakeUp(cfg: Config, s: State, w: Spots, k: Kid, c: Cid, m: Mid, es: seq<Event>, k': Kid, all: bool)
    requires Inv(s, w) && Enabled(s, Go(k)) && s.kthreads[k].pc == In(CwUnlock(c, m))
    requires var s1 := Next(cfg, s, Go(k)); Runs(cfg, s1, es) && CleanRun(cfg, s1, es) && NoWakeOn(cfg, s1, es, c)
    requires AtWakeOf(After(cfg, Next(cfg, s, Go(k)), es), k', c, all)
    ensures var s2 := After(cfg, Next(cfg, s, Go(k)), es);
            && Enabled(s2, Go(k')) && c in s2.d.conds && s2.d.conds[c] != []
            && var s3, t, first := Next(cfg, s2, Go(k')), s.kthreads[k].th, s2.d.conds[c][0];
               && IsWoken(s3, c, first)
               && (if all || t == first then IsWoken(s3, c, t) else c in s3.d.conds && t in s3.d.conds[c])
  {
    hide Inv, Next, WakesOn;
    InvHolds(s, w, k);
    ReleaseAndWaitIsAtomic(cfg, s, k, c, m, es, k');
    var w1 := InvStep(cfg, s, w, Go(k));
    var s1 := Next(cfg, s, Go(k));
    var w2 := InvRun(cfg, s1, w1, es);
    hide Runs, After, NoWakeOn, CleanRun;
    WakesExactly(cfg, After(cfg, s1, es), w2, k', c, all);
  }

  lemma InvHolds(s: State, w: Spots, k: Kid)
    requires Inv(s, w)
    ensures SemsHeld(s)
    ensures k in s.kthreads && s.kthreads[k].pc.In? ==> Ready(s.d, s.kthreads[k].th, s.kthreads[k].pc.sec)
  {
    assert k in s.kthreads ==> Housed(s.d, w, k, s.kthreads[k]);
    hide DataInv;
  }

  // -------------------------------------------------------------------- from the call to the return

  /** Kernel thread k is inside signal (or, with all, broadcast) on c. */
  predicate OnWake(s: State, k: Kid, c: Cid, all: bool) {
    && k in s.kthreads && (s.kthreads[k].pc.Wait? || s.kthreads[k].pc.In?)
    && (s.kthreads[k].pc.sec == Wake(c, all) || s.kthreads[k].pc.sec == WakeList(c, all))
  }

  lemma CallsWake(cfg: Config, s: State, k: Kid, c: Cid, all: bool)
    requires Enabled(s, Call(k, Wake(c, all)))
    ensures OnWake(Next(cfg, s, Call(k, Wake(c, all))), k, c, all)
    ensures Next(cfg, s, Call(k, Wake(c, all))).d == s.d
  {
  }

  /** A call of signal or broadcast goes on to the event in which it takes effect. */
  lemma StaysOnWake(cfg: Config, s: State, e: Event, k: Kid, c: Cid, all: bool)
    requires SemsHeld(s) && Enabled(s, e) && OnWake(s, k, c, all) && !(e == Go(k) && AtWakeOf(s, k, c, all))
    ensures OnWake(Next(cfg, s, e), k, c, all)
  {
    assert s.kcount + 1 !in s.kthreads;
    if e.k == k {
      hide SemsHeld;
    } else {
      hide Section, SemsHeld;
    }
  }

  /** At some point of the run thread t is ACTIVE and not on the list of c. */
  ghost predicate GetsWoken(cfg: Config, s: State, es: seq<Event>, c: Cid, t: Tid)
    requires Runs(cfg, s, es)
    decreases |es|
  {
    IsWoken(s, c, t) || (es != [] && GetsWoken(cfg, Next(cfg, s, es[0]), es[1..], c, t))
  }

  /** One event, with t to be woken by the call: it is woken, or the call goes on and t is still to be woken. */
  lemma WakeIsDue(cfg: Config, s: State, w: Spots, e: Event, k: Kid, c: Cid, all: bool, t: Tid)
    requires Inv(s, w) && Enabled(s, e) && OnWake(s, k, c, all)
    requires c in s.d.conds && t in s.d.conds[c] && (all || t == s.d.conds[c][0])
    ensures var s' := Next(cfg, s, e);
            IsWoken(s', c, t)
            || (OnWake(s', k, c, all) && c in s'.d.conds && t in s'.d.conds[c] && (all || t == s'.d.conds[c][0]))
  {
    hide Inv, IsWoken, OnWake, Enabled, Next;
    InvHolds(s, w, k);
    if WakesOn(s, e, c) {
      var others := s.kthreads[e.k].pc.sec.all;
      assert AtWakeOf(s, e.k, c, others);
      WakesExactly(cfg, s, w, e.k, c, others);
    } else {
      ListGrows(cfg, s, e, c);
    }
    if !(e == Go(k) && AtWakeOf(s, k, c, all)) {
      StaysOnWake(cfg, s, e, k, c, all);
    }
  }

  /**
   Between the call of a broadcast and its return each thread that was on the list at the call is woken, and
   between the call of a signal and its return the one that was first, whatever other kernel threads do.
  */
  lemma {:induction false} WakesBeforeReturning(cfg: Config, s: State, w: Spots, es: seq<Event>, k: Kid, c: Cid,
      all: bool, t: Tid)
    requires Inv(s, w) && Runs(cfg, s, es) && CleanRun(cfg, s, es) && OnWake(s, k, c, all)
    requires c in s.d.conds && t in s.d.conds[c] && (all || t == s.d.conds[c][0])
    ensures OnWake(After(cfg, s, es), k, c, all) || GetsWoken(cfg, s, es, c, t)
    decreases |es|
  {
    hide Inv, OnWake, IsWoken, Next, Enabled, CleanAt;
    if es != [] && !IsWoken(s, c, t) {
      WakeIsDue(cfg, s, w, es[0], k, c, all, t);
      var w1 := InvStep(cfg, s, w, es[0]);
      var s' := Next(cfg, s, es[0]);
      if IsWoken(s', c, t) {
        assert GetsWoken(cfg, s', es[1..], c, t);
      } else {
        WakesBeforeReturning(cfg, s', w1, es[1..], k, c, all, t);
      }
    }
  }

  /**
   Signals are not stored: whatever signals and broadcasts took effect before, the threads on the list of c
   stay on it, in their order, until the next one does, and threads that come to wait line up behind them.
  */
  lemma {:induction false} WaitersStayInLine(cfg: Config, s: State, es: seq<Event>, c: Cid)
    requires c in s.d.conds && Runs(cfg, s, es) && NoWakeOn(cfg, s, es, c)
    ensures c in After(cfg, s, es).d.conds && s.d.conds[c] <= After(cfg, s, es).d.conds[c]
    decreases |es|
  {
    if es != [] {
      ListGrows(cfg, s, es[0], c);
      hide Next, WakesOn, Enabled;
      WaitersStayInLine(cfg, Next(cfg, s, es[0]), es[1..], c);
    }
  }
}
