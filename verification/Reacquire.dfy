/**
 A thread that blocks in mutex_lock or cond_wait comes back to its caller with the mutex held. For mutex_lock this
 is what its comment promises: the code overwrites the context of a contended caller with a fresh call of
 mutex_lock (pthreads/mypthread.c:350-352), and does not find the way back; the transition system has that way.
*/
module Reacquire {
  import opened Prelude
  import opened Machine
  import opened Semaphores
  import opened Placement

  /** At pc, inside mutex_lock(m) or in cond_wait with m, a thread is on its way into m and nowhere else. */
  predicate BoundPc(pc: Pc, resume: Resume, m: Mid) {
    && (pc.Wait? || pc.In?)
    && (|| pc.sec == Lock(m)
        || ((pc.sec.CondWait? || pc.sec.CwUnlock? || pc.sec.CwAdd?) && pc.sec.m == m)
        || ((pc.sec.LockEnq? || pc.sec.CwEnq? || pc.sec.Disp?) && resume == ToLock(m)))
  }

  /** Thread t is committed to mutex m: in hand inside mutex_lock(m), or queued to go there. */
  predicate Bound(s: State, w: Spots, t: Tid, m: Mid) {
    && t in w && t in s.d.threads
    && match w[t].place
       case On(k) => k in s.kthreads && BoundPc(s.kthreads[k].pc, s.d.threads[t].resume, m)
       case Queued | Lost => s.d.threads[t].resume == ToLock(m)
       case Gone => false
  }

  /** Thread t runs in user code and holds m. */
  predicate RunsWith(s: State, t: Tid, m: Mid) {
    && m in s.d.mutexes && t in s.d.mutexes[m].holders
    && InUser(s, t)
  }

  /** A section changes the resume point of no thread but its own, and kills no other. */
  lemma SectionResume(cfg: Config, d: Data, kthreads: map<Kid, Kthread>, self: Tid, sec: Sec, t: Tid)
    requires Ready(d, self, sec) && t in d.threads && t != d.gen + 1
    requires t == self ==> !sec.JoinTest? && !sec.Lock? && !sec.CwAdd? && !sec.Exit?
    ensures var d' := Section(cfg, d, kthreads, self, sec).d;
            && t in d'.threads && d'.threads[t].resume == d.threads[t].resume
            && (d'.threads[t].state == Dead ==> d.threads[t].state == Dead)
  {
    hide FirstActive, Remove, IsRunning;
  }

  /** What a kernel thread has in hand after a section: what it had, nothing, or the thread it took. */
  lemma SectionHand(cfg: Config, d: Data, kthreads: map<Kid, Kthread>, self: Tid, sec: Sec)
    requires Ready(d, self, sec)
    ensures var o := Section(cfg, d, kthreads, self, sec);
            var i := FirstActive(d.threads, d.runQ.items);
            || Owner(o.kt) == None
            || Owner(o.kt) == Owner(Kthread(self, In(sec)))
            || (sec.Sched? && i < |d.runQ.items| && o.kt.pc == Wait(Disp(d.runQ.items[i])))
  {
    hide FirstActive, Remove, IsRunning, Enqueue, Release, WakeCond, Grab;
  }

  /** The sections a bound thread goes through: it gets the mutex and runs, or stays bound. */
  lemma BoundSection(cfg: Config, d: Data, kthreads: map<Kid, Kthread>, self: Tid, t: Tid, sec: Sec, m: Mid)
    requires Ready(d, self, sec) && Owner(Kthread(self, In(sec))) == Some(t) && t in d.threads
    requires BoundPc(In(sec), d.threads[t].resume, m)
    ensures var o := Section(cfg, d, kthreads, self, sec);
            && t in o.d.threads && (o.d.threads[t].state == Dead ==> d.threads[t].state == Dead)
            && (Owner(o.kt).Some? ==> Owner(o.kt) == Some(t))
            && (Owner(o.kt).Some? && !BoundPc(o.kt.pc, o.d.threads[t].resume, m) ==>
                  o.kt == Kthread(t, User) && m in o.d.mutexes && t in o.d.mutexes[m].holders)
            && (Owner(o.kt).None? ==> o.d.threads[t].resume == ToLock(m))
  {
  }

  ghost predicate Located(s: State, w: Spots, t: Tid) {
    && t in w && t in s.d.threads
    && (forall k :: w[t].place == On(k) <==> k in s.kthreads && Owner(s.kthreads[k]) == Some(t))
    && (w[t].place == Gone <==> s.d.threads[t].state == Dead)
    && (w[t].place == Queued <==> t in s.d.runQ.items)
  }

  lemma PlaceIs(s: State, w: Spots, t: Tid)
    requires Inv(s, w) && t in s.d.threads
    ensures Located(s, w, t) && t != s.d.gen + 1
  {
    assert Consistent(s.d.threads[t].state, w[t]);
    forall k | k in s.kthreads && Owner(s.kthreads[k]) == Some(t)
      ensures w[t].place == On(k)
    {
      assert Housed(s.d, w, k, s.kthreads[k]);
    }
    hide SemsHeld, Housed, Listed, Joined, Owner;
  }

  lemma OthersHands(cfg: Config, s: State, k: Kid)
    requires SemsHeld(s) && Enabled(s, Go(k)) && s.kthreads[k].pc.In?
    ensures var kt := s.kthreads[k];
            Next(cfg, s, Go(k)).kthreads[k] == Section(cfg, s.d, s.kthreads, kt.th, kt.pc.sec).kt
    ensures forall j :: j in Next(cfg, s, Go(k)).kthreads && j != k ==>
              var kt' := Next(cfg, s, Go(k)).kthreads[j];
              Owner(kt').Some? ==> j in s.kthreads && s.kthreads[j] == kt'
    ensures forall j :: j in s.kthreads && j != k ==>
              j in Next(cfg, s, Go(k)).kthreads && Next(cfg, s, Go(k)).kthreads[j] == s.kthreads[j]
  {
    assert s.kcount + 1 !in s.kthreads;
    hide SemsHeld, Section, Holds, PostAll;
  }

  lemma BoundOwn(cfg: Config, s: State, w: Spots, k: Kid, t: Tid, m: Mid, w': Spots)
    requires Inv(s, w) && Bound(s, w, t, m) && Enabled(s, Go(k)) && Inv(Next(cfg, s, Go(k)), w')
    requires s.kthreads[k].pc.In? && Owner(s.kthreads[k]) == Some(t)
    ensures Bound(Next(cfg, s, Go(k)), w', t, m) || RunsWith(Next(cfg, s, Go(k)), t, m)
  {
    hide SemsHeld, PlacedIn, Resumes;
    var s' := Next(cfg, s, Go(k));
    var kt := s.kthreads[k];
    PlaceIs(s, w, t);
    OthersHands(cfg, s, k);
    BoundSection(cfg, s.d, s.kthreads, kt.th, t, kt.pc.sec, m);
    hide Inv, Section, BoundPc, Owner;
    PlaceIs(s', w', t);
  }

  /** Kernel thread k moves; t is in other hands, or nobody's, or is what k takes out of the run queue. */
  lemma BoundCarries(s: State, w: Spots, s': State, w': Spots, k: Kid, t: Tid, m: Mid)
    requires Located(s, w, t) && Located(s', w', t) && Bound(s, w, t, m)
    requires s'.d.threads[t].resume == s.d.threads[t].resume
    requires s'.d.threads[t].state == Dead ==> s.d.threads[t].state == Dead
    requires k in s.kthreads && Owner(s.kthreads[k]) != Some(t) && k in s'.kthreads
    requires forall j :: j in s'.kthreads && j != k && Owner(s'.kthreads[j]).Some? ==>
               j in s.kthreads && s.kthreads[j] == s'.kthreads[j]
    requires forall j :: j in s.kthreads && j != k ==> j in s'.kthreads && s'.kthreads[j] == s.kthreads[j]
    requires Owner(s'.kthreads[k]) == Some(t) ==> s'.kthreads[k].pc == Wait(Disp(t)) && t in s.d.runQ.items
    ensures Bound(s', w', t, m)
  {
    hide Owner;
  }

  lemma TakenByScheduler(cfg: Config, s: State, k: Kid, t: Tid)
    requires Enabled(s, Go(k)) && s.kthreads[k].pc.In? && Owner(s.kthreads[k]) != Some(t)
    ensures var kt := s.kthreads[k];
            var o := Section(cfg, s.d, s.kthreads, kt.th, kt.pc.sec);
            Owner(o.kt) == Some(t) ==> o.kt.pc == Wait(Disp(t)) && t in s.d.runQ.items
  {
    var kt := s.kthreads[k];
    SectionHand(cfg, s.d, s.kthreads, kt.th, kt.pc.sec);
    hide Section, FirstActive;
  }

  lemma BoundOther(cfg: Config, s: State, w: Spots, k: Kid, t: Tid, m: Mid, w': Spots)
    requires Inv(s, w) && Bound(s, w, t, m) && Enabled(s, Go(k)) && Inv(Next(cfg, s, Go(k)), w')
    requires s.kthreads[k].pc.In? && Owner(s.kthreads[k]) != Some(t)
    ensures Bound(Next(cfg, s, Go(k)), w', t, m)
  {
    var s' := Next(cfg, s, Go(k));
    var kt := s.kthreads[k];
    OthersHands(cfg, s, k);
    PlaceIs(s, w, t);
    hide Inv, Section, Located, Bound;
    TakenByScheduler(cfg, s, k, t);
    SectionResume(cfg, s.d, s.kthreads, kt.th, kt.pc.sec, t);
    PlaceIs(s', w', t);
    BoundCarries(s, w, s', w', k, t, m);
  }

  lemma BoundControl(cfg: Config, s: State, w: Spots, e: Event, t: Tid, m: Mid, w': Spots)
    requires Inv(s, w) && Bound(s, w, t, m) && Enabled(s, e) && Inv(Next(cfg, s, e), w')
    requires !(e.Go? && s.kthreads[e.k].pc.In?)
    ensures Bound(Next(cfg, s, e), w', t, m)
  {
    hide SemsHeld, Section, DataInv, Housed;
    PlaceIs(s, w, t);
    hide Inv;
    var s' := Next(cfg, s, e);
    assert s'.d.threads[t].resume == s.d.threads[t].resume;
    PlaceIs(s', w', t);
    hide Next, Enabled;
  }

  lemma BoundStep(cfg: Config, s: State, w: Spots, e: Event, t: Tid, m: Mid, w': Spots)
    requires Inv(s, w) && Bound(s, w, t, m) && Enabled(s, e) && Inv(Next(cfg, s, e), w')
    ensures Bound(Next(cfg, s, e), w', t, m) || RunsWith(Next(cfg, s, e), t, m)
  {
    hide Inv, Bound, Next, Owner, RunsWith;
    if e.Go? && s.kthreads[e.k].pc.In? {
      if Owner(s.kthreads[e.k]) == Some(t) {
        BoundOwn(cfg, s, w, e.k, t, m, w');
      } else {
        BoundOther(cfg, s, w, e.k, t, m, w');
      }
    } else {
      BoundControl(cfg, s, w, e, t, m, w');
    }
  }

  predicate InUser(s: State, t: Tid) {
    exists k :: k in s.kthreads && s.kthreads[k] == Kthread(t, User)
  }

  /** In the first state of the run in which t is in user code, it holds m. */
  predicate FirstReturnHolds(cfg: Config, s: State, es: seq<Event>, t: Tid, m: Mid)
    requires Runs(cfg, s, es)
    decreases |es|
  {
    if InUser(s, t) then RunsWith(s, t, m)
    else es == [] || FirstReturnHolds(cfg, Next(cfg, s, es[0]), es[1..], t, m)
  }

  lemma BoundIsAway(s: State, w: Spots, t: Tid, m: Mid)
    requires Inv(s, w) && Bound(s, w, t, m)
    ensures !InUser(s, t)
  {
    PlaceIs(s, w, t);
    hide Inv;
  }

  /**
   A thread that is inside mutex_lock(m), or blocked on m, or waiting in cond_wait(c, m), is next seen in
   user code as a holder of m, in every run.
  */
  lemma {:induction false} BackWithTheMutex(cfg: Config, s: State, w: Spots, es: seq<Event>, t: Tid, m: Mid)
    requires Inv(s, w) && (Bound(s, w, t, m) || RunsWith(s, t, m))
    requires Runs(cfg, s, es) && CleanRun(cfg, s, es)
    ensures FirstReturnHolds(cfg, s, es, t, m)
    decreases |es|
  {
    hide Inv, Bound, Next;
    if Bound(s, w, t, m) {
      BoundIsAway(s, w, t, m);
      if es != [] {
        var w' := InvStep(cfg, s, w, es[0]);
        BoundStep(cfg, s, w, es[0], t, m, w');
        BackWithTheMutex(cfg, Next(cfg, s, es[0]), w', es[1..], t, m);
      }
    }
  }
}
