/** The four internal semaphores: who holds which, why no wait cycle can arise, and who can always go on. */
module Semaphores {
  import opened Prelude
  import opened Machine

  /** A semaphore with value 0 is held by the kernel thread that took it, or was leaked by a trylock. */
  ghost predicate SemsHeld(s: State) {
    && (forall x: Sem :: x in s.sem)
    && (forall k, x :: k in s.kthreads && Holds(s.kthreads[k].pc, x) ==> s.sem[x] == Some(k))
    && (forall x :: s.sem[x].Some? ==>
          && s.sem[x].value in s.kthreads
          && (Holds(s.kthreads[s.sem[x].value].pc, x) || (x == MutexSem && s.leaked)))
    && (s.leaked ==> s.sem[MutexSem].Some? && forall k :: k in s.kthreads ==> !Holds(s.kthreads[k].pc, MutexSem))
    && (forall k :: k in s.kthreads ==> k <= s.kcount && Stands(s.kthreads[k].pc))
  }

  /** Only sections that wait are waited for. */
  predicate Stands(pc: Pc) {
    pc.Wait? ==> Needs(pc.sec).Some?
  }

  /** The outcome stops holding exactly what it posts, or what it leaks. */
  ghost predicate Balanced(sec: Sec, o: Outcome) {
    && Stands(o.kt.pc)
    && (forall x :: x in o.posts ==> Holds(In(sec), x))
    && (Leaks(sec, o) ==> Holds(In(sec), MutexSem))
    && (forall x :: Holds(o.kt.pc, x) <==> Holds(In(sec), x) && x !in o.posts && !(Leaks(sec, o) && x == MutexSem))
  }

  /** Every section of the library posts what it stops holding; only a busy trylock can leak. */
  lemma SectionBalanced(cfg: Config, d: Data, kthreads: map<Kid, Kthread>, self: Tid, sec: Sec)
    requires Ready(d, self, sec)
    ensures Balanced(sec, Section(cfg, d, kthreads, self, sec))
    ensures Leaks(sec, Section(cfg, d, kthreads, self, sec)) <==>
            sec.TryLock? && d.mutexes[sec.m].locked && !cfg.postsBusy
  {
    hide Enqueue, Release, WakeCond, FirstActive, Remove, IsRunning, Grab;
  }

  lemma KthreadMoves(s: State, k: Kid, sec: Sec, o: Outcome)
    requires SemsHeld(s) && k in s.kthreads && s.kthreads[k].pc == In(sec) && Balanced(sec, o)
    ensures SemsHeld(State(o.d, s.kthreads[k := o.kt], s.kcount, PostAll(s.sem, o.posts), s.leaked || Leaks(sec, o)))
  {
    hide Holds, Stands;
    var s' := State(o.d, s.kthreads[k := o.kt], s.kcount, PostAll(s.sem, o.posts), s.leaked || Leaks(sec, o));
    forall j, x | j in s'.kthreads && Holds(s'.kthreads[j].pc, x)
      ensures s'.sem[x] == Some(j)
    {
      assert s.sem[x] == Some(j) && x !in o.posts && x in s.sem;
    }
  }

  lemma KthreadSpawned(s: State)
    requires SemsHeld(s)
    ensures SemsHeld(s.(kcount := s.kcount + 1, kthreads := s.kthreads[s.kcount + 1 := Kthread(0, Wait(Count))]))
  {
    assert Stands(Wait(Count)) && forall x :: !Holds(Wait(Count), x);
    hide Holds, Stands;
  }

  lemma SemsFinish(cfg: Config, s: State, k: Kid, sec: Sec, o: Outcome)
    requires SemsHeld(s) && k in s.kthreads && s.kthreads[k].pc == In(sec) && Balanced(sec, o)
    ensures SemsHeld(Finish(cfg, s, k, sec, o))
  {
    KthreadMoves(s, k, sec, o);
    KthreadSpawned(State(o.d, s.kthreads[k := o.kt], s.kcount, PostAll(s.sem, o.posts), s.leaked || Leaks(sec, o)));
    hide Holds, Stands, SemsHeld, Leaks, PostAll;
  }

  lemma SemsStep(cfg: Config, s: State, e: Event)
    requires SemsHeld(s) && Enabled(s, e)
    ensures SemsHeld(Next(cfg, s, e))
  {
    hide Section, Finish, Holds, Stands, SemsHeld, Balanced;
    var kt := s.kthreads[e.k];
    if e.Go? && kt.pc.In? {
      SectionBalanced(cfg, s.d, s.kthreads, kt.th, kt.pc.sec);
      SemsFinish(cfg, s, e.k, kt.pc.sec, Section(cfg, s.d, s.kthreads, kt.th, kt.pc.sec));
    } else {
      SemsControl(cfg, s, e);
    }
  }

  lemma SemsControl(cfg: Config, s: State, e: Event)
    requires SemsHeld(s) && Enabled(s, e) && !(e.Go? && s.kthreads[e.k].pc.In?)
    ensures SemsHeld(Next(cfg, s, e))
  {
    hide Section, Finish;
  }

  lemma InitSems(ms: set<Mid>, cs: set<Cid>)
    ensures SemsHeld(Init(ms, cs))
  {
    var s := Init(ms, cs);
    forall x: Sem
      ensures x in s.sem && s.sem[x] == None
    {
      match x case CondSem => case MutexSem => case QueueSem => case KthreadSem =>
    }
  }

  lemma {:induction false} SemsHold(cfg: Config, s: State, es: seq<Event>)
    requires SemsHeld(s) && Runs(cfg, s, es)
    ensures SemsHeld(After(cfg, s, es))
    decreases |es|
  {
    if es != [] {
      SemsStep(cfg, s, es[0]);
      SemsHold(cfg, Next(cfg, s, es[0]), es[1..]);
    }
  }

  /** The semaphores exclude: at most one kernel thread is behind each. */
  lemma OneHolder(s: State, k: Kid, k': Kid, x: Sem)
    requires SemsHeld(s) && k in s.kthreads && k' in s.kthreads
    requires Holds(s.kthreads[k].pc, x) && Holds(s.kthreads[k'].pc, x)
    ensures k == k'
  {
    assert s.sem[x] == Some(k) && s.sem[x] == Some(k');
  }

  // -------------------------------------------------------------------- what each of them guards

  /** What a section changes it changes behind the semaphore of that data. */
  lemma SectionGuarded(cfg: Config, d: Data, kthreads: map<Kid, Kthread>, self: Tid, sec: Sec)
    requires Ready(d, self, sec)
    ensures var o := Section(cfg, d, kthreads, self, sec); var d' := o.d;
            && (d'.runQ != d.runQ || d'.lost != d.lost || d'.gen != d.gen || d'.count != d.count ==>
                  Holds(In(sec), QueueSem))
            && (d'.mutexes != d.mutexes ==> Holds(In(sec), MutexSem))
            && (d'.conds != d.conds ==> Holds(In(sec), CondSem))
            && (o.kt.th != self ==> Holds(In(sec), KthreadSem))
            && (forall t :: t in d.threads && t != self && t != d.gen + 1 ==>
                  && t in d'.threads
                  && (d'.threads[t] != d.threads[t] ==> Holds(In(sec), QueueSem) || Holds(In(sec), MutexSem)))
  {
    hide FirstActive, Remove, IsRunning;
  }

  /**
   Each semaphore guards its data: an event changes the run queue, the counter or the ids only if its kernel thread
   has taken mypthread_sem, a mutex only behind mutex_sem, the list of a condition variable only behind cond_sem,
   the number of kernel threads or the thread that one of them names only behind kthread_sem, and a thread other
   than its own (or the one it creates) only behind mypthread_sem or mutex_sem.
  */
  lemma WritesAreGuarded(cfg: Config, s: State, e: Event)
    requires SemsHeld(s) && Enabled(s, e)
    ensures var s' := Next(cfg, s, e); var d, d' := s.d, s'.d;
            && (d'.runQ != d.runQ || d'.lost != d.lost || d'.gen != d.gen || d'.count != d.count ==>
                  s.sem[QueueSem] == Some(e.k))
            && (d'.mutexes != d.mutexes ==> s.sem[MutexSem] == Some(e.k))
            && (d'.conds != d.conds ==> s.sem[CondSem] == Some(e.k))
            && (s'.kcount != s.kcount ==> s.sem[KthreadSem] == Some(e.k))
            && (forall k :: k in s.kthreads ==>
                  k in s'.kthreads && (s'.kthreads[k].th != s.kthreads[k].th ==> s.sem[KthreadSem] == Some(e.k)))
            && (forall t :: t in d.threads && t != s.kthreads[e.k].th && t != d.gen + 1 ==>
                  && t in d'.threads
                  && (d'.threads[t] != d.threads[t] ==>
                        s.sem[QueueSem] == Some(e.k) || s.sem[MutexSem] == Some(e.k)))
  {
    hide Section, PostAll;
    var kt := s.kthreads[e.k];
    assert s.kcount + 1 !in s.kthreads;
    if e.Go? && kt.pc.In? {
      SectionGuarded(cfg, s.d, s.kthreads, kt.th, kt.pc.sec);
    }
  }

  // -------------------------------------------------------------------- no wait cycle

  /** Kernel thread k sits in front of semaphore x, and kernel thread k' holds it. */
  predicate WaitsFor(s: State, k: Kid, x: Sem, k': Kid) {
    k in s.kthreads && k' in s.kthreads && Wants(s.kthreads[k].pc, x) && Holds(s.kthreads[k'].pc, x)
  }

  /** ks[0] waits for ks[1] over xs[0], ks[1] waits for ks[2] over xs[1], and so on. */
  ghost predicate WaitChain(s: State, ks: seq<Kid>, xs: seq<Sem>) {
    |ks| == |xs| + 1 && forall i :: 0 <= i < |xs| ==> WaitsFor(s, ks[i], xs[i], ks[i + 1])
  }

  /** The nesting order: whoever waits holds only semaphores of lower rank. */
  lemma LockOrder(pc: Pc, x: Sem, y: Sem)
    requires Wants(pc, x) && Holds(pc, y)
    ensures Rank(y) < Rank(x)
  {
  }

  /** Along a chain of waits the rank of the wanted semaphore grows, so the ends differ. */
  lemma {:induction false} ChainClimbs(s: State, ks: seq<Kid>, xs: seq<Sem>)
    requires WaitChain(s, ks, xs) && |xs| > 0
    ensures Rank(xs[0]) + |xs| - 1 <= Rank(xs[|xs| - 1])
  {
    if |xs| > 1 {
      assert WaitsFor(s, ks[0], xs[0], ks[0 + 1]) && WaitsFor(s, ks[1], xs[1], ks[1 + 1]);
      LockOrder(s.kthreads[ks[1]].pc, xs[1], xs[0]);
      ChainClimbs(s, ks[1..], xs[1..]);
    }
  }

  /** In no state, with any number of kernel threads, does a chain of waits come back to where it began. */
  lemma NoWaitCycle(s: State, ks: seq<Kid>, xs: seq<Sem>)
    requires WaitChain(s, ks, xs) && |xs| > 0
    ensures ks[0] != ks[|xs|]
    ensures |xs| <= 4
  {
    ChainClimbs(s, ks, xs);
    if ks[0] == ks[|xs|] {
      var last := |xs| - 1;
      assert WaitsFor(s, ks[0], xs[0], ks[0 + 1]) && WaitsFor(s, ks[last], xs[last], ks[last + 1]);
      LockOrder(s.kthreads[ks[0]].pc, xs[0], xs[last]);
    }
  }
}
