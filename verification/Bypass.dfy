/** mypthread_dequeue_first_active: how long a runnable thread can be passed over. */
module Bypass {
  import opened Prelude
  import opened Machine
  import opened Placement

  /** The event takes the entry at index i out of the run queue. */
  predicate Takes(s: State, e: Event, i: nat) {
    && e.Go? && e.k in s.kthreads && s.kthreads[e.k].pc == In(Sched)
    && i == FirstActive(s.d.threads, s.d.runQ.items) && i < |s.d.runQ.items|
  }

  predicate TakesSome(s: State, e: Event) { Takes(s, e, FirstActive(s.d.threads, s.d.runQ.items)) }

  predicate TakesThread(s: State, e: Event, t: Tid) {
    TakesSome(s, e) && s.d.runQ.items[FirstActive(s.d.threads, s.d.runQ.items)] == t
  }

  /** How many threads are dispatched in the run. */
  function Dequeues(cfg: Config, s: State, es: seq<Event>): nat
    requires Runs(cfg, s, es)
    decreases |es|
  {
    if es == [] then 0
    else (if TakesSome(s, es[0]) then 1 else 0) + Dequeues(cfg, Next(cfg, s, es[0]), es[1..])
  }

  predicate IsTaken(cfg: Config, s: State, es: seq<Event>, t: Tid)
    requires Runs(cfg, s, es)
    decreases |es|
  {
    es != [] && (TakesThread(s, es[0], t) || IsTaken(cfg, Next(cfg, s, es[0]), es[1..], t))
  }

  predicate ActiveAt(d: Data, t: Tid, i: nat) {
    i < |d.runQ.items| && d.runQ.items[i] == t && t in d.threads && d.threads[t].state == Active
  }

  /** The run queue after a section: something appended, or one entry removed. */
  lemma SectionOnQueue(cfg: Config, d: Data, kthreads: map<Kid, Kthread>, self: Tid, sec: Sec)
    requires Ready(d, self, sec)
    ensures var q := Section(cfg, d, kthreads, self, sec).d.runQ.items;
            var i := FirstActive(d.threads, d.runQ.items);
            if sec.Sched? && i < |d.runQ.items| then q == Without(d.runQ.items, i) else d.runQ.items <= q
  {
    hide FirstActive, IsRunning, WakeAll, WakeJoiners;
  }

  /** A runnable thread in the queue is not stopped by anything other threads do. */
  lemma StaysActive(cfg: Config, d: Data, w: Spots, kthreads: map<Kid, Kthread>, k: Kid, self: Tid, sec: Sec, t: Tid)
    requires Here(d, w, k, self, sec) && t in d.runQ.items && t in d.threads && d.threads[t].state == Active
    ensures var d' := Section(cfg, d, kthreads, self, sec).d;
            t in d'.threads && d'.threads[t].state == Active
  {
    if OwnsSelf(sec) {
      SelfInHand(d, w, k, self, sec);
      assert w[t].place == Queued;
    }
    assert t != d.gen + 1;
    hide DataInv, Here, FirstActive, Remove, IsRunning;
  }

  /** One event: the thread is taken, or it keeps its place, one nearer to the head for each dequeue. */
  lemma PlaceAfter(cfg: Config, s: State, w: Spots, e: Event, t: Tid, i: nat)
    requires Inv(s, w) && Enabled(s, e) && ActiveAt(s.d, t, i) && !TakesThread(s, e, t)
    ensures TakesSome(s, e) ==> i > 0
    ensures ActiveAt(Next(cfg, s, e).d, t, if TakesSome(s, e) then i - 1 else i)
  {
    var kt := s.kthreads[e.k];
    var items := s.d.runQ.items;
    FirstActiveIs(s.d.threads, items);
    if e.Go? && kt.pc.In? {
      HandOf(s, w, e.k);
      hide Inv, Here, Section, FirstActive, Ready;
      StaysActive(cfg, s.d, w, s.kthreads, e.k, kt.th, kt.pc.sec, t);
      SectionOnQueue(cfg, s.d, s.kthreads, kt.th, kt.pc.sec);
    } else {
      hide Inv, Section, FirstActive;
    }
  }

  /**
   Bounded bypass: a runnable thread at index i has been dispatched once i + 1 threads have been, whatever
   creates, yields, joins, locks, unlocks, signals and exits lie in between.
  */
  lemma {:induction false} BoundedBypass(cfg: Config, s: State, w: Spots, es: seq<Event>, t: Tid, i: nat)
    requires Inv(s, w) && Runs(cfg, s, es) && CleanRun(cfg, s, es) && ActiveAt(s.d, t, i)
    ensures !IsTaken(cfg, s, es, t) ==>
              Dequeues(cfg, s, es) <= i && ActiveAt(After(cfg, s, es).d, t, i - Dequeues(cfg, s, es))
    decreases |es|
  {
    hide Inv, ActiveAt, TakesSome, TakesThread;
    if es != [] && !TakesThread(s, es[0], t) {
      PlaceAfter(cfg, s, w, es[0], t, i);
      var w1 := InvStep(cfg, s, w, es[0]);
      BoundedBypass(cfg, Next(cfg, s, es[0]), w1, es[1..], t, if TakesSome(s, es[0]) then i - 1 else i);
    }
  }
}
