/** The signals of server/threadpool.c: whom they wake, and in which order. */
module PoolSignals {
  import opened Prelude
  import opened ThreadPool
  import opened PoolTheorems

  /** The event is a signal: one of the two in dispatch, or that of a worker that has taken the last task. */
  predicate Signals(s: State, e: Event) {
    match e
    case Go(Worker(i)) => i < |s.workers| && s.workers[i].WSignal? && s.queue == []
    case Go(Client(j)) => j < |s.clients| && (s.clients[j].CSignal1? || s.clients[j].CSignal2?)
    case _ => false
  }

  /** Worker i finds no task. */
  predicate GoesToSleep(s: State, e: Event, i: nat) {
    e == Go(Worker(i)) && i < |s.workers| && s.workers[i].WTest? && s.queue == []
  }

  /**
   All that happens to the sleeping workers: one that finds no task lines up behind the others, and a signal takes
   the one that has slept longest and sends it after the mutex.
  */
  lemma SleepersExactly(s: State, e: Event)
    requires Guarded(s) && Enabled(s, e)
    ensures Shape(s)
    ensures var s' := Next(s, e);
            if Signals(s, e) && s.sleeping != [] then
              s'.sleeping == s.sleeping[1..] && |s'.workers| == |s.workers| && s'.workers[s.sleeping[0]] == WRelock
            else if e.Go? && e.a.Worker? && GoesToSleep(s, e, e.a.i) then
              s'.sleeping == s.sleeping + [e.a.i]
            else s'.sleeping == s.sleeping
  {
    hide Locked, TakersFind, Distinct;
  }

  function Min(a: nat, b: nat): nat { if a < b then a else b }

  /** The first n of the sleepers, or as many as there are, have been woken, and no other. */
  ghost predicate Woken(s: State, sleepers: seq<nat>, n: nat) {
    var m := Min(n, |sleepers|);
    && s.sleeping == sleepers[m..]
    && forall k :: 0 <= k < m ==> sleepers[k] < |s.workers| && s.workers[sleepers[k]] == WRelock
  }

  /** How many signals client j has given, from its push to its unlock. */
  function Given(pc: ClientPc): Option<nat> {
    match pc
    case CPush(_) | CSignal1 => Some(0)
    case CSignal2 => Some(1)
    case CUnlock => Some(2)
    case _ => None
  }

  ghost predicate Signalling(s: State, j: nat, sleepers: seq<nat>) {
    j < |s.clients| && Given(s.clients[j]).Some? && Woken(s, sleepers, Given(s.clients[j]).value)
  }

  /** While the client is inside nobody else is, and nobody falls asleep or gets the mutex. */
  lemma OthersWait(s: State, e: Event, j: nat)
    requires Guarded(s) && Enabled(s, e) && j < |s.clients| && Given(s.clients[j]).Some? && e != Go(Client(j))
    ensures Shape(s)
    ensures var s' := Next(s, e);
            && s'.sleeping == s.sleeping && |s'.workers| == |s.workers|
            && j < |s'.clients| && s'.clients[j] == s.clients[j]
            && forall i :: 0 <= i < |s.workers| && s.workers[i] == WRelock ==> s'.workers[i] == WRelock
  {
    assert Inside(s, Client(j));
    if e.Go? && Inside(s, e.a) {
      OneInside(s, Client(j), e.a);
    }
    assert s.mutex == Some(Client(j));
    hide Locked, SleepersListed, TakersFind;
  }

  lemma ClientSignals(s: State, j: nat, sleepers: seq<nat>)
    requires Guarded(s) && Signalling(s, j, sleepers) && !s.clients[j].CUnlock?
    ensures Shape(s) && Enabled(s, Go(Client(j))) && Signalling(Next(s, Go(Client(j))), j, sleepers)
  {
    var s' := Next(s, Go(Client(j)));
    SleepersExactly(s, Go(Client(j)));
    SleepersStep(s, Go(Client(j)));
    hide Guarded;
    var m := Min(Given(s.clients[j]).value, |sleepers|);
    if s.sleeping != [] {
      assert s.sleeping[0] == sleepers[m] && s.sleeping[1..] == sleepers[m + 1..];
    }
  }

  /** If client j comes to its unlock during the run, then the first two sleepers have been woken by then. */
  ghost predicate TwoWokenAtUnlock(s: State, es: seq<Event>, j: nat, sleepers: seq<nat>)
    requires Runs(s, es)
    decreases |es|
  {
    if j < |s.clients| && s.clients[j].CUnlock? then Woken(s, sleepers, 2)
    else es == [] || TwoWokenAtUnlock(Next(s, es[0]), es[1..], j, sleepers)
  }

  lemma {:induction false} SignallingRun(s: State, es: seq<Event>, j: nat, sleepers: seq<nat>)
    requires Inv(s) && Runs(s, es) && Signalling(s, j, sleepers)
    ensures TwoWokenAtUnlock(s, es, j, sleepers)
    decreases |es|
  {
    hide Inv;
    if es != [] && !s.clients[j].CUnlock? {
      StepKeeps(s, es[0], j, sleepers);
      InvStep(s, es[0]);
      hide Next, Woken, Signalling, Shape, Enabled;
      SignallingRun(Next(s, es[0]), es[1..], j, sleepers);
    }
  }

  lemma StepKeeps(s: State, e: Event, j: nat, sleepers: seq<nat>)
    requires Inv(s) && Enabled(s, e) && Signalling(s, j, sleepers) && !s.clients[j].CUnlock?
    ensures Shape(s) && Signalling(Next(s, e), j, sleepers)
  {
    if e == Go(Client(j)) {
      ClientSignals(s, j, sleepers);
    } else {
      OthersWait(s, e, j);
      hide Next, Guarded, Enabled;
    }
  }

  /**
   A dispatch wakes two workers, or all if fewer sleep, in the order in which they went to sleep: from its push on,
   in any interleaving, these have been sent after the mutex when it comes to its unlock, and no other.
  */
  lemma DispatchWakesTwo(n: nat, m: nat, es: seq<Event>, j: nat, more: seq<Event>)
    requires Runs(Init(n, m), es)
    requires var s := After(Init(n, m), es); j < |s.clients| && s.clients[j].CPush? && Runs(s, more)
    ensures var s := After(Init(n, m), es); TwoWokenAtUnlock(s, more, j, s.sleeping)
  {
    InitInv(n, m);
    InvRun(Init(n, m), es);
    hide Inv;
    var s := After(Init(n, m), es);
    SignallingRun(s, more, j, s.sleeping);
  }
}
