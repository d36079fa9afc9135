/** What the pool keeps: no task waits while a worker that could take it sleeps, and every task runs once. */
module PoolTheorems {
  import opened Prelude
  import opened ThreadPool

  function Total<T>(f: T -> nat, xs: seq<T>): nat {
    if xs == [] then 0 else f(xs[0]) + Total(f, xs[1..])
  }

  lemma {:induction false} TotalUpdate<T>(f: T -> nat, xs: seq<T>, i: nat, x: T)
    requires i < |xs|
    ensures Total(f, xs[i := x]) + f(xs[i]) == Total(f, xs) + f(x)
  {
    if i == 0 {
      assert xs[0 := x][1..] == xs[1..];
    } else {
      assert xs[i := x][1..] == xs[1..][i - 1 := x];
      TotalUpdate(f, xs[1..], i - 1, x);
    }
  }

  /** A signal turns the first sleeper, if there is one, into a worker that goes for the mutex. */
  lemma SignalTotal(f: WorkerPc -> nat, s: State)
    requires SleepersListed(s)
    ensures Total(f, Signal(s).workers) + (if s.sleeping == [] then 0 else f(WSleep))
         == Total(f, s.workers) + (if s.sleeping == [] then 0 else f(WRelock))
  {
    if s.sleeping != [] {
      assert s.sleeping[0] in s.sleeping;
      TotalUpdate(f, s.workers, s.sleeping[0], WRelock);
    }
  }

  // -------------------------------------------------------------------- work conservation

  /** 1 for a worker that is neither asleep nor busy with a task: it is going to look at the queue. */
  function Awake(pc: WorkerPc): nat {
    match pc
    case WLock | WTest | WRelock | WTake => 1
    case _ => 0
  }

  /** Some caller of dispatch has pushed its task and not signalled yet. */
  predicate Unsignalled(s: State) {
    match s.mutex
    case Some(Client(j)) => j < |s.clients| && s.clients[j].CSignal1?
    case _ => false
  }

  ghost predicate WorkConserved(s: State) {
    s.sleeping != [] ==> |s.queue| <= Total(Awake, s.workers) + if Unsignalled(s) then 1 else 0
  }

  lemma WorkerConserves(s: State, i: nat)
    requires Guarded(s) && CanGo(s, Worker(i)) && WorkConserved(s)
    ensures WorkConserved(WorkerNext(s, i))
  {
    assert Inside(s, Worker(i)) ==> s.mutex == Some(Worker(i));
    var pc := s.workers[i];
    var s' := WorkerNext(s, i);
    if pc.WSignal? {
      var s1 := s.(workers := s.workers[i := WUnlock(pc.job)]);
      TotalUpdate(Awake, s.workers, i, WUnlock(pc.job));
      assert i !in s.sleeping;
      if s.queue == [] {
        hide Total;
      }
    } else {
      TotalUpdate(Awake, s.workers, i, s'.workers[i]);
      hide Total;
    }
  }

  lemma ClientConserves(s: State, j: nat)
    requires Guarded(s) && CanGo(s, Client(j)) && WorkConserved(s)
    ensures WorkConserved(ClientNext(s, j))
  {
    assert Inside(s, Client(j)) ==> s.mutex == Some(Client(j));
    if s.clients[j].CSignal1? {
      SignalTotal(Awake, s.(clients := s.clients[j := CSignal2]));
    } else if s.clients[j].CSignal2? {
      SignalTotal(Awake, s.(clients := s.clients[j := CUnlock]));
    }
    hide Total;
  }

  lemma ConservedStep(s: State, e: Event)
    requires Guarded(s) && Enabled(s, e) && WorkConserved(s)
    ensures Shape(s) && WorkConserved(Next(s, e))
  {
    match e
    case Dispatch(j, _) =>
      if Unsignalled(s) {
        assert s.clients[j].CIdle?;
      }
    case Go(Worker(i)) => WorkerConserves(s, i);
    case Go(Client(j)) => ClientConserves(s, j);
  }

  // -------------------------------------------------------------------- exactly once, in order

  predicate InHand(pc: WorkerPc, job: Job) {
    (pc.WSignal? || pc.WUnlock? || pc.WRun?) && pc.job == job
  }

  /** 1 for a worker that has taken the job and not finished it. */
  function Has(job: Job): WorkerPc -> nat {
    (pc: WorkerPc) => if InHand(pc, job) then 1 else 0
  }

  /** Tasks leave the queue in the order of arrival. */
  ghost predicate InOrder(s: State) {
    s.dispatched == s.dequeued + s.queue
  }

  /** A job was taken off the queue as many times as it was executed or is in the hand of one worker. */
  ghost predicate Once(s: State) {
    forall job :: multiset(s.executed)[job] + Total(Has(job), s.workers) == multiset(s.dequeued)[job]
  }

  lemma WorkerHands(s: State, i: nat, job: Job)
    requires Guarded(s) && CanGo(s, Worker(i))
    ensures i < |WorkerNext(s, i).workers|
    ensures Total(Has(job), WorkerNext(s, i).workers) + Has(job)(s.workers[i])
         == Total(Has(job), s.workers) + Has(job)(WorkerNext(s, i).workers[i])
  {
    var pc, s' := s.workers[i], WorkerNext(s, i);
    WorkerSleepers(s, i);
    if pc.WSignal? {
      var s1 := s.(workers := s.workers[i := WUnlock(pc.job)]);
      TotalUpdate(Has(job), s.workers, i, WUnlock(pc.job));
      assert i !in s.sleeping;
      assert SleepersListed(s1);
      SignalTotal(Has(job), s1);
    } else {
      TotalUpdate(Has(job), s.workers, i, s'.workers[i]);
    }
    hide Total;
  }

  /** What a worker enters in the books is what it has in hand before, or behind, its step. */
  lemma WorkerBooks(s: State, i: nat, job: Job)
    requires Shape(s) && CanGo(s, Worker(i)) && (s.workers[i].WSignal? ==> i !in s.sleeping)
    ensures i < |WorkerNext(s, i).workers|
    ensures multiset(WorkerNext(s, i).executed)[job] + Has(job)(WorkerNext(s, i).workers[i]) + multiset(s.dequeued)[job]
         == multiset(s.executed)[job] + Has(job)(s.workers[i]) + multiset(WorkerNext(s, i).dequeued)[job]
  {
  }

  lemma WorkerOnce(s: State, i: nat)
    requires Guarded(s) && CanGo(s, Worker(i)) && Once(s)
    ensures Once(WorkerNext(s, i))
  {
    var s' := WorkerNext(s, i);
    assert s.workers[i].WSignal? ==> i !in s.sleeping;
    hide WorkerNext, CanGo, Guarded;
    forall job
      ensures multiset(s'.executed)[job] + Total(Has(job), s'.workers) == multiset(s'.dequeued)[job]
    {
      WorkerHands(s, i, job);
      WorkerBooks(s, i, job);
      hide Total, Has;
      assert multiset(s.executed)[job] + Total(Has(job), s.workers) == multiset(s.dequeued)[job];
    }
  }

  lemma ClientOnce(s: State, j: nat)
    requires Guarded(s) && CanGo(s, Client(j)) && Once(s)
    ensures Once(ClientNext(s, j))
  {
    var s' := ClientNext(s, j);
    forall job
      ensures multiset(s'.executed)[job] + Total(Has(job), s'.workers) == multiset(s'.dequeued)[job]
    {
      if s.clients[j].CSignal1? {
        SignalTotal(Has(job), s.(clients := s.clients[j := CSignal2]));
      } else if s.clients[j].CSignal2? {
        SignalTotal(Has(job), s.(clients := s.clients[j := CUnlock]));
      }
      hide Total, SleepersListed, Locked;
      assert multiset(s.executed)[job] + Total(Has(job), s.workers) == multiset(s.dequeued)[job];
    }
  }

  lemma OnceStep(s: State, e: Event)
    requires Guarded(s) && Enabled(s, e) && Once(s)
    ensures Shape(s) && Once(Next(s, e))
  {
    match e
    case Dispatch(_, _) =>
    case Go(Worker(i)) => WorkerOnce(s, i);
    case Go(Client(j)) => ClientOnce(s, j);
  }

  lemma InOrderStep(s: State, e: Event)
    requires Guarded(s) && Enabled(s, e) && InOrder(s)
    ensures Shape(s) && InOrder(Next(s, e))
  {
    var s' := Next(s, e);
    if s'.dequeued != s.dequeued {
      assert s.dequeued + s.queue == s.dequeued + [s.queue[0]] + s.queue[1..];
    }
    assert forall job :: s.dequeued + s.queue + [job] == s.dequeued + (s.queue + [job]);
  }

  // -------------------------------------------------------------------- runs

  ghost predicate Inv(s: State) {
    Guarded(s) && WorkConserved(s) && InOrder(s) && Once(s)
  }

  ghost predicate Runs(s: State, es: seq<Event>)
    decreases |es|
  {
    es == [] || (Shape(s) && Enabled(s, es[0]) && Runs(Next(s, es[0]), es[1..]))
  }

  ghost function After(s: State, es: seq<Event>): State
    requires Runs(s, es)
    decreases |es|
  {
    if es == [] then s else After(Next(s, es[0]), es[1..])
  }

  lemma InvStep(s: State, e: Event)
    requires Inv(s) && Enabled(s, e)
    ensures Shape(s) && Inv(Next(s, e)) && |Next(s, e).workers| == |s.workers|
  {
    SleepersStep(s, e);
    LockedStep(s, e);
    TakersStep(s, e);
    ConservedStep(s, e);
    OnceStep(s, e);
    InOrderStep(s, e);
    hide Locked, SleepersListed, TakersFind, WorkConserved, InOrder, Once, Next, Enabled;
  }

  lemma {:induction false} InvRun(s: State, es: seq<Event>)
    requires Inv(s) && Runs(s, es)
    ensures Inv(After(s, es)) && |After(s, es).workers| == |s.workers|
    decreases |es|
  {
    if es != [] {
      InvStep(s, es[0]);
      hide Inv;
      InvRun(Next(s, es[0]), es[1..]);
    }
  }

  lemma {:induction false} TotalNone<T>(f: T -> nat, xs: seq<T>)
    requires forall i :: 0 <= i < |xs| ==> f(xs[i]) == 0
    ensures Total(f, xs) == 0
  {
    if xs != [] {
      TotalNone(f, xs[1..]);
    }
  }

  lemma InitInv(n: nat, m: nat)
    ensures Inv(Init(n, m))
  {
    forall job
      ensures Total(Has(job), Init(n, m).workers) == 0
    {
      TotalNone(Has(job), Init(n, m).workers);
    }
  }

  /**
   In every reachable state in which nobody has the mutex: if a worker sleeps, there are at least as many
   workers on their way to the queue as tasks in it.
  */
  lemma NoTaskWaitsForASleeper(n: nat, m: nat, es: seq<Event>)
    requires Runs(Init(n, m), es)
    ensures var s := After(Init(n, m), es);
            s.mutex == None && s.sleeping != [] ==> |s.queue| <= Total(Awake, s.workers)
  {
    InitInv(n, m);
    InvRun(Init(n, m), es);
  }

  /** In particular, no task is queued while every worker sleeps. */
  lemma AllAsleepMeansNoTask(n: nat, m: nat, es: seq<Event>)
    requires n > 0 && Runs(Init(n, m), es)
    ensures var s := After(Init(n, m), es);
            s.mutex == None && (forall i :: 0 <= i < |s.workers| ==> s.workers[i].WSleep?) ==> s.queue == []
  {
    InitInv(n, m);
    InvRun(Init(n, m), es);
    var s := After(Init(n, m), es);
    if forall i :: 0 <= i < |s.workers| ==> s.workers[i].WSleep? {
      TotalNone(Awake, s.workers);
      assert |s.workers| == n;
      assert 0 in s.sleeping;
    }
  }

  /**
   First in, first out, and nothing lost: what was dispatched is what was taken, followed by what is queued;
   and each job was taken as often as it was executed or is in the hand of one worker.
  */
  lemma FifoExactlyOnce(n: nat, m: nat, es: seq<Event>)
    requires Runs(Init(n, m), es)
    ensures var s := After(Init(n, m), es);
            && s.dispatched == s.dequeued + s.queue
            && forall job :: multiset(s.executed)[job] + Total(Has(job), s.workers) == multiset(s.dequeued)[job]
  {
    InitInv(n, m);
    InvRun(Init(n, m), es);
  }

  // -------------------------------------------------------------------- calls of dispatch

  /** The tasks that dispatch was called with. */
  function Called(es: seq<Event>): seq<Job> {
    if es == [] then [] else (if es[0].Dispatch? then [es[0].job] else []) + Called(es[1..])
  }

  /** 1 for a caller of dispatch that has not pushed the job yet. */
  function Due(job: Job): ClientPc -> nat {
    (pc: ClientPc) => if (pc.CLock? || pc.CPush?) && pc.job == job then 1 else 0
  }

  lemma ClientsOf(s: State, e: Event)
    requires SleepersListed(s) && Enabled(s, e)
    ensures var s', mine := Next(s, e), if e.Dispatch? then e.j else if e.a.Client? then e.a.j else 0;
            && |s'.clients| == |s.clients|
            && (e.Go? && e.a.Worker? ==> s'.clients == s.clients && s'.dispatched == s.dispatched)
            && (!(e.Go? && e.a.Worker?) ==> mine < |s.clients| && s'.clients == s.clients[mine := s'.clients[mine]])
  {
    hide Distinct;
  }

  /** The books of dispatch: what is called is due, and what is no longer due is dispatched. */
  lemma DispatchBooks(s: State, e: Event, job: Job)
    requires SleepersListed(s) && Enabled(s, e)
    ensures multiset(Next(s, e).dispatched)[job] + Total(Due(job), Next(s, e).clients)
         == multiset(s.dispatched)[job] + Total(Due(job), s.clients) + if e.Dispatch? && e.job == job then 1 else 0
  {
    var s' := Next(s, e);
    ClientsOf(s, e);
    if !(e.Go? && e.a.Worker?) {
      var j := if e.Dispatch? then e.j else e.a.j;
      TotalUpdate(Due(job), s.clients, j, s'.clients[j]);
      hide Total, SleepersListed;
    }
  }

  lemma {:induction false} DispatchRun(s: State, es: seq<Event>, job: Job)
    requires Inv(s) && Runs(s, es)
    ensures multiset(After(s, es).dispatched)[job] + Total(Due(job), After(s, es).clients)
         == multiset(s.dispatched)[job] + Total(Due(job), s.clients) + multiset(Called(es))[job]
    decreases |es|
  {
    hide Total, Next, Enabled, WorkConserved, InOrder, Once, SleepersListed;
    if es != [] {
      DispatchBooks(s, es[0], job);
      InvStep(s, es[0]);
      hide Inv;
      DispatchRun(Next(s, es[0]), es[1..], job);
      assert multiset(Called(es))[job] ==
             multiset(Called(es[1..]))[job] + if es[0].Dispatch? && es[0].job == job then 1 else 0;
    }
  }

  /** In every run the tasks dispatched, and those of callers yet to push theirs, are those dispatch was called with. */
  lemma EveryCallIsDispatched(n: nat, m: nat, es: seq<Event>, job: Job)
    requires Runs(Init(n, m), es)
    ensures var s := After(Init(n, m), es);
            multiset(s.dispatched)[job] + Total(Due(job), s.clients) == multiset(Called(es))[job]
  {
    InitInv(n, m);
    TotalNone(Due(job), Init(n, m).clients);
    hide Inv;
    DispatchRun(Init(n, m), es, job);
  }

  // -------------------------------------------------------------------- every task is executed

  /** A bound on the steps a worker can still take by itself, with those of the worker it may wake. */
  function WorkerWork(pc: WorkerPc): nat {
    match pc
    case WSleep | WTake => 0
    case WTest => 1
    case WLock | WRelock => 2
    case WRun(_) => 3
    case WUnlock(_) => 4
    case WSignal(_) => 7
  }

  function ClientWork(pc: ClientPc): nat {
    match pc
    case CIdle => 0
    case CUnlock => 1
    case CSignal2 => 4
    case CSignal1 => 7
    case CPush(_) => 16
    case CLock(_) => 17
  }

  function Work(s: State): nat {
    Total(WorkerWork, s.workers) + Total(ClientWork, s.clients) + 8 * |s.queue|
  }

  lemma WorkerWorks(s: State, i: nat)
    requires Guarded(s) && CanGo(s, Worker(i))
    ensures Work(WorkerNext(s, i)) < Work(s)
  {
    var pc, s' := s.workers[i], WorkerNext(s, i);
    if pc.WSignal? {
      TotalUpdate(WorkerWork, s.workers, i, WUnlock(pc.job));
      var s1 := s.(workers := s.workers[i := WUnlock(pc.job)]);
      assert i !in s.sleeping;
      assert SleepersListed(s1);
      SignalTotal(WorkerWork, s1);
    } else {
      TotalUpdate(WorkerWork, s.workers, i, s'.workers[i]);
    }
    hide Total;
  }

  lemma ClientWorks(s: State, j: nat)
    requires Guarded(s) && CanGo(s, Client(j))
    ensures Work(ClientNext(s, j)) < Work(s)
  {
    TotalUpdate(ClientWork, s.clients, j, ClientNext(s, j).clients[j]);
    if s.clients[j].CSignal1? {
      SignalTotal(WorkerWork, s.(clients := s.clients[j := CSignal2]));
    } else if s.clients[j].CSignal2? {
      SignalTotal(WorkerWork, s.(clients := s.clients[j := CUnlock]));
    }
    hide Total;
  }

  /** Without new calls of dispatch the pool comes to rest, however its threads are scheduled. */
  lemma {:induction false} ComesToRest(s: State, es: seq<Event>)
    requires Inv(s) && Runs(s, es) && forall e :: e in es ==> e.Go?
    ensures |es| <= Work(s)
    decreases |es|
  {
    if es != [] {
      InvStep(s, es[0]);
      match es[0].a {
        case Worker(i) => WorkerWorks(s, i);
        case Client(j) => ClientWorks(s, j);
      }
      hide Inv, Work, Next;
      ComesToRest(Next(s, es[0]), es[1..]);
    }
  }

  ghost predicate AtRest(s: State) {
    forall a :: !CanGo(s, a)
  }

  lemma RestMeansAsleep(s: State)
    requires Guarded(s) && AtRest(s)
    ensures forall i :: 0 <= i < |s.workers| ==> s.workers[i].WSleep?
    ensures forall j :: 0 <= j < |s.clients| ==> s.clients[j].CIdle?
    ensures s.mutex == None
  {
    assert s.mutex == None by {
      assert forall a :: Inside(s, a) ==> CanGo(s, a);
      assert forall a :: s.mutex != Some(a);
    }
    forall i | 0 <= i < |s.workers|
      ensures s.workers[i].WSleep?
    {
      assert !CanGo(s, Worker(i)) && !Inside(s, Worker(i));
    }
    forall j | 0 <= j < |s.clients|
      ensures s.clients[j].CIdle?
    {
      assert !CanGo(s, Client(j));
    }
  }

  /** At rest every worker sleeps, the queue is empty, and every task that was dispatched has been executed, once. */
  lemma RestMeansDone(s: State)
    requires Inv(s) && AtRest(s) && |s.workers| > 0
    ensures forall i :: 0 <= i < |s.workers| ==> s.workers[i].WSleep?
    ensures s.queue == [] && multiset(s.executed) == multiset(s.dispatched)
  {
    RestMeansAsleep(s);
    TotalNone(Awake, s.workers);
    assert 0 in s.sleeping;
    assert s.dispatched == s.dequeued;
    forall job
      ensures multiset(s.executed)[job] == multiset(s.dispatched)[job]
    {
      TotalNone(Has(job), s.workers);
    }
  }

  lemma NothingDue(s: State, job: Job)
    requires Guarded(s) && AtRest(s)
    ensures Total(Due(job), s.clients) == 0
  {
    hide Guarded, AtRest, Total;
    RestMeansAsleep(s);
    TotalNone(Due(job), s.clients);
  }

  lemma {:induction false} NoneCalled(es: seq<Event>)
    requires forall e :: e in es ==> e.Go?
    ensures Called(es) == []
  {
    if es != [] {
      assert es[0] in es;
      NoneCalled(es[1..]);
    }
  }

  lemma ExecutedAsCalled(n: nat, m: nat, es: seq<Event>, more: seq<Event>)
    requires Runs(Init(n, m), es) && Runs(After(Init(n, m), es), more) && forall e :: e in more ==> e.Go?
    requires AtRest(After(After(Init(n, m), es), more))
    ensures multiset(After(After(Init(n, m), es), more).dispatched) == multiset(Called(es))
  {
    var s := After(Init(n, m), es);
    var end := After(s, more);
    InitInv(n, m);
    hide Runs, After, Init, Total, AtRest, WorkConserved, InOrder, Once, Guarded;
    InvRun(Init(n, m), es);
    InvRun(s, more);
    NoneCalled(more);
    hide Inv;
    forall job
      ensures multiset(end.dispatched)[job] == multiset(Called(es))[job]
    {
      EveryCallIsDispatched(n, m, es, job);
      DispatchRun(s, more, job);
      NothingDue(end, job);
    }
  }

  /**
   Whatever is dispatched in a run, and however its threads go on after it: within Work(s) steps the pool is
   at rest, and every task has been executed exactly as often as dispatch was called with it.
  */
  lemma EveryTaskIsExecuted(n: nat, m: nat, es: seq<Event>, more: seq<Event>)
    requires n > 0 && Runs(Init(n, m), es)
    requires Runs(After(Init(n, m), es), more) && forall e :: e in more ==> e.Go?
    ensures |more| <= Work(After(Init(n, m), es))
    ensures var end := After(After(Init(n, m), es), more);
            AtRest(end) ==> end.queue == [] && multiset(end.executed) == multiset(Called(es))
  {
    InitInv(n, m);
    InvRun(Init(n, m), es);
    var s := After(Init(n, m), es);
    assert |s.workers| == n;
    hide Inv, Work, Runs, After, Init;
    ComesToRest(s, more);
    InvRun(s, more);
    if AtRest(After(s, more)) {
      RestMeansDone(After(s, more));
      ExecutedAsCalled(n, m, es, more);
    }
  }
}
