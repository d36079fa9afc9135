/**
 The pool of server/threadpool.c: a monitor with a queue of tasks, worker threads, and the threads that
 call dispatch. One event is one statement of one thread under the pool mutex, or one that takes or gives
 back the mutex. Mutex and condition variable behave as in POSIX; waiters are woken in their order of arrival.
*/
module ThreadPool {
  import opened Prelude

  type Job = nat   // func and arg of a struct task

  // threadpool_scheduler: lock; the test of the inner loop; asleep in cond_wait; awake in it and without the
  // mutex; the removal of the first task; the signal when none is left; unlock; the call of the task.
  datatype WorkerPc = WLock | WTest | WSleep | WRelock | WTake | WSignal(job: Job) | WUnlock(job: Job) | WRun(job: Job)

  // dispatch: lock, push_task, the two signals, unlock.
  datatype ClientPc = CIdle | CLock(job: Job) | CPush(job: Job) | CSignal1 | CSignal2 | CUnlock

  datatype Actor = Worker(i: nat) | Client(j: nat)

  // sleeping is the list of the condition variable. dispatched, dequeued and executed are history.
  datatype State = State(
    queue: seq<Job>, mutex: Option<Actor>, sleeping: seq<nat>, workers: seq<WorkerPc>, clients: seq<ClientPc>,
    dispatched: seq<Job>, dequeued: seq<Job>, executed: seq<Job>)

  // A call of dispatch, or the next step of a thread.
  datatype Event = Dispatch(j: nat, job: Job) | Go(a: Actor)

  predicate Shape(s: State) {
    forall k :: 0 <= k < |s.sleeping| ==> s.sleeping[k] < |s.workers|
  }

  predicate CanGo(s: State, a: Actor) {
    match a
    case Worker(i) =>
      i < |s.workers| &&
      (match s.workers[i]
       case WSleep => false
       case WLock | WRelock => s.mutex == None
       case WTake => s.queue != []
       case _ => true)
    case Client(j) => j < |s.clients| && !s.clients[j].CIdle? && (s.clients[j].CLock? ==> s.mutex == None)
  }

  predicate Enabled(s: State, e: Event) {
    match e
    case Dispatch(j, _) => j < |s.clients| && s.clients[j].CIdle?
    case Go(a) => CanGo(s, a)
  }

  /** mypthread_cond_signal */
  function Signal(s: State): State
    requires Shape(s)
  {
    if s.sleeping == [] then s
    else s.(workers := s.workers[s.sleeping[0] := WRelock], sleeping := s.sleeping[1..])
  }

  function WorkerNext(s: State, i: nat): State
    requires Shape(s) && CanGo(s, Worker(i))
  {
    var at := (pc: WorkerPc) => s.(workers := s.workers[i := pc]);
    match s.workers[i]
    case WLock | WRelock => at(WTest).(mutex := Some(Worker(i)))
    case WTest => if s.queue == [] then at(WSleep).(sleeping := s.sleeping + [i], mutex := None) else at(WTake)
    case WTake => at(WSignal(s.queue[0])).(queue := s.queue[1..], dequeued := s.dequeued + [s.queue[0]])
    case WSignal(job) => if s.queue == [] then Signal(at(WUnlock(job))) else at(WUnlock(job))
    case WUnlock(job) => at(WRun(job)).(mutex := None)
    case WRun(job) => at(WLock).(executed := s.executed + [job])
  }

  function ClientNext(s: State, j: nat): State
    requires Shape(s) && CanGo(s, Client(j))
  {
    var at := (pc: ClientPc) => s.(clients := s.clients[j := pc]);
    match s.clients[j]
    case CLock(job) => at(CPush(job)).(mutex := Some(Client(j)))
    case CPush(job) => at(CSignal1).(queue := s.queue + [job], dispatched := s.dispatched + [job])
    case CSignal1 => Signal(at(CSignal2))
    case CSignal2 => Signal(at(CUnlock))
    case CUnlock => at(CIdle).(mutex := None)
  }

  function Next(s: State, e: Event): State
    requires Shape(s) && Enabled(s, e)
  {
    match e
    case Dispatch(j, job) => s.(clients := s.clients[j := CLock(job)])
    case Go(Worker(i)) => WorkerNext(s, i)
    case Go(Client(j)) => ClientNext(s, j)
  }

  /** A pool of n workers, with m threads that may call dispatch. */
  function Init(n: nat, m: nat): State {
    State([], None, [], seq(n, _ => WLock), seq(m, _ => CIdle), [], [], [])
  }

  // -------------------------------------------------------------------- who is inside, who sleeps

  predicate Inside(s: State, a: Actor) {
    match a
    case Worker(i) =>
      i < |s.workers| && (s.workers[i].WTest? || s.workers[i].WTake? || s.workers[i].WSignal? || s.workers[i].WUnlock?)
    case Client(j) =>
      j < |s.clients| && !s.clients[j].CIdle? && !s.clients[j].CLock?
  }

  ghost predicate Locked(s: State) {
    forall a :: s.mutex == Some(a) <==> Inside(s, a)
  }

  ghost predicate SleepersListed(s: State) {
    && Shape(s) && Distinct(s.sleeping)
    && forall i :: 0 <= i < |s.workers| ==> (s.workers[i].WSleep? <==> i in s.sleeping)
  }

  ghost predicate TakersFind(s: State) {
    forall i :: 0 <= i < |s.workers| && s.workers[i].WTake? ==> s.queue != []
  }

  /** What a step does to the threads other than the one that takes it: a signal may wake one of them. */
  ghost predicate OthersStay(s: State, s': State, a: Actor) {
    && |s'.workers| == |s.workers| && |s'.clients| == |s.clients|
    && (forall i :: 0 <= i < |s.workers| && a != Worker(i) ==>
          s'.workers[i] == s.workers[i] || (s.workers[i].WSleep? && s'.workers[i] == WRelock))
    && (forall j :: 0 <= j < |s.clients| && a != Client(j) ==> s'.clients[j] == s.clients[j])
  }

  ghost predicate Guarded(s: State) { Locked(s) && SleepersListed(s) && TakersFind(s) }

  lemma SignalWakes(s: State)
    requires SleepersListed(s)
    ensures SleepersListed(Signal(s))
    ensures |Signal(s).workers| == |s.workers|
    ensures forall i :: 0 <= i < |s.workers| ==>
              Signal(s).workers[i] == s.workers[i] || (s.workers[i].WSleep? && Signal(s).workers[i] == WRelock)
  {
    if s.sleeping != [] {
      assert s.sleeping == [s.sleeping[0]] + s.sleeping[1..];
      assert forall k :: 0 <= k < |s.sleeping[1..]| ==> s.sleeping[1..][k] == s.sleeping[k + 1];
      assert s.sleeping[0] in s.sleeping;
    }
  }

  lemma WorkerSleepers(s: State, i: nat)
    requires SleepersListed(s) && CanGo(s, Worker(i))
    ensures SleepersListed(WorkerNext(s, i)) && OthersStay(s, WorkerNext(s, i), Worker(i))
  {
    assert i !in s.sleeping;
    if s.workers[i].WSignal? {
      var s1 := s.(workers := s.workers[i := WUnlock(s.workers[i].job)]);
      assert SleepersListed(s1);
      SignalWakes(s1);
      hide Signal, SleepersListed;
    } else if s.workers[i].WTest? && s.queue == [] {
      AppendDistinct(s.sleeping, i);
      hide Distinct;
    } else {
      assert WorkerNext(s, i).sleeping == s.sleeping;
      hide Distinct;
    }
  }

  lemma ClientSleepers(s: State, j: nat)
    requires SleepersListed(s) && CanGo(s, Client(j))
    ensures SleepersListed(ClientNext(s, j)) && OthersStay(s, ClientNext(s, j), Client(j))
  {
    if s.clients[j].CSignal1? {
      SignalWakes(s.(clients := s.clients[j := CSignal2]));
    } else if s.clients[j].CSignal2? {
      SignalWakes(s.(clients := s.clients[j := CUnlock]));
    }
    hide Distinct, Signal;
  }

  /** Steps change at most one more thread: a sleeping worker that is woken. */
  lemma SleepersStep(s: State, e: Event)
    requires SleepersListed(s) && Enabled(s, e)
    ensures SleepersListed(Next(s, e))
    ensures OthersStay(s, Next(s, e), if e.Go? then e.a else Client(e.j))
  {
    match e
    case Dispatch(_, _) =>
    case Go(Worker(i)) =>
      WorkerSleepers(s, i);
    case Go(Client(j)) =>
      ClientSleepers(s, j);
  }

  // -------------------------------------------------------------------- mutual exclusion

  /** What a step does to the mutex. */
  lemma MutexMoves(s: State, a: Actor)
    requires Guarded(s) && CanGo(s, a)
    ensures Shape(s) && |Next(s, Go(a)).workers| == |s.workers| && |Next(s, Go(a)).clients| == |s.clients|
    ensures var s' := Next(s, Go(a));
            s'.mutex == (if Inside(s', a) then Some(a) else if Inside(s, a) then None else s.mutex)
            && (Inside(s', a) && !Inside(s, a) ==> s.mutex == None)
  {
    SleepersStep(s, Go(a));
    hide Distinct, Locked;
  }

  lemma LockedStep(s: State, e: Event)
    requires Guarded(s) && Enabled(s, e)
    ensures Shape(s) && Locked(Next(s, e))
  {
    SleepersStep(s, e);
    var s' := Next(s, e);
    if e.Go? {
      MutexMoves(s, e.a);
      hide Next;
    }
    forall b
      ensures s'.mutex == Some(b) <==> Inside(s', b)
    {
      assert s.mutex == Some(b) <==> Inside(s, b);
    }
  }

  lemma OneInside(s: State, a: Actor, b: Actor)
    requires Locked(s) && Inside(s, a) && Inside(s, b)
    ensures a == b
  {
    assert s.mutex == Some(a) && s.mutex == Some(b);
  }

  lemma TakersStep(s: State, e: Event)
    requires Guarded(s) && Enabled(s, e)
    ensures Shape(s) && TakersFind(Next(s, e))
  {
    SleepersStep(s, e);
    var s' := Next(s, e);
    forall i | 0 <= i < |s'.workers| && s'.workers[i].WTake?
      ensures s'.queue != []
    {
      if s.workers[i].WTake? && e.Go? && Inside(s, e.a) {
        OneInside(s, e.a, Worker(i));
      }
    }
  }
}
