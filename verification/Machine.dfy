/**
 The thread library of pthreads/mypthread.c as a transition system. One event is one
 semaphore wait, or one protected section together with the post that ends it, so kernel
 threads interleave wherever the C code lets them.
*/
module Machine {
  import opened Prelude

  type Tid = nat   // th_id; 0 stands for a NULL mypthread_t pointer
  type Kid = nat   // a kernel thread
  type Mid = nat   // a mypthread_mutex_t
  type Cid = nat   // a mypthread_cond_t

  // The four internal semaphores, in the order in which the code nests them.
  datatype Sem = CondSem | MutexSem | QueueSem | KthreadSem

  function Rank(x: Sem): nat {
    match x
    case CondSem => 0
    case MutexSem => 1
    case QueueSem => 2
    case KthreadSem => 3
  }

  datatype Policy = UlOnly | KlMatch(max: nat) | KlAlways

  /**
   What the library is configured with, and two repairs of the shipped text:
   movesTail: mypthread_dequeue_first_active moves the tail off a removed last node;
   postsBusy: mypthread_mutex_trylock posts mutex_sem before it returns EBUSY.
   The shipped text is Config(p, false, false), but for the way back to the caller of a contended mutex_lock, which
   the text leaves to a context that it overwrites.
  */
  datatype Config = Config(policy: Policy, movesTail: bool, postsBusy: bool)

  datatype TState = Active | Running | Waiting | Blocked | Dead

  // Where a thread goes on when it is dispatched: after its call, or at the top of mutex_lock(m).
  datatype Resume = ToUser | ToLock(m: Mid)

  datatype Thread = Thread(state: TState, dep: Tid, resume: Resume)

  // The run queue; attached says that its tail pointer is at the last node (or the list is empty).
  datatype RunQueue = RunQueue(items: seq<Tid>, attached: bool)

  // holders is history: the threads that took the mutex and have not unlocked it since.
  datatype Mutex = Mutex(locked: bool, blocked: seq<Tid>, holders: set<Tid>)

  // The protected sections of the library, each named after the sem_wait that opens it.
  // JoinTest and CwAdd are entered without a sem_wait.
  datatype Sec =
    | Create(junk: Tid) | Spawn
    | Exit
    | Yield
    | Join(id: Tid) | JoinSelf(id: Tid) | JoinTest(id: Tid, found: bool) | JoinEnq
    | Lock(m: Mid) | LockEnq
    | TryLock(m: Mid)
    | Unlock(m: Mid)
    | Wake(c: Cid, all: bool) | WakeList(c: Cid, all: bool)
    | CondWait(c: Cid, m: Mid) | CwUnlock(c: Cid, m: Mid) | CwAdd(c: Cid, m: Mid) | CwEnq
    | Count | Sched | Disp(t: Tid)

  // In user code, gone, in front of the sem_wait of a section, or inside a section.
  datatype Pc = User | Halted | Wait(sec: Sec) | In(sec: Sec)

  // mykthread_t: the thread it last dispatched, and where it is.
  datatype Kthread = Kthread(th: Tid, pc: Pc)

  // lost is history: the threads whose queue node was linked behind a node already freed.
  datatype Data = Data(
    threads: map<Tid, Thread>, gen: nat, count: int,
    runQ: RunQueue, lost: set<Tid>,
    mutexes: map<Mid, Mutex>, conds: map<Cid, seq<Tid>>)

  /**
   sem[x] is None when semaphore x has value 1, and Some(k) when it has value 0 and k took it.
   leaked is history: some trylock returned EBUSY without posting mutex_sem.
  */
  datatype State = State(
    d: Data, kthreads: map<Kid, Kthread>, kcount: nat,
    sem: map<Sem, Option<Kid>>, leaked: bool)

  // A call by user code on kernel thread k (named by the first section of the call), or the next
  // step of kernel thread k inside the library.
  datatype Event = Call(k: Kid, api: Sec) | Go(k: Kid)

  predicate IsApi(sec: Sec) {
    match sec
    case Create(_) | Exit | Yield | Join(_) | Lock(_) | TryLock(_) | Unlock(_) | Wake(_, _) | CondWait(_, _) => true
    case _ => false
  }

  // -------------------------------------------------------------------- semaphores

  /** The semaphore the section waits for on entry. */
  function Needs(sec: Sec): Option<Sem> {
    match sec
    case Spawn | JoinSelf(_) | Disp(_) => Some(KthreadSem)
    case Lock(_) | TryLock(_) | Unlock(_) | CwUnlock(_, _) => Some(MutexSem)
    case Wake(_, _) | CondWait(_, _) => Some(CondSem)
    case JoinTest(_, _) | CwAdd(_, _) => None
    case _ => Some(QueueSem)
  }

  /** The semaphore still held from an earlier section of the same call when the section is reached. */
  function Carries(sec: Sec): Option<Sem> {
    match sec
    case JoinSelf(_) => Some(QueueSem)
    case LockEnq => Some(MutexSem)
    case WakeList(_, _) | CwUnlock(_, _) | CwAdd(_, _) | CwEnq => Some(CondSem)
    case _ => None
  }

  /** A kernel thread at pc is about to wait for semaphore x. */
  predicate Wants(pc: Pc, x: Sem) {
    pc.Wait? && Needs(pc.sec) == Some(x)
  }

  /** A kernel thread at pc has waited for x and not posted it. */
  predicate Holds(pc: Pc, x: Sem) {
    || (pc.Wait? && Carries(pc.sec) == Some(x))
    || (pc.In? && (Carries(pc.sec) == Some(x) || Needs(pc.sec) == Some(x)))
  }

  // -------------------------------------------------------------------- threads and lists

  function SetThread(d: Data, t: Tid, th: Thread): Data { d.(threads := d.threads[t := th]) }

  /** del->th->state = PS_ACTIVE for every node of a list. */
  function WakeAll(threads: map<Tid, Thread>, list: seq<Tid>): map<Tid, Thread> {
    map t | t in threads :: if t in list then threads[t].(state := Active) else threads[t]
  }

  /** mypthread_update_waiting_threads: the state is not looked at, only dependent_th. */
  function WakeJoiners(threads: map<Tid, Thread>, list: seq<Tid>, id: Tid): map<Tid, Thread> {
    map t | t in threads ::
      if t in list && threads[t].dep == id then threads[t].(state := Active) else threads[t]
  }

  /** ll_add: the node is linked behind the tail, which may have left the list. */
  function Append(q: RunQueue, t: Tid): RunQueue {
    if q.items == [] || q.attached then RunQueue(q.items + [t], true) else q
  }

  /** mypthread_enqueue, with the account of the threads that it does not reach the list with. */
  function Enqueue(d: Data, t: Tid): Data {
    d.(runQ := Append(d.runQ, t),
       lost := if d.runQ.items == [] || d.runQ.attached then d.lost else d.lost + {t})
  }

  /** The index of the first ACTIVE entry, or |items| when there is none. */
  function FirstActive(threads: map<Tid, Thread>, items: seq<Tid>): (i: nat)
    ensures i <= |items|
  {
    if items == [] then 0
    else if items[0] in threads && threads[items[0]].state == Active then 0
    else 1 + FirstActive(threads, items[1..])
  }

  lemma {:induction false} FirstActiveIs(threads: map<Tid, Thread>, items: seq<Tid>)
    ensures var i := FirstActive(threads, items);
            && (forall j :: 0 <= j < i ==> items[j] in threads ==> threads[items[j]].state != Active)
            && (i < |items| ==> items[i] in threads && threads[items[i]].state == Active)
  {
    if items != [] {
      FirstActiveIs(threads, items[1..]);
    }
  }

  /** mypthread_dequeue_first_active on a list whose entry at i is the one to remove. */
  function Remove(cfg: Config, q: RunQueue, i: nat): RunQueue
    requires i < |q.items|
  {
    var rest := Without(q.items, i);
    RunQueue(rest, rest == [] || (q.attached && (cfg.movesTail || i != |q.items| - 1)))
  }

  function Grab(d: Data, m: Mid, t: Tid): Data
    requires m in d.mutexes
  {
    d.(mutexes := d.mutexes[m := d.mutexes[m].(locked := true, holders := d.mutexes[m].holders + {t})])
  }

  /** The body of mypthread_mutex_unlock; it does not ask who holds the mutex. */
  function Release(d: Data, m: Mid, t: Tid): Data
    requires m in d.mutexes
  {
    d.(threads := WakeAll(d.threads, d.mutexes[m].blocked),
       mutexes := d.mutexes[m := Mutex(false, [], d.mutexes[m].holders - {t})])
  }

  /** ll_free or ll_free_one on the list of a condition variable. */
  function WakeCond(d: Data, c: Cid, all: bool): Data
    requires c in d.conds
  {
    var list := d.conds[c];
    if list == [] then d
    else if all then d.(threads := WakeAll(d.threads, list), conds := d.conds[c := []])
    else d.(threads := WakeAll(d.threads, list[..1]), conds := d.conds[c := list[1..]])
  }

  // -------------------------------------------------------------------- the sections

  // What a section does: the new data, the kernel thread afterwards, the semaphores it posts.
  datatype Outcome = Outcome(d: Data, kt: Kthread, posts: set<Sem>)

  /** mykthread_is_running: also true of a thread its kernel thread has already left. */
  predicate IsRunning(kthreads: map<Kid, Kthread>, id: Tid) {
    exists k :: k in kthreads && kthreads[k].th == id && id != 0
  }

  function CreateSection(cfg: Config, d: Data, self: Tid, junk: Tid): Outcome {
    var t := d.gen + 1;
    var d1 := SetThread(d, t, Thread(Active, junk, ToUser)).(gen := t, count := d.count + 1);
    Outcome(Enqueue(d1, t), Kthread(self, if cfg.policy.UlOnly? then User else Wait(Spawn)), {QueueSem})
  }

  function ExitSection(d: Data, self: Tid): Outcome
    requires self in d.threads
  {
    var dead := d.threads[self := d.threads[self].(state := Dead)];
    Outcome(d.(threads := WakeJoiners(dead, d.runQ.items, self), count := d.count - 1),
            Kthread(self, Wait(Count)), {QueueSem})
  }

  /** mypthread_join after its lookups: the target was found in the run queue or it was not. */
  function JoinSection(d: Data, kthreads: map<Kid, Kthread>, self: Tid, id: Tid, found: bool): Outcome
    requires self in d.threads
  {
    if (if found then id in d.threads && d.threads[id].state != Dead else IsRunning(kthreads, id)) then
      Outcome(SetThread(d, self, Thread(Waiting, id, ToUser)), Kthread(self, Wait(JoinEnq)), {})
    else Outcome(d, Kthread(self, User), {})
  }

  function LockSection(d: Data, self: Tid, m: Mid): Outcome
    requires self in d.threads && m in d.mutexes
  {
    if !d.mutexes[m].locked then Outcome(Grab(d, m, self), Kthread(self, User), {MutexSem})
    else
      var d1 := SetThread(d, self, d.threads[self].(state := Blocked, resume := ToLock(m)));
      Outcome(d1.(mutexes := d.mutexes[m := d.mutexes[m].(blocked := d.mutexes[m].blocked + [self])]),
              Kthread(self, Wait(LockEnq)), {})
  }

  function TrySection(cfg: Config, d: Data, self: Tid, m: Mid): Outcome
    requires m in d.mutexes
  {
    if !d.mutexes[m].locked then Outcome(Grab(d, m, self), Kthread(self, User), {MutexSem})
    else Outcome(d, Kthread(self, User), if cfg.postsBusy then {MutexSem} else {})
  }

  /** cond_wait behind its unlock: state = PS_BLOCKED and ll_add on the condvar's list. */
  function CwAddSection(d: Data, self: Tid, c: Cid, m: Mid): Outcome
    requires self in d.threads && c in d.conds
  {
    var d1 := SetThread(d, self, d.threads[self].(state := Blocked, resume := ToLock(m)));
    Outcome(d1.(conds := d.conds[c := d.conds[c] + [self]]), Kthread(self, Wait(CwEnq)), {})
  }

  function SchedSection(cfg: Config, d: Data, self: Tid): Outcome {
    var i := FirstActive(d.threads, d.runQ.items);
    if i == |d.runQ.items| then Outcome(d, Kthread(self, Wait(Sched)), {QueueSem})
    else Outcome(d.(runQ := Remove(cfg, d.runQ, i)), Kthread(self, Wait(Disp(d.runQ.items[i]))), {QueueSem})
  }

  /** setcontext or swapcontext to thread t. */
  function DispatchSection(d: Data, t: Tid): Outcome
    requires t in d.threads
  {
    var pc := match d.threads[t].resume case ToUser => User case ToLock(m) => Wait(Lock(m));
    Outcome(d, Kthread(t, pc), {KthreadSem})
  }

  /** The objects a section names exist. */
  predicate Names(d: Data, sec: Sec) {
    && (sec.Lock? || sec.TryLock? || sec.Unlock? ==> sec.m in d.mutexes)
    && (sec.CondWait? || sec.CwUnlock? || sec.CwAdd? ==> sec.c in d.conds && sec.m in d.mutexes)
    && (sec.Wake? || sec.WakeList? ==> sec.c in d.conds)
    && (sec.Disp? ==> sec.t in d.threads)
  }

  /** The section can be executed on behalf of thread self. */
  predicate Ready(d: Data, self: Tid, sec: Sec) {
    Names(d, sec) && (sec.Exit? || sec.JoinTest? || sec.Lock? || sec.CwAdd? ==> self in d.threads)
  }

  function Section(cfg: Config, d: Data, kthreads: map<Kid, Kthread>, self: Tid, sec: Sec): Outcome
    requires Ready(d, self, sec)
  {
    match sec
    case Create(junk) => CreateSection(cfg, d, self, junk)
    case Spawn => Outcome(d, Kthread(self, User), {KthreadSem})
    case Exit => ExitSection(d, self)
    case Yield => Outcome(Enqueue(d, self), Kthread(self, Wait(Count)), {QueueSem})
    case Join(id) => Outcome(d, Kthread(self, Wait(JoinSelf(id))), {})
    case JoinSelf(id) => Outcome(d, Kthread(self, In(JoinTest(id, id in d.runQ.items))), {KthreadSem, QueueSem})
    case JoinTest(id, found) => JoinSection(d, kthreads, self, id, found)
    case JoinEnq => Outcome(Enqueue(d, self), Kthread(self, Wait(Count)), {QueueSem})
    case Lock(m) => LockSection(d, self, m)
    case LockEnq => Outcome(Enqueue(d, self), Kthread(self, Wait(Count)), {QueueSem, MutexSem})
    case TryLock(m) => TrySection(cfg, d, self, m)
    case Unlock(m) => Outcome(Release(d, m, self), Kthread(self, User), {MutexSem})
    case Wake(c, all) => Outcome(d, Kthread(self, Wait(WakeList(c, all))), {})
    case WakeList(c, all) => Outcome(WakeCond(d, c, all), Kthread(self, User), {QueueSem, CondSem})
    case CondWait(c, m) => Outcome(d, Kthread(self, Wait(CwUnlock(c, m))), {})
    case CwUnlock(c, m) => Outcome(Release(d, m, self), Kthread(self, In(CwAdd(c, m))), {MutexSem})
    case CwAdd(c, m) => CwAddSection(d, self, c, m)
    case CwEnq => Outcome(Enqueue(d, self), Kthread(self, Wait(Count)), {QueueSem, CondSem})
    case Count => Outcome(d, Kthread(self, if d.count == 0 then Halted else Wait(Sched)), {QueueSem})
    case Sched => SchedSection(cfg, d, self)
    case Disp(t) => DispatchSection(d, t)
  }

  // -------------------------------------------------------------------- events

  predicate Enabled(s: State, e: Event) {
    && e.k in s.kthreads
    && var kt := s.kthreads[e.k];
       match e
       case Call(_, api) => kt.pc == User && kt.th in s.d.threads && IsApi(api) && Names(s.d, api)
       case Go(_) =>
         match kt.pc
         case User | Halted => false
         case Wait(sec) => Needs(sec).Some? && Needs(sec).value in s.sem && s.sem[Needs(sec).value].None?
         case In(sec) => Ready(s.d, kt.th, sec)
  }

  /** A call starts in front of its first section; yield first sets its own state to ACTIVE. */
  function Begin(d: Data, t: Tid, api: Sec): Data
    requires t in d.threads
  {
    if api.Yield? then SetThread(d, t, d.threads[t].(state := Active, resume := ToUser)) else d
  }

  predicate Spawns(cfg: Config, s: State) {
    cfg.policy.KlAlways? || (cfg.policy.KlMatch? && s.kcount < cfg.policy.max)
  }

  function PostAll(sem: map<Sem, Option<Kid>>, posts: set<Sem>): map<Sem, Option<Kid>> {
    map x | x in sem :: if x in posts then None else sem[x]
  }

  /** A trylock that went back to user code without posting. */
  predicate Leaks(sec: Sec, o: Outcome) { sec.TryLock? && o.posts == {} }

  function Finish(cfg: Config, s: State, k: Kid, sec: Sec, o: Outcome): State {
    var s1 := State(o.d, s.kthreads[k := o.kt], s.kcount, PostAll(s.sem, o.posts), s.leaked || Leaks(sec, o));
    if sec.Spawn? && Spawns(cfg, s) then
      s1.(kcount := s.kcount + 1, kthreads := s1.kthreads[s.kcount + 1 := Kthread(0, Wait(Count))])
    else s1
  }

  function Next(cfg: Config, s: State, e: Event): State
    requires Enabled(s, e)
  {
    var kt := s.kthreads[e.k];
    match e
    case Call(k, api) =>
      s.(d := Begin(s.d, kt.th, api), kthreads := s.kthreads[k := kt.(pc := Wait(api))])
    case Go(k) =>
      match kt.pc
      case Wait(sec) =>
        s.(sem := s.sem[Needs(sec).value := Some(k)], kthreads := s.kthreads[k := kt.(pc := In(sec))])
      case In(sec) => Finish(cfg, s, k, sec, Section(cfg, s.d, s.kthreads, kt.th, sec))
  }

  /** After the first mypthread_create has set the library up: one kernel thread running main. */
  function Init(ms: set<Mid>, cs: set<Cid>): State {
    State(Data(map[1 := Thread(Running, 0, ToUser)], 1, 1, RunQueue([], true), {},
               map m | m in ms :: Mutex(false, [], {}), map c | c in cs :: []),
          map[1 := Kthread(1, User)], 1,
          map[CondSem := None, MutexSem := None, QueueSem := None, KthreadSem := None], false)
  }

  // -------------------------------------------------------------------- runs

  predicate Runs(cfg: Config, s: State, es: seq<Event>)
    decreases |es|
  {
    es == [] || (Enabled(s, es[0]) && Runs(cfg, Next(cfg, s, es[0]), es[1..]))
  }

  function After(cfg: Config, s: State, es: seq<Event>): State
    requires Runs(cfg, s, es)
    decreases |es|
  {
    if es == [] then s else After(cfg, Next(cfg, s, es[0]), es[1..])
  }
}
