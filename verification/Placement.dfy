/** Where every thread is, in every state of every run. */
module Placement {
  import opened Prelude
  import opened Machine
  import opened Semaphores

  // A thread's whereabouts: on a kernel thread, in the run queue, linked behind a freed node, or dead;
  // and the one wait list it is on, if any.
  datatype Place = On(k: Kid) | Queued | Lost | Gone
  datatype List = NoList | OnMutex(m: Mid) | OnCond(c: Cid)
  datatype Spot = Spot(place: Place, list: List)
  type Spots = map<Tid, Spot>

  // -------------------------------------------------------------------- the invariant

  ghost predicate Filed(q: RunQueue, lost: set<Tid>, w: Spots) {
    && Distinct(q.items)
    && (forall t :: t in q.items <==> t in w && w[t].place == Queued)
    && (forall t :: t in lost <==> t in w && w[t].place == Lost)
    && (q.items == [] ==> q.attached)
  }

  ghost predicate Listed(mutexes: map<Mid, Mutex>, conds: map<Cid, seq<Tid>>, w: Spots) {
    && (forall m :: m in mutexes ==> Distinct(mutexes[m].blocked))
    && (forall c :: c in conds ==> Distinct(conds[c]))
    && (forall m, t :: m in mutexes && t in mutexes[m].blocked ==> t in w && w[t].list == OnMutex(m))
    && (forall c, t :: c in conds && t in conds[c] ==> t in w && w[t].list == OnCond(c))
    && (forall t :: t in w ==> Linked(mutexes, conds, t, w[t].list))
  }

  predicate Linked(mutexes: map<Mid, Mutex>, conds: map<Cid, seq<Tid>>, t: Tid, list: List) {
    match list
    case NoList => true
    case OnMutex(m) => m in mutexes && t in mutexes[m].blocked
    case OnCond(c) => c in conds && t in conds[c]
  }

  ghost predicate Stated(threads: map<Tid, Thread>, gen: nat, w: Spots) {
    && (forall t :: t in threads <==> 1 <= t <= gen)
    && (forall t :: t in threads <==> t in w)
    && (forall t :: t in w ==> Consistent(threads[t].state, w[t]))
  }

  predicate Consistent(st: TState, spot: Spot) {
    && (st == Dead <==> spot.place == Gone)
    && (st == Blocked <==> spot.list != NoList)
    && (st == Running ==> spot.place.On?)
  }

  /** dependent_th names its own thread or one that is gone, unless its owner is waiting; then it names any thread. */
  ghost predicate Joined(threads: map<Tid, Thread>) {
    forall t :: t in threads && (threads[t].dep != 0 || threads[t].state == Waiting) ==>
      && threads[t].dep in threads
      && (threads[t].state == Waiting || threads[threads[t].dep].state == Dead || threads[t].dep == t)
  }

  ghost predicate DataInv(d: Data, w: Spots) {
    && Filed(d.runQ, d.lost, w) && Listed(d.mutexes, d.conds, w)
    && Stated(d.threads, d.gen, w) && Joined(d.threads)
  }

  /** The thread a kernel thread has in hand: none once it has put its thread away. */
  function Owner(kt: Kthread): Option<Tid> {
    if kt.pc.Halted? then None
    else if kt.pc.User? then Some(kt.th)
    else match kt.pc.sec
      case Count | Sched => None
      case Disp(t) => Some(t)
      case _ => Some(kt.th)
  }

  /** What the thread in hand looks like at each program point. */
  predicate Fits(pc: Pc, st: TState, list: List) {
    if pc.User? || pc.Halted? then st == Active || st == Running
    else match pc.sec
      case JoinEnq => st == Waiting
      case Yield => st == Active
      case LockEnq => list.OnMutex?
      case CwEnq => list.OnCond?
      case Disp(_) => st == Active
      case _ => st == Active || st == Running
  }

  ghost predicate Housed(d: Data, w: Spots, k: Kid, kt: Kthread) {
    && (kt.pc.Wait? || kt.pc.In? ==> Ready(d, kt.th, kt.pc.sec))
    && (Owner(kt).Some? ==>
          && Owner(kt).value in w && Owner(kt).value in d.threads
          && w[Owner(kt).value].place == On(k)
          && Fits(kt.pc, d.threads[Owner(kt).value].state, w[Owner(kt).value].list))
    && (kt.th in d.threads || kt.th == 0)
  }

  ghost predicate PlacedIn(d: Data, kthreads: map<Kid, Kthread>, w: Spots) {
    && DataInv(d, w)
    && (forall k :: k in kthreads ==> Housed(d, w, k, kthreads[k]))
    && (forall t :: t in w && w[t].place.On? ==>
          w[t].place.k in kthreads && Owner(kthreads[w[t].place.k]) == Some(t))
  }

  ghost predicate Placed(s: State, w: Spots) { PlacedIn(s.d, s.kthreads, w) }

  // -------------------------------------------------------------------- one part at a time

  /** Where ll_add leaves a node. */
  function Landing(q: RunQueue): Place {
    if q.items == [] || q.attached then Queued else Lost
  }

  /** The threads of a list, taken off it. */
  function Unlist(w: Spots, list: seq<Tid>): Spots {
    map t | t in w :: if t in list then w[t].(list := NoList) else w[t]
  }

  predicate OffQueue(w: Spots, t: Tid) {
    t in w ==> !w[t].place.Queued? && !w[t].place.Lost?
  }

  lemma FiledSame(q: RunQueue, lost: set<Tid>, w: Spots, t: Tid, spot: Spot)
    requires Filed(q, lost, w) && OffQueue(w, t) && !spot.place.Queued? && !spot.place.Lost?
    ensures Filed(q, lost, w[t := spot])
  {
  }

  lemma FiledEnqueue(d: Data, w: Spots, t: Tid, list: List)
    requires Filed(d.runQ, d.lost, w) && OffQueue(w, t)
    ensures Filed(Enqueue(d, t).runQ, Enqueue(d, t).lost, w[t := Spot(Landing(d.runQ), list)])
  {
  }

  lemma FiledRemove(cfg: Config, q: RunQueue, lost: set<Tid>, w: Spots, i: nat, k: Kid)
    requires Filed(q, lost, w) && i < |q.items|
    ensures Filed(Remove(cfg, q, i), lost, w[q.items[i] := w[q.items[i]].(place := On(k))])
  {
    WithoutDistinct(q.items, i);
  }

  lemma FiledUnlist(q: RunQueue, lost: set<Tid>, w: Spots, list: seq<Tid>)
    requires Filed(q, lost, w)
    ensures Filed(q, lost, Unlist(w, list))
  {
  }

  lemma ListedSame(mutexes: map<Mid, Mutex>, conds: map<Cid, seq<Tid>>, w: Spots, t: Tid, spot: Spot)
    requires Listed(mutexes, conds, w) && spot.list == (if t in w then w[t].list else NoList)
    ensures Listed(mutexes, conds, w[t := spot])
  {
  }

  lemma ListedBlock(mutexes: map<Mid, Mutex>, conds: map<Cid, seq<Tid>>, w: Spots, t: Tid, m: Mid)
    requires Listed(mutexes, conds, w) && t in w && w[t].list == NoList && m in mutexes
    ensures var mutex := mutexes[m].(blocked := mutexes[m].blocked + [t]);
            Listed(mutexes[m := mutex], conds, w[t := w[t].(list := OnMutex(m))])
  {
  }

  lemma ListedSleep(mutexes: map<Mid, Mutex>, conds: map<Cid, seq<Tid>>, w: Spots, t: Tid, c: Cid)
    requires Listed(mutexes, conds, w) && t in w && w[t].list == NoList && c in conds
    ensures Listed(mutexes, conds[c := conds[c] + [t]], w[t := w[t].(list := OnCond(c))])
  {
  }

  lemma ListedRelease(mutexes: map<Mid, Mutex>, conds: map<Cid, seq<Tid>>, w: Spots, m: Mid, mutex: Mutex)
    requires Listed(mutexes, conds, w) && m in mutexes && mutex.blocked == []
    ensures Listed(mutexes[m := mutex], conds, Unlist(w, mutexes[m].blocked))
  {
  }

  lemma ListedWake(mutexes: map<Mid, Mutex>, conds: map<Cid, seq<Tid>>, w: Spots, c: Cid, n: nat)
    requires Listed(mutexes, conds, w) && c in conds && n <= |conds[c]|
    ensures Listed(mutexes, conds[c := conds[c][n..]], Unlist(w, conds[c][..n]))
  {
    var list := conds[c];
    assert list == list[..n] + list[n..];
    assert forall t :: t in list[..n] && t in list[n..] ==> false;
  }

  lemma StatedSet(threads: map<Tid, Thread>, gen: nat, w: Spots, t: Tid, th: Thread, spot: Spot)
    requires Stated(threads, gen, w) && Consistent(th.state, spot) && 1 <= t <= gen
    ensures Stated(threads[t := th], gen, w[t := spot])
  {
  }

  lemma StatedWake(threads: map<Tid, Thread>, gen: nat, w: Spots, list: seq<Tid>)
    requires Stated(threads, gen, w) && forall t :: t in list ==> t in w && w[t].list != NoList
    ensures Stated(WakeAll(threads, list), gen, Unlist(w, list))
  {
  }

  lemma ListedGrab(mutexes: map<Mid, Mutex>, conds: map<Cid, seq<Tid>>, w: Spots, m: Mid, mutex: Mutex)
    requires Listed(mutexes, conds, w) && m in mutexes && mutex.blocked == mutexes[m].blocked
    ensures Listed(mutexes[m := mutex], conds, w)
  {
  }

  lemma JoinedWake(threads: map<Tid, Thread>, list: seq<Tid>)
    requires Joined(threads) && forall t :: t in list && t in threads ==> threads[t].state == Blocked
    ensures Joined(WakeAll(threads, list))
  {
  }

  lemma JoinedSet(threads: map<Tid, Thread>, t: Tid, th: Thread)
    requires Joined(threads) && t in threads && threads[t].state != Dead
    requires th.state == Waiting || (th.dep == threads[t].dep && threads[t].state != Waiting)
    requires th.dep != 0 || th.state == Waiting ==> th.dep in threads
    ensures Joined(threads[t := th])
  {
  }

  /** Only threads that wait for the exiting one are woken, so no BLOCKED thread is. */
  lemma ExitWakesWaiting(threads: map<Tid, Thread>, list: seq<Tid>, self: Tid, t: Tid)
    requires Joined(threads) && self in threads && threads[self].state != Dead && self != 0
    requires t in threads && t != self && t in list && threads[t].dep == self
    ensures threads[t].state == Waiting
  {
  }

  lemma ExitJoined(threads: map<Tid, Thread>, list: seq<Tid>, self: Tid)
    requires Joined(threads) && self in threads && threads[self].state !in {Dead, Waiting} && self !in list && self != 0
    ensures Joined(WakeJoiners(threads[self := threads[self].(state := Dead)], list, self))
  {
    var threads' := WakeJoiners(threads[self := threads[self].(state := Dead)], list, self);
    forall t | t in threads' && (threads'[t].dep != 0 || threads'[t].state == Waiting)
      ensures threads'[t].dep in threads'
      ensures threads'[t].state == Waiting || threads'[threads'[t].dep].state == Dead || threads'[t].dep == t
    {
      var id := threads[t].dep;
      assert threads'[t].dep == id && id in threads;
      if threads[id].state == Dead && id in list {
        assert threads[id].dep != self;
      }
    }
  }

  lemma ExitStated(threads: map<Tid, Thread>, list: seq<Tid>, self: Tid, gen: nat, w: Spots)
    requires Stated(threads, gen, w) && Joined(threads) && self in threads && threads[self].state !in {Dead, Blocked}
    requires self !in list && forall t :: t in list ==> t in w
    ensures Stated(WakeJoiners(threads[self := threads[self].(state := Dead)], list, self), gen,
        w[self := Spot(Gone, NoList)])
  {
    var w' := w[self := Spot(Gone, NoList)];
    var threads' := WakeJoiners(threads[self := threads[self].(state := Dead)], list, self);
    forall t | t in w'
      ensures Consistent(threads'[t].state, w'[t])
    {
      assert t in threads && Consistent(threads[t].state, w[t]);
    }
  }

  // -------------------------------------------------------------------- one section at a time

  predicate Grows(d: Data, d': Data) {
    d.threads.Keys <= d'.threads.Keys && d.mutexes.Keys <= d'.mutexes.Keys && d.conds.Keys <= d'.conds.Keys
  }

  /** The section of kernel thread k keeps the data in order and leaves what others have in hand alone. */
  ghost predicate Moved(d: Data, w: Spots, k: Kid, o: Outcome, w': Spots) {
    && DataInv(o.d, w') && Housed(o.d, w', k, o.kt) && Grows(d, o.d)
    && (forall t :: t in w' && w'[t].place == On(k) ==> Owner(o.kt) == Some(t))
    && (forall t :: t in w' && w'[t].place.On? && w'[t].place.k != k ==> t in w && w[t].place == w'[t].place)
    && (forall t :: t in w && w[t].place.On? && w[t].place.k != k ==>
          t in w' && w'[t] == w[t] && t in d.threads && t in o.d.threads && o.d.threads[t] == d.threads[t])
  }

  /** Kernel thread k, with pc inside section sec, and what it has in hand. */
  ghost predicate Here(d: Data, w: Spots, k: Kid, self: Tid, sec: Sec) {
    && DataInv(d, w) && Housed(d, w, k, Kthread(self, In(sec)))
    && (forall t :: t in w && w[t].place == On(k) ==> Owner(Kthread(self, In(sec))) == Some(t))
  }

  lemma QuietMoved(d: Data, w: Spots, k: Kid, self: Tid, sec: Sec, o: Outcome)
    requires Here(d, w, k, self, sec)
    requires o.d == d && Housed(d, w, k, o.kt) && Owner(o.kt) == Owner(Kthread(self, In(sec)))
    ensures Moved(d, w, k, o, w)
  {
  }

  lemma EnqueueData(d: Data, w: Spots, self: Tid)
    requires DataInv(d, w) && self in w && w[self].place.On? && d.threads[self].state != Running
    ensures DataInv(Enqueue(d, self), w[self := Spot(Landing(d.runQ), w[self].list)])
  {
    var w' := w[self := Spot(Landing(d.runQ), w[self].list)];
    FiledEnqueue(d, w, self, w[self].list);
    ListedSame(d.mutexes, d.conds, w, self, w'[self]);
    StatedSet(d.threads, d.gen, w, self, d.threads[self], w'[self]);
    assert d.threads[self := d.threads[self]] == d.threads;
  }

  /** In a section that still has its own thread in hand. */
  lemma SelfInHand(d: Data, w: Spots, k: Kid, self: Tid, sec: Sec)
    requires Here(d, w, k, self, sec) && OwnsSelf(sec)
    ensures DataInv(d, w) && self in w && w[self].place == On(k) && self in d.threads && 1 <= self <= d.gen
    ensures forall t :: t in d.threads <==> t in w
    ensures forall t :: t in w && w[t].place == On(k) ==> t == self
    ensures Fits(In(sec), d.threads[self].state, w[self].list) && Consistent(d.threads[self].state, w[self])
  {
  }

  /** After its thread is put away, the kernel thread enters the scheduler with nothing in hand. */
  lemma Idle(d: Data, w: Spots, k: Kid, self: Tid)
    requires self in d.threads
    ensures Housed(d, w, k, Kthread(self, Wait(Count))) && Owner(Kthread(self, Wait(Count))) == None
  {
  }

  predicate OwnsSelf(sec: Sec) { !sec.Count? && !sec.Sched? && !sec.Disp? }

  /** A section whose only effect on anything in hand is on its own thread. */
  lemma SelfMoved(d: Data, w: Spots, k: Kid, self: Tid, sec: Sec, o: Outcome, spot: Spot)
    requires Here(d, w, k, self, sec) && OwnsSelf(sec)
    requires DataInv(o.d, w[self := spot]) && Housed(o.d, w[self := spot], k, o.kt) && Grows(d, o.d)
    requires spot.place.On? ==> spot.place == On(k) && Owner(o.kt) == Some(self)
    requires forall t :: t in w && t in d.threads && w[t].place.On? && t != self ==>
        t in o.d.threads && o.d.threads[t] == d.threads[t]
    ensures Moved(d, w, k, o, w[self := spot])
  {
    hide DataInv, Here, Housed, Owner, Fits, Consistent, OwnsSelf, Grows;
    SelfInHand(d, w, k, self, sec);
  }

  lemma EnqueueMoved(d: Data, w: Spots, k: Kid, self: Tid, sec: Sec, posts: set<Sem>) returns (w': Spots)
    requires Here(d, w, k, self, sec) && (sec.Yield? || sec.JoinEnq? || sec.LockEnq? || sec.CwEnq?)
    ensures Moved(d, w, k, Outcome(Enqueue(d, self), Kthread(self, Wait(Count)), posts), w')
  {
    SelfInHand(d, w, k, self, sec);
    EnqueueData(d, w, self);
    hide DataInv, Here, Consistent;
    var spot := Spot(Landing(d.runQ), w[self].list);
    w' := w[self := spot];
    Idle(Enqueue(d, self), w', k, self);
    SelfMoved(d, w, k, self, sec, Outcome(Enqueue(d, self), Kthread(self, Wait(Count)), posts), spot);
  }

  lemma ExitData(d: Data, w: Spots, self: Tid)
    requires DataInv(d, w) && self in w && self in d.threads && 1 <= self <= d.gen
    requires w[self].list == NoList && w[self].place.On? && d.threads[self].state !in {Dead, Blocked, Waiting}
    ensures DataInv(ExitSection(d, self).d, w[self := Spot(Gone, NoList)])
    ensures forall t :: t in w && t in d.threads && w[t].place.On? && t != self ==> t !in d.runQ.items
  {
    var spot := Spot(Gone, NoList);
    assert self !in d.runQ.items;
    ExitJoined(d.threads, d.runQ.items, self);
    ExitStated(d.threads, d.runQ.items, self, d.gen, w);
    FiledSame(d.runQ, d.lost, w, self, spot);
    ListedSame(d.mutexes, d.conds, w, self, spot);
    assert forall t :: t in w && t in d.threads && w[t].place.On? && t != self ==> t !in d.runQ.items;
    hide Filed, Listed, Stated, Joined;
  }

  lemma ExitMoved(d: Data, w: Spots, k: Kid, self: Tid) returns (w': Spots)
    requires Here(d, w, k, self, Exit)
    ensures Moved(d, w, k, ExitSection(d, self), w')
  {
    hide DataInv, Here, Moved;
    SelfInHand(d, w, k, self, Exit);
    var o := ExitSection(d, self);
    var spot := Spot(Gone, NoList);
    w' := w[self := spot];
    ExitData(d, w, self);
    Idle(o.d, w', k, self);
    hide Housed;
    SelfMoved(d, w, k, self, Exit, o, spot);
  }

  /**
   What a create can find in the storage of its thread, of which it does not set dependent_th: a value that
   names no thread, the new thread itself, or a thread that is dead.
  */
  predicate Harmless(d: Data, junk: Tid) {
    junk == 0 || junk == d.gen + 1 || (junk in d.threads && d.threads[junk].state == Dead)
  }

  lemma CreateData(cfg: Config, d: Data, w: Spots, self: Tid, junk: Tid)
    requires DataInv(d, w) && Harmless(d, junk)
    ensures DataInv(CreateSection(cfg, d, self, junk).d, w[d.gen + 1 := Spot(Landing(d.runQ), NoList)])
  {
    var t := d.gen + 1;
    FiledEnqueue(d, w, t, NoList);
    ListedSame(d.mutexes, d.conds, w, t, Spot(Landing(d.runQ), NoList));
    CreateThreads(d, w, junk, Spot(Landing(d.runQ), NoList));
    hide Filed, Listed, Stated, Joined;
  }

  lemma CreateThreads(d: Data, w: Spots, junk: Tid, spot: Spot)
    requires Stated(d.threads, d.gen, w) && Joined(d.threads) && Harmless(d, junk)
    requires Consistent(Active, spot)
    ensures var threads := d.threads[d.gen + 1 := Thread(Active, junk, ToUser)];
            Stated(threads, d.gen + 1, w[d.gen + 1 := spot]) && Joined(threads)
  {
    var t := d.gen + 1;
    var threads := d.threads[t := Thread(Active, junk, ToUser)];
    assert Stated(threads, t, w[t := spot]);
    forall x | x in threads && (threads[x].dep != 0 || threads[x].state == Waiting)
      ensures threads[x].dep in threads
      ensures threads[x].state == Waiting || threads[threads[x].dep].state == Dead || threads[x].dep == x
    {
      assert x != t ==> x in d.threads && d.threads[x].dep in d.threads;
    }
  }

  lemma CreateMoved(cfg: Config, d: Data, w: Spots, k: Kid, self: Tid, junk: Tid) returns (w': Spots)
    requires Here(d, w, k, self, Create(junk)) && Harmless(d, junk)
    ensures Moved(d, w, k, CreateSection(cfg, d, self, junk), w')
  {
    hide Filed, Listed, Joined;
    w' := w[d.gen + 1 := Spot(Landing(d.runQ), NoList)];
    SelfInHand(d, w, k, self, Create(junk));
    CreateData(cfg, d, w, self, junk);
    assert d.gen + 1 !in w && d.gen + 1 !in d.threads;
    hide DataInv, Stated;
    assert Housed(CreateSection(cfg, d, self, junk).d, w', k, CreateSection(cfg, d, self, junk).kt);
    hide Housed, Here, Fits, Consistent;
  }

  lemma BlockData(d: Data, w: Spots, self: Tid, th: Thread, spot: Spot)
    requires DataInv(d, w) && self in w && self in d.threads && w[self].place.On?
    requires d.threads[self].state == Active || d.threads[self].state == Running
    requires th.dep == d.threads[self].dep && th.state == Blocked && spot == w[self].(list := spot.list)
    ensures w[self].list == NoList
    ensures spot.list.OnMutex? && spot.list.m in d.mutexes ==>
              var mutex := d.mutexes[spot.list.m];
              var mutexes := d.mutexes[spot.list.m := mutex.(blocked := mutex.blocked + [self])];
              DataInv(SetThread(d, self, th).(mutexes := mutexes), w[self := spot])
    ensures spot.list.OnCond? && spot.list.c in d.conds ==>
              var conds := d.conds[spot.list.c := d.conds[spot.list.c] + [self]];
              DataInv(SetThread(d, self, th).(conds := conds), w[self := spot])
  {
    FiledSame(d.runQ, d.lost, w, self, spot);
    JoinedSet(d.threads, self, th);
    if spot.list != NoList {
      StatedSet(d.threads, d.gen, w, self, th, spot);
    }
    if spot.list.OnMutex? && spot.list.m in d.mutexes {
      ListedBlock(d.mutexes, d.conds, w, self, spot.list.m);
    }
    if spot.list.OnCond? && spot.list.c in d.conds {
      ListedSleep(d.mutexes, d.conds, w, self, spot.list.c);
    }
    hide Filed, Listed, Stated, Joined;
  }

  lemma BlockMoved(d: Data, w: Spots, k: Kid, self: Tid, m: Mid) returns (w': Spots)
    requires Here(d, w, k, self, Lock(m)) && d.mutexes[m].locked
    ensures Moved(d, w, k, LockSection(d, self, m), w')
  {
    hide Filed, Listed, Stated, Joined;
    SelfInHand(d, w, k, self, Lock(m));
    var o := LockSection(d, self, m);
    var spot := Spot(On(k), OnMutex(m));
    w' := w[self := spot];
    BlockData(d, w, self, o.d.threads[self], spot);
    hide DataInv;
    SelfMoved(d, w, k, self, Lock(m), o, spot);
  }

  lemma SleepMoved(d: Data, w: Spots, k: Kid, self: Tid, c: Cid, m: Mid) returns (w': Spots)
    requires Here(d, w, k, self, CwAdd(c, m))
    ensures Moved(d, w, k, CwAddSection(d, self, c, m), w')
  {
    hide Filed, Listed, Stated, Joined;
    SelfInHand(d, w, k, self, CwAdd(c, m));
    var o := CwAddSection(d, self, c, m);
    var spot := Spot(On(k), OnCond(c));
    w' := w[self := spot];
    BlockData(d, w, self, o.d.threads[self], spot);
    hide DataInv;
    SelfMoved(d, w, k, self, CwAdd(c, m), o, spot);
  }

  lemma JoinMoved(d: Data, w: Spots, k: Kid, self: Tid, id: Tid, found: bool, o: Outcome) returns (w': Spots)
    requires Here(d, w, k, self, JoinTest(id, found)) && id in d.threads
    requires o == Outcome(SetThread(d, self, Thread(Waiting, id, ToUser)), Kthread(self, Wait(JoinEnq)), {})
    ensures Moved(d, w, k, o, w')
  {
    hide Filed, Listed, Stated, Joined, Here, Consistent;
    SelfInHand(d, w, k, self, JoinTest(id, found));
    w' := w;
    StatedSet(d.threads, d.gen, w, self, o.d.threads[self], w[self]);
    JoinedSet(d.threads, self, o.d.threads[self]);
    assert w[self := w[self]] == w;
    hide DataInv;
    SelfMoved(d, w, k, self, JoinTest(id, found), o, w[self]);
  }

  lemma GrabMoved(d: Data, w: Spots, k: Kid, self: Tid, sec: Sec, m: Mid) returns (w': Spots)
    requires Here(d, w, k, self, sec) && (sec == Lock(m) || sec == TryLock(m))
    ensures Moved(d, w, k, Outcome(Grab(d, m, self), Kthread(self, User), {MutexSem}), w')
  {
    SelfInHand(d, w, k, self, sec);
    w' := w;
    ListedGrab(d.mutexes, d.conds, w, m, Grab(d, m, self).mutexes[m]);
    assert w[self := w[self]] == w;
    hide Filed, Listed, Stated, Joined, Here;
    SelfMoved(d, w, k, self, sec, Outcome(Grab(d, m, self), Kthread(self, User), {MutexSem}), w[self]);
  }

  /** None of the threads about to be woken is still in hand somewhere, between its list and the run queue. */
  ghost predicate Settled(w: Spots, list: seq<Tid>) {
    forall t :: t in list && t in w ==> !w[t].place.On?
  }

  lemma ReleaseData(d: Data, w: Spots, m: Mid, self: Tid)
    requires DataInv(d, w) && m in d.mutexes
    ensures DataInv(Release(d, m, self), Unlist(w, d.mutexes[m].blocked))
  {
    var list := d.mutexes[m].blocked;
    assert forall t :: t in list ==> t in w && w[t].list == OnMutex(m) && Consistent(d.threads[t].state, w[t]);
    FiledUnlist(d.runQ, d.lost, w, list);
    ListedRelease(d.mutexes, d.conds, w, m, Release(d, m, self).mutexes[m]);
    StatedWake(d.threads, d.gen, w, list);
    JoinedWake(d.threads, list);
    hide Filed, Listed, Stated, Joined;
  }

  lemma WakeCondIs(d: Data, c: Cid, all: bool)
    requires c in d.conds
    ensures var list := Woken(d, c, all);
            WakeCond(d, c, all) == d.(threads := WakeAll(d.threads, list), conds := d.conds[c := d.conds[c][|list|..]])
  {
    var list := d.conds[c];
    assert WakeAll(d.threads, []) == d.threads;
    assert d.conds[c := list] == d.conds;
    assert list[0..] == list && list[|list|..] == [];
  }

  lemma WakeData(d: Data, w: Spots, c: Cid, all: bool)
    requires DataInv(d, w) && c in d.conds
    ensures DataInv(WakeCond(d, c, all), Unlist(w, Woken(d, c, all)))
  {
    var list := Woken(d, c, all);
    assert forall t :: t in list ==> t in w && w[t].list == OnCond(c) && Consistent(d.threads[t].state, w[t]);
    WakeCondIs(d, c, all);
    hide WakeCond, Woken;
    assert list == d.conds[c][..|list|];
    FiledUnlist(d.runQ, d.lost, w, list);
    StatedWake(d.threads, d.gen, w, list);
    JoinedWake(d.threads, list);
    hide Stated, Joined, Filed;
    ListedWake(d.mutexes, d.conds, w, c, |list|);
    hide Listed;
  }

  /** The threads a signal or broadcast wakes. */
  function Woken(d: Data, c: Cid, all: bool): (list: seq<Tid>)
    requires c in d.conds
    ensures list <= d.conds[c]
  {
    if all || d.conds[c] == [] then d.conds[c] else d.conds[c][..1]
  }

  /** A section whose only effect on anything in hand is on threads that are settled. */
  lemma WokenMoved(d: Data, w: Spots, k: Kid, self: Tid, sec: Sec, o: Outcome, list: seq<Tid>)
    requires Here(d, w, k, self, sec) && OwnsSelf(sec) && Settled(w, list)
    requires DataInv(o.d, Unlist(w, list)) && Grows(d, o.d) && o.d.threads == WakeAll(d.threads, list)
    requires Owner(o.kt) == Some(self) && o.kt.th == self && Housed(o.d, Unlist(w, list), k, o.kt)
    ensures Moved(d, w, k, o, Unlist(w, list))
  {
    hide DataInv, Here, Housed, Owner, Fits, Consistent, OwnsSelf, Grows;
    SelfInHand(d, w, k, self, sec);
  }

  lemma ReleaseMoved(d: Data, w: Spots, k: Kid, self: Tid, sec: Sec, o: Outcome) returns (w': Spots)
    requires Here(d, w, k, self, sec) && (sec.Unlock? || sec.CwUnlock?) && Settled(w, d.mutexes[sec.m].blocked)
    requires o.d == Release(d, sec.m, self)
    requires o.kt == Kthread(self, if sec.Unlock? then User else In(CwAdd(sec.c, sec.m)))
    ensures Moved(d, w, k, o, w')
  {
    hide Filed, Listed, Stated, Joined;
    SelfInHand(d, w, k, self, sec);
    var list := d.mutexes[sec.m].blocked;
    w' := Unlist(w, list);
    ReleaseData(d, w, sec.m, self);
    hide DataInv;
    WokenMoved(d, w, k, self, sec, o, list);
  }

  lemma WakeMoved(d: Data, w: Spots, k: Kid, self: Tid, c: Cid, all: bool, o: Outcome) returns (w': Spots)
    requires Here(d, w, k, self, WakeList(c, all)) && Settled(w, d.conds[c])
    requires o.d == WakeCond(d, c, all) && o.kt == Kthread(self, User)
    ensures Moved(d, w, k, o, w')
  {
    hide Filed, Listed, Stated, Joined;
    SelfInHand(d, w, k, self, WakeList(c, all));
    w' := Unlist(w, Woken(d, c, all));
    WakeData(d, w, c, all);
    assert WakeAll(d.threads, []) == d.threads;
    hide DataInv;
    WokenMoved(d, w, k, self, WakeList(c, all), o, Woken(d, c, all));
  }

  lemma SchedData(cfg: Config, d: Data, w: Spots, k: Kid, i: nat)
    requires DataInv(d, w) && i < |d.runQ.items| && d.runQ.items[i] in d.threads
    requires d.threads[d.runQ.items[i]].state == Active
    ensures DataInv(d.(runQ := Remove(cfg, d.runQ, i)), w[d.runQ.items[i] := w[d.runQ.items[i]].(place := On(k))])
  {
    var t := d.runQ.items[i];
    var spot := w[t].(place := On(k));
    FiledRemove(cfg, d.runQ, d.lost, w, i, k);
    ListedSame(d.mutexes, d.conds, w, t, spot);
    StatedSet(d.threads, d.gen, w, t, d.threads[t], spot);
    assert d.threads[t := d.threads[t]] == d.threads;
    hide Filed, Listed, Stated, Joined;
  }

  lemma SchedMoved(cfg: Config, d: Data, w: Spots, k: Kid, self: Tid) returns (w': Spots)
    requires Here(d, w, k, self, Sched)
    ensures Moved(d, w, k, SchedSection(cfg, d, self), w')
  {
    hide DataInv, FirstActive, Remove, Here, Moved;
    var i := FirstActive(d.threads, d.runQ.items);
    FirstActiveIs(d.threads, d.runQ.items);
    if i == |d.runQ.items| {
      w' := w;
      StillSearching(cfg, d, w, k, self);
    } else {
      w' := TakenMoved(cfg, d, w, k, self, i);
    }
  }

  lemma StillSearching(cfg: Config, d: Data, w: Spots, k: Kid, self: Tid)
    requires Here(d, w, k, self, Sched)
    ensures Moved(d, w, k, Outcome(d, Kthread(self, Wait(Sched)), {QueueSem}), w)
  {
    hide DataInv, Moved;
    QuietMoved(d, w, k, self, Sched, Outcome(d, Kthread(self, Wait(Sched)), {QueueSem}));
  }

  /** In the scheduler, before it has found a thread. */
  lemma NothingInHand(d: Data, w: Spots, k: Kid, self: Tid)
    requires Here(d, w, k, self, Sched)
    ensures DataInv(d, w) && forall t :: t in d.threads <==> t in w
    ensures forall t :: t in w ==> w[t].place != On(k)
    ensures forall t :: t in w && t in d.runQ.items ==>
        w[t].place == Queued && (d.threads[t].state == Active ==> w[t].list == NoList)
    ensures self in d.threads || self == 0
  {
  }

  lemma TakenMoved(cfg: Config, d: Data, w: Spots, k: Kid, self: Tid, i: nat) returns (w': Spots)
    requires Here(d, w, k, self, Sched) && i < |d.runQ.items| && d.runQ.items[i] in d.threads
    requires d.threads[d.runQ.items[i]].state == Active
    ensures var kt := Kthread(self, Wait(Disp(d.runQ.items[i])));
            Moved(d, w, k, Outcome(d.(runQ := Remove(cfg, d.runQ, i)), kt, {QueueSem}), w')
  {
    hide DataInv, Remove, Here, Consistent;
    NothingInHand(d, w, k, self);
    var t := d.runQ.items[i];
    w' := w[t := w[t].(place := On(k))];
    SchedData(cfg, d, w, k, i);
  }

  lemma DispMoved(d: Data, w: Spots, k: Kid, self: Tid, t: Tid) returns (w': Spots)
    requires Here(d, w, k, self, Disp(t)) && (d.threads[t].resume.ToLock? ==> d.threads[t].resume.m in d.mutexes)
    ensures Moved(d, w, k, DispatchSection(d, t), w')
  {
    w' := w;
    assert forall t :: t in d.threads <==> t in w;
    hide DataInv, Consistent, Linked;
  }

  /** A woken or yielding thread goes on at a mutex that exists. */
  ghost predicate Resumes(d: Data) {
    forall t :: t in d.threads && d.threads[t].resume.ToLock? ==> d.threads[t].resume.m in d.mutexes
  }

  lemma SectionResumes(cfg: Config, d: Data, kthreads: map<Kid, Kthread>, self: Tid, sec: Sec)
    requires Resumes(d) && Ready(d, self, sec)
    ensures Resumes(Section(cfg, d, kthreads, self, sec).d)
  {
    hide FirstActive, Remove, IsRunning;
  }

  /** What a section needs from the rest of the state: its list is settled, kernel threads name threads. */
  ghost predicate Sound(d: Data, w: Spots, kthreads: map<Kid, Kthread>, sec: Sec) {
    && Resumes(d)
    && (sec.Unlock? || sec.CwUnlock? ==> sec.m in d.mutexes && Settled(w, d.mutexes[sec.m].blocked))
    && (sec.WakeList? ==> sec.c in d.conds && Settled(w, d.conds[sec.c]))
    && (forall j :: j in kthreads ==> kthreads[j].th in d.threads || kthreads[j].th == 0)
  }

  predicate IsQuiet(cfg: Config, d: Data, sec: Sec) {
    match sec
    case Spawn | Join(_) | JoinSelf(_) | Wake(_, _) | CondWait(_, _) | Count => true
    case TryLock(m) => m in d.mutexes && d.mutexes[m].locked
    case _ => false
  }

  lemma QuietSection(cfg: Config, d: Data, w: Spots, kthreads: map<Kid, Kthread>, k: Kid, self: Tid, sec: Sec)
    requires Here(d, w, k, self, sec) && IsQuiet(cfg, d, sec)
    ensures Moved(d, w, k, Section(cfg, d, kthreads, self, sec), w)
  {
    hide Filed, Listed, Stated, Joined;
    QuietMoved(d, w, k, self, sec, Section(cfg, d, kthreads, self, sec));
  }

  lemma SectionMoved(cfg: Config, d: Data, w: Spots, kthreads: map<Kid, Kthread>, k: Kid, self: Tid, sec: Sec)
    returns (w': Spots)
    requires Here(d, w, k, self, sec) && Sound(d, w, kthreads, sec) && (sec.Create? ==> Harmless(d, sec.junk))
    ensures Moved(d, w, k, Section(cfg, d, kthreads, self, sec), w')
  {
    hide Moved, DataInv, Enqueue, Release, WakeCond, Grab, FirstActive, Remove;
    var o := Section(cfg, d, kthreads, self, sec);
    if IsQuiet(cfg, d, sec) {
      QuietSection(cfg, d, w, kthreads, k, self, sec);
      w' := w;
    } else {
      match sec
      case Create(junk) => w' := CreateMoved(cfg, d, w, k, self, junk);
      case Exit => w' := ExitMoved(d, w, k, self);
      case Yield | JoinEnq | LockEnq | CwEnq => w' := EnqueueMoved(d, w, k, self, sec, o.posts);
      case JoinTest(id, found) =>
        if o.d == d && o.kt.pc.User? {
          QuietMoved(d, w, k, self, sec, o);
          w' := w;
        } else {
          w' := JoinMoved(d, w, k, self, id, found, o);
        }
      case Lock(m) =>
        if d.mutexes[m].locked { w' := BlockMoved(d, w, k, self, m); } else { w' := GrabMoved(d, w, k, self, sec, m); }
      case TryLock(m) => w' := GrabMoved(d, w, k, self, sec, m);
      case Unlock(_) | CwUnlock(_, _) => w' := ReleaseMoved(d, w, k, self, sec, o);
      case WakeList(c, all) => w' := WakeMoved(d, w, k, self, c, all, o);
      case CwAdd(c, m) => w' := SleepMoved(d, w, k, self, c, m);
      case Sched => w' := SchedMoved(cfg, d, w, k, self);
      case Disp(t) => w' := DispMoved(d, w, k, self, t);
    }
  }

  // -------------------------------------------------------------------- whole states and runs

  lemma HousedElsewhere(d: Data, w: Spots, d': Data, w': Spots, j: Kid, kt: Kthread)
    requires Housed(d, w, j, kt) && Grows(d, d')
    requires Owner(kt).Some? ==>
               var t := Owner(kt).value;
               t in d.threads && t in w ==> t in w' && w'[t] == w[t] && t in d'.threads && d'.threads[t] == d.threads[t]
    ensures Housed(d', w', j, kt)
  {
  }

  lemma MovePlaced(d: Data, kthreads: map<Kid, Kthread>, w: Spots, k: Kid, o: Outcome, w': Spots)
    requires PlacedIn(d, kthreads, w) && k in kthreads && Moved(d, w, k, o, w')
    ensures PlacedIn(o.d, kthreads[k := o.kt], w')
  {
    hide DataInv, Housed, Owner, Grows;
    var kthreads' := kthreads[k := o.kt];
    forall j | j in kthreads'
      ensures Housed(o.d, w', j, kthreads'[j])
    {
      if j != k {
        assert Housed(d, w, j, kthreads[j]);
        StaysHoused(d, w, k, o, w', j, kthreads[j]);
      }
    }
  }

  lemma StaysHoused(d: Data, w: Spots, k: Kid, o: Outcome, w': Spots, j: Kid, kt: Kthread)
    requires Moved(d, w, k, o, w') && Housed(d, w, j, kt) && j != k
    ensures Housed(o.d, w', j, kt)
  {
    hide DataInv;
    HousedElsewhere(d, w, o.d, w', j, kt);
  }

  lemma SpawnPlaced(d: Data, kthreads: map<Kid, Kthread>, w: Spots, k: Kid)
    requires PlacedIn(d, kthreads, w) && k !in kthreads
    ensures PlacedIn(d, kthreads[k := Kthread(0, Wait(Count))], w)
  {
    assert Housed(d, w, k, Kthread(0, Wait(Count)));
    hide DataInv, Housed, Owner;
  }

  lemma FinishPlaced(cfg: Config, s: State, w: Spots, k: Kid, sec: Sec, o: Outcome, w': Spots)
    requires Placed(s, w) && k in s.kthreads && s.kthreads[k].pc == In(sec) && Moved(s.d, w, k, o, w')
    requires s.kcount + 1 !in s.kthreads
    ensures Placed(Finish(cfg, s, k, sec, o), w')
  {
    hide Moved, PlacedIn, PostAll;
    MovePlaced(s.d, s.kthreads, w, k, o, w');
    SpawnPlaced(o.d, s.kthreads[k := o.kt], w', s.kcount + 1);
  }

  lemma HandOf(s: State, w: Spots, k: Kid)
    requires Placed(s, w) && k in s.kthreads && s.kthreads[k].pc.In?
    ensures Here(s.d, w, k, s.kthreads[k].th, s.kthreads[k].pc.sec)
  {
    hide DataInv;
  }

  ghost predicate Inv(s: State, w: Spots) {
    SemsHeld(s) && Placed(s, w) && Resumes(s.d)
  }

  lemma NotInHand(s: State, w: Spots, k: Kid, t: Tid, x: Sem)
    requires Inv(s, w) && k in s.kthreads && t in w
    requires s.kthreads[k].pc.In? && Holds(s.kthreads[k].pc, x)
    requires !s.kthreads[k].pc.sec.LockEnq? && !s.kthreads[k].pc.sec.CwEnq?
    requires (x == MutexSem && w[t].list.OnMutex?) || (x == CondSem && w[t].list.OnCond?)
    ensures !w[t].place.On?
  {
    if w[t].place.On? {
      var j := w[t].place.k;
      assert Housed(s.d, w, j, s.kthreads[j]);
      assert s.d.threads[t].state == Blocked;
      if j != k {
        OneHolder(s, j, k, x);
      }
    }
  }

  /** mutex_sem and cond_sem keep a thread that is being put away apart from whoever empties its list. */
  lemma SectionSound(s: State, w: Spots, k: Kid)
    requires Inv(s, w) && k in s.kthreads && s.kthreads[k].pc.In?
    ensures Sound(s.d, w, s.kthreads, s.kthreads[k].pc.sec)
  {
    var sec := s.kthreads[k].pc.sec;
    HandOf(s, w, k);
    if sec.Unlock? || sec.CwUnlock? {
      ListSettled(s, w, k, OnMutex(sec.m), s.d.mutexes[sec.m].blocked, MutexSem);
    } else if sec.WakeList? {
      ListSettled(s, w, k, OnCond(sec.c), s.d.conds[sec.c], CondSem);
    }
    hide SemsHeld, DataInv;
  }

  lemma ListSettled(s: State, w: Spots, k: Kid, list: List, ts: seq<Tid>, x: Sem)
    requires Inv(s, w) && k in s.kthreads && s.kthreads[k].pc.In? && Holds(s.kthreads[k].pc, x)
    requires !s.kthreads[k].pc.sec.LockEnq? && !s.kthreads[k].pc.sec.CwEnq?
    requires (x == MutexSem && list.OnMutex?) || (x == CondSem && list.OnCond?)
    requires forall t :: t in ts && t in w ==> w[t].list == list
    ensures Settled(w, ts)
  {
    hide Inv, Holds;
    forall t | t in ts && t in w
      ensures !w[t].place.On?
    {
      NotInHand(s, w, k, t, x);
    }
  }

  /** A create section finds a harmless dependent_th; everything else user code may do at any time. */
  predicate CleanAt(s: State, e: Event) {
    e.Go? && e.k in s.kthreads && s.kthreads[e.k].pc.In? && s.kthreads[e.k].pc.sec.Create? ==>
      Harmless(s.d, s.kthreads[e.k].pc.sec.junk)
  }

  predicate CleanRun(cfg: Config, s: State, es: seq<Event>)
    requires Runs(cfg, s, es)
    decreases |es|
  {
    es == [] || (CleanAt(s, es[0]) && CleanRun(cfg, Next(cfg, s, es[0]), es[1..]))
  }

  lemma BeginMoved(s: State, w: Spots, k: Kid, api: Sec)
    requires Inv(s, w) && Enabled(s, Call(k, api))
    ensures Moved(s.d, w, k, Outcome(Begin(s.d, s.kthreads[k].th, api), Kthread(s.kthreads[k].th, Wait(api)), {}), w)
    ensures Resumes(Begin(s.d, s.kthreads[k].th, api))
  {
    hide Inv, DataInv, Moved, Resumes, Begin;
    UserHand(s, w, k);
    BeginFrom(s.d, w, k, s.kthreads[k].th, api);
  }

  lemma BeginFrom(d: Data, w: Spots, k: Kid, t: Tid, api: Sec)
    requires DataInv(d, w) && Resumes(d) && IsApi(api) && Names(d, api)
    requires t in w && w[t].place == On(k) && t in d.threads && Fits(User, d.threads[t].state, w[t].list)
    requires forall x :: x in w && w[x].place == On(k) ==> x == t
    requires forall x :: x in d.threads <==> x in w
    ensures Moved(d, w, k, Outcome(Begin(d, t, api), Kthread(t, Wait(api)), {}), w) && Resumes(Begin(d, t, api))
  {
    hide DataInv, Housed, Names, Fits, Owner, Ready, IsApi;
    BeginData(d, w, k, t, api);
    BeginHoused(d, w, k, t, api);
  }

  lemma BeginHoused(d: Data, w: Spots, k: Kid, t: Tid, api: Sec)
    requires t in w && w[t].place == On(k) && t in d.threads && Fits(User, d.threads[t].state, w[t].list)
    requires IsApi(api) && Names(d, api)
    ensures Housed(Begin(d, t, api), w, k, Kthread(t, Wait(api))) && Owner(Kthread(t, Wait(api))) == Some(t)
  {
  }

  /** In user code a kernel thread has its thread in hand, and nothing else. */
  lemma UserHand(s: State, w: Spots, k: Kid)
    requires Inv(s, w) && k in s.kthreads && s.kthreads[k].pc == User
    ensures var t := s.kthreads[k].th;
            && DataInv(s.d, w) && Resumes(s.d)
            && t in w && w[t].place == On(k) && t in s.d.threads && Fits(User, s.d.threads[t].state, w[t].list)
    ensures forall t :: t in w && w[t].place == On(k) ==> t == s.kthreads[k].th
    ensures forall t :: t in s.d.threads <==> t in w
  {
    assert Housed(s.d, w, k, s.kthreads[k]) && Owner(s.kthreads[k]) == Some(s.kthreads[k].th);
    hide SemsHeld, Filed, Listed, Joined, Resumes;
  }

  lemma BeginData(d: Data, w: Spots, k: Kid, t: Tid, api: Sec)
    requires DataInv(d, w) && t in w && w[t].place == On(k)
    requires t in d.threads && Fits(User, d.threads[t].state, w[t].list)
    ensures DataInv(Begin(d, t, api), w)
  {
    if api.Yield? {
      var th := d.threads[t].(state := Active, resume := ToUser);
      StatedSet(d.threads, d.gen, w, t, th, w[t]);
      JoinedSet(d.threads, t, th);
      assert w[t := w[t]] == w;
    }
    hide Filed, Listed, Stated, Joined;
  }

  /** Every event keeps the invariant; w' is where the threads are afterwards. */
  lemma InvStep(cfg: Config, s: State, w: Spots, e: Event) returns (w': Spots)
    requires Inv(s, w) && Enabled(s, e) && CleanAt(s, e)
    ensures Inv(Next(cfg, s, e), w')
  {
    hide SemsHeld, PlacedIn, Moved, Resumes, Section, Sound, Here;
    SemsStep(cfg, s, e);
    var kt := s.kthreads[e.k];
    if e.Go? && kt.pc.In? {
      HandOf(s, w, e.k);
      SectionSound(s, w, e.k);
      w' := GoIn(cfg, s, w, e.k);
    } else {
      w' := w;
      Control(cfg, s, w, e);
    }
  }

  lemma GoIn(cfg: Config, s: State, w: Spots, k: Kid) returns (w': Spots)
    requires Inv(s, w) && Enabled(s, Go(k)) && s.kthreads[k].pc.In? && CleanAt(s, Go(k))
    requires Here(s.d, w, k, s.kthreads[k].th, s.kthreads[k].pc.sec) && Sound(s.d, w, s.kthreads, s.kthreads[k].pc.sec)
    ensures Placed(Next(cfg, s, Go(k)), w') && Resumes(Next(cfg, s, Go(k)).d)
  {
    var kt := s.kthreads[k];
    var o := Section(cfg, s.d, s.kthreads, kt.th, kt.pc.sec);
    assert s.kcount + 1 !in s.kthreads;
    hide SemsHeld, PlacedIn, Moved, Resumes, Section, Sound, Here;
    w' := SectionMoved(cfg, s.d, w, s.kthreads, k, kt.th, kt.pc.sec);
    SectionResumes(cfg, s.d, s.kthreads, kt.th, kt.pc.sec);
    FinishPlaced(cfg, s, w, k, kt.pc.sec, o, w');
  }

  lemma Control(cfg: Config, s: State, w: Spots, e: Event)
    requires Inv(s, w) && Enabled(s, e) && !(e.Go? && s.kthreads[e.k].pc.In?)
    ensures Placed(Next(cfg, s, e), w) && Resumes(Next(cfg, s, e).d)
  {
    hide SemsHeld, DataInv, Moved;
    var kt := s.kthreads[e.k];
    if e.Call? {
      BeginMoved(s, w, e.k, e.api);
      MovePlaced(s.d, s.kthreads, w, e.k, Outcome(Begin(s.d, kt.th, e.api), Kthread(kt.th, Wait(e.api)), {}), w);
      hide PlacedIn, Begin, Resumes;
    }
  }

  const START: Spots := map[1 := Spot(On(1), NoList)]

  lemma InitData(ms: set<Mid>, cs: set<Cid>)
    ensures DataInv(Init(ms, cs).d, START) && Resumes(Init(ms, cs).d)
  {
    var d := Init(ms, cs).d;
    assert Filed(d.runQ, d.lost, START);
    assert Listed(d.mutexes, d.conds, START);
    assert Stated(d.threads, d.gen, START) && Joined(d.threads);
    hide Filed, Listed, Stated, Joined;
  }

  lemma InitInv(ms: set<Mid>, cs: set<Cid>)
    ensures Inv(Init(ms, cs), START)
  {
    InitData(ms, cs);
    InitSems(ms, cs);
    assert Housed(Init(ms, cs).d, START, 1, Init(ms, cs).kthreads[1]);
    hide SemsHeld, DataInv, Resumes, Housed;
  }

  lemma {:induction false} InvRun(cfg: Config, s: State, w: Spots, es: seq<Event>) returns (w': Spots)
    requires Inv(s, w) && Runs(cfg, s, es) && CleanRun(cfg, s, es)
    ensures Inv(After(cfg, s, es), w')
    decreases |es|
  {
    hide Inv;
    if es == [] {
      w' := w;
    } else {
      var w1 := InvStep(cfg, s, w, es[0]);
      w' := InvRun(cfg, Next(cfg, s, es[0]), w1, es[1..]);
    }
  }
}
