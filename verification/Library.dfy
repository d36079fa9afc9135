/**
 The globals of pthreads/mypthread.c on the heap: thread objects shared by the run queue and the wait lists,
 each a linked list. What every operation does to them is what the transition system says of its section.
*/
module Library {
  import opened Machine
  import opened ThreadList
  import CondVars

  // mypthread_mutex_t
  class MutexObject {
    var locked: bool
    const waiters: ThreadQueue
    ghost var holders: set<Tid>

    constructor ()
      ensures !locked && holders == {} && fresh(waiters) && waiters.Valid() && waiters.Attached()
      ensures waiters.Contents() == [] && fresh(waiters.Repr)
    {
      locked := false;
      waiters := new ThreadQueue();
      holders := {};
    }
  }

  ghost predicate AreApart(q: ThreadQueue, q': ThreadQueue)
    reads q, q'
  {
    q != q' && q.Repr !! q'.Repr
  }

  /** A list after mypthread_mutex_init or mypthread_cond_init. */
  ghost predicate IsInitial(q: ThreadQueue)
    reads q, q.Repr
  {
    q.Valid() && q.Attached() && q.Contents() == []
  }

  // One of the lists of the library.
  datatype Key = RunKey | MutexKey(m: Mid) | CondKey(c: Cid)

  class Globals {
    const cfg: Config
    var gen: nat
    var count: int
    const runQ: ThreadQueue
    const mutexes: map<Mid, MutexObject>
    const conds: map<Cid, ThreadQueue>
    ghost var all: map<Tid, UserThread>   // every thread that was created

    predicate HasKey(k: Key) {
      match k
      case RunKey => true
      case MutexKey(m) => m in mutexes
      case CondKey(c) => c in conds
    }

    function QueueAt(k: Key): ThreadQueue
      requires HasKey(k)
    {
      match k
      case RunKey => runQ
      case MutexKey(m) => mutexes[m].waiters
      case CondKey(c) => conds[c]
    }

    /** The lists are apart from one another, down to their nodes; what they share are the thread objects. */
    ghost predicate Apart()
      reads *
    {
      && (forall m, m' :: m in mutexes && m' in mutexes && m != m' ==> mutexes[m] != mutexes[m'])
      && (forall k, k' :: HasKey(k) && HasKey(k') && k != k' ==>
            QueueAt(k) != QueueAt(k') && QueueAt(k).Repr !! QueueAt(k').Repr)
    }

    ghost predicate Known(th: UserThread)
      reads this
    {
      th.id in all && all[th.id] == th
    }

    /** A list of the library: well formed, of threads of the library; only the run queue can lose its tail. */
    ghost predicate Listing(k: Key)
      requires HasKey(k)
      reads *
    {
      && QueueAt(k).Valid() && (k != RunKey ==> QueueAt(k).Attached())
      && forall th :: th in QueueAt(k).Contents() ==> Known(th)
    }

    ghost predicate Valid()
      reads *
    {
      && Apart()
      && (forall t :: t in all ==> all[t].id == t && 1 <= t <= gen)
      && (forall k :: HasKey(k) ==> Listing(k))
    }

    // ------------------------------------------------------------------ the data of the transition system

    ghost function Threads(): map<Tid, Thread>
      reads *
    {
      map t | t in all :: Thread(all[t].state, all[t].dep, all[t].resume)
    }

    ghost function Mutexes(): map<Mid, Mutex>
      reads *
    {
      map m | m in mutexes :: Mutex(mutexes[m].locked, Ids(mutexes[m].waiters.Contents()), mutexes[m].holders)
    }

    ghost function Conds(): map<Cid, seq<Tid>>
      reads *
    {
      map c | c in conds :: Ids(conds[c].Contents())
    }

    ghost function View(): Data
      reads *
    {
      Data(Threads(), gen, count, runQ.AsQueue(), runQ.lost, Mutexes(), Conds())
    }

    /** What main initialises itself: mutexes and condition variables, apart from one another. */
    constructor (cfg: Config, main: UserThread, mutexes: map<Mid, MutexObject>, conds: map<Cid, ThreadQueue>)
      requires main.id == 1 && main.state == Running && main.dep == 0 && main.resume == ToUser
      requires forall m, m' :: m in mutexes && m' in mutexes && m != m' ==>
                 mutexes[m] != mutexes[m'] && AreApart(mutexes[m].waiters, mutexes[m'].waiters)
      requires forall c, c' :: c in conds && c' in conds && c != c' ==> AreApart(conds[c], conds[c'])
      requires forall m, c :: m in mutexes && c in conds ==> AreApart(mutexes[m].waiters, conds[c])
      requires forall m :: m in mutexes ==>
          !mutexes[m].locked && mutexes[m].holders == {} && IsInitial(mutexes[m].waiters)
      requires forall c :: c in conds ==> IsInitial(conds[c])
      ensures this.cfg == cfg && this.mutexes == mutexes && this.conds == conds
      ensures Valid() && View() == Init(mutexes.Keys, conds.Keys).d
    {
      this.cfg := cfg;
      gen, count := 1, 1;
      var q := new ThreadQueue();
      runQ := q;
      this.mutexes, this.conds := mutexes, conds;
      all := map[1 := main];
      new;
      hide ThreadQueue.Valid;
      assert IsInitial(runQ) && runQ.lost == {};
      assert Apart() by {
        assert forall k :: HasKey(k) && k != RunKey ==> QueueAt(k) != runQ && QueueAt(k).Repr !! runQ.Repr;
      }
      InitialView(main);
    }

    lemma InitialView(main: UserThread)
      requires main.id == 1 && main.state == Running && main.dep == 0 && main.resume == ToUser
      requires gen == 1 && count == 1 && all == map[1 := main] && Apart() && IsInitial(runQ) && runQ.lost == {}
      requires forall m :: m in mutexes ==>
          !mutexes[m].locked && mutexes[m].holders == {} && IsInitial(mutexes[m].waiters)
      requires forall c :: c in conds ==> IsInitial(conds[c])
      ensures Valid() && View() == Init(mutexes.Keys, conds.Keys).d
    {
      hide ThreadQueue.Valid;
      forall k | HasKey(k)
        ensures Listing(k)
      {
        assert IsInitial(QueueAt(k));
      }
      var d := Init(mutexes.Keys, conds.Keys).d;
      assert Threads() == d.threads && Mutexes() == d.mutexes && Conds() == d.conds;
    }

    // ------------------------------------------------------------------ one list at a time

    /** The other lists are as they were. */
    twostate predicate OthersKept(k: Key)
      reads *
    {
      forall k' :: HasKey(k') && k' != k ==> unchanged(QueueAt(k')) && unchanged(QueueAt(k').Repr)
    }

    twostate lemma ListChanged(k: Key)
      requires old(Valid()) && HasKey(k) && OthersKept(k) && all == old(all) && gen == old(gen)
      requires Listing(k) && fresh(QueueAt(k).Repr - old(QueueAt(k).Repr))
      ensures Valid()
    {
      hide ThreadQueue.Valid;
      forall k' | HasKey(k')
        ensures Listing(k')
      {
        assert old(Listing(k'));
      }
    }

    /** The mutex objects other than that of k are as they were. */
    twostate predicate OtherFieldsKept(k: Key)
      reads *
    {
      forall m :: m in mutexes && k != MutexKey(m) ==> unchanged(mutexes[m])
    }

    twostate lemma OtherMutexes(k: Key)
      requires HasKey(k) && OthersKept(k) && OtherFieldsKept(k)
      ensures Mutexes() == if k.MutexKey? then old(Mutexes())[k.m := Mutexes()[k.m]] else old(Mutexes())
    {
      hide ThreadQueue.Valid;
      forall m | m in mutexes && k != MutexKey(m)
        ensures mutexes[m].waiters.Contents() == old(mutexes[m].waiters.Contents())
      {
        assert HasKey(MutexKey(m)) && QueueAt(MutexKey(m)) == mutexes[m].waiters;
      }
    }

    twostate lemma OtherConds(k: Key)
      requires HasKey(k) && OthersKept(k)
      ensures Conds() == if k.CondKey? then old(Conds())[k.c := Ids(QueueAt(k).Contents())] else old(Conds())
    {
      hide ThreadQueue.Valid;
      forall c | c in conds && k != CondKey(c)
        ensures conds[c].Contents() == old(conds[c].Contents())
      {
        assert HasKey(CondKey(c)) && QueueAt(CondKey(c)) == conds[c];
      }
    }

    twostate lemma OtherRunQueue(k: Key)
      requires HasKey(k) && OthersKept(k) && k != RunKey
      ensures runQ.AsQueue() == old(runQ.AsQueue()) && runQ.lost == old(runQ.lost)
    {
      assert HasKey(RunKey) && QueueAt(RunKey) == runQ;
    }

    /** No list changed; threads may have been added. */
    twostate lemma NoListChanged()
      requires old(Valid()) && OthersKept(RunKey) && unchanged(runQ) && unchanged(runQ.Repr)
      requires gen >= old(gen) && forall t :: t in all ==> all[t].id == t && 1 <= t <= gen
      requires forall t :: t in old(all) ==> t in all && all[t] == old(all[t])
      ensures Valid()
    {
      hide ThreadQueue.Valid;
      forall k | HasKey(k)
        ensures Listing(k)
      {
        assert old(Listing(k));
        assert k == RunKey || (unchanged(QueueAt(k)) && unchanged(QueueAt(k).Repr));
      }
    }

    twostate lemma MutexListChanged(m: Mid)
      requires m in mutexes && OthersKept(MutexKey(m)) && forall m' :: m' in mutexes ==> unchanged(mutexes[m'])
      ensures Mutexes() == old(Mutexes())[m := old(Mutexes())[m].(blocked := Ids(mutexes[m].waiters.Contents()))]
      ensures Conds() == old(Conds()) && runQ.AsQueue() == old(runQ.AsQueue()) && runQ.lost == old(runQ.lost)
    {
      OtherMutexes(MutexKey(m));
      OtherConds(MutexKey(m));
      OtherRunQueue(MutexKey(m));
    }

    twostate lemma CondListChanged(c: Cid)
      requires c in conds && OthersKept(CondKey(c)) && forall m :: m in mutexes ==> unchanged(mutexes[m])
      ensures Conds() == old(Conds())[c := Ids(conds[c].Contents())]
      ensures Mutexes() == old(Mutexes()) && runQ.AsQueue() == old(runQ.AsQueue()) && runQ.lost == old(runQ.lost)
    {
      OtherMutexes(CondKey(c));
      OtherConds(CondKey(c));
      OtherRunQueue(CondKey(c));
    }

    // ------------------------------------------------------------------ the lists

    /** ll_add on one of the lists. */
    method AddTo(k: Key, th: UserThread)
      requires Valid() && HasKey(k) && Known(th)
      modifies QueueAt(k), QueueAt(k).Repr
      ensures OthersKept(k) && Valid()
      ensures QueueAt(k).AsQueue() == Append(old(QueueAt(k).AsQueue()), th.id)
      ensures QueueAt(k).lost ==
          if old(QueueAt(k).Attached()) then old(QueueAt(k).lost) else old(QueueAt(k).lost) + {th.id}
      ensures Threads() == old(Threads()) && forall m :: m in mutexes ==> unchanged(mutexes[m])
      ensures old(QueueAt(k).Attached()) ==> Ids(QueueAt(k).Contents()) == old(Ids(QueueAt(k).Contents())) + [th.id]
    {
      hide ThreadQueue.Valid;
      assert Listing(k);
      QueueAt(k).Add(th);
      forall k' | HasKey(k') && k' != k
        ensures unchanged(QueueAt(k')) && unchanged(QueueAt(k').Repr)
      {
        assert QueueAt(k') != QueueAt(k) && old(QueueAt(k').Repr !! QueueAt(k).Repr);
      }
      ListChanged(k);
    }

    /** mypthread_enqueue */
    method EnqueueThread(th: UserThread)
      requires Valid() && Known(th)
      modifies runQ, runQ.Repr
      ensures Valid() && View() == Enqueue(old(View()), th.id)
    {
      hide ThreadQueue.Valid, Valid, Listing, Apart;
      AddTo(RunKey, th);
      OtherMutexes(RunKey);
      OtherConds(RunKey);
      assert Threads() == old(Threads());
    }

    /** The threads of a list are the threads that its ids name. */
    lemma IdsName(k: Key)
      requires Valid() && HasKey(k)
      ensures forall t :: t in all ==> (t in Ids(QueueAt(k).Contents()) <==> all[t] in QueueAt(k).Contents())
    {
      assert Listing(k);
      hide ThreadQueue.Valid;
      var ths := QueueAt(k).Contents();
      forall t | t in all && t in Ids(ths)
        ensures all[t] in ths
      {
        var i :| 0 <= i < |ths| && Ids(ths)[i] == t;
        assert Known(ths[i]);
      }
      forall t | t in all && all[t] in ths
        ensures t in Ids(ths)
      {
        var i :| 0 <= i < |ths| && ths[i] == all[t];
        assert Ids(ths)[i] == t;
      }
    }

    /** ll_free on one of the lists. */
    method FreeAll(k: Key)
      requires Valid() && HasKey(k)
      modifies QueueAt(k), QueueAt(k).Contents()`state
      ensures OthersKept(k) && Valid()
      ensures QueueAt(k).Contents() == [] && QueueAt(k).Attached() && QueueAt(k).lost == old(QueueAt(k).lost)
      ensures Threads() == WakeAll(old(Threads()), old(Ids(QueueAt(k).Contents())))
    {
      hide ThreadQueue.Valid;
      IdsName(k);
      assert Listing(k);
      QueueAt(k).Free();
      forall k' | HasKey(k') && k' != k
        ensures unchanged(QueueAt(k')) && unchanged(QueueAt(k').Repr)
      {
        assert QueueAt(k') != QueueAt(k);
      }
      ListChanged(k);
    }

    // ------------------------------------------------------------------ one change at a time

    /** Nothing but thread objects changed. */
    twostate predicate ListsKept()
      reads *
    {
      OthersKept(RunKey) && unchanged(runQ) && unchanged(runQ.Repr) && OtherFieldsKept(RunKey)
    }

    twostate lemma OnlyThreadsChanged()
      requires old(Valid()) && ListsKept()
      requires gen >= old(gen) && forall t :: t in all ==> all[t].id == t && 1 <= t <= gen
      requires forall t :: t in old(all) ==> t in all && all[t] == old(all[t])
      ensures Valid() && View() == old(View()).(threads := Threads(), gen := gen, count := count)
    {
      NoListChanged();
      OtherMutexes(RunKey);
      OtherConds(RunKey);
    }

    /** The assignments to the fields of a thread. */
    method Mark(self: UserThread, state: TState, dep: Tid, resume: Resume)
      requires Valid() && Known(self)
      modifies self`state, self`dep, self`resume
      ensures Valid() && View() == SetThread(old(View()), self.id, Thread(state, dep, resume))
    {
      hide ThreadQueue.Valid, Listing, Apart;
      assert forall t :: t in all && t != self.id ==> all[t] != self;
      self.state := state;
      self.dep := dep;
      self.resume := resume;
      OnlyThreadsChanged();
    }

    twostate lemma ThreadAdded(new th: UserThread, junk: Tid)
      requires old(Valid()) && ListsKept() && gen == old(gen) + 1 && all == old(all)[gen := th]
      requires th.id == gen && th.state == Active && th.dep == junk && th.resume == ToUser
      requires forall t :: t in old(all) ==> unchanged(old(all[t]))
      ensures Valid()
      ensures View() == SetThread(old(View()), gen, Thread(Active, junk, ToUser)).(gen := gen, count := count)
    {
      assert forall t :: t in old(all) ==> old(all)[t].id == t && 1 <= t <= old(gen);
      hide ThreadQueue.Valid, Listing, Apart;
      OnlyThreadsChanged();
      assert Threads() == old(Threads())[gen := Thread(Active, junk, ToUser)];
    }

    /** The assignments of mypthread_create, in storage whose dependent_th is junk. */
    method NewThread(junk: Tid) returns (th: UserThread)
      requires Valid()
      modifies this`gen, this`count, this`all
      ensures Valid() && Known(th) && fresh(th) && th.id == old(gen) + 1
      ensures var d := SetThread(old(View()), th.id, Thread(Active, junk, ToUser));
              View() == d.(gen := th.id, count := old(count) + 1)
    {
      hide ThreadQueue.Valid, Listing, Apart, Valid;
      gen := gen + 1;
      th := new UserThread(gen, Active, junk, ToUser);
      all := all[gen := th];
      count := count + 1;
      ThreadAdded(th, junk);
    }

    /** The assignments to the fields of a mutex; its list stays. */
    method SetMutex(m: Mid, locked: bool, ghost holders: set<Tid>)
      requires Valid() && m in mutexes
      modifies mutexes[m]
      ensures Valid() && m in old(View()).mutexes
      ensures var d := old(View());
              var mutex := d.mutexes[m].(locked := locked, holders := holders);
              View() == d.(mutexes := d.mutexes[m := mutex])
    {
      hide ThreadQueue.Valid, Listing;
      mutexes[m].locked := locked;
      mutexes[m].holders := holders;
      NoListChanged();
      OtherMutexes(MutexKey(m));
      OtherConds(MutexKey(m));
    }

    method CountDown()
      requires Valid()
      modifies this`count
      ensures Valid() && View() == old(View()).(count := old(count) - 1)
    {
      hide ThreadQueue.Valid, Listing, Apart;
      count := count - 1;
      OnlyThreadsChanged();
    }

    /** What mypthread_update_waiting_threads has done to the threads. */
    twostate lemma JoinersWoken(id: Tid)
      requires all == old(all)
      requires forall t :: t in all ==> (t in old(Ids(runQ.Contents())) <==> all[t] in old(runQ.Contents()))
      requires forall t :: t in all ==> all[t].dep == old(all[t].dep) && all[t].resume == old(all[t].resume)
      requires forall t :: t in all ==>
                 var woken := all[t] in old(runQ.Contents()) && all[t].dep == id;
                 all[t].state == if woken then Active else old(all[t].state)
      ensures Threads() == WakeJoiners(old(Threads()), old(runQ.AsQueue().items), id)
    {
    }

    /** mypthread_update_waiting_threads */
    method WakeWaiting(id: Tid)
      requires Valid()
      modifies runQ.Contents()`state
      ensures Valid() && View() == old(View()).(threads := WakeJoiners(old(View()).threads, old(View()).runQ.items, id))
    {
      assert Listing(RunKey);
      IdsName(RunKey);
      hide ThreadQueue.Valid, Listing, Apart;
      runQ.UpdateWaiting(id);
      OnlyThreadsChanged();
      JoinersWoken(id);
    }

    /** ll_add on the blocked list of a mutex. */
    method AddBlocked(self: UserThread, m: Mid)
      requires Valid() && Known(self) && m in mutexes
      modifies mutexes[m].waiters, mutexes[m].waiters.Repr
      ensures Valid() && m in old(View()).mutexes
      ensures var d := old(View());
              View() == d.(mutexes := d.mutexes[m := d.mutexes[m].(blocked := d.mutexes[m].blocked + [self.id])])
    {
      assert Listing(MutexKey(m));
      hide ThreadQueue.Valid, Valid, Listing, Apart, OthersKept, Threads, Conds, Ids;
      AddTo(MutexKey(m), self);
      MutexListChanged(m);
    }

    /** ll_add on the list of a condition variable. */
    method AddWaiter(self: UserThread, c: Cid)
      requires Valid() && Known(self) && c in conds
      modifies conds[c], conds[c].Repr
      ensures Valid() && c in old(View()).conds
      ensures View() == old(View()).(conds := old(View()).conds[c := old(View()).conds[c] + [self.id]])
    {
      assert Listing(CondKey(c));
      hide ThreadQueue.Valid, Valid, Listing, Apart, OthersKept;
      AddTo(CondKey(c), self);
      CondListChanged(c);
      assert Threads() == old(Threads());
    }

    // ------------------------------------------------------------------ the operations

    /** mypthread_create */
    method CreateThread(junk: Tid) returns (th: UserThread)
      requires Valid()
      modifies this`gen, this`count, this`all, runQ, runQ.Repr
      ensures Valid() && Known(th) && fresh(th)
      ensures forall self :: View() == CreateSection(cfg, old(View()), self, junk).d
    {
      assert View().gen == gen && View().count == count;
      hide Valid, View, Known;
      th := NewThread(junk);
      EnqueueThread(th);
    }

    /** The first assignment of mypthread_yield, which precedes its wait for the run queue. */
    method BeginYield(self: UserThread)
      requires Valid() && Known(self)
      modifies self`state, self`dep, self`resume
      ensures Valid() && self.id in old(View()).threads && View() == Begin(old(View()), self.id, Yield)
    {
      assert self.id in View().threads && View().threads[self.id] == Thread(self.state, self.dep, self.resume);
      hide Valid, View;
      Mark(self, Active, self.dep, ToUser);
    }

    /** mypthread_exit */
    method ExitThread(self: UserThread)
      requires Valid() && Known(self)
      modifies this`count, self`state, self`dep, self`resume, runQ.Contents()`state
      ensures Valid() && self.id in old(View()).threads && View() == ExitSection(old(View()), self.id).d
    {
      assert self.id in View().threads && View().threads[self.id] == Thread(self.state, self.dep, self.resume);
      hide Valid, View, ThreadQueue.Valid;
      CountDown();
      Mark(self, Dead, self.dep, self.resume);
      WakeWaiting(self.id);
    }

    /** mypthread_get */
    method FindThread(id: Tid) returns (th: UserThread?)
      requires Valid()
      ensures th == null <==> id !in View().runQ.items
      ensures th != null ==> Known(th) && th.id == id
    {
      assert Listing(RunKey);
      IdsName(RunKey);
      th := runQ.Get(id);
    }

    /** mykthread_is_running, over the list of kernel threads. */
    method RunningSomewhere(kthreads: map<Kid, Kthread>, list: seq<Kid>, id: Tid) returns (running: bool)
      requires id != 0 && forall k :: k in kthreads <==> k in list
      ensures running <==> IsRunning(kthreads, id)
      ensures running <==> exists k :: k in kthreads && kthreads[k].th == id
    {
      var i := 0;
      while i < |list|
        invariant i <= |list| && forall j :: 0 <= j < i ==> kthreads[list[j]].th != id
      {
        if kthreads[list[i]].th == id {
          return true;
        }
        i := i + 1;
      }
      return false;
    }

    /** mypthread_join behind its lookups: target is what mypthread_get found. */
    method JoinThread(self: UserThread, target: UserThread?, id: Tid, kthreads: map<Kid, Kthread>, list: seq<Kid>)
      returns (waits: bool)
      requires Valid() && Known(self) && (target != null ==> Known(target) && target.id == id)
      requires id != 0 && forall k :: k in kthreads <==> k in list
      modifies self`state, self`dep, self`resume
      ensures Valid() && self.id in old(View()).threads
      ensures var o := JoinSection(old(View()), kthreads, self.id, id, target != null);
              View() == o.d && (waits <==> o.kt.pc == Wait(JoinEnq))
    {
      assert self.id in View().threads;
      assert target != null ==> id in View().threads && View().threads[id].state == target.state;
      hide Valid, View;
      if target == null {
        waits := RunningSomewhere(kthreads, list, id);
      } else {
        waits := target.state != Dead;
      }
      if waits {
        Mark(self, Waiting, id, ToUser);
      }
    }

    /** mypthread_mutex_lock up to its wait for the run queue. */
    method LockMutex(self: UserThread, m: Mid) returns (taken: bool)
      requires Valid() && Known(self) && m in mutexes
      modifies mutexes[m], self`state, self`dep, self`resume, mutexes[m].waiters, mutexes[m].waiters.Repr
      ensures Valid() && self.id in old(View()).threads && m in old(View()).mutexes
      ensures var o := LockSection(old(View()), self.id, m);
              View() == o.d && (taken <==> o.kt.pc == User)
    {
      assert self.id in View().threads && View().threads[self.id] == Thread(self.state, self.dep, self.resume);
      assert m in View().mutexes && View().mutexes[m].locked == mutexes[m].locked;
      assert View().mutexes[m].holders == mutexes[m].holders;
      hide Valid, View, Known;
      taken := !mutexes[m].locked;
      if taken {
        SetMutex(m, true, mutexes[m].holders + {self.id});
      } else {
        Mark(self, Blocked, self.dep, ToLock(m));
        AddBlocked(self, m);
      }
    }

    /** mypthread_mutex_trylock */
    method TryLockMutex(self: UserThread, m: Mid) returns (taken: bool)
      requires Valid() && m in mutexes
      modifies mutexes[m]
      ensures Valid() && m in old(View()).mutexes
      ensures View() == TrySection(cfg, old(View()), self.id, m).d && (taken <==> !old(mutexes[m].locked))
      ensures mutexes[m].locked
      ensures mutexes[m].holders == old(mutexes[m].holders) + (if taken then {self.id} else {})
    {
      assert m in View().mutexes && View().mutexes[m].locked == mutexes[m].locked;
      assert View().mutexes[m].holders == mutexes[m].holders;
      hide Valid, View;
      taken := !mutexes[m].locked;
      if taken {
        SetMutex(m, true, mutexes[m].holders + {self.id});
      }
    }

    /** mypthread_mutex_unlock */
    method UnlockMutex(self: UserThread, m: Mid)
      requires Valid() && m in mutexes
      modifies mutexes[m], mutexes[m].waiters, mutexes[m].waiters.Contents()`state
      ensures Valid() && m in old(View()).mutexes
      ensures forall kthreads :: View() == Section(cfg, old(View()), kthreads, self.id, Unlock(m)).d
    {
      hide Valid, View, Release;
      FreeAndWake(self, m);
    }

    /** lock = false, and the list behind it. */
    method FreeAndWake(self: UserThread, m: Mid)
      requires Valid() && m in mutexes
      modifies mutexes[m], mutexes[m].waiters, mutexes[m].waiters.Contents()`state
      ensures Valid() && m in old(View()).mutexes && View() == Release(old(View()), m, self.id)
    {
      ghost var d := View();
      assert m in d.mutexes && d.mutexes[m].holders == mutexes[m].holders;
      hide Valid, View, WakeAll;
      SetMutex(m, false, mutexes[m].holders - {self.id});
      WakeBlocked(m);
    }

    /** ll_free on the blocked list of a mutex. */
    method WakeBlocked(m: Mid)
      requires Valid() && m in mutexes
      modifies mutexes[m].waiters, mutexes[m].waiters.Contents()`state
      ensures Valid() && m in old(View()).mutexes
      ensures var d := old(View());
              View() == d.(threads := WakeAll(d.threads, d.mutexes[m].blocked),
                           mutexes := d.mutexes[m := d.mutexes[m].(blocked := [])])
    {
      hide ThreadQueue.Valid, Valid, Listing, Apart;
      FreeAll(MutexKey(m));
      MutexListChanged(m);
    }

    /** mypthread_cond_wait behind its unlock, up to its wait for the run queue. */
    method WaitOn(self: UserThread, c: Cid, m: Mid)
      requires Valid() && Known(self) && c in conds
      modifies self`state, self`dep, self`resume, conds[c], conds[c].Repr
      ensures Valid() && self.id in old(View()).threads && c in old(View()).conds
      ensures View() == CwAddSection(old(View()), self.id, c, m).d
    {
      assert self.id in View().threads && View().threads[self.id] == Thread(self.state, self.dep, self.resume);
      hide Valid, View;
      Mark(self, Blocked, self.dep, ToLock(m));
      AddWaiter(self, c);
    }

    /** What ll_free_one has done to the threads, when ths was the list. */
    twostate lemma FirstWoken(ths: seq<UserThread>)
      requires all == old(all) && forall th :: th in ths ==> old(Known(th))
      requires forall t :: t in all ==> all[t].dep == old(all[t].dep) && all[t].resume == old(all[t].resume)
      requires forall t :: t in all ==>
                 all[t].state == if ths != [] && all[t] == ths[0] then Active else old(all[t].state)
      requires forall t :: t in all ==> all[t].id == t
      ensures Threads() == WakeAll(old(Threads()), if ths == [] then [] else Ids(ths)[..1])
    {
      if ths != [] {
        assert ths[0] in ths;
        assert Ids(ths)[..1] == [ths[0].id];
      }
    }

    /** ll_free_one on one of the lists. */
    method FreeFirst(k: Key)
      requires Valid() && HasKey(k)
      modifies QueueAt(k), QueueAt(k).Contents()`state
      ensures OthersKept(k) && Valid() && QueueAt(k).lost == old(QueueAt(k).lost)
      ensures var ids := old(Ids(QueueAt(k).Contents()));
              && Ids(QueueAt(k).Contents()) == (if ids == [] then [] else ids[1..])
              && Threads() == WakeAll(old(Threads()), if ids == [] then [] else ids[..1])
    {
      hide ThreadQueue.Valid;
      assert Listing(k);
      ghost var ths := QueueAt(k).Contents();
      QueueAt(k).FreeOne();
      forall k' | HasKey(k') && k' != k
        ensures unchanged(QueueAt(k')) && unchanged(QueueAt(k').Repr)
      {
        assert QueueAt(k') != QueueAt(k);
      }
      ListChanged(k);
      hide WakeAll;
      FirstWoken(ths);
    }

    lemma WakeNobody(threads: map<Tid, Thread>)
      ensures WakeAll(threads, []) == threads
    {
    }

    /** mypthread_cond_signal and mypthread_cond_broadcast between their semaphores. */
    method WakeWaiters(c: Cid, all: bool)
      requires Valid() && c in conds
      modifies conds[c], conds[c].Contents()`state
      ensures Valid() && c in old(View()).conds
      ensures forall kthreads, self :: View() == Section(cfg, old(View()), kthreads, self, WakeList(c, all)).d
      ensures var was := old(View());
              && Ids(conds[c].Contents()) == (if all || was.conds[c] == [] then [] else was.conds[c][1..])
              && forall t :: t in was.threads && t in was.conds[c] && (all || t == was.conds[c][0]) ==>
                   t in View().threads && View().threads[t].state == Active
    {
      hide Valid, WakeCond;
      WakeListed(c, all);
      CondVars.WakeEffect(old(View()), c, all);
      assert View().conds[c] == Ids(conds[c].Contents());
    }

    /** ll_free or ll_free_one on the list of a condition variable. */
    method WakeListed(c: Cid, all: bool)
      requires Valid() && c in conds
      modifies conds[c], conds[c].Contents()`state
      ensures Valid() && c in conds && c in old(View()).conds && View() == WakeCond(old(View()), c, all)
    {
      WakeNobody(Threads());
      hide ThreadQueue.Valid, Valid, Listing, Apart, WakeAll;
      if all {
        FreeAll(CondKey(c));
      } else {
        FreeFirst(CondKey(c));
      }
      CondListChanged(c);
    }

    /** The search and the unlinking of mypthread_dequeue_first_active, on the run queue. */
    method TakeActive() returns (th: UserThread?, ghost i: nat)
      requires Valid()
      modifies runQ, runQ.Repr
      ensures Valid() && OthersKept(RunKey) && runQ.lost == old(runQ.lost)
      ensures i == FirstActive(Threads(), old(runQ.AsQueue().items))
      ensures th == null ==> i == |old(runQ.AsQueue().items)| && runQ.AsQueue() == old(runQ.AsQueue())
      ensures th != null ==>
                && i < |old(runQ.AsQueue().items)| && Known(th) && th.state == Active
                && th.id == old(runQ.AsQueue().items)[i] && runQ.AsQueue() == Remove(cfg, old(runQ.AsQueue()), i)
    {
      hide ThreadQueue.Valid;
      assert Listing(RunKey);
      ghost var ths := runQ.Contents();
      th, i := runQ.DequeueFirstActive(cfg.movesTail);
      if th == null {
        i := |ths|;
      }
      forall k' | HasKey(k') && k' != RunKey
        ensures unchanged(QueueAt(k')) && unchanged(QueueAt(k').Repr)
      {
        assert QueueAt(k') != runQ && old(QueueAt(k').Repr !! runQ.Repr);
      }
      ListChanged(RunKey);
      FoundAt(ths, i);
    }

    /** The index at which the walk over the list has stopped. */
    lemma FoundAt(ths: seq<UserThread>, i: nat)
      requires i <= |ths| && forall th :: th in ths ==> Known(th)
      requires forall j :: 0 <= j < i ==> ths[j].state != Active
      requires i < |ths| ==> ths[i].state == Active
      ensures FirstActive(Threads(), Ids(ths)) == i
    {
      assert forall j :: 0 <= j < |ths| ==> Known(ths[j]) && Ids(ths)[j] == ths[j].id;
      FoundIsFirstActive(Threads(), Ids(ths), i);
    }

    /** mypthread_dequeue_first_active: the thread to dispatch, if there is one. */
    method DequeueFirstActive() returns (th: UserThread?)
      requires Valid()
      modifies runQ, runQ.Repr
      ensures Valid()
      ensures forall self ::
                var o := SchedSection(cfg, old(View()), self);
                View() == o.d && o.kt == Kthread(self, if th == null then Wait(Sched) else Wait(Disp(th.id)))
      ensures th != null ==> Known(th) && th.state == Active
    {
      hide ThreadQueue.Valid, Valid, Listing, Apart, Remove, FirstActive;
      ghost var i;
      th, i := TakeActive();
      OtherMutexes(RunKey);
      OtherConds(RunKey);
      assert Threads() == old(Threads());
    }
  }
}
