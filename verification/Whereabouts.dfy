/** The placement theorems, stated on the queues and lists of the library alone. */
module Whereabouts {
  import opened Prelude
  import opened Machine
  import opened Placement

  ghost predicate InHand(s: State, k: Kid, t: Tid) {
    k in s.kthreads && Owner(s.kthreads[k]) == Some(t)
  }

  ghost predicate InSomeHand(s: State, t: Tid) { exists k :: InHand(s, k, t) }

  ghost predicate Live(s: State, t: Tid) { t in s.d.threads && s.d.threads[t].state != Dead }

  /** Each live thread is at exactly one place, once; a dead thread is nowhere. */
  ghost predicate OnePlaceEach(s: State) {
    && Distinct(s.d.runQ.items)
    && (forall k, k', t :: InHand(s, k, t) && InHand(s, k', t) ==> k == k')
    && (forall t :: Live(s, t) ==> t in s.d.runQ.items || t in s.d.lost || InSomeHand(s, t))
    && (forall t :: t in s.d.runQ.items ==> Live(s, t) && t !in s.d.lost && !InSomeHand(s, t))
    && (forall t :: t in s.d.lost ==> Live(s, t) && !InSomeHand(s, t))
    && (forall t :: InSomeHand(s, t) ==> Live(s, t))
  }

  ghost predicate OnMutexList(s: State, m: Mid, t: Tid) { m in s.d.mutexes && t in s.d.mutexes[m].blocked }

  ghost predicate OnCondList(s: State, c: Cid, t: Tid) { c in s.d.conds && t in s.d.conds[c] }

  /** A thread is BLOCKED iff it is on a wait list, and then it is on one list, once. */
  ghost predicate OneListEach(s: State) {
    && (forall m :: m in s.d.mutexes ==> Distinct(s.d.mutexes[m].blocked))
    && (forall c :: c in s.d.conds ==> Distinct(s.d.conds[c]))
    && (forall t :: t in s.d.threads ==>
          (s.d.threads[t].state == Blocked <==>
              (exists m :: OnMutexList(s, m, t)) || (exists c :: OnCondList(s, c, t))))
    && (forall m, m', t :: OnMutexList(s, m, t) && OnMutexList(s, m', t) ==> m == m')
    && (forall c, c', t :: OnCondList(s, c, t) && OnCondList(s, c', t) ==> c == c')
    && (forall m, c, t :: OnMutexList(s, m, t) ==> !OnCondList(s, c, t))
  }

  lemma StatesOf(d: Data, w: Spots)
    requires DataInv(d, w)
    ensures Distinct(d.runQ.items)
    ensures forall t :: t in d.runQ.items <==> t in w && w[t].place == Queued
    ensures forall t :: t in d.lost <==> t in w && w[t].place == Lost
    ensures forall t :: t in d.threads <==> t in w
    ensures forall t :: t in w ==> (d.threads[t].state == Dead <==> w[t].place == Gone)
  {
    assert forall t :: t in w ==> Consistent(d.threads[t].state, w[t]);
    hide Listed, Joined;
  }

  lemma HandsOf(s: State, w: Spots)
    requires Placed(s, w)
    ensures DataInv(s.d, w)
    ensures forall k, t :: InHand(s, k, t) ==> t in w && w[t].place == On(k)
    ensures forall t :: t in w && w[t].place.On? ==> InSomeHand(s, t)
  {
    hide DataInv;
    forall k, t | InHand(s, k, t)
      ensures t in w && w[t].place == On(k)
    {
      assert Housed(s.d, w, k, s.kthreads[k]);
    }
    forall t | t in w && w[t].place.On?
      ensures InSomeHand(s, t)
    {
      assert InHand(s, w[t].place.k, t);
    }
  }

  lemma PlacesOf(s: State, w: Spots)
    requires Placed(s, w)
    ensures OnePlaceEach(s)
  {
    hide PlacedIn, InHand, DataInv;
    HandsOf(s, w);
    StatesOf(s.d, w);
  }

  /** What the lists and the states of the threads say about the witness. */
  ghost predicate ListsAgree(s: State, w: Spots) {
    && Listed(s.d.mutexes, s.d.conds, w)
    && (forall t :: t in s.d.threads ==> t in w && (s.d.threads[t].state == Blocked <==> w[t].list != NoList))
  }

  lemma PlacedAgree(s: State, w: Spots)
    requires Placed(s, w)
    ensures ListsAgree(s, w)
  {
    hide Listed, Filed, Joined, Housed;
  }

  lemma ListNamed(s: State, w: Spots, t: Tid)
    requires Listed(s.d.mutexes, s.d.conds, w) && t in w
    ensures w[t].list != NoList <==> (exists m :: OnMutexList(s, m, t)) || (exists c :: OnCondList(s, c, t))
  {
    assert Linked(s.d.mutexes, s.d.conds, t, w[t].list);
    if w[t].list.OnMutex? { assert OnMutexList(s, w[t].list.m, t); }
    if w[t].list.OnCond? { assert OnCondList(s, w[t].list.c, t); }
  }

  lemma AtMostOneList(s: State, w: Spots)
    requires Listed(s.d.mutexes, s.d.conds, w)
    ensures forall m, t :: OnMutexList(s, m, t) ==> t in w && w[t].list == OnMutex(m)
    ensures forall c, t :: OnCondList(s, c, t) ==> t in w && w[t].list == OnCond(c)
    ensures forall m :: m in s.d.mutexes ==> Distinct(s.d.mutexes[m].blocked)
    ensures forall c :: c in s.d.conds ==> Distinct(s.d.conds[c])
  {
    hide Distinct, Linked;
  }

  lemma ListsOf(s: State, w: Spots)
    requires Placed(s, w)
    ensures OneListEach(s)
  {
    hide Placed, Listed, Distinct, OnMutexList, OnCondList;
    PlacedAgree(s, w);
    AtMostOneList(s, w);
    forall t | t in s.d.threads
      ensures w[t].list != NoList <==> (exists m :: OnMutexList(s, m, t)) || (exists c :: OnCondList(s, c, t))
    {
      ListNamed(s, w, t);
    }
  }

  /**
   The placement theorem: in every run, of any length, on any number of kernel threads, with any
   number of mutexes and condition variables, shipped or repaired.
  */
  lemma EveryThreadHasOnePlace(cfg: Config, ms: set<Mid>, cs: set<Cid>, es: seq<Event>)
    requires Runs(cfg, Init(ms, cs), es) && CleanRun(cfg, Init(ms, cs), es)
    ensures OnePlaceEach(After(cfg, Init(ms, cs), es))
    ensures OneListEach(After(cfg, Init(ms, cs), es))
  {
    InitInv(ms, cs);
    var w := InvRun(cfg, Init(ms, cs), START, es);
    PlacesOf(After(cfg, Init(ms, cs), es), w);
    ListsOf(After(cfg, Init(ms, cs), es), w);
  }

  // -------------------------------------------------------------------- the lost threads

  ghost predicate TailKept(d: Data) { d.runQ.attached && d.lost == {} }

  lemma TailSection(cfg: Config, d: Data, kthreads: map<Kid, Kthread>, self: Tid, sec: Sec)
    requires cfg.movesTail && TailKept(d) && Ready(d, self, sec)
    ensures TailKept(Section(cfg, d, kthreads, self, sec).d)
  {
    hide FirstActive, IsRunning, WakeAll, WakeJoiners;
  }

  /** With the tail repaired no thread is ever lost: the run queue is the only other place. */
  lemma {:induction false} NoneLost(cfg: Config, s: State, es: seq<Event>)
    requires cfg.movesTail && TailKept(s.d) && Runs(cfg, s, es)
    ensures After(cfg, s, es).d.lost == {}
    decreases |es|
  {
    if es != [] {
      var e := es[0];
      var kt := s.kthreads[e.k];
      if e.Go? && kt.pc.In? {
        TailSection(cfg, s.d, s.kthreads, kt.th, kt.pc.sec);
      }
      hide Section;
      NoneLost(cfg, Next(cfg, s, e), es[1..]);
    }
  }

  /** The sections that call mypthread_enqueue. */
  predicate Enqueues(sec: Sec) {
    sec.Create? || sec.Yield? || sec.JoinEnq? || sec.LockEnq? || sec.CwEnq?
  }

  predicate InSection(s: State, e: Event) {
    e.Go? && e.k in s.kthreads && s.kthreads[e.k].pc.In?
  }

  /** An enqueue that finds a list which has lost its tail. */
  predicate IsDetachedEnqueue(s: State, e: Event) {
    InSection(s, e) && Enqueues(s.kthreads[e.k].pc.sec) && s.d.runQ.items != [] && !s.d.runQ.attached
  }

  predicate HasDetachedEnqueue(cfg: Config, s: State, es: seq<Event>)
    requires Runs(cfg, s, es)
    decreases |es|
  {
    es != [] && (IsDetachedEnqueue(s, es[0]) || HasDetachedEnqueue(cfg, Next(cfg, s, es[0]), es[1..]))
  }

  lemma LostSection(cfg: Config, d: Data, kthreads: map<Kid, Kthread>, self: Tid, sec: Sec)
    requires Ready(d, self, sec)
    ensures Section(cfg, d, kthreads, self, sec).d.lost != {} <==>
            d.lost != {} || (Enqueues(sec) && d.runQ.items != [] && !d.runQ.attached)
  {
    hide FirstActive, Remove, IsRunning, WakeAll, WakeJoiners, Append;
  }

  lemma LostStep(cfg: Config, s: State, e: Event)
    requires Enabled(s, e)
    ensures Next(cfg, s, e).d.lost != {} <==> s.d.lost != {} || IsDetachedEnqueue(s, e)
  {
    var kt := s.kthreads[e.k];
    if e.Go? && kt.pc.In? {
      LostSection(cfg, s.d, s.kthreads, kt.th, kt.pc.sec);
    }
    hide Section, PostAll, Enqueues;
  }

  /** A run loses a thread exactly when it enqueues one on a list that has lost its tail. */
  lemma {:induction false} LostExactly(cfg: Config, s: State, es: seq<Event>)
    requires Runs(cfg, s, es)
    ensures After(cfg, s, es).d.lost != {} <==> s.d.lost != {} || HasDetachedEnqueue(cfg, s, es)
    decreases |es|
  {
    if es != [] {
      LostStep(cfg, s, es[0]);
      hide Next, IsDetachedEnqueue, Enabled;
      LostExactly(cfg, Next(cfg, s, es[0]), es[1..]);
    }
  }

  /** The dispatch takes the last of two or more entries out of the run queue. */
  predicate TakesLast(s: State, e: Event) {
    && InSection(s, e) && s.kthreads[e.k].pc.sec.Sched? && |s.d.runQ.items| >= 2
    && FirstActive(s.d.threads, s.d.runQ.items) == |s.d.runQ.items| - 1
  }

  /** The run queue is not empty in any state of the run. */
  predicate NeverEmpty(cfg: Config, s: State, es: seq<Event>)
    requires Runs(cfg, s, es)
    decreases |es|
  {
    s.d.runQ.items != [] && (es == [] || NeverEmpty(cfg, Next(cfg, s, es[0]), es[1..]))
  }

  /** At some point the last of two or more entries is taken out, and from there on the queue is never empty. */
  predicate LosesTail(cfg: Config, s: State, es: seq<Event>)
    requires Runs(cfg, s, es)
    decreases |es|
  {
    es != [] && var s' := Next(cfg, s, es[0]);
    (TakesLast(s, es[0]) && NeverEmpty(cfg, s', es[1..])) || LosesTail(cfg, s', es[1..])
  }

  lemma TailChange(cfg: Config, d: Data, kthreads: map<Kid, Kthread>, self: Tid, sec: Sec)
    requires Ready(d, self, sec) && (d.runQ.items == [] ==> d.runQ.attached)
    ensures var q := Section(cfg, d, kthreads, self, sec).d.runQ;
            var i := FirstActive(d.threads, d.runQ.items);
            && (q.items == [] ==> q.attached)
            && (q.items != [] ==>
                  (q.attached <==> d.runQ.attached && !(sec.Sched? && !cfg.movesTail && i == |d.runQ.items| - 1)))
  {
    hide FirstActive, IsRunning, WakeAll, WakeJoiners;
  }

  lemma TailStep(cfg: Config, s: State, e: Event)
    requires Enabled(s, e) && (s.d.runQ.items == [] ==> s.d.runQ.attached)
    ensures var q := Next(cfg, s, e).d.runQ;
            && (q.items == [] ==> q.attached)
            && (q.items != [] ==> (q.attached <==> s.d.runQ.attached && (cfg.movesTail || !TakesLast(s, e))))
  {
    var kt := s.kthreads[e.k];
    if e.Go? && kt.pc.In? {
      TailChange(cfg, s.d, s.kthreads, kt.th, kt.pc.sec);
      if kt.pc.sec.Sched? && FirstActive(s.d.threads, s.d.runQ.items) < |s.d.runQ.items| {
        SchedShrinks(cfg, s.d, s.kthreads, kt.th, kt.pc.sec);
      }
    }
    hide Section, PostAll, FirstActive;
  }

  lemma SchedShrinks(cfg: Config, d: Data, kthreads: map<Kid, Kthread>, self: Tid, sec: Sec)
    requires Ready(d, self, sec) && sec.Sched? && FirstActive(d.threads, d.runQ.items) < |d.runQ.items|
    ensures |Section(cfg, d, kthreads, self, sec).d.runQ.items| == |d.runQ.items| - 1
  {
  }

  /**
   The tail of the run queue is off its list exactly when a dispatch took the last of two or more entries out
   and the queue has not been empty since.
  */
  lemma {:induction false} TailLostExactly(cfg: Config, s: State, es: seq<Event>)
    requires !cfg.movesTail && Runs(cfg, s, es) && (s.d.runQ.items == [] ==> s.d.runQ.attached)
    ensures !After(cfg, s, es).d.runQ.attached <==>
            (!s.d.runQ.attached && NeverEmpty(cfg, s, es)) || LosesTail(cfg, s, es)
    decreases |es|
  {
    if es != [] {
      TailStep(cfg, s, es[0]);
      hide Next, TakesLast, Enabled;
      TailLostExactly(cfg, Next(cfg, s, es[0]), es[1..]);
    }
  }

  lemma {:induction false} RunsPrefix(cfg: Config, s: State, es: seq<Event>, i: nat)
    requires Runs(cfg, s, es) && i <= |es|
    ensures Runs(cfg, s, es[..i])
    decreases i
  {
    if i > 0 {
      assert es[..i][0] == es[0] && es[..i][1..] == es[1..][..i - 1];
      RunsPrefix(cfg, Next(cfg, s, es[0]), es[1..], i - 1);
    }
  }

  /** Event i of the run is an enqueue on a list that has lost its tail. */
  ghost predicate DetachedAt(cfg: Config, s: State, es: seq<Event>, i: nat) {
    i < |es| && Runs(cfg, s, es[..i]) && IsDetachedEnqueue(After(cfg, s, es[..i]), es[i])
  }

  lemma DetachedLater(cfg: Config, s: State, es: seq<Event>, i: nat)
    requires Runs(cfg, s, es) && 0 < i < |es|
    ensures DetachedAt(cfg, s, es, i) <==> DetachedAt(cfg, Next(cfg, s, es[0]), es[1..], i - 1)
  {
    assert es[..i][0] == es[0] && es[..i][1..] == es[1..][..i - 1];
    RunsPrefix(cfg, s, es, i);
    hide IsDetachedEnqueue, Next, Enabled;
  }

  lemma {:induction false} DetachedSomewhere(cfg: Config, s: State, es: seq<Event>)
    requires Runs(cfg, s, es)
    ensures HasDetachedEnqueue(cfg, s, es) <==> exists i :: DetachedAt(cfg, s, es, i)
    decreases |es|
  {
    if es != [] {
      var s' := Next(cfg, s, es[0]);
      hide IsDetachedEnqueue, Next, Enabled;
      DetachedSomewhere(cfg, s', es[1..]);
      assert es[..0] == [];
      if IsDetachedEnqueue(s, es[0]) {
        assert DetachedAt(cfg, s, es, 0);
      } else if HasDetachedEnqueue(cfg, s', es[1..]) {
        var i: nat :| DetachedAt(cfg, s', es[1..], i);
        DetachedLater(cfg, s, es, i + 1);
      } else if i: nat :| DetachedAt(cfg, s, es, i) {
        if i > 0 {
          DetachedLater(cfg, s, es, i);
        }
      }
    }
  }

  /** Event i is an enqueue on a list whose last of two or more entries was taken out and that was never empty since. */
  ghost predicate EnqueuesLate(cfg: Config, s: State, es: seq<Event>, i: nat) {
    && i < |es| && Runs(cfg, s, es[..i]) && LosesTail(cfg, s, es[..i])
    && var s' := After(cfg, s, es[..i]); InSection(s', es[i]) && Enqueues(s'.kthreads[es[i].k].pc.sec)
  }

  /** The runs of the shipped library that lose a thread. */
  lemma ShippedLosesExactly(cfg: Config, ms: set<Mid>, cs: set<Cid>, es: seq<Event>)
    requires !cfg.movesTail && Runs(cfg, Init(ms, cs), es)
    ensures After(cfg, Init(ms, cs), es).d.lost != {} <==> exists i :: EnqueuesLate(cfg, Init(ms, cs), es, i)
  {
    var s := Init(ms, cs);
    LostExactly(cfg, s, es);
    DetachedSomewhere(cfg, s, es);
    forall i: nat | i < |es|
      ensures DetachedAt(cfg, s, es, i) <==> EnqueuesLate(cfg, s, es, i)
    {
      RunsPrefix(cfg, s, es, i);
      TailLostExactly(cfg, s, es[..i]);
      EmptyIsAttached(cfg, s, es[..i]);
    }
  }

  lemma {:induction false} EmptyIsAttached(cfg: Config, s: State, es: seq<Event>)
    requires Runs(cfg, s, es) && (s.d.runQ.items == [] ==> s.d.runQ.attached)
    ensures After(cfg, s, es).d.runQ.items == [] ==> After(cfg, s, es).d.runQ.attached
    decreases |es|
  {
    if es != [] {
      TailStep(cfg, s, es[0]);
      hide Next, TakesLast, Enabled;
      EmptyIsAttached(cfg, Next(cfg, s, es[0]), es[1..]);
    }
  }
}
