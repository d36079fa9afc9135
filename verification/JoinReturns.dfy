/**
 When mypthread_join returns. POSIX suspends the caller until the target has terminated; the code looks for the
 target in the run queue and on the kernel threads, and a thread on its way from one to the other is on neither.
*/
module JoinReturns {
  import opened Machine
  import opened Semaphores
  import opened Placement
  import opened Whereabouts
  import opened Joining
  import opened Reacquire
  import opened SoloRuns

  /** Kernel thread k is at the test of join. */
  predicate AtTest(s: State, k: Kid, id: Tid, found: bool) {
    k in s.kthreads && s.kthreads[k].pc == In(JoinTest(id, found))
  }

  /** The join returns at its test. */
  predicate ReturnsAtOnce(cfg: Config, s: State, k: Kid)
    requires Enabled(s, Go(k))
  {
    Next(cfg, s, Go(k)).kthreads[k].pc == User
  }

  /** A kernel thread has taken thread id out of the run queue and does not name it yet. */
  ghost predicate OnItsWay(s: State, id: Tid) {
    exists k :: k in s.kthreads && (s.kthreads[k].pc == Wait(Disp(id)) || s.kthreads[k].pc == In(Disp(id)))
  }

  lemma TestIsEnabled(s: State, w: Spots, k: Kid, id: Tid, found: bool)
    requires Inv(s, w) && AtTest(s, k, id, found)
    ensures Enabled(s, Go(k))
  {
    assert Housed(s.d, w, k, s.kthreads[k]);
    hide DataInv;
  }

  /** Whoever is in a hand is named by that kernel thread, or on its way to it. */
  lemma InHandIs(s: State, k: Kid, id: Tid)
    requires InHand(s, k, id) && id != 0
    ensures IsRunning(s.kthreads, id) || OnItsWay(s, id)
  {
    if s.kthreads[k].th != id {
      assert s.kthreads[k].pc == Wait(Disp(id)) || s.kthreads[k].pc == In(Disp(id));
    }
  }

  /** What the test asks: whether a target that was queued at the lookup lives, whether any other is named. */
  lemma TestAsks(cfg: Config, s: State, w: Spots, k: Kid, id: Tid, found: bool)
    requires Inv(s, w) && AtTest(s, k, id, found)
    ensures Enabled(s, Go(k))
    ensures ReturnsAtOnce(cfg, s, k) <==> !(if found then Live(s, id) else IsRunning(s.kthreads, id))
  {
    hide Inv, IsRunning;
    TestIsEnabled(s, w, k, id, found);
  }

  lemma PlacesHold(s: State, w: Spots)
    requires Inv(s, w)
    ensures OnePlaceEach(s) && 0 !in s.d.threads
  {
    PlacesOf(s, w);
    hide DataInv, OnePlaceEach, Housed;
    ZeroIsNoThread(s.d, w);
  }

  lemma ZeroIsNoThread(d: Data, w: Spots)
    requires DataInv(d, w)
    ensures 0 !in d.threads
  {
  }

  /** A thread lives when it is queued, lost, named by a kernel thread that has it in hand, or on its way to one. */
  lemma WhereTheLivingAre(s: State, w: Spots, id: Tid)
    requires Inv(s, w) && !IsRunning(s.kthreads, id)
    ensures Live(s, id) <==> id in s.d.runQ.items || id in s.d.lost || OnItsWay(s, id)
  {
    hide Inv;
    PlacesHold(s, w);
    if Live(s, id) && InSomeHand(s, id) {
      var k :| InHand(s, k, id);
      InHandIs(s, k, id);
    }
    if OnItsWay(s, id) {
      var k :| k in s.kthreads && (s.kthreads[k].pc == Wait(Disp(id)) || s.kthreads[k].pc == In(Disp(id)));
      assert InHand(s, k, id);
    }
  }

  /** The target was not queued at the lookup, is not named at the test, and is queued, lost or on its way meanwhile. */
  ghost predicate Slips(s: State, id: Tid, found: bool) {
    && !found && (forall k :: k in s.kthreads ==> s.kthreads[k].th != id)
    && (id in s.d.runQ.items || id in s.d.lost || OnItsWay(s, id))
  }

  /** A join returns although its target lives exactly when the target slips through between lookup and test. */
  lemma ReturnsTooEarlyExactly(cfg: Config, s: State, w: Spots, k: Kid, id: Tid, found: bool)
    requires Inv(s, w) && AtTest(s, k, id, found)
    ensures Enabled(s, Go(k))
    ensures ReturnsAtOnce(cfg, s, k) && Live(s, id) <==> Slips(s, id, found)
  {
    hide Inv, ReturnsAtOnce, OnItsWay, Enabled;
    TestAsks(cfg, s, w, k, id, found);
    PlacesHold(s, w);
    assert IsRunning(s.kthreads, id) <==> id != 0 && exists j :: j in s.kthreads && s.kthreads[j].th == id;
    hide IsRunning, OnePlaceEach;
    if !IsRunning(s.kthreads, id) {
      WhereTheLivingAre(s, w, id);
    }
  }

  // -------------------------------------------------------------------- a joiner that waited

  predicate IsDead(d: Data, id: Tid) { id in d.threads && d.threads[id].state == Dead }

  lemma ExitKills(cfg: Config, s: State, w: Spots, e: Event, id: Tid)
    requires Inv(s, w) && Enabled(s, e) && IsExitOf(s, e, id)
    ensures IsDead(Next(cfg, s, e).d, id)
  {
    TheDeadDoNotExit(s, w, e.k);
    HandOf(s, w, e.k);
    hide Inv, Section;
    SectionOnDead(cfg, s.d, w, s.kthreads, e.k, id, Exit, id);
  }

  lemma WaitStep(cfg: Config, s: State, w: Spots, e: Event, t: Tid, id: Tid)
    requires Inv(s, w) && Enabled(s, e) && AwaitsExit(s.d, t) && s.d.threads[t].dep == id
    ensures var d' := Next(cfg, s, e).d; (AwaitsExit(d', t) && d'.threads[t].dep == id) || IsDead(d', id)
  {
    hide Inv, Next, Enabled;
    WokenExactlyAtExit(cfg, s, w, e, t);
    if IsExitOf(s, e, id) {
      ExitKills(cfg, s, w, e, id);
    }
  }

  /** In the first state of the run in which t is in user code, thread id is not alive. */
  ghost predicate ReturnFindsNobody(cfg: Config, s: State, es: seq<Event>, t: Tid, id: Tid)
    requires Runs(cfg, s, es)
    decreases |es|
  {
    if InUser(s, t) then !Live(s, id)
    else es == [] || ReturnFindsNobody(cfg, Next(cfg, s, es[0]), es[1..], t, id)
  }

  lemma WaitersAreNotInUser(s: State, w: Spots, t: Tid)
    requires Inv(s, w) && AwaitsExit(s.d, t)
    ensures !InUser(s, t)
  {
    hide Inv;
    if InUser(s, t) {
      var k :| k in s.kthreads && s.kthreads[k] == Kthread(t, User);
      WaitingIsElsewhere(s, w, k, t);
    }
  }

  /** A thread that waits in a join is next seen in user code when the thread it joined is dead, in every run. */
  lemma {:induction false} ComesBackAfterExit(cfg: Config, s: State, w: Spots, es: seq<Event>, t: Tid, id: Tid)
    requires Inv(s, w) && Runs(cfg, s, es) && CleanRun(cfg, s, es)
    requires (AwaitsExit(s.d, t) && s.d.threads[t].dep == id) || IsDead(s.d, id)
    ensures ReturnFindsNobody(cfg, s, es, t, id)
    decreases |es|
  {
    hide Inv, InUser;
    if !IsDead(s.d, id) {
      WaitersAreNotInUser(s, w, t);
    }
    if es != [] && !InUser(s, t) {
      var w1 := InvStep(cfg, s, w, es[0]);
      if IsDead(s.d, id) {
        DeadStep(cfg, s, w, es[0], id);
      } else {
        WaitStep(cfg, s, w, es[0], t, id);
      }
      hide Next, Enabled, CleanAt;
      ComesBackAfterExit(cfg, Next(cfg, s, es[0]), w1, es[1..], t, id);
    }
  }

  lemma WaitsBehindTest(cfg: Config, s: State, w: Spots, k: Kid, id: Tid, found: bool)
    requires Inv(s, w) && AtTest(s, k, id, found) && Enabled(s, Go(k))
    ensures var s', t := Next(cfg, s, Go(k)), s.kthreads[k].th;
            if ReturnsAtOnce(cfg, s, k) then s'.d == s.d else AwaitsExit(s'.d, t) && s'.d.threads[t].dep == id
  {
    hide Inv, IsRunning;
  }

  /**
   Under any policy: once the test has been made, every run brings the caller back to user code only when the
   target is not alive, exactly if the target was not just between the run queue and a kernel thread.
  */
  lemma SuspendsExactly(cfg: Config, s: State, w: Spots, k: Kid, id: Tid, found: bool)
    requires Inv(s, w) && AtTest(s, k, id, found)
    ensures Enabled(s, Go(k))
    ensures var s', t := Next(cfg, s, Go(k)), s.kthreads[k].th;
            (forall es :: Runs(cfg, s', es) && CleanRun(cfg, s', es) ==> ReturnFindsNobody(cfg, s', es, t, id))
              <==> !Slips(s, id, found)
  {
    hide Inv, Slips, ReturnsAtOnce;
    ReturnsTooEarlyExactly(cfg, s, w, k, id, found);
    WaitsBehindTest(cfg, s, w, k, id, found);
    var s', t := Next(cfg, s, Go(k)), s.kthreads[k].th;
    var w' := InvStep(cfg, s, w, Go(k));
    if ReturnsAtOnce(cfg, s, k) {
      BackInUser(cfg, s, k, id, found);
      assert Live(s', id) <==> Live(s, id);
      AlreadyBack(cfg, s', t, id);
    } else {
      hide Next;
      forall es | Runs(cfg, s', es) && CleanRun(cfg, s', es)
        ensures ReturnFindsNobody(cfg, s', es, t, id)
      {
        ComesBackAfterExit(cfg, s', w', es, t, id);
      }
    }
  }

  lemma AlreadyBack(cfg: Config, s: State, t: Tid, id: Tid)
    requires InUser(s, t)
    ensures (forall es :: Runs(cfg, s, es) && CleanRun(cfg, s, es) ==> ReturnFindsNobody(cfg, s, es, t, id))
              <==> !Live(s, id)
  {
    hide Live, InUser;
    assert Runs(cfg, s, []) && CleanRun(cfg, s, []);
    assert ReturnFindsNobody(cfg, s, [], t, id) <==> !Live(s, id);
  }

  lemma BackInUser(cfg: Config, s: State, k: Kid, id: Tid, found: bool)
    requires AtTest(s, k, id, found) && Enabled(s, Go(k)) && ReturnsAtOnce(cfg, s, k)
    ensures InUser(Next(cfg, s, Go(k)), s.kthreads[k].th)
  {
    hide IsRunning;
    assert Next(cfg, s, Go(k)).kthreads[k] == Kthread(s.kthreads[k].th, User);
  }

  // -------------------------------------------------------------------- from the call on

  /** Kernel thread k is inside join, up to its test. */
  predicate OnJoin(s: State, k: Kid, id: Tid) {
    k in s.kthreads && match s.kthreads[k].pc
      case Wait(Join(i)) => i == id
      case In(Join(i)) => i == id
      case Wait(JoinSelf(i)) => i == id
      case In(JoinSelf(i)) => i == id
      case In(JoinTest(i, _)) => i == id
      case _ => false
  }

  /** The event is the test of the join that kernel thread k is in. */
  predicate IsTest(s: State, e: Event, k: Kid) {
    e == Go(k) && k in s.kthreads && s.kthreads[k].pc.In? && s.kthreads[k].pc.sec.JoinTest?
  }

  /** The run comes to the test of that join, and there the target slips through. */
  ghost predicate SlipsDuring(cfg: Config, s: State, es: seq<Event>, k: Kid, id: Tid)
    requires Runs(cfg, s, es)
    decreases |es|
  {
    es != [] && if IsTest(s, es[0], k) then Slips(s, id, s.kthreads[k].pc.sec.found)
                else SlipsDuring(cfg, Next(cfg, s, es[0]), es[1..], k, id)
  }

  lemma StaysOnJoin(cfg: Config, s: State, e: Event, k: Kid, id: Tid)
    requires SemsHeld(s) && Enabled(s, e) && OnJoin(s, k, id) && !IsTest(s, e, k)
    ensures OnJoin(Next(cfg, s, e), k, id) && Next(cfg, s, e).kthreads[k].th == s.kthreads[k].th
  {
    assert s.kcount + 1 !in s.kthreads;
    if e.k == k {
      hide SemsHeld;
    } else {
      hide SemsHeld, Section;
    }
  }

  lemma CallerIsInside(s: State, w: Spots, k: Kid, id: Tid)
    requires Inv(s, w) && OnJoin(s, k, id)
    ensures SemsHeld(s) && !InUser(s, s.kthreads[k].th)
  {
    assert Housed(s.d, w, k, s.kthreads[k]);
    hide DataInv, SemsHeld;
  }

  lemma FromItsTest(cfg: Config, s: State, w: Spots, es: seq<Event>, k: Kid, id: Tid, found: bool)
    requires Inv(s, w) && AtTest(s, k, id, found) && Runs(cfg, s, es) && CleanRun(cfg, s, es)
    requires es != [] && es[0] == Go(k)
    ensures ReturnFindsNobody(cfg, Next(cfg, s, Go(k)), es[1..], s.kthreads[k].th, id) <==> !Slips(s, id, found)
  {
    hide Inv, Slips, ReturnsAtOnce;
    ReturnsTooEarlyExactly(cfg, s, w, k, id, found);
    WaitsBehindTest(cfg, s, w, k, id, found);
    var s', t := Next(cfg, s, Go(k)), s.kthreads[k].th;
    if ReturnsAtOnce(cfg, s, k) {
      BackInUser(cfg, s, k, id, found);
      assert Live(s', id) <==> Live(s, id);
    } else {
      var w' := InvStep(cfg, s, w, Go(k));
      hide Next;
      ComesBackAfterExit(cfg, s', w', es[1..], t, id);
    }
  }

  /**
   Under any policy, in every run from inside a join on: the caller is next in user code when the target is not alive,
   unless the run comes to the test of this join while the target is just between the run queue and a kernel thread.
  */
  lemma {:induction false} JoinExactly(cfg: Config, s: State, w: Spots, es: seq<Event>, k: Kid, id: Tid)
    requires Inv(s, w) && OnJoin(s, k, id) && Runs(cfg, s, es) && CleanRun(cfg, s, es)
    ensures ReturnFindsNobody(cfg, s, es, s.kthreads[k].th, id) <==> !SlipsDuring(cfg, s, es, k, id)
    decreases |es|
  {
    hide Inv, InUser, Slips;
    CallerIsInside(s, w, k, id);
    if es != [] {
      if IsTest(s, es[0], k) {
        FromItsTest(cfg, s, w, es, k, id, s.kthreads[k].pc.sec.found);
      } else {
        StaysOnJoin(cfg, s, es[0], k, id);
        var w1 := InvStep(cfg, s, w, es[0]);
        hide Next, Enabled, CleanAt, OnJoin, IsTest, SemsHeld;
        JoinExactly(cfg, Next(cfg, s, es[0]), w1, es[1..], k, id);
      }
    }
  }

  lemma CallsJoin(cfg: Config, s: State, k: Kid, id: Tid)
    requires Enabled(s, Call(k, Join(id)))
    ensures OnJoin(Next(cfg, s, Call(k, Join(id))), k, id)
    ensures Next(cfg, s, Call(k, Join(id))).kthreads[k].th == s.kthreads[k].th
  {
  }

  // -------------------------------------------------------------------- one kernel thread

  /** Nothing comes between the lookup and the test of the only kernel thread. */
  ghost predicate LookupHolds(s: State) {
    1 in s.kthreads && forall id, found :: AtTest(s, 1, id, found) ==> (found <==> id in s.d.runQ.items)
  }

  lemma LookupStep(cfg: Config, s: State, e: Event)
    requires cfg.policy.UlOnly? && Alone(s) && LookupHolds(s) && Enabled(s, e)
    ensures LookupHolds(Next(cfg, s, e))
  {
    hide Enqueue, FirstActive, Remove, IsRunning, WakeCond, Release, WakeJoiners, PostAll, Grab;
  }

  lemma {:induction false} LookupRun(cfg: Config, s: State, es: seq<Event>)
    requires cfg.policy.UlOnly? && Alone(s) && LookupHolds(s) && Runs(cfg, s, es)
    ensures Alone(After(cfg, s, es)) && LookupHolds(After(cfg, s, es))
    decreases |es|
  {
    if es != [] {
      AloneStep(cfg, s, es[0]);
      LookupStep(cfg, s, es[0]);
      hide Alone, LookupHolds, Next, Enabled;
      LookupRun(cfg, Next(cfg, s, es[0]), es[1..]);
    }
  }

  /** With one kernel thread a live thread that is neither queued nor lost is the one that runs. */
  lemma OnlyOneIsInHand(s: State, w: Spots, id: Tid, found: bool)
    requires Inv(s, w) && Alone(s) && AtTest(s, 1, id, found) && Live(s, id)
    requires id !in s.d.runQ.items && s.d.lost == {}
    ensures IsRunning(s.kthreads, id)
  {
    hide Inv;
    PlacesHold(s, w);
    var k :| InHand(s, k, id);
    assert k == 1 && s.kthreads[1].th == id;
  }

  /** Under ULONLY, with the tail repaired, a join returns at once exactly when its target is not alive. */
  lemma ReturnsAtOnceExactly(cfg: Config, ms: set<Mid>, cs: set<Cid>, es: seq<Event>, id: Tid, found: bool)
    requires cfg.policy.UlOnly? && cfg.movesTail
    requires Runs(cfg, Init(ms, cs), es) && CleanRun(cfg, Init(ms, cs), es)
    requires AtTest(After(cfg, Init(ms, cs), es), 1, id, found)
    ensures var s := After(cfg, Init(ms, cs), es);
            Enabled(s, Go(1)) && (ReturnsAtOnce(cfg, s, 1) <==> !Live(s, id))
  {
    var s0, s := Init(ms, cs), After(cfg, Init(ms, cs), es);
    AloneInit(ms, cs);
    hide Inv;
    var w := InvRun(cfg, s0, START, es);
    LookupRun(cfg, s0, es);
    NoneLost(cfg, s0, es);
    TestAsks(cfg, s, w, 1, id, found);
    hide Alone, ReturnsAtOnce, Runs, After, CleanRun;
    if Live(s, id) && !found {
      OnlyOneIsInHand(s, w, id, found);
    }
    if !found && IsRunning(s.kthreads, id) {
      RunningIsLive(s, w, id, found);
    }
  }

  /** At a test of the only kernel thread, the thread it names is its caller, which lives. */
  lemma RunningIsLive(s: State, w: Spots, id: Tid, found: bool)
    requires Inv(s, w) && Alone(s) && AtTest(s, 1, id, found) && IsRunning(s.kthreads, id)
    ensures Live(s, id)
  {
    hide Inv;
    PlacesHold(s, w);
    assert InHand(s, 1, id);
  }

  lemma AtItsTest(cfg: Config, s: State, e: Event, id: Tid)
    requires Alone(s) && OnJoin(s, 1, id) && Enabled(s, e)
    ensures IsTest(s, e, 1) ==> AtTest(s, 1, id, s.kthreads[1].pc.sec.found)
    ensures e.k == 1
  {
  }

  lemma {:induction false} NeverSlips(cfg: Config, ms: set<Mid>, cs: set<Cid>, es: seq<Event>, id: Tid,
      more: seq<Event>)
    requires cfg.policy.UlOnly? && cfg.movesTail
    requires Runs(cfg, Init(ms, cs), es) && CleanRun(cfg, Init(ms, cs), es)
    requires var s := After(cfg, Init(ms, cs), es); OnJoin(s, 1, id) && Runs(cfg, s, more) && CleanRun(cfg, s, more)
    ensures !SlipsDuring(cfg, After(cfg, Init(ms, cs), es), more, 1, id)
    decreases |more|
  {
    var s0, s := Init(ms, cs), After(cfg, Init(ms, cs), es);
    if more != [] {
      AloneInit(ms, cs);
      assert LookupHolds(s0);
      hide Init, OnJoin, IsTest, LookupHolds, Alone, Slips;
      LookupRun(cfg, s0, es);
      AtItsTest(cfg, s, more[0], id);
      var w := InvRunFromInit(cfg, ms, cs, es);
      if IsTest(s, more[0], 1) {
        var found := s.kthreads[1].pc.sec.found;
        ReturnsAtOnceExactly(cfg, ms, cs, es, id, found);
        ReturnsTooEarlyExactly(cfg, s, w, 1, id, found);
      } else {
        InvHasSems(s, w);
        StaysOnJoin(cfg, s, more[0], 1, id);
        RunsThenOne(cfg, s0, es, more[0]);
        NeverSlips(cfg, ms, cs, es + [more[0]], id, more[1..]);
      }
    }
  }

  lemma InvRunFromInit(cfg: Config, ms: set<Mid>, cs: set<Cid>, es: seq<Event>) returns (w: Spots)
    requires Runs(cfg, Init(ms, cs), es) && CleanRun(cfg, Init(ms, cs), es)
    ensures Inv(After(cfg, Init(ms, cs), es), w)
  {
    InitInv(ms, cs);
    hide Inv, Init;
    w := InvRun(cfg, Init(ms, cs), START, es);
  }

  lemma InvHasSems(s: State, w: Spots)
    requires Inv(s, w)
    ensures SemsHeld(s)
  {
  }

  /**
   Under ULONLY, with the tail repaired, a join suspends its caller until the target has terminated: in every
   run from inside the join on, the caller is next in user code when the target is not alive.
  */
  lemma JoinSuspends(cfg: Config, ms: set<Mid>, cs: set<Cid>, es: seq<Event>, id: Tid, more: seq<Event>)
    requires cfg.policy.UlOnly? && cfg.movesTail
    requires Runs(cfg, Init(ms, cs), es) && CleanRun(cfg, Init(ms, cs), es)
    requires var s := After(cfg, Init(ms, cs), es); OnJoin(s, 1, id) && Runs(cfg, s, more) && CleanRun(cfg, s, more)
    ensures var s := After(cfg, Init(ms, cs), es); ReturnFindsNobody(cfg, s, more, s.kthreads[1].th, id)
  {
    var s := After(cfg, Init(ms, cs), es);
    hide Inv, Init, OnJoin;
    var w := InvRunFromInit(cfg, ms, cs, es);
    NeverSlips(cfg, ms, cs, es, id, more);
    JoinExactly(cfg, s, w, more, 1, id);
  }
}
