/** What an uninitialised dependent_th of a new thread does: mypthread_create takes it as it finds it. */
module StaleIds {
  import opened Prelude
  import opened Machine
  import opened Placement
  import opened Whereabouts
  import opened SoloRuns

  /**
   A plain state: the one kernel thread runs thread c in user code, the other threads are dead, the run queue
   is empty, mutex m has no blocked thread and condition variable v no waiter.
  */
  ghost predicate Plain(d: Data, c: Tid, m: Mid, v: Cid) {
    && c in d.threads && d.threads[c].state != Dead && d.runQ == RunQueue([], true) && d.count >= 1
    && (forall t :: t in d.threads <==> 1 <= t <= d.gen)
    && (forall t :: t in d.threads && t != c ==> d.threads[t].state == Dead)
    && m in d.mutexes && d.mutexes[m].blocked == [] && v in d.conds && d.conds[v] == []
  }

  /** Thread c runs; thread t, whose dependent_th is junk, is alone in the run queue and BLOCKED on v. */
  ghost predicate BlockedBeside(d: Data, c: Tid, t: Tid, v: Cid, junk: Tid) {
    && c != t && c in d.threads && d.threads[c].state != Dead && c <= d.gen
    && t in d.threads && t <= d.gen && d.threads[t].state == Blocked && d.threads[t].dep == junk
    && d.runQ == RunQueue([t], true) && d.count >= 2
    && v in d.conds && d.conds[v] == [t]
  }

  /** ACTIVE, and still on the list of a condition variable. */
  predicate AwakeOnList(d: Data, t: Tid, v: Cid) {
    t in d.threads && d.threads[t].state == Active && v in d.conds && t in d.conds[v]
  }

  lemma NotOneList(s: State, t: Tid, v: Cid)
    requires AwakeOnList(s.d, t, v)
    ensures !OneListEach(s)
  {
    assert OnCondList(s, v, t);
  }

  /** The new thread runs, waits on v, and its creator runs again. */
  lemma PutToSleep(cfg: Config, s0: State, d: Data, c: Tid, m: Mid, v: Cid, junk: Tid) returns (s': State)
    requires cfg.movesTail && Plain(d, c, m, v)
    requires Reaches(cfg, s0, One(CreateSection(cfg, d, c, junk).d, c, User))
    ensures Reaches(cfg, s0, s') && s' == One(s'.d, c, User)
    ensures BlockedBeside(s'.d, c, d.gen + 1, v, junk) && s'.d.gen == d.gen + 1
  {
    hide Reaches;
    var t := d.gen + 1;
    var d1 := CreateSection(cfg, d, c, junk).d;
    s' := One(d1, c, User);
    s' := Yielded(cfg, s0, s', d1, c);
    var d2 := s'.d;
    s' := Switched(cfg, s0, s', d2, c, 0);
    var d3 := s'.d;
    s' := Slept(cfg, s0, s', d3, t, v, m);
    var d4 := s'.d;
    s' := Switched(cfg, s0, s', d4, t, 0);
  }

  /** The exit of the thread that dependent_th names wakes t; the exit of another one does not. */
  lemma ExitWakes(d: Data, self: Tid, t: Tid, v: Cid, junk: Tid)
    requires self in d.threads && t in d.threads && t != self && t in d.runQ.items
    requires d.threads[t].state == Blocked && d.threads[t].dep == junk && v in d.conds && t in d.conds[v]
    ensures var d' := ExitSection(d, self).d;
            && t in d'.threads && (if self == junk then AwakeOnList(d', t, v) else d'.threads[t] == d.threads[t])
  {
  }

  /** c creates a thread and yields to it. */
  lemma RunAnother(cfg: Config, s0: State, d: Data, c: Tid, t: Tid, v: Cid, junk: Tid) returns (s': State)
    requires cfg.movesTail && cfg.policy.UlOnly?
    requires Reaches(cfg, s0, One(d, c, User)) && BlockedBeside(d, c, t, v, junk)
    ensures var u := d.gen + 1;
            && Reaches(cfg, s0, s') && s' == One(s'.d, u, User)
            && s'.d.threads ==
                 d.threads[u := Thread(Active, 0, ToUser)][c := d.threads[c].(state := Active, resume := ToUser)]
            && s'.d.runQ == RunQueue([t, c], true)
            && s'.d.gen == d.gen + 1 && s'.d.count == d.count + 1 && s'.d.conds == d.conds
  {
    hide Reaches;
    var u := d.gen + 1;
    s' := Created(cfg, s0, One(d, c, User), d, c);
    var d1 := s'.d;
    s' := Yielded(cfg, s0, s', d1, c);
    var d2 := s'.d;
    assert d2.runQ == RunQueue([t, u, c], true);
    assert [t, u, c][1..] == [u, c];
    s' := Switched(cfg, s0, s', d2, c, 1);
    assert Without([t, u, c], 1) == [t, c];
  }

  /** One round: the new thread exits; t is awake if that was the one, and else c runs again. */
  lemma Round(cfg: Config, s0: State, d: Data, c: Tid, t: Tid, v: Cid, junk: Tid) returns (s': State)
    requires cfg.movesTail && cfg.policy.UlOnly?
    requires Reaches(cfg, s0, One(d, c, User)) && BlockedBeside(d, c, t, v, junk)
    ensures Reaches(cfg, s0, s')
    ensures if junk == d.gen + 1 then AwakeOnList(s'.d, t, v)
            else s' == One(s'.d, c, User) && BlockedBeside(s'.d, c, t, v, junk) && s'.d.gen == d.gen + 1
  {
    hide Reaches;
    var u := d.gen + 1;
    s' := RunAnother(cfg, s0, d, c, t, v, junk);
    var d1 := s'.d;
    s' := Exited(cfg, s0, s', d1, u);
    var d2 := s'.d;
    ExitWakes(d1, u, t, v, junk);
    if junk != u {
      assert [t, c][1..] == [c];
      s' := Switched(cfg, s0, s', d2, u, 1);
      assert Without([t, c], 1) == [t];
    }
  }

  /** Thread by thread, up to the one that dependent_th names. */
  lemma {:induction false} UntilNamed(cfg: Config, s0: State, d: Data, c: Tid, t: Tid, v: Cid, junk: Tid)
    returns (s': State)
    requires cfg.movesTail && cfg.policy.UlOnly? && junk > d.gen
    requires Reaches(cfg, s0, One(d, c, User)) && BlockedBeside(d, c, t, v, junk)
    ensures Reaches(cfg, s0, s') && AwakeOnList(s'.d, t, v)
    decreases junk - d.gen
  {
    s' := Round(cfg, s0, d, c, t, v, junk);
    if junk != d.gen + 1 {
      s' := UntilNamed(cfg, s0, s'.d, c, t, v, junk);
    }
  }

  /** A dependent_th that names a live thread or one still to be created: the new thread can be woken while it waits. */
  lemma JunkWakes(cfg: Config, d: Data, c: Tid, m: Mid, v: Cid, junk: Tid) returns (s': State)
    requires cfg.movesTail && cfg.policy.UlOnly? && Plain(d, c, m, v) && !Harmless(d, junk)
    ensures Reaches(cfg, One(CreateSection(cfg, d, c, junk).d, c, User), s') && AwakeOnList(s'.d, d.gen + 1, v)
  {
    hide Reaches;
    var s0 := One(CreateSection(cfg, d, c, junk).d, c, User);
    var t := d.gen + 1;
    Start(cfg, s0);
    s' := PutToSleep(cfg, s0, d, c, m, v, junk);
    if junk == c {
      var d1 := s'.d;
      s' := Exited(cfg, s0, s', d1, c);
      ExitWakes(d1, c, t, v, junk);
    } else {
      s' := UntilNamed(cfg, s0, s'.d, c, t, v, junk);
    }
  }

  lemma CreateKeepsInv(cfg: Config, d: Data, w: Spots, c: Tid, junk: Tid) returns (w': Spots)
    requires cfg.policy.UlOnly? && Inv(One(d, c, User), w) && c in d.threads && Harmless(d, junk)
    ensures Inv(One(CreateSection(cfg, d, c, junk).d, c, User), w')
  {
    var s := One(d, c, User);
    hide Inv, Enqueue;
    w' := InvStep(cfg, s, w, Call(1, Create(junk)));
    s := Next(cfg, s, Call(1, Create(junk)));
    w' := InvStep(cfg, s, w', Go(1));
    s := Next(cfg, s, Go(1));
    w' := InvStep(cfg, s, w', Go(1));
    var s' := Next(cfg, s, Go(1));
    assert s'.sem == FREE && s'.kthreads == map[1 := Kthread(c, User)];
    assert s' == One(CreateSection(cfg, d, c, junk).d, c, User);
  }

  /**
   From a plain state, a create is safe exactly when the dependent_th that it finds is 0, the id of the new
   thread, or the id of a dead thread: then, and only then, every run behind it in which the later creates are
   harmless keeps each BLOCKED thread, and no other, on one wait list.
  */
  lemma CreateIsSafeExactly(cfg: Config, d: Data, w: Spots, c: Tid, m: Mid, v: Cid, junk: Tid)
    requires cfg.movesTail && cfg.policy.UlOnly? && Plain(d, c, m, v) && Inv(One(d, c, User), w)
    ensures var s1 := One(CreateSection(cfg, d, c, junk).d, c, User);
            Harmless(d, junk) <==>
            forall es :: Runs(cfg, s1, es) && CleanRun(cfg, s1, es) ==> OneListEach(After(cfg, s1, es))
  {
    var s1 := One(CreateSection(cfg, d, c, junk).d, c, User);
    hide Inv, Plain, OneListEach, CreateSection;
    if Harmless(d, junk) {
      assert c in d.threads by { PlainHas(d, c, m, v); }
      var w1 := CreateKeepsInv(cfg, d, w, c, junk);
      forall es | Runs(cfg, s1, es) && CleanRun(cfg, s1, es)
        ensures OneListEach(After(cfg, s1, es))
      {
        var w' := InvRun(cfg, s1, w1, es);
        InvPlaces(After(cfg, s1, es), w');
      }
    } else {
      var s' := JunkWakes(cfg, d, c, m, v, junk);
      NotOneList(s', d.gen + 1, v);
      var es :| Runs(cfg, s1, es) && CleanRun(cfg, s1, es) && After(cfg, s1, es) == s';
      assert !OneListEach(After(cfg, s1, es));
    }
  }

  lemma PlainHas(d: Data, c: Tid, m: Mid, v: Cid)
    requires Plain(d, c, m, v)
    ensures c in d.threads
  {
  }

  lemma InvPlaces(s: State, w: Spots)
    requires Inv(s, w)
    ensures OnePlaceEach(s) && OneListEach(s)
  {
    PlacesOf(s, w);
    ListsOf(s, w);
  }

  lemma CreateRuns(cfg: Config, d: Data, c: Tid, junk: Tid)
    requires cfg.policy.UlOnly? && c in d.threads
    ensures var es := [Call(1, Create(junk)), Go(1), Go(1)];
            && Runs(cfg, One(d, c, User), es)
            && After(cfg, One(d, c, User), es) == One(CreateSection(cfg, d, c, junk).d, c, User)
  {
    var s := One(d, c, User);
    var s1 := Next(cfg, s, Call(1, Create(junk)));
    var s2 := Next(cfg, s1, Go(1));
    var s3 := Next(cfg, s2, Go(1));
    assert s3.sem == FREE && s3.kthreads == map[1 := Kthread(c, User)];
    assert s3 == One(CreateSection(cfg, d, c, junk).d, c, User);
    assert Enabled(s, Call(1, Create(junk))) && Enabled(s1, Go(1)) && Enabled(s2, Go(1));
    hide Next, Enabled, CreateSection;
    var es := [Call(1, Create(junk)), Go(1), Go(1)];
    assert es[1..] == [Go(1), Go(1)] && [Go(1), Go(1)][1..] == [Go(1)] && [Go(1)][1..] == [];
    assert Runs(cfg, s2, [Go(1)]) && After(cfg, s2, [Go(1)]) == s3;
    assert Runs(cfg, s1, [Go(1), Go(1)]) && After(cfg, s1, [Go(1), Go(1)]) == s3;
  }

  /** Main creates thread 2 in storage that names thread 3; thread 2 waits, and the exit of thread 3 wakes it. */
  lemma StaleIdWakesAWaiter(cfg: Config) returns (es: seq<Event>)
    requires cfg == Config(UlOnly, true, true)
    ensures Runs(cfg, Init({1}, {1}), es)
    ensures var s := After(cfg, Init({1}, {1}), es); AwakeOnList(s.d, 2, 1) && !OneListEach(s)
  {
    var d := Init({1}, {1}).d;
    assert Plain(d, 1, 1, 1) && !Harmless(d, 3);
    assert Init({1}, {1}) == One(d, 1, User);
    hide Plain, Harmless, Init;
    var s' := JunkWakes(cfg, d, 1, 1, 1, 3);
    NotOneList(s', 2, 1);
    CreateRuns(cfg, d, 1, 3);
    var first := [Call(1, Create(3)), Go(1), Go(1)];
    var s1 := One(CreateSection(cfg, d, 1, 3).d, 1, User);
    var rest :| Runs(cfg, s1, rest) && CleanRun(cfg, s1, rest) && After(cfg, s1, rest) == s';
    RunsOn(cfg, One(d, 1, User), first, rest);
    es := first + rest;
  }
}
