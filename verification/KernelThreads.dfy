/** The kernel threads: mypthread_create starts them as the policy says, and no other call does. */
module KernelThreads {
  import opened Machine

  /** Kernel thread k is about to start a kernel thread, in mypthread_create. */
  predicate AboutToSpawn(s: State, k: Kid) {
    k in s.kthreads && (s.kthreads[k].pc == Wait(Spawn) || s.kthreads[k].pc == In(Spawn))
  }

  function Spawning(s: State): set<Kid> { set k | k in s.kthreads && AboutToSpawn(s, k) }

  /** The event ends the first part of a create, in which the new thread is put into the run queue. */
  predicate Creates(s: State, e: Event) {
    e.Go? && e.k in s.kthreads && s.kthreads[e.k].pc.In? && s.kthreads[e.k].pc.sec.Create?
  }

  /** The event is the second part, in which a kernel thread may be started. */
  predicate ComesToSpawn(s: State, e: Event) {
    e.Go? && e.k in s.kthreads && s.kthreads[e.k].pc == In(Spawn)
  }

  ghost predicate Numbered(s: State) {
    forall k :: k in s.kthreads <==> 1 <= k <= s.kcount
  }

  /**
   One event: a kernel thread is started, without a thread and in front of the scheduler, exactly by a create that
   comes to it when the policy is KLALWAYS, or KLMATCHCORES or KLMATCHHYPER with the limit not reached.
  */
  lemma SpawnsExactly(cfg: Config, s: State, e: Event)
    requires Numbered(s) && Enabled(s, e)
    ensures var s', n := Next(cfg, s, e), s.kcount + 1;
            if ComesToSpawn(s, e) && (cfg.policy.KlAlways? || (cfg.policy.KlMatch? && s.kcount < cfg.policy.max)) then
              var creator := Kthread(s.kthreads[e.k].th, User);
              s'.kcount == n && s'.kthreads == s.kthreads[e.k := creator][n := Kthread(0, Wait(Count))]
            else s'.kcount == s.kcount && s'.kthreads.Keys == s.kthreads.Keys
    ensures Numbered(Next(cfg, s, e))
  {
    var kt := s.kthreads[e.k];
    if e.Go? && kt.pc == In(Spawn) {
      assert Section(cfg, s.d, s.kthreads, kt.th, Spawn).kt == Kthread(kt.th, User);
    }
    hide Section;
  }

  lemma OneSpawning(s: State, s': State, k: Kid)
    requires k in s.kthreads && k in s'.kthreads && s.kthreads.Keys <= s'.kthreads.Keys
    requires forall j :: j in s'.kthreads && j != k ==> (AboutToSpawn(s', j) <==> AboutToSpawn(s, j))
    ensures |Spawning(s')| ==
            |Spawning(s)| - (if AboutToSpawn(s, k) then 1 else 0) + (if AboutToSpawn(s', k) then 1 else 0)
  {
    var others := Spawning(s) - {k};
    assert Spawning(s) == if AboutToSpawn(s, k) then others + {k} else others;
    assert Spawning(s') == if AboutToSpawn(s', k) then others + {k} else others;
  }

  lemma WhereTo(cfg: Config, s: State, e: Event)
    requires Enabled(s, e) && Numbered(s)
    ensures var s' := Next(cfg, s, e);
            && s.kthreads.Keys <= s'.kthreads.Keys
            && (forall j :: j in s'.kthreads && j != e.k ==> (AboutToSpawn(s', j) <==> AboutToSpawn(s, j)))
            && (AboutToSpawn(s', e.k) <==>
                  if AboutToSpawn(s, e.k) then !ComesToSpawn(s, e) else Creates(s, e) && !cfg.policy.UlOnly?)
  {
    hide Enqueue, FirstActive, Remove, IsRunning, WakeCond, Release, WakeJoiners, PostAll, Grab;
  }

  /** Each create comes to the point where it may start a kernel thread, but under ULONLY. */
  lemma SpawningStep(cfg: Config, s: State, e: Event)
    requires Numbered(s) && Enabled(s, e)
    ensures var due := if Creates(s, e) && !cfg.policy.UlOnly? then 1 else 0;
            |Spawning(Next(cfg, s, e))| == |Spawning(s)| + due - (if ComesToSpawn(s, e) then 1 else 0)
  {
    hide Next, AboutToSpawn;
    WhereTo(cfg, s, e);
    OneSpawning(s, Next(cfg, s, e), e.k);
    ComesIsAbout(s, e);
  }

  lemma ComesIsAbout(s: State, e: Event)
    ensures ComesToSpawn(s, e) ==> AboutToSpawn(s, e.k) && !Creates(s, e)
    ensures Creates(s, e) ==> !AboutToSpawn(s, e.k)
  {
  }

  function HowMany(cfg: Config, s: State, es: seq<Event>, counts: (State, Event) -> bool): nat
    requires Runs(cfg, s, es)
    decreases |es|
  {
    if es == [] then 0 else (if counts(s, es[0]) then 1 else 0) + HowMany(cfg, Next(cfg, s, es[0]), es[1..], counts)
  }

  /** How many kernel threads there are when n creates have come to their second part. */
  function Wanted(policy: Policy, n: nat): nat {
    match policy
    case UlOnly => 1
    case KlAlways => n + 1
    case KlMatch(max) => if n + 1 <= max then n + 1 else if max == 0 then 1 else max
  }

  lemma WantedStep(cfg: Config, s: State, e: Event, n: nat)
    requires Numbered(s) && s.kcount == Wanted(cfg.policy, n) && Enabled(s, e)
    ensures var s' := Next(cfg, s, e);
            Numbered(s') && s'.kcount == Wanted(cfg.policy, if ComesToSpawn(s, e) then n + 1 else n)
  {
    hide Next, Enabled, ComesToSpawn, Numbered;
    SpawnsExactly(cfg, s, e);
  }

  lemma {:induction false} WantedRun(cfg: Config, s: State, es: seq<Event>, n: nat)
    requires Numbered(s) && s.kcount == Wanted(cfg.policy, n) && Runs(cfg, s, es)
    ensures var s', m := After(cfg, s, es), HowMany(cfg, s, es, ComesToSpawn);
            Numbered(s') && s'.kcount == Wanted(cfg.policy, n + m)
    decreases |es|
  {
    hide Next, Enabled, ComesToSpawn, Numbered, Wanted;
    if es != [] {
      WantedStep(cfg, s, es[0], n);
      WantedRun(cfg, Next(cfg, s, es[0]), es[1..], if ComesToSpawn(s, es[0]) then n + 1 else n);
    }
  }

  lemma {:induction false} SpawningRun(cfg: Config, s: State, es: seq<Event>)
    requires Numbered(s) && Runs(cfg, s, es)
    ensures var created := if cfg.policy.UlOnly? then 0 else HowMany(cfg, s, es, Creates);
            created + |Spawning(s)| == HowMany(cfg, s, es, ComesToSpawn) + |Spawning(After(cfg, s, es))|
    decreases |es|
  {
    if es != [] {
      SpawningStep(cfg, s, es[0]);
      SpawnsExactly(cfg, s, es[0]);
      hide Next, Enabled, ComesToSpawn, Creates, Spawning, Numbered;
      SpawningRun(cfg, Next(cfg, s, es[0]), es[1..]);
    }
  }

  /**
   In every run the kernel threads are 1 to kcount, and kcount is one more than the creates that have come to their
   end, as far as the policy allows: always 1 under ULONLY, no limit under KLALWAYS, and the limit (or the first
   kernel thread alone) under KLMATCHCORES and KLMATCHHYPER.
  */
  lemma KernelThreadsExactly(cfg: Config, ms: set<Mid>, cs: set<Cid>, es: seq<Event>)
    requires Runs(cfg, Init(ms, cs), es)
    ensures var s, created := After(cfg, Init(ms, cs), es), HowMany(cfg, Init(ms, cs), es, Creates);
            && (forall k :: k in s.kthreads <==> 1 <= k <= s.kcount)
            && (if cfg.policy.UlOnly? then Spawning(s) == {} && s.kcount == 1
                else |Spawning(s)| <= created && s.kcount == Wanted(cfg.policy, created - |Spawning(s)|))
  {
    var s0 := Init(ms, cs);
    assert Spawning(s0) == {};
    WantedRun(cfg, s0, es, 0);
    SpawningRun(cfg, s0, es);
  }
}
