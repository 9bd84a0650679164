/** What the lifecycle machine guarantees over every schedule, and where each guarantee ends. */
module LifecycleTheorems {
  import opened Basics
  import opened Lifecycle
  import opened LifecycleInvariants
  import opened LifecycleFlags
  import opened LifecycleMoves
  import opened LifecycleSafety
  import opened Deadlock
  import opened Progress
  import opened LifecycleRuns
  import opened Eviction

  ghost predicate Reachable(cfg: Config, s: State) {
    exists acts :: Run(cfg, START, acts) == Some(s)
  }

  // ---- schedules in which no exit drain gives up -------------------------------------------------

  /** The exit hook's drain times out with operations still counted. */
  predicate GivesUp(s: State, a: Action) {
    a.Move? && a.t in s.threads && s.threads[a.t] == Waiting(ExitDrain) && s.inFlight != 0
  }

  predicate Patient(cfg: Config, s: State, acts: seq<Action>)
    requires Run(cfg, s, acts).Some?
    decreases |acts|
  {
    acts != [] ==> !GivesUp(s, acts[0]) && Patient(cfg, Step(cfg, s, acts[0]).value, acts[1..])
  }

  /** Reached without any drain giving up, whether or not one may. */
  ghost predicate PatientlyReached(cfg: Config, s: State) {
    exists acts :: Run(cfg, START, acts) == Some(s) && Patient(cfg, START, acts)
  }

  function Waits(cfg: Config): Config {
    cfg.(exitMayTimeOut := false)
  }

  /** Where nothing gives up, the timeout makes no difference. */
  lemma SameStep(cfg: Config, s: State, a: Action)
    ensures Step(Waits(cfg), s, a).Some? ==> Step(cfg, s, a) == Step(Waits(cfg), s, a) && !GivesUp(s, a)
    ensures Step(cfg, s, a).Some? && !GivesUp(s, a) ==> Step(Waits(cfg), s, a) == Step(cfg, s, a)
  {}

  lemma {:induction false} PatientWaits(cfg: Config, s: State, acts: seq<Action>)
    requires Run(cfg, s, acts).Some? && Patient(cfg, s, acts)
    ensures Run(Waits(cfg), s, acts) == Run(cfg, s, acts)
    decreases |acts|
  {
    if acts != [] {
      SameStep(cfg, s, acts[0]);
      PatientWaits(cfg, Step(cfg, s, acts[0]).value, acts[1..]);
    }
  }

  lemma {:induction false} WaitsPatient(cfg: Config, s: State, acts: seq<Action>)
    requires Run(Waits(cfg), s, acts).Some?
    ensures Run(cfg, s, acts) == Run(Waits(cfg), s, acts) && Patient(cfg, s, acts)
    decreases |acts|
  {
    if acts != [] {
      SameStep(cfg, s, acts[0]);
      WaitsPatient(cfg, Step(cfg, s, acts[0]).value, acts[1..]);
    }
  }

  lemma PatientIffWaits(cfg: Config, s: State)
    ensures PatientlyReached(cfg, s) <==> Reachable(Waits(cfg), s)
  {
    if acts :| Run(cfg, START, acts) == Some(s) && Patient(cfg, START, acts) {
      PatientWaits(cfg, START, acts);
    }
    if acts :| Run(Waits(cfg), START, acts) == Some(s) {
      WaitsPatient(cfg, START, acts);
    }
  }

  lemma PatientInv(cfg: Config, s: State)
    requires PatientlyReached(cfg, s)
    ensures Inv(s)
  {
    PatientIffWaits(cfg, s);
    var acts :| Run(Waits(cfg), START, acts) == Some(s);
    assert Counted(START) == {};
    RunInv(Waits(cfg), START, acts, s);
  }

  // ---- the drain --------------------------------------------------------------------------

  /** A thread that uses a generation, with the mutex released or back under it. */
  predicate Uses(pc: Pc, g: Gen) {
    (pc.InWindow? || pc.Commanding?) && pc.g == g
  }

  /** Whoever uses a generation finds its objects alive and its store up. */
  ghost predicate NoUseAfterFree(s: State) {
    forall t, g: Gen | t in s.threads && Uses(s.threads[t], g) ::
      g in s.comps && s.comps[g].life == Life(false, false, true, false)
  }

  lemma CountSplits(s: State)
    ensures |Counted(s)| == |Flying(s)| + |Lost(s)|
  {
    assert Counted(s) == Flying(s) + Lost(s);
    assert Flying(s) !! Lost(s);
  }

  /** The in-flight count is the threads in a window and the callbacks an exception took away; every
      thread in a window or back under the mutex still uses what is installed, alive and with the store
      up, and nothing a teardown thread owns is in use. */
  lemma DrainIsExact(cfg: Config, s: State)
    requires PatientlyReached(cfg, s)
    ensures s.inFlight == |Flying(s)| + |Lost(s)|
    ensures forall t, g: Gen | t in s.threads && Uses(s.threads[t], g) :: s.installed == Some(g)
    ensures forall t, u, g: Gen |
              t in s.threads && s.threads[t].Destroying? && u in s.threads && Uses(s.threads[u], g) ::
              s.threads[t].own != Some(g)
    ensures NoUseAfterFree(s)
  {
    PatientInv(cfg, s);
    CountSplits(s);
    forall t, g: Gen | t in s.threads && Uses(s.threads[t], g)
      ensures g in s.comps && s.comps[g].life == Life(false, false, true, false)
    {
      InvLocal(s, t);
    }
  }

  lemma PatientClean(cfg: Config, s: State)
    requires PatientlyReached(cfg, s) && !cfg.strayKeys
    ensures Inv(s) && Clean(s)
  {
    PatientInv(cfg, s);
    PatientIffWaits(cfg, s);
    var acts :| Run(Waits(cfg), START, acts) == Some(s);
    assert Counted(START) == {};
    RunClean(Waits(cfg), START, acts, s);
  }

  /** The count is the number of threads in a window, no more, exactly when no heal callback is handed a
      key the topic parse throws on. */
  lemma CountExactIffNoStrayKeys(cfg: Config)
    ensures (forall s | PatientlyReached(cfg, s) :: s.inFlight == |Flying(s)|) <==> !cfg.strayKeys
  {
    if cfg.strayKeys {
      var s := HungState();
      ShutdownHangs(Waits(cfg));
      assert Reachable(Waits(cfg), s);
      PatientIffWaits(cfg, s);
      assert Flying(s) == {};
    } else {
      forall s | PatientlyReached(cfg, s) ensures s.inFlight == |Flying(s)| {
        DrainIsExact(cfg, s);
        PatientClean(cfg, s);
        assert Lost(s) == {};
      }
    }
  }

  /** Destruction is safe over all schedules exactly when the exit hook never gives up its drain. */
  lemma DrainSafeIffNoTimeout(cfg: Config)
    ensures (forall s | Reachable(cfg, s) :: NoUseAfterFree(s)) <==> !cfg.exitMayTimeOut
  {
    if cfg.exitMayTimeOut {
      var s := FreedUnderUse();
      ExitFrees(cfg);
      assert Uses(s.threads[U0], 0);
      assert Reachable(cfg, s);
      assert s.comps[0].life == FREED && !NoUseAfterFree(s);
    } else {
      forall s | Reachable(cfg, s) ensures NoUseAfterFree(s) {
        assert Waits(cfg) == cfg;
        PatientIffWaits(cfg, s);
        DrainIsExact(cfg, s);
      }
    }
  }

  // ---- the archive ------------------------------------------------------------------------

  /** Puts are issued in enqueue order, never on a stopped store, and all of them before it stops. */
  lemma NoArchiveWriteLost(cfg: Config, s: State, g: Gen)
    requires PatientlyReached(cfg, s) && g in s.comps
    ensures s.comps[g].archive.dropped == []
    ensures s.comps[g].archive.written <= s.comps[g].archive.enqueued
    ensures !s.comps[g].life.storeUp || s.comps[g].life.freed
            ==> s.comps[g].archive.written == s.comps[g].archive.enqueued
  {
    PatientInv(cfg, s);
    var c, worker := s.comps[g], s.threads[Worker(g)];
    assert CompOk(c, worker);
  }

  /** Every write the funnel enqueued has been put by the time the component is freed or its store down. */
  ghost predicate ArchiveComplete(s: State) {
    forall g | g in s.comps && (s.comps[g].life.freed || !s.comps[g].life.storeUp) ::
      s.comps[g].archive.written == s.comps[g].archive.enqueued
  }

  /** Over all schedules no archive write is lost exactly when the exit hook never gives up its drain. */
  lemma ArchiveCompleteIffNoTimeout(cfg: Config)
    ensures (forall s | Reachable(cfg, s) :: ArchiveComplete(s)) <==> !cfg.exitMayTimeOut
  {
    if cfg.exitMayTimeOut {
      var s := LateState();
      QueuedTooLate(cfg);
      assert Reachable(cfg, s);
      assert s.comps[0].life == FREED && s.comps[0].archive.enqueued == [ITEM] && !ArchiveComplete(s);
    } else {
      forall s | Reachable(cfg, s) ensures ArchiveComplete(s) {
        assert Waits(cfg) == cfg;
        PatientIffWaits(cfg, s);
        forall g | g in s.comps && (s.comps[g].life.freed || !s.comps[g].life.storeUp)
          ensures s.comps[g].archive.written == s.comps[g].archive.enqueued
        {
          NoArchiveWriteLost(cfg, s, g);
        }
      }
    }
  }

  lemma EvictKeepsArchive(s: State, t: Tid, exit: bool, g: Gen)
    requires g in s.comps
    ensures g in EvictBody(s, t, exit).comps && EvictBody(s, t, exit).comps[g].archive == s.comps[g].archive
  {}

  lemma RuleKeepsStopped(s: State, t: Tid, s': State, g: Gen)
    requires Rule(s, t, s') && g in s.comps && s.comps[g].life.stopped
    ensures g in s'.comps && s'.comps[g].archive.enqueued == s.comps[g].archive.enqueued
  {}

  lemma MoveKeepsStopped(cfg: Config, s: State, t: Tid, c: Choice, s': State, g: Gen)
    requires Inv(s) && t in s.threads && MoveStep(cfg, s, t, c) == Some(s')
    requires g in s.comps && s.comps[g].life.stopped
    ensures g in s'.comps && s'.comps[g].archive.enqueued == s.comps[g].archive.enqueued
  {
    if s.threads[t].Waiting? {
      WaitingMoved(cfg, s, t, s.threads[t].entry, c, s');
      assert s.nextGen !in s.comps;
    } else if s.threads[t].Evicting? {
      EvictKeepsArchive(s, t, s.threads[t].exit, g);
    } else {
      InvLocal(s, t);
      MoveRule(cfg, s, t, c, s');
      RuleKeepsStopped(s, t, s', g);
    }
  }

  /** Once the worker was told to stop, nothing is enqueued any more. */
  lemma NothingEnqueuedAfterStop(cfg: Config, s: State, a: Action, s': State, g: Gen)
    requires PatientlyReached(cfg, s) && Step(cfg, s, a) == Some(s')
    requires g in s.comps && s.comps[g].life.stopped
    ensures g in s'.comps && s'.comps[g].archive.enqueued == s.comps[g].archive.enqueued
  {
    PatientInv(cfg, s);
    if a.Move? {
      MoveKeepsStopped(cfg, s, a.t, a.c, s', g);
    }
  }

  // ---- what becomes of a session -------------------------------------------------------------

  /** Every session that was evicted, by a shutdown or by the exit hook, is destroyed to its end: once no
      teardown is under way its worker has put all it was given and was told to stop, its messaging is
      freed, its store is shut down, and its catalog and session are freed. */
  lemma EvictedIsDestroyed(cfg: Config, s: State, g: Gen)
    requires PatientlyReached(cfg, s) && g in s.comps && s.installed != Some(g)
    requires forall t | t in s.threads :: !s.threads[t].Destroying?
    ensures s.comps[g].life == Life(stopped := true, freed := true, storeUp := false, sessionFreed := true)
    ensures s.comps[g].archive.written == s.comps[g].archive.enqueued
  {
    PatientIffWaits(cfg, s);
    var acts :| Run(Waits(cfg), START, acts) == Some(s);
    assert Counted(START) == {};
    RunFates(Waits(cfg), START, acts, s);
    assert FateOk(s, g);
    NoArchiveWriteLost(cfg, s, g);
  }

  // ---- deadlock ---------------------------------------------------------------------------

  lemma FinishesToo(cfg: Config, s: State)
    requires CanFinish(Waits(cfg), s)
    ensures CanFinish(cfg, s)
  {
    var acts, s' :| Plain(acts) && Run(Waits(cfg), s, acts) == Some(s') && Finished(s');
    WaitsPatient(cfg, s, acts);
    assert Plain(acts) && Run(cfg, s, acts) == Some(s');
  }

  /** In the embrace no thread at all can take a step. */
  lemma NobodySteps(cfg: Config, acts: seq<Action>)
    requires cfg.entityPutWaits && Plain(acts) && acts != []
    ensures Run(cfg, EmbracedState(), acts).None?
  {
    var s := EmbracedState();
    assert OnRoute(s.threads[U2], Heal) && Busy(s, Heal);
    assert acts[0] in acts;
  }

  lemma EmbraceHolds(cfg: Config)
    requires cfg.entityPutWaits
    ensures !CanFinish(cfg, EmbracedState())
  {
    var s := EmbracedState();
    assert Unfinished(s, U1);
    forall acts, s' | Plain(acts) && Run(cfg, s, acts) == Some(s') ensures !Finished(s') {
      if acts != [] {
        NobodySteps(cfg, acts);
      }
    }
  }

  /** Nobody is left to take the count back. */
  lemma NobodyHelps(cfg: Config, acts: seq<Action>)
    requires Plain(acts) && acts != []
    ensures Run(cfg, HungState(), acts).None?
  {
    assert acts[0] in acts;
  }

  lemma HangHolds(cfg: Config)
    ensures !CanFinish(cfg, HungState())
  {
    var s := HungState();
    assert Unfinished(s, U1);
    forall acts, s' | Plain(acts) && Run(cfg, s, acts) == Some(s') ensures !Finished(s') {
      if acts != [] {
        NobodyHelps(cfg, acts);
      }
    }
  }

  /** From every state every thread there is can be run to its end, with no foreign call failing and
      nobody new coming to help, exactly when a catalog Put, which runs under g_mutex, does not wait for
      the thread the heal callback runs on, and no heal callback is handed a key the parse throws on. */
  lemma AllCanFinishIffPutIndependentAndNoStrayKeys(cfg: Config)
    ensures (forall s | PatientlyReached(cfg, s) :: CanFinish(cfg, s)) <==> !cfg.entityPutWaits && !cfg.strayKeys
  {
    if cfg.entityPutWaits {
      var s := EmbracedState();
      Embrace(Waits(cfg));
      assert Reachable(Waits(cfg), s);
      PatientIffWaits(cfg, s);
      EmbraceHolds(cfg);
    } else if cfg.strayKeys {
      var s := HungState();
      ShutdownHangs(Waits(cfg));
      assert Reachable(Waits(cfg), s);
      PatientIffWaits(cfg, s);
      HangHolds(cfg);
    } else {
      forall s | PatientlyReached(cfg, s) ensures CanFinish(cfg, s) {
        PatientClean(cfg, s);
        RunsToEnd(Waits(cfg), s);
        FinishesToo(cfg, s);
      }
    }
  }

  // ---- boot pairing and the push port: any schedule, timed-out exit hooks included --------------

  lemma ReachableFlags(cfg: Config, s: State)
    requires Reachable(cfg, s)
    ensures BootOk(s) && PortOk(s)
  {
    var acts :| Run(cfg, START, acts) == Some(s);
    RunFlags(cfg, START, acts, s);
  }

  /** Embedded boots and GeniusSDKShutdown calls alternate; the flag, or the teardown thread that
      consumed it, owes exactly the missing one. */
  lemma BootPairing(cfg: Config, s: State)
    requires Reachable(cfg, s)
    ensures s.sdk.downs <= s.sdk.boots <= s.sdk.downs + 1
    ensures s.sdk.boots == s.sdk.downs + 1 <==> s.sdk.node == EmbeddedNode
    ensures s.sdk.node == EmbeddedNode <==> s.sdk.bootedHere || exists t | t in s.threads :: TakesNodeDown(s.threads[t])
    ensures s.sdk.bootedHere ==> forall t | t in s.threads :: !TakesNodeDown(s.threads[t])
  {
    ReachableFlags(cfg, s);
  }

  /** No step of this library takes down a node the host booted. */
  lemma HostNodeSurvives(cfg: Config, s: State, t: Tid, c: Choice, s': State)
    requires Reachable(cfg, s) && s.sdk.node == HostNode && Step(cfg, s, Move(t, c)) == Some(s')
    ensures s'.sdk.node == HostNode && s'.sdk.downs == s.sdk.downs
  {
    ReachableFlags(cfg, s);
    MoveFlags(cfg, s, t, c, s');
  }

  /** A gcs_init that fails leaves a node it booted running exactly when no smoke topic joined; the flag
      then still owes the shutdown. */
  lemma FailedInitLeavesNode(cfg: Config, s: State, t: Tid, c: Choice, s': State)
    requires t in s.threads && s.threads[t] == Waiting(Init) && s.sdk.node == NoNode
    requires Step(cfg, s, Move(t, c)) == Some(s') && s'.threads[t] == Done
    ensures s'.sdk.node == EmbeddedNode <==> !s.flags.tearing && s.installed.None? && c == SmokeFails
    ensures s'.sdk.node == EmbeddedNode ==> s'.sdk.bootedHere
  {}

  lemma {:induction false} AttachedSince(marks: seq<Mark>)
    requires Attached(marks)
    ensures exists j :: 0 <= j < |marks| && marks[j] == Registered && forall k | j < k < |marks| :: marks[k] != Evicted
    decreases |marks|
  {
    var n := |marks| - 1;
    if marks[n] == Posted {
      AttachedSince(marks[..n]);
      var j :| 0 <= j < n && marks[..n][j] == Registered && forall k | j < k < n :: marks[..n][k] != Evicted;
      assert marks[j] == Registered && forall k | j < k < n :: marks[k] == marks[..n][k];
    } else {
      assert marks[n] == Registered;
    }
  }

  /** Whatever is posted to the port, a gcs_subscribe came before it with no eviction in between. */
  lemma SilentAfterEviction(cfg: Config, s: State, i: nat)
    requires Reachable(cfg, s) && i < |s.push.marks| && s.push.marks[i] == Posted
    ensures exists j :: 0 <= j < i && s.push.marks[j] == Registered &&
              forall k | j < k < i :: s.push.marks[k] != Evicted
  {
    ReachableFlags(cfg, s);
    var before := s.push.marks[..i];
    AttachedSince(before);
    var j :| 0 <= j < |before| && before[j] == Registered && forall k | j < k < |before| :: before[k] != Evicted;
    assert s.push.marks[j] == Registered && forall k | j < k < i :: s.push.marks[k] == before[k];
  }

  // ---- gcs_init and a teardown in progress ----------------------------------------------------

  lemma {:induction false} OverlapMonotone(cfg: Config, s: State, acts: seq<Action>, k: nat, m: nat)
    requires Run(cfg, s, acts).Some? && Overlap(cfg, s, acts, k) && k <= m
    ensures Overlap(cfg, s, acts, m)
    decreases |acts|
  {
    if acts != [] {
      OverlapMonotone(cfg, Step(cfg, s, acts[0]).value, acts[1..], k, m);
    }
  }

  /** g_tearingDown keeps gcs_init from building a session while another is being destroyed, exactly
      as long as at most one teardown is under way at a time. */
  lemma InitExcludedIffTeardownsDoNotOverlap(cfg: Config, k: nat)
    ensures (forall s | Reached(cfg, s, k) :: !s.flags.clash) <==> k <= 1
  {
    if k <= 1 {
      forall s | Reached(cfg, s, k) ensures !s.flags.clash {
        var acts :| Run(cfg, START, acts) == Some(s) && Overlap(cfg, START, acts, k);
        OverlapMonotone(cfg, START, acts, k, 1);
        RunGate(cfg, START, acts, s);
      }
    } else {
      var s := ClashState();
      InitClashes(cfg);
      var acts :| Run(cfg, START, acts) == Some(s) && Overlap(cfg, START, acts, 2);
      OverlapMonotone(cfg, START, acts, 2, k);
      assert Reached(cfg, s, k);
    }
  }
}
