/**
  Every thread can run to its end: each step that needs no help of a failing call shrinks a measure,
  the steps every thread has left plus four for every queued archive write.
 */
module Progress {
  import opened Basics
  import opened Lifecycle
  import opened LifecycleInvariants
  import opened LifecycleMoves
  import opened LifecycleSafety
  import opened Deadlock

  // ---- sums over maps --------------------------------------------------------------------------

  ghost function Sum<K>(m: map<K, nat>): nat {
    if m == map[] then 0
    else
      var k :| k in m;
      m[k] + Sum(m - {k})
  }

  lemma {:induction false} SumOut<K>(m: map<K, nat>, k: K)
    requires k in m
    ensures Sum(m) == m[k] + Sum(m - {k})
    decreases |m|
  {
    var c :| c in m && Sum(m) == m[c] + Sum(m - {c});
    if c != k {
      SumOut(m - {c}, k);
      SumOut(m - {k}, c);
      assert m - {c} - {k} == m - {k} - {c};
    }
  }

  lemma SumUpdate<K>(m: map<K, nat>, k: K, v: nat)
    ensures Sum(m[k := v]) == Sum(m) + v - if k in m then m[k] else 0
  {
    SumOut(m[k := v], k);
    if k in m {
      SumOut(m, k);
      assert m[k := v] - {k} == m - {k};
    } else {
      assert m[k := v] - {k} == m;
    }
  }

  // ---- the measure -----------------------------------------------------------------------------

  function EntryRank(e: Entry): nat {
    match e
    case Init => 5
    case Publish(_) => 2
    case Register(_) => 1
    case Gate(_, _) => 12
    case Callback(_, _) => 11
    case Shutdown(_) => 10
    case ShutdownDrain => 9
    case ExitHook => 11
    case ExitLock => 10
    case ExitDrain => 9
    case Relock => 1
  }

  function WindowRank(w: WindowAt): nat {
    match w
    case Subscribing => 3
    case Subscribed => 2
    case SendWantsSeen => 7
    case SendMarks => 6
    case SendPending => 5
    case SendPut => 4
    case SendTerminal => 3
    case Sent => 2
    case FunnelWantsSeen(_, _) => 10
    case FunnelMarks(_, _) => 9
    case FunnelPush(_, _) => 8
    case FunnelWantsArch(_, _) => 7
    case FunnelQueues(_, _) => 6
    case FunnelDone(_) => 1
  }

  function StageRank(stage: Stage, holds: Hold): nat {
    match stage
    case Quiescing => 7
    case Stopping => if holds == Arch then 5 else 6
    case Joining => 4
    case Closing => 3
    case Freeing => 2
  }

  /** Bounds the steps a thread has left; a worker's queued writes and a funnel's enqueue count extra. */
  function Rank(pc: Pc): nat {
    match pc
    case Done => 0
    case Waiting(e) => EntryRank(e)
    case Commanding(_, _, at) =>
      (match at case Body => 1 case WritingEntity => 2 case WantsHistory => 3 case ReadingHistory => 2)
    case InWindow(_, _, w) => WindowRank(w)
    case Evicting(_) => 8
    case Destroying(_, holds, stage, _, _) => StageRank(stage, holds)
    case Idle => 2
    case Picking => 1
    case Putting(_) => 3
    case Drained => 0
    case Leaked => 0
  }

  function Ranks(threads: map<Tid, Pc>): map<Tid, nat> {
    map t | t in threads :: Rank(threads[t])
  }

  function Loads(comps: map<Gen, Comp>): map<Gen, nat> {
    map g | g in comps :: 4 * |comps[g].archive.queue|
  }

  ghost function Measure(s: State): nat {
    Sum(Ranks(s.threads)) + Sum(Loads(s.comps))
  }

  function Load(comps: map<Gen, Comp>, g: Gen): nat {
    if g in comps then 4 * |comps[g].archive.queue| else 0
  }

  lemma ThreadUpdate(threads: map<Tid, Pc>, t: Tid, pc: Pc)
    ensures Sum(Ranks(threads[t := pc])) ==
              Sum(Ranks(threads)) + Rank(pc) - if t in threads then Rank(threads[t]) else 0
  {
    assert Ranks(threads[t := pc]) == Ranks(threads)[t := Rank(pc)];
    SumUpdate(Ranks(threads), t, Rank(pc));
  }

  lemma CompUpdate(comps: map<Gen, Comp>, g: Gen, c: Comp)
    ensures Sum(Loads(comps[g := c])) == Sum(Loads(comps)) + 4 * |c.archive.queue| - Load(comps, g)
  {
    assert Loads(comps[g := c]) == Loads(comps)[g := 4 * |c.archive.queue|];
    SumUpdate(Loads(comps), g, 4 * |c.archive.queue|);
  }

  // ---- what one step takes away -------------------------------------------------------------------

  /** Only t and at most one generation changed, and what t has left went down by more than was queued. */
  ghost predicate Shrinks(s: State, t: Tid, s': State, g: Gen) {
    && t in s.threads && t in s'.threads && s'.threads == s.threads[t := s'.threads[t]]
    && (s'.comps == s.comps || (g in s'.comps && s'.comps == s.comps[g := s'.comps[g]]))
    && Rank(s'.threads[t]) + Load(s'.comps, g) < Rank(s.threads[t]) + Load(s.comps, g)
  }

  lemma ShrinksMeasure(s: State, t: Tid, s': State, g: Gen)
    requires Shrinks(s, t, s', g)
    ensures Measure(s') < Measure(s)
  {
    ThreadUpdate(s.threads, t, s'.threads[t]);
    if s'.comps != s.comps {
      CompUpdate(s.comps, g, s'.comps[g]);
    }
  }

  lemma CommandShrinks(s: State, t: Tid, g: Gen, h: Hold, at: CommandAt, blocked: bool, s': State)
    requires t in s.threads && s.threads[t] == Commanding(g, h, at) && g in s.comps
    requires CommandStep(s, t, g, at, if at.Body? then Finish(false) else Go, blocked) == Some(s')
    ensures Shrinks(s, t, s', g)
  {}

  lemma SendShrinks(s: State, t: Tid, g: Gen, h: Hold, w: WindowAt, live: bool, heal: bool, s': State)
    requires t in s.threads && s.threads[t] == InWindow(g, h, w) && g in s.comps
    requires SendStep(s, t, g, w, Go, live, heal) == Some(s')
    ensures Shrinks(s, t, s', g)
  {}

  lemma FunnelShrinks(s: State, t: Tid, g: Gen, h: Hold, w: WindowAt, throws: bool, s': State)
    requires t in s.threads && s.threads[t] == InWindow(g, h, w) && g in s.comps
    requires FunnelStep(s, t, g, w, Go, throws) == Some(s')
    ensures Shrinks(s, t, s', g)
  {}

  lemma WindowShrinks(cfg: Config, s: State, t: Tid, g: Gen, h: Hold, w: WindowAt, s': State)
    requires t in s.threads && s.threads[t] == InWindow(g, h, w) && MoveStep(cfg, s, t, Go) == Some(s')
    ensures Shrinks(s, t, s', g)
  {
    if OnRoute(s.threads[t], Live) || OnRoute(s.threads[t], Heal) {
      FunnelShrinks(s, t, g, h, w, Doomed(s.threads[t]), s');
    } else {
      SendShrinks(s, t, g, h, w, Busy(s, Live), Busy(s, Heal), s');
    }
  }

  lemma BridgeShrinks(s: State, t: Tid, e: Entry, s': State)
    requires t in s.threads && s.threads[t] == Waiting(e) && BridgeStep(s, t, e) == Some(s')
    ensures Shrinks(s, t, s', 0)
  {}

  lemma DrainShrinks(cfg: Config, s: State, t: Tid, e: Entry, s': State)
    requires t in s.threads && s.threads[t] == Waiting(e) && DrainStep(cfg, s, t, e, Go) == Some(s')
    ensures Shrinks(s, t, s', 0)
  {}

  lemma DestroyShrinks(s: State, t: Tid, live: bool, heal: bool, s': State)
    requires t in s.threads && s.threads[t].Destroying? && ShapeOk(s.threads[t])
    requires DestroyStep(s, t, s.threads[t], live, heal) == Some(s')
    ensures Shrinks(s, t, s', s.threads[t].own.GetOr(0))
  {}

  lemma WorkerShrinks(s: State, t: Tid, heal: bool, s': State)
    requires t in s.threads && t.Worker? && t.g in s.comps && CompOk(s.comps[t.g], s.threads[t])
    requires WorkerStep(s, t, s.threads[t], heal) == Some(s')
    ensures Measure(s') < Measure(s)
  {
    ShrinksMeasure(s, t, s', t.g);
  }

  lemma EvictShrinks(s: State, t: Tid, exit: bool)
    requires t in s.threads && s.threads[t] == Evicting(exit)
    ensures Shrinks(s, t, EvictBody(s, t, exit), s.installed.GetOr(0))
  {}

  lemma InstallShrinks(s: State, t: Tid, k: Sdk, tears: bool)
    requires CompsOk(s) && t in s.threads && s.threads[t] == Waiting(Init)
    ensures Measure(Install(s, t, k, tears)) < Measure(s)
  {
    var g := s.nextGen;
    assert g !in s.comps && Worker(g) !in s.threads;
    ThreadUpdate(s.threads, Worker(g), Idle);
    ThreadUpdate(s.threads[Worker(g) := Idle], t, Commanding(g, Nothing, Body));
    CompUpdate(s.comps, g, FRESH_COMP);
  }

  lemma EntryShrinks(s: State, t: Tid, e: Entry, tears: bool, s': State)
    requires CompsOk(s) && t in s.threads && s.threads[t] == Waiting(e) && EntryStep(s, t, e, Go, tears) == Some(s')
    ensures Measure(s') < Measure(s)
  {
    if e.Init? && !s.flags.tearing && s.installed.None? {
      InstallShrinks(s, t, Booted(s.sdk), tears);
    } else {
      ShrinksMeasure(s, t, s', 0);
    }
  }

  lemma WaitingShrinks(cfg: Config, s: State, t: Tid, e: Entry, s': State)
    requires Inv(s) && t in s.threads && s.threads[t] == Waiting(e) && MoveStep(cfg, s, t, Go) == Some(s')
    ensures Measure(s') < Measure(s)
  {
    if e.Init? || e.Publish? || e.Register? {
      EntryShrinks(s, t, e, SomeoneTears(s), s');
    } else if e.Gate? || e.Callback? {
      BridgeShrinks(s, t, e, s');
      ShrinksMeasure(s, t, s', 0);
    } else {
      DrainShrinks(cfg, s, t, e, s');
      ShrinksMeasure(s, t, s', 0);
    }
  }

  lemma MoveShrinks(cfg: Config, s: State, t: Tid, s': State)
    requires Inv(s) && t in s.threads && MoveStep(cfg, s, t, Ahead(s.threads[t])) == Some(s')
    ensures Measure(s') < Measure(s)
  {
    InvLocal(s, t);
    match s.threads[t] {
      case Waiting(e) => WaitingShrinks(cfg, s, t, e, s');
      case Commanding(g, h, at) =>
        CommandShrinks(s, t, g, h, at, cfg.entityPutWaits && Busy(s, Heal), s');
        ShrinksMeasure(s, t, s', g);
      case InWindow(g, h, w) =>
        WindowShrinks(cfg, s, t, g, h, w, s');
        ShrinksMeasure(s, t, s', g);
      case Evicting(exit) =>
        EvictShrinks(s, t, exit);
        ShrinksMeasure(s, t, s', s.installed.GetOr(0));
      case Destroying(own, _, _, _, _) =>
        DestroyShrinks(s, t, Busy(s, Live), Busy(s, Heal), s');
        ShrinksMeasure(s, t, s', own.GetOr(0));
      case Idle => WorkerShrinks(s, t, Busy(s, Heal), s');
      case Picking => WorkerShrinks(s, t, Busy(s, Heal), s');
      case Putting(_) => WorkerShrinks(s, t, Busy(s, Heal), s');
      case _ =>
    }
  }

  // ---- running to the end ---------------------------------------------------------------------------

  /** Existing threads only, and no foreign call fails. */
  predicate Plain(acts: seq<Action>) {
    forall a | a in acts :: a.Move? && (a.c == Go || a.c == Finish(false))
  }

  ghost predicate Finished(s: State) {
    forall t :: !Unfinished(s, t)
  }

  ghost predicate CanFinish(cfg: Config, s: State) {
    exists acts, s' :: Plain(acts) && Run(cfg, s, acts) == Some(s') && Finished(s')
  }

  lemma OneStepEarlier(cfg: Config, s: State, t: Tid, s1: State)
    requires t in s.threads && MoveStep(cfg, s, t, Ahead(s.threads[t])) == Some(s1) && CanFinish(cfg, s1)
    ensures CanFinish(cfg, s)
  {
    var a := Move(t, Ahead(s.threads[t]));
    var acts, s' :| Plain(acts) && Run(cfg, s1, acts) == Some(s') && Finished(s');
    assert ([a] + acts)[1..] == acts;
    assert Plain([a] + acts) && Run(cfg, s, [a] + acts) == Some(s');
  }

  /** Whatever state a schedule has led to, every thread in it can be run to its end. */
  lemma {:induction false} RunsToEnd(cfg: Config, s: State)
    requires Inv(s) && Clean(s) && !cfg.entityPutWaits && !cfg.exitMayTimeOut
    ensures CanFinish(cfg, s)
    decreases Measure(s)
  {
    if t :| Unfinished(s, t) {
      var u := SomeoneMoves(cfg, s, t);
      var c := Ahead(s.threads[u]);
      var s1 := MoveStep(cfg, s, u, c).value;
      MoveShrinks(cfg, s, u, s1);
      StepInv(cfg, s, Move(u, c), s1);
      MoveKeepsClean(cfg, s, u, c, s1);
      RunsToEnd(cfg, s1);
      OneStepEarlier(cfg, s, u, s1);
    } else {
      assert Plain([]) && Run(cfg, s, []) == Some(s);
    }
  }
}
