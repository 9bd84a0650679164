/** Invariants that survive even a timed-out exit drain: boot pairing, push-port silence, and,
    while teardowns do not overlap, the exclusion of gcs_init from a teardown in progress. */
module LifecycleFlags {
  import opened Basics
  import opened Lifecycle

  predicate TakesNodeDown(pc: Pc) {
    pc.Destroying? && pc.booted
  }

  /** A node booted here is owed exactly one shutdown, by the flag or by the thread that consumed it. */
  ghost predicate BootOk(s: State) {
    && (s.sdk.node == EmbeddedNode <==> s.sdk.bootedHere || s.sdk.handed.Some?)
    && !(s.sdk.bootedHere && s.sdk.handed.Some?)
    && (forall t | t in s.threads :: TakesNodeDown(s.threads[t]) <==> s.sdk.handed == Some(t))
    && (forall t | t in s.threads && TakesNodeDown(s.threads[t]) :: s.threads[t].stage.Quiescing?)
    && (s.sdk.handed.Some? ==> s.sdk.handed.value in s.threads)
    && (forall t | t in s.threads && t.Worker? :: WorkerPc(s.threads[t]))
    && s.sdk.boots == s.sdk.downs + (if s.sdk.node == EmbeddedNode then 1 else 0)
  }

  /** The port is registered: a subscribe succeeded and nothing was evicted since. */
  predicate Attached(marks: seq<Mark>)
    decreases |marks|
  {
    if marks == [] then false
    else if marks[|marks| - 1] == Posted then Attached(marks[..|marks| - 1])
    else marks[|marks| - 1] == Registered
  }

  ghost predicate PostsOk(marks: seq<Mark>) {
    forall i | 0 <= i < |marks| && marks[i] == Posted :: Attached(marks[..i])
  }

  ghost predicate PortOk(s: State) {
    && (s.push.port ==> s.installed.Some?)
    && (s.push.port <==> Attached(s.push.marks))
    && PostsOk(s.push.marks)
  }

  /** Threads that need g_tearingDown to stay raised. */
  predicate NeedsGate(pc: Pc) {
    InTeardown(pc) || pc == Evicting(true) || pc == Waiting(ExitLock) || pc == Waiting(ExitDrain)
  }

  ghost predicate GateOk(s: State) {
    && !s.flags.clash
    && forall t | t in s.threads && NeedsGate(s.threads[t]) :: s.flags.tearing
  }

  /** The threads past gcs_shutdown's handle check or inside the exit hook. */
  function Tearing(s: State): set<Tid> {
    set t | t in s.threads && Tears(s.threads[t])
  }

  // ---- what one step may do -----------------------------------------------------------------

  ghost predicate OneMoves(s: State, t: Tid, s': State) {
    t in s.threads && t in s'.threads && s'.threads == s.threads[t := s'.threads[t]]
  }

  ghost predicate SdkRule(s: State, t: Tid, s': State)
    requires OneMoves(s, t, s')
  {
    var was, now := TakesNodeDown(s.threads[t]), TakesNodeDown(s'.threads[t]);
    (now ==> s'.threads[t].stage.Quiescing?) && (WorkerPc(s.threads[t]) ==> WorkerPc(s'.threads[t])) &&
    (    || (s'.sdk == s.sdk && was == now)
    || (!was && !now && (s'.sdk == Booted(s.sdk) || s'.sdk == Unbooted(Booted(s.sdk))))
    || (was && !now && s'.sdk == NodeDown(s.sdk))
    || (!was && now && s.sdk.bootedHere && s'.sdk == s.sdk.(bootedHere := false, handed := Some(t))))
  }

  ghost predicate PushRule(s: State, s': State) {
    || (s'.push == s.push && (s.push.port ==> s'.installed == s.installed))
    || (s.push.port && s'.installed == s.installed && s'.push == Push(true, s.push.marks + [Posted]))
    || (s.installed.Some? && s'.installed == s.installed
        && s'.push == Push(true, s.push.marks + [Registered] + [Posted]))
    || (s'.push == Push(false, s.push.marks + [Evicted]))
  }

  ghost predicate GateRule(s: State, t: Tid, s': State)
    requires OneMoves(s, t, s')
  {
    && s'.flags.clash == s.flags.clash
    && (NeedsGate(s'.threads[t]) ==> NeedsGate(s.threads[t]) || s'.flags.tearing)
    && (s.flags.tearing && !s'.flags.tearing ==> Tears(s.threads[t]) && !NeedsGate(s'.threads[t]))
  }

  lemma SdkKept(s: State, t: Tid, s': State)
    requires BootOk(s) && OneMoves(s, t, s') && SdkRule(s, t, s')
    ensures BootOk(s')
  {}

  lemma MarkKept(marks: seq<Mark>, m: Mark)
    requires PostsOk(marks) && (m == Posted ==> Attached(marks))
    ensures PostsOk(marks + [m])
    ensures Attached(marks + [m]) == if m == Posted then Attached(marks) else m == Registered
  {
    var more := marks + [m];
    assert more[..|marks|] == marks;
    forall i | 0 <= i < |more| && more[i] == Posted ensures Attached(more[..i]) {
      assert more[..i] == marks[..i];
    }
  }

  lemma PushKept(s: State, s': State)
    requires PortOk(s) && PushRule(s, s')
    ensures PortOk(s')
  {
    var marks := s.push.marks;
    if s.push.port {
      MarkKept(marks, Posted);
    }
    MarkKept(marks, Registered);
    MarkKept(marks + [Registered], Posted);
    MarkKept(marks, Evicted);
  }

  lemma TwoIsTooMany<T>(ts: set<T>, t: T, u: T)
    requires t in ts && u in ts && t != u
    ensures |ts| >= 2
  {
    assert |{t, u}| == 2;
    SubsetSize({t, u}, ts);
  }

  lemma GateKept(s: State, t: Tid, s': State)
    requires GateOk(s) && OneMoves(s, t, s') && GateRule(s, t, s')
    requires |Tearing(s)| <= 1
    ensures GateOk(s')
  {
    forall u | u in s'.threads && NeedsGate(s'.threads[u]) ensures s'.flags.tearing {
      if u != t && !s'.flags.tearing {
        assert s.flags.tearing && Tears(s.threads[t]) && Tears(s.threads[u]);
        TwoIsTooMany(Tearing(s), t, u);
      }
    }
  }

  // ---- the steps ---------------------------------------------------------------------------

  ghost predicate FlagRule(s: State, t: Tid, s': State) {
    OneMoves(s, t, s') && SdkRule(s, t, s') && PushRule(s, s') && GateRule(s, t, s')
  }

  lemma RegisterFlags(s: State, t: Tid, h: Gen, c: Choice, tears: bool, s': State)
    requires t in s.threads && s.threads[t] == Waiting(Register(h))
    requires EntryStep(s, t, Register(h), c, tears) == Some(s')
    ensures FlagRule(s, t, s')
  {}

  lemma EntryFlags(s: State, t: Tid, e: Entry, c: Choice, tears: bool, s': State)
    requires t in s.threads && s.threads[t] == Waiting(e) && EntryStep(s, t, e, c, tears) == Some(s')
    ensures FlagRule(s, t, s')
            || (e.Init? && s.installed.None? && !s.flags.tearing && s' == Install(s, t, Booted(s.sdk), tears))
  {
    match e {
      case Init =>
      case Publish(h) =>
      case Register(h) => RegisterFlags(s, t, h, c, tears, s');
      case _ =>
    }
  }

  lemma CommandFlags(s: State, t: Tid, g: Gen, h: Hold, at: CommandAt, c: Choice, blocked: bool, s': State)
    requires t in s.threads && s.threads[t] == Commanding(g, h, at) && g in s.comps
    requires CommandStep(s, t, g, at, c, blocked) == Some(s')
    ensures FlagRule(s, t, s')
  {}

  lemma SendFlags(s: State, t: Tid, g: Gen, h: Hold, w: WindowAt, c: Choice, live: bool, heal: bool, s': State)
    requires t in s.threads && s.threads[t] == InWindow(g, h, w) && g in s.comps
    requires SendStep(s, t, g, w, c, live, heal) == Some(s')
    ensures FlagRule(s, t, s')
  {}

  lemma BridgeFlags(s: State, t: Tid, e: Entry, s': State)
    requires t in s.threads && s.threads[t] == Waiting(e) && BridgeStep(s, t, e) == Some(s')
    ensures FlagRule(s, t, s')
  {}

  lemma FunnelFlags(s: State, t: Tid, g: Gen, h: Hold, w: WindowAt, c: Choice, throws: bool, s': State)
    requires t in s.threads && s.threads[t] == InWindow(g, h, w) && g in s.comps
    requires FunnelStep(s, t, g, w, c, throws) == Some(s')
    ensures FlagRule(s, t, s')
  {}

  lemma WorkerFlags(s: State, t: Tid, pc: Pc, heal: bool, s': State)
    requires t in s.threads && s.threads[t] == pc && WorkerPc(pc) && WorkerStep(s, t, pc, heal) == Some(s')
    ensures FlagRule(s, t, s')
  {}

  lemma DrainFlags(cfg: Config, s: State, t: Tid, e: Entry, c: Choice, s': State)
    requires t in s.threads && s.threads[t] == Waiting(e) && DrainStep(cfg, s, t, e, c) == Some(s')
    ensures FlagRule(s, t, s')
  {}

  lemma DestroyFlags(s: State, t: Tid, live: bool, heal: bool, s': State)
    requires t in s.threads && s.threads[t].Destroying? && DestroyStep(s, t, s.threads[t], live, heal) == Some(s')
    requires s.threads[t].booted ==> s.threads[t].stage.Quiescing?
    ensures FlagRule(s, t, s')
  {}

  lemma EvictFlags(s: State, t: Tid, exit: bool)
    requires t in s.threads && s.threads[t] == Evicting(exit) && PortOk(s) && BootOk(s)
    ensures FlagRule(s, t, EvictBody(s, t, exit))
  {}

  lemma WindowFlags(cfg: Config, s: State, t: Tid, g: Gen, h: Hold, w: WindowAt, c: Choice, s': State)
    requires t in s.threads && s.threads[t] == InWindow(g, h, w) && MoveStep(cfg, s, t, c) == Some(s')
    ensures FlagRule(s, t, s')
  {
    if OnRoute(s.threads[t], Live) || OnRoute(s.threads[t], Heal) {
      FunnelFlags(s, t, g, h, w, c, Doomed(s.threads[t]), s');
    } else {
      SendFlags(s, t, g, h, w, c, Busy(s, Live), Busy(s, Heal), s');
    }
  }

  lemma MoveFlags(cfg: Config, s: State, t: Tid, c: Choice, s': State)
    requires BootOk(s) && PortOk(s) && t in s.threads && MoveStep(cfg, s, t, c) == Some(s')
    ensures FlagRule(s, t, s')
            || (s.threads[t] == Waiting(Init) && s.installed.None? && !s.flags.tearing
                && s' == Install(s, t, Booted(s.sdk), SomeoneTears(s)))
  {
    match s.threads[t] {
      case Waiting(e) =>
        if e.Init? || e.Publish? || e.Register? {
          EntryFlags(s, t, e, c, SomeoneTears(s), s');
        } else if e.Gate? || e.Callback? {
          BridgeFlags(s, t, e, s');
        } else {
          DrainFlags(cfg, s, t, e, c, s');
        }
      case Commanding(g, h, at) =>
        CommandFlags(s, t, g, h, at, c, cfg.entityPutWaits && Busy(s, Heal), s');
      case InWindow(g, h, w) => WindowFlags(cfg, s, t, g, h, w, c, s');
      case Evicting(exit) => EvictFlags(s, t, exit);
      case Destroying(_, _, _, _, _) => DestroyFlags(s, t, Busy(s, Live), Busy(s, Heal), s');
      case Idle => WorkerFlags(s, t, s.threads[t], Busy(s, Heal), s');
      case Picking => WorkerFlags(s, t, s.threads[t], Busy(s, Heal), s');
      case Putting(_) => WorkerFlags(s, t, s.threads[t], Busy(s, Heal), s');
      case _ =>
    }
  }

  lemma InstallFlags(s: State, t: Tid, tears: bool)
    requires BootOk(s) && PortOk(s) && t in s.threads && s.threads[t] == Waiting(Init) && s.installed.None?
    ensures BootOk(Install(s, t, Booted(s.sdk), tears)) && PortOk(Install(s, t, Booted(s.sdk), tears))
  {}

  lemma StepFlags(cfg: Config, s: State, a: Action, s': State)
    requires BootOk(s) && PortOk(s) && Step(cfg, s, a) == Some(s')
    ensures BootOk(s') && PortOk(s')
  {
    match a {
      case Move(t, c) =>
        MoveFlags(cfg, s, t, c, s');
        if FlagRule(s, t, s') {
          SdkKept(s, t, s');
          PushKept(s, s');
        } else {
          InstallFlags(s, t, SomeoneTears(s));
        }
      case _ =>
    }
  }

  lemma StepGate(cfg: Config, s: State, a: Action, s': State)
    requires BootOk(s) && PortOk(s) && GateOk(s) && |Tearing(s)| <= 1 && Step(cfg, s, a) == Some(s')
    ensures GateOk(s')
  {
    match a {
      case Move(t, c) =>
        MoveFlags(cfg, s, t, c, s');
        if FlagRule(s, t, s') {
          GateKept(s, t, s');
        }
      case _ =>
    }
  }

  lemma {:induction false} RunFlags(cfg: Config, s: State, acts: seq<Action>, s': State)
    requires BootOk(s) && PortOk(s) && Run(cfg, s, acts) == Some(s')
    ensures BootOk(s') && PortOk(s')
    decreases |acts|
  {
    if acts != [] {
      var s1 := Step(cfg, s, acts[0]).value;
      StepFlags(cfg, s, acts[0], s1);
      RunFlags(cfg, s1, acts[1..], s');
    }
  }

  /** At most k threads are tearing down in every state of the schedule. */
  ghost predicate Overlap(cfg: Config, s: State, acts: seq<Action>, k: nat)
    requires Run(cfg, s, acts).Some?
    decreases |acts|
  {
    |Tearing(s)| <= k && (acts != [] ==> Overlap(cfg, Step(cfg, s, acts[0]).value, acts[1..], k))
  }

  lemma {:induction false} RunGate(cfg: Config, s: State, acts: seq<Action>, s': State)
    requires BootOk(s) && PortOk(s) && GateOk(s) && Run(cfg, s, acts) == Some(s') && Overlap(cfg, s, acts, 1)
    ensures GateOk(s')
    decreases |acts|
  {
    if acts != [] {
      var s1 := Step(cfg, s, acts[0]).value;
      StepFlags(cfg, s, acts[0], s1);
      StepGate(cfg, s, acts[0], s1);
      RunGate(cfg, s1, acts[1..], s');
    }
  }
}
