/** What a single move may change, in whatever state it is taken. */
module LifecycleMoves {
  import opened Basics
  import opened Lifecycle
  import opened LifecycleInvariants

  /** A callback that is past the intake gate: on its way to the funnel, or in it. */
  predicate LetIn(pc: Pc) {
    match pc
    case Waiting(e) => e.Callback?
    case InWindow(_, _, w) =>
      w.FunnelWantsSeen? || w.FunnelMarks? || w.FunnelPush? || w.FunnelWantsArch? || w.FunnelQueues? || w.FunnelDone?
    case _ => false
  }

  /** t alone moves: it builds no session, lowers no gate and passes none that is up, picks up no stray key,
      and from an entry point it touches no component. */
  ghost predicate Moved(s: State, t: Tid, s': State) {
    && t in s.threads && t in s'.threads && s'.threads == s.threads[t := s'.threads[t]]
    && s'.nextGen == s.nextGen && (s.flags.disabled ==> s'.flags.disabled)
    && (s.flags.disabled && LetIn(s'.threads[t]) ==> LetIn(s.threads[t]))
    && (Tidy(s.threads[t]) ==> Tidy(s'.threads[t]))
    && (s.threads[t].Waiting? ==> s'.comps == s.comps && s'.installed == s.installed)
  }

  lemma InitMoved(s: State, t: Tid, c: Choice, tears: bool, s': State)
    requires t in s.threads && s.threads[t] == Waiting(Init) && EntryStep(s, t, Init, c, tears) == Some(s')
    ensures Moved(s, t, s') || (s.installed.None? && s' == Install(s, t, Booted(s.sdk), tears))
  {}

  lemma EntryMoved(s: State, t: Tid, e: Entry, c: Choice, tears: bool, s': State)
    requires t in s.threads && !e.Init? && EntryStep(s, t, e, c, tears) == Some(s')
    ensures Moved(s, t, s')
  {}

  lemma BridgeMoved(s: State, t: Tid, e: Entry, s': State)
    requires t in s.threads && s.threads[t] == Waiting(e) && BridgeStep(s, t, e) == Some(s')
    ensures Moved(s, t, s')
  {}

  lemma DrainMoved(cfg: Config, s: State, t: Tid, e: Entry, c: Choice, s': State)
    requires t in s.threads && DrainStep(cfg, s, t, e, c) == Some(s')
    ensures Moved(s, t, s')
  {}

  lemma CommandMoved(s: State, t: Tid, g: Gen, h: Hold, at: CommandAt, c: Choice, blocked: bool, s': State)
    requires t in s.threads && s.threads[t] == Commanding(g, h, at) && g in s.comps
    requires CommandStep(s, t, g, at, c, blocked) == Some(s')
    ensures Moved(s, t, s')
  {}

  lemma SendMoved(s: State, t: Tid, g: Gen, h: Hold, w: WindowAt, c: Choice, live: bool, heal: bool, s': State)
    requires t in s.threads && s.threads[t] == InWindow(g, h, w) && g in s.comps
    requires SendStep(s, t, g, w, c, live, heal) == Some(s')
    ensures Moved(s, t, s')
  {}

  lemma FunnelMoved(s: State, t: Tid, g: Gen, h: Hold, w: WindowAt, c: Choice, s': State)
    requires t in s.threads && s.threads[t] == InWindow(g, h, w) && g in s.comps
    requires FunnelStep(s, t, g, w, c, Doomed(s.threads[t])) == Some(s')
    ensures Moved(s, t, s')
  {}

  lemma DestroyMoved(s: State, t: Tid, live: bool, heal: bool, s': State)
    requires t in s.threads && s.threads[t].Destroying? && DestroyStep(s, t, s.threads[t], live, heal) == Some(s')
    ensures Moved(s, t, s')
  {}

  lemma WorkerMoved(s: State, t: Tid, heal: bool, s': State)
    requires t in s.threads && WorkerPc(s.threads[t]) && WorkerStep(s, t, s.threads[t], heal) == Some(s')
    ensures Moved(s, t, s')
  {}

  lemma WaitingMoved(cfg: Config, s: State, t: Tid, e: Entry, c: Choice, s': State)
    requires t in s.threads && s.threads[t] == Waiting(e) && MoveStep(cfg, s, t, c) == Some(s')
    ensures Moved(s, t, s') || (s.installed.None? && s' == Install(s, t, Booted(s.sdk), SomeoneTears(s)))
  {
    if e.Init? {
      InitMoved(s, t, c, SomeoneTears(s), s');
    } else if e.Publish? || e.Register? {
      EntryMoved(s, t, e, c, SomeoneTears(s), s');
    } else if e.Gate? || e.Callback? {
      BridgeMoved(s, t, e, s');
    } else {
      DrainMoved(cfg, s, t, e, c, s');
    }
  }

  /** Every move is of this kind, unless it builds a session. */
  lemma MoveMoved(cfg: Config, s: State, t: Tid, c: Choice, s': State)
    requires t in s.threads && MoveStep(cfg, s, t, c) == Some(s')
    ensures Moved(s, t, s')
            || (s.threads[t].Waiting? && s.installed.None? && s' == Install(s, t, Booted(s.sdk), SomeoneTears(s)))
  {
    match s.threads[t] {
      case Waiting(e) => WaitingMoved(cfg, s, t, e, c, s');
      case Commanding(g, h, at) => CommandMoved(s, t, g, h, at, c, cfg.entityPutWaits && Busy(s, Heal), s');
      case InWindow(g, h, w) =>
        if OnRoute(s.threads[t], Live) || OnRoute(s.threads[t], Heal) {
          FunnelMoved(s, t, g, h, w, c, s');
        } else {
          SendMoved(s, t, g, h, w, c, Busy(s, Live), Busy(s, Heal), s');
        }
      case Destroying(_, _, _, _, _) => DestroyMoved(s, t, Busy(s, Live), Busy(s, Heal), s');
      case Idle => WorkerMoved(s, t, Busy(s, Heal), s');
      case Picking => WorkerMoved(s, t, Busy(s, Heal), s');
      case Putting(_) => WorkerMoved(s, t, Busy(s, Heal), s');
      case _ =>
    }
  }

  // ---- no exception without a stray key --------------------------------------------------------

  lemma MoveKeepsClean(cfg: Config, s: State, t: Tid, c: Choice, s': State)
    requires Clean(s) && t in s.threads && MoveStep(cfg, s, t, c) == Some(s')
    ensures Clean(s')
  {
    MoveMoved(cfg, s, t, c, s');
  }

  lemma StepKeepsClean(cfg: Config, s: State, a: Action, s': State)
    requires Clean(s) && !cfg.strayKeys && Step(cfg, s, a) == Some(s')
    ensures Clean(s')
  {
    match a {
      case Move(t, c) => MoveKeepsClean(cfg, s, t, c, s');
      case Spawn(n, e) => assert !Doomed(Waiting(e));
      case _ =>
    }
  }

  /** Where no heal callback is handed a stray key, none ever leaves by an exception. */
  lemma {:induction false} RunClean(cfg: Config, s: State, acts: seq<Action>, s': State)
    requires Clean(s) && !cfg.strayKeys && Run(cfg, s, acts) == Some(s')
    ensures Clean(s')
    decreases |acts|
  {
    if acts != [] {
      var s1 := Step(cfg, s, acts[0]).value;
      StepKeepsClean(cfg, s, acts[0], s1);
      RunClean(cfg, s1, acts[1..], s');
    }
  }
}
