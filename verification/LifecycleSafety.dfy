/** Every step keeps the invariants, so every schedule does. */
module LifecycleSafety {
  import opened Basics
  import opened Lifecycle
  import opened LifecycleInvariants

  lemma CommandRule(s: State, t: Tid, g: Gen, h: Hold, at: CommandAt, c: Choice, blocked: bool, s': State)
    requires Local(s, t) && s.threads[t] == Commanding(g, h, at)
    requires CommandStep(s, t, g, at, c, blocked) == Some(s')
    ensures Rule(s, t, s')
  {}

  lemma SendRule(s: State, t: Tid, g: Gen, h: Hold, w: WindowAt, c: Choice, live: bool, heal: bool, s': State)
    requires Local(s, t) && s.threads[t] == InWindow(g, h, w)
    requires SendStep(s, t, g, w, c, live, heal) == Some(s')
    ensures Rule(s, t, s')
  {
    match w {
      case Subscribing =>
      case Subscribed =>
      case SendWantsSeen =>
      case SendMarks =>
      case SendPending =>
      case SendPut =>
      case SendTerminal =>
      case Sent =>
      case _ =>
    }
  }

  lemma FunnelSeenRule(s: State, t: Tid, g: Gen, h: Hold, w: WindowAt, c: Choice, throws: bool, s': State)
    requires Local(s, t) && s.threads[t] == InWindow(g, h, w) && (w.FunnelWantsSeen? || w.FunnelMarks?)
    requires FunnelStep(s, t, g, w, c, throws) == Some(s')
    ensures Rule(s, t, s')
  {}

  lemma FunnelArchRule(s: State, t: Tid, g: Gen, h: Hold, w: WindowAt, c: Choice, throws: bool, s': State)
    requires Local(s, t) && s.threads[t] == InWindow(g, h, w) && !w.FunnelWantsSeen? && !w.FunnelMarks?
    requires FunnelStep(s, t, g, w, c, throws) == Some(s')
    ensures Rule(s, t, s')
  {}

  lemma FunnelRule(s: State, t: Tid, g: Gen, h: Hold, w: WindowAt, c: Choice, throws: bool, s': State)
    requires Local(s, t) && s.threads[t] == InWindow(g, h, w)
    requires FunnelStep(s, t, g, w, c, throws) == Some(s')
    ensures Rule(s, t, s')
  {
    if w.FunnelWantsSeen? || w.FunnelMarks? {
      FunnelSeenRule(s, t, g, h, w, c, throws, s');
    } else {
      FunnelArchRule(s, t, g, h, w, c, throws, s');
    }
  }

  lemma BridgeRule(s: State, t: Tid, e: Entry, s': State)
    requires Local(s, t) && s.threads[t] == Waiting(e)
    requires BridgeStep(s, t, e) == Some(s')
    ensures Rule(s, t, s')
  {}

  lemma WorkerKeepsAccount(s: State, t: Tid, heal: bool, s': State)
    requires Local(s, t) && WorkerPc(s.threads[t])
    requires WorkerStep(s, t, s.threads[t], heal) == Some(s')
    ensures t.g in s'.comps && CompOk(s'.comps[t.g], s'.threads[t]) && s'.threads[Worker(t.g)] == s'.threads[t]
  {
    match s.threads[t] {
      case Idle =>
      case Picking =>
      case Putting(i) =>
      case _ =>
    }
  }

  lemma WorkerRule(s: State, t: Tid, heal: bool, s': State)
    requires Local(s, t) && WorkerPc(s.threads[t])
    requires WorkerStep(s, t, s.threads[t], heal) == Some(s')
    ensures Rule(s, t, s')
  {
    WorkerKeepsAccount(s, t, heal, s');
  }

  /** A thread without lock or pointer changes no component. */
  predicate Bare(pc: Pc) {
    pc.Done? || pc.Waiting? || pc.Evicting?
    || (pc.Commanding? && pc.holds.Nothing?) || (pc.InWindow? && pc.holds.Nothing?)
  }

  lemma BareRule(s: State, t: Tid, s': State)
    requires Local(s, t) && s.threads[t].Waiting? && s'.comps == s.comps
    requires OneThread(s, t, s') && MutexRule(s, t, s') && CountRule(s, t, s') && PinRule(s, t, s')
    requires Bare(s'.threads[t])
    ensures Rule(s, t, s')
  {}

  lemma DrainRule(cfg: Config, s: State, t: Tid, e: Entry, c: Choice, s': State)
    requires Local(s, t) && s.threads[t] == Waiting(e) && !cfg.exitMayTimeOut
    requires DrainStep(cfg, s, t, e, c) == Some(s')
    ensures Rule(s, t, s')
  {
    assert Bare(s'.threads[t]) && s'.comps == s.comps && OneThread(s, t, s') && MutexRule(s, t, s');
    BareRule(s, t, s');
  }

  lemma EntryRule(s: State, t: Tid, e: Entry, c: Choice, tears: bool, s': State)
    requires Local(s, t) && s.threads[t] == Waiting(e) && !e.Init?
    requires EntryStep(s, t, e, c, tears) == Some(s')
    ensures Rule(s, t, s')
  {
    assert Bare(s'.threads[t]) && s'.comps == s.comps && OneThread(s, t, s') && MutexRule(s, t, s');
    BareRule(s, t, s');
  }

  lemma DestroyKeepsComp(s: State, t: Tid, g: Gen, live: bool, heal: bool, s': State)
    requires Local(s, t) && s.threads[t].Destroying? && s.threads[t].own == Some(g)
    requires DestroyStep(s, t, s.threads[t], live, heal) == Some(s')
    ensures OneThread(s, t, s') && LockRule(s, t, s') && CompRule(s, t, s')
  {
    match s.threads[t].stage {
      case Quiescing =>
      case Stopping =>
      case Joining =>
      case Closing =>
      case Freeing =>
    }
  }

  lemma DestroyRule(s: State, t: Tid, live: bool, heal: bool, s': State)
    requires Local(s, t) && s.threads[t].Destroying?
    requires DestroyStep(s, t, s.threads[t], live, heal) == Some(s')
    ensures Rule(s, t, s')
  {
    if s.threads[t].own.Some? {
      DestroyKeepsComp(s, t, s.threads[t].own.value, live, heal, s');
    }
  }

  lemma WindowRule(cfg: Config, s: State, t: Tid, g: Gen, h: Hold, w: WindowAt, c: Choice, s': State)
    requires Local(s, t) && s.threads[t] == InWindow(g, h, w)
    requires MoveStep(cfg, s, t, c) == Some(s')
    ensures Rule(s, t, s')
  {
    if OnRoute(s.threads[t], Live) || OnRoute(s.threads[t], Heal) {
      FunnelRule(s, t, g, h, w, c, Doomed(s.threads[t]), s');
    } else {
      SendRule(s, t, g, h, w, c, Busy(s, Live), Busy(s, Heal), s');
    }
  }

  // ---- the two steps that change what is installed -------------------------------------------

  lemma InstallThreads(s: State, t: Tid, k: Sdk, tears: bool)
    requires MutexOk(s) && CountOk(s) && PinnedOk(s) && t in s.threads && s.threads[t] == Waiting(Init)
    requires s.mutex.None? && s.installed.None?
    requires Worker(s.nextGen) !in s.threads
    ensures MutexOk(Install(s, t, k, tears)) && CountOk(Install(s, t, k, tears)) && PinnedOk(Install(s, t, k, tears))
  {
    assert Counted(Install(s, t, k, tears)) == Counted(s);
  }

  lemma InstallComps(s: State, t: Tid, k: Sdk, tears: bool)
    requires CompsOk(s) && OwnersOk(s) && t in s.threads && s.threads[t] == Waiting(Init)
    ensures CompsOk(Install(s, t, k, tears)) && OwnersOk(Install(s, t, k, tears))
  {
    var g := s.nextGen;
    assert g !in s.comps && Worker(g) !in s.threads;
  }

  lemma InstallHolds(s: State, t: Tid, k: Sdk, tears: bool)
    requires HoldsOk(s) && CompsOk(s) && t in s.threads && s.threads[t] == Waiting(Init)
    ensures HoldsOk(Install(s, t, k, tears))
  {
    assert s.nextGen !in s.comps && Worker(s.nextGen) !in s.threads;
  }

  lemma InstallHolders(s: State, t: Tid, k: Sdk, tears: bool)
    requires HoldersOk(s) && CompsOk(s) && t in s.threads && s.threads[t] == Waiting(Init)
    ensures HoldersOk(Install(s, t, k, tears))
  {
    assert s.nextGen !in s.comps && Worker(s.nextGen) !in s.threads;
  }

  lemma InstallInv(s: State, t: Tid, k: Sdk, tears: bool)
    requires Inv(s) && t in s.threads && s.threads[t] == Waiting(Init)
    requires s.mutex.None? && s.installed.None?
    ensures Inv(Install(s, t, k, tears))
  {
    InstallThreads(s, t, k, tears);
    InstallHolds(s, t, k, tears);
    InstallHolders(s, t, k, tears);
    InstallComps(s, t, k, tears);
  }

  /** A drained count means no thread is left in a window. */
  lemma NobodyFlies(s: State)
    requires CountOk(s) && s.inFlight == 0
    ensures forall u | u in s.threads :: !s.threads[u].InWindow?
  {
    forall u | u in s.threads ensures !s.threads[u].InWindow? {
      assert u !in Counted(s);
    }
  }

  lemma EvictThreads(s: State, t: Tid, exit: bool)
    requires MutexOk(s) && CountOk(s) && PinnedOk(s) && t in s.threads && s.threads[t] == Evicting(exit)
    ensures MutexOk(EvictBody(s, t, exit)) && CountOk(EvictBody(s, t, exit)) && PinnedOk(EvictBody(s, t, exit))
  {
    assert Counted(EvictBody(s, t, exit)) == Counted(s);
    NobodyFlies(s);
  }

  lemma EvictHolds(s: State, t: Tid, exit: bool)
    requires HoldsOk(s) && t in s.threads && s.threads[t] == Evicting(exit)
    ensures HoldsOk(EvictBody(s, t, exit))
  {}

  lemma EvictHolders(s: State, t: Tid, exit: bool)
    requires HoldersOk(s) && t in s.threads && s.threads[t] == Evicting(exit)
    ensures HoldersOk(EvictBody(s, t, exit))
  {}

  lemma EvictOwners(s: State, t: Tid, exit: bool)
    requires OwnersOk(s) && CompsOk(s) && t in s.threads && s.threads[t] == Evicting(exit)
    ensures OwnersOk(EvictBody(s, t, exit))
  {}

  lemma EvictComps(s: State, t: Tid, exit: bool)
    requires CompsOk(s) && t in s.threads && s.threads[t] == Evicting(exit)
    ensures CompsOk(EvictBody(s, t, exit))
  {}

  lemma EvictInv(s: State, t: Tid, exit: bool)
    requires Inv(s) && t in s.threads && s.threads[t] == Evicting(exit)
    ensures Inv(EvictBody(s, t, exit))
  {
    EvictThreads(s, t, exit);
    EvictHolds(s, t, exit);
    EvictHolders(s, t, exit);
    EvictComps(s, t, exit);
    EvictOwners(s, t, exit);
  }

  // ---- every step, every schedule ---------------------------------------------------------

  lemma InitFails(s: State, t: Tid, c: Choice, tears: bool, s': State)
    requires Local(s, t) && s.threads[t] == Waiting(Init)
    requires EntryStep(s, t, Init, c, tears) == Some(s')
    requires s' != Install(s, t, Booted(s.sdk), tears) || s.installed.Some?
    ensures Rule(s, t, s')
  {
    assert s'.threads[t] == Done && s'.comps == s.comps && OneThread(s, t, s');
    BareRule(s, t, s');
  }

  lemma InitInv(s: State, t: Tid, c: Choice, tears: bool, s': State)
    requires Inv(s) && t in s.threads && s.threads[t] == Waiting(Init)
    requires EntryStep(s, t, Init, c, tears) == Some(s')
    ensures Inv(s')
  {
    if s' == Install(s, t, Booted(s.sdk), tears) && s.installed.None? {
      InstallInv(s, t, Booted(s.sdk), tears);
    } else {
      InvLocal(s, t);
      InitFails(s, t, c, tears, s');
      RuleInv(s, t, s');
    }
  }

  lemma WaitingInv(cfg: Config, s: State, t: Tid, e: Entry, c: Choice, s': State)
    requires Inv(s) && !cfg.exitMayTimeOut && t in s.threads && s.threads[t] == Waiting(e)
    requires MoveStep(cfg, s, t, c) == Some(s')
    ensures Inv(s')
  {
    InvLocal(s, t);
    if e.Init? {
      InitInv(s, t, c, SomeoneTears(s), s');
    } else if e.Publish? || e.Register? {
      EntryRule(s, t, e, c, SomeoneTears(s), s');
      RuleInv(s, t, s');
    } else if e.Gate? || e.Callback? {
      BridgeRule(s, t, e, s');
      RuleInv(s, t, s');
    } else {
      DrainRule(cfg, s, t, e, c, s');
      RuleInv(s, t, s');
    }
  }

  /** A thread under the mutex, in a window, tearing down, or draining the archive. */
  lemma MoveRule(cfg: Config, s: State, t: Tid, c: Choice, s': State)
    requires Local(s, t) && MoveStep(cfg, s, t, c) == Some(s') && !s.threads[t].Waiting? && !s.threads[t].Evicting?
    ensures Rule(s, t, s')
  {
    match s.threads[t] {
      case Commanding(g, h, at) => CommandRule(s, t, g, h, at, c, cfg.entityPutWaits && Busy(s, Heal), s');
      case InWindow(g, h, w) => WindowRule(cfg, s, t, g, h, w, c, s');
      case Destroying(_, _, _, _, _) => DestroyRule(s, t, Busy(s, Live), Busy(s, Heal), s');
      case Idle => WorkerRule(s, t, Busy(s, Heal), s');
      case Picking => WorkerRule(s, t, Busy(s, Heal), s');
      case Putting(_) => WorkerRule(s, t, Busy(s, Heal), s');
      case _ =>
    }
  }

  lemma MoveInv(cfg: Config, s: State, t: Tid, c: Choice, s': State)
    requires Inv(s) && !cfg.exitMayTimeOut && t in s.threads
    requires MoveStep(cfg, s, t, c) == Some(s')
    ensures Inv(s')
  {
    if s.threads[t].Waiting? {
      WaitingInv(cfg, s, t, s.threads[t].entry, c, s');
    } else if s.threads[t].Evicting? {
      EvictInv(s, t, s.threads[t].exit);
    } else {
      InvLocal(s, t);
      MoveRule(cfg, s, t, c, s');
      RuleInv(s, t, s');
    }
  }

  lemma SpawnLocks(s: State, n: nat, e: Entry)
    requires LocksOk(s) && User(n) !in s.threads
    ensures LocksOk(At(s, User(n), Waiting(e)))
  {}

  lemma SpawnOwners(s: State, n: nat, e: Entry)
    requires OwnersOk(s) && PinnedOk(s) && CompsOk(s) && User(n) !in s.threads
    ensures var s' := At(s, User(n), Waiting(e)); OwnersOk(s') && PinnedOk(s') && CompsOk(s')
  {}

  lemma SpawnInv(s: State, n: nat, e: Entry)
    requires Inv(s) && User(n) !in s.threads
    ensures Inv(At(s, User(n), Waiting(e)))
  {
    var s' := At(s, User(n), Waiting(e));
    assert Counted(s') == Counted(s);
    SpawnLocks(s, n, e);
    SpawnOwners(s, n, e);
  }

  lemma StepInv(cfg: Config, s: State, a: Action, s': State)
    requires Inv(s) && !cfg.exitMayTimeOut && Step(cfg, s, a) == Some(s')
    ensures Inv(s')
  {
    match a {
      case Move(t, c) => MoveInv(cfg, s, t, c, s');
      case Spawn(n, e) => SpawnInv(s, n, e);
      case HostBoot => assert Counted(s') == Counted(s);
      case HostStop => assert Counted(s') == Counted(s);
    }
  }

  lemma {:induction false} RunInv(cfg: Config, s: State, acts: seq<Action>, s': State)
    requires Inv(s) && !cfg.exitMayTimeOut && Run(cfg, s, acts) == Some(s')
    ensures Inv(s')
    decreases |acts|
  {
    if acts != [] {
      var s1 := Step(cfg, s, acts[0]).value;
      StepInv(cfg, s, acts[0], s1);
      RunInv(cfg, s1, acts[1..], s');
    }
  }
}
