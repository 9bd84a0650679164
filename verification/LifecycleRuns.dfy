/** Concrete schedules that show where the guarantees end. */
module LifecycleRuns {
  import opened Basics
  import opened Lifecycle
  import opened LifecycleFlags
  import KeyGrammar

  lemma {:induction false} Extend(cfg: Config, s0: State, acts: seq<Action>, s: State, a: Action, s': State)
    requires Run(cfg, s0, acts) == Some(s) && Step(cfg, s, a) == Some(s')
    ensures Run(cfg, s0, acts + [a]) == Some(s')
    decreases |acts|
  {
    if acts == [] {
      assert [a][1..] == [];
      assert Run(cfg, s', []) == Some(s');
    } else {
      var s1 := Step(cfg, s0, acts[0]).value;
      Extend(cfg, s1, acts[1..], s, a, s');
      assert (acts + [a])[1..] == acts[1..] + [a];
    }
  }

  lemma {:induction false} ExtendOverlap(cfg: Config, s0: State, acts: seq<Action>, s: State, a: Action, s': State,
                                         k: nat)
    requires Run(cfg, s0, acts) == Some(s) && Step(cfg, s, a) == Some(s')
    requires Overlap(cfg, s0, acts, k) && |Tearing(s')| <= k
    ensures Run(cfg, s0, acts + [a]) == Some(s') && Overlap(cfg, s0, acts + [a], k)
    decreases |acts|
  {
    Extend(cfg, s0, acts, s, a, s');
    if acts == [] {
      assert [a][1..] == [];
    } else {
      var s1 := Step(cfg, s0, acts[0]).value;
      ExtendOverlap(cfg, s1, acts[1..], s, a, s', k);
      assert (acts + [a])[1..] == acts[1..] + [a];
    }
  }

  /** Some schedule leads here, with at most k threads tearing down at any time. */
  ghost predicate Reached(cfg: Config, s: State, k: nat) {
    exists acts :: Run(cfg, START, acts) == Some(s) && Overlap(cfg, START, acts, k)
  }

  lemma Begin(cfg: Config, k: nat)
    ensures Reached(cfg, START, k)
  {
    assert Tearing(START) == {};
    assert Run(cfg, START, []) == Some(START) && Overlap(cfg, START, [], k);
  }

  lemma Next(cfg: Config, s: State, a: Action, s': State, k: nat, ts: set<Tid>)
    requires Reached(cfg, s, k) && Step(cfg, s, a) == Some(s')
    requires Tearing(s') <= ts && |ts| <= k
    ensures Reached(cfg, s', k)
  {
    var acts :| Run(cfg, START, acts) == Some(s) && Overlap(cfg, START, acts, k);
    SubsetSize(Tearing(s'), ts);
    ExtendOverlap(cfg, START, acts, s, a, s', k);
  }

  // ---- the schedules -----------------------------------------------------------------------
  //
  // User(0) runs gcs_init; what User(1) and User(2) do differs per schedule.  The state of a schedule
  // is written out: its threads, what is left of the one generation, and the flags.

  const W := Worker(0)
  const U0 := User(0)
  const U1 := User(1)
  const U2 := User(2)
  const U3 := User(3)

  const BOOTED_SDK := Sdk(EmbeddedNode, true, None, 1, 0)
  const CALM := Flags(false, false, false)
  const GATED := Flags(true, false, false)
  const RAISED := Flags(true, true, false)
  const SUB0 := InWindow(0, Nothing, Subscribing)
  const BODY0 := Commanding(0, Nothing, Body)

  /** Where the archive worker and the three callers are; a caller that has not started is None. */
  datatype Crew = Crew(w: Pc, p0: Pc, p1: Option<Pc>, p2: Option<Pc>)

  function Threads(c: Crew): map<Tid, Pc> {
    var both := map[W := c.w, U0 := c.p0];
    var three := if c.p1.Some? then both[U1 := c.p1.value] else both;
    if c.p2.Some? then three[U2 := c.p2.value] else three
  }

  /** One of the crew moves. */
  lemma Recast(c: Crew, pc: Pc)
    ensures Threads(c)[W := pc] == Threads(c.(w := pc)) && Threads(c)[U0 := pc] == Threads(c.(p0 := pc))
    ensures Threads(c)[U1 := pc] == Threads(c.(p1 := Some(pc))) && Threads(c)[U2 := pc] == Threads(c.(p2 := Some(pc)))
  {}

  function Only(comp: Comp): map<Gen, Comp> {
    map[0 := comp]
  }

  lemma OnlyUpdate(a: Comp, b: Comp)
    ensures Only(a)[0 := b] == Only(b)
  {}

  /** A state of a schedule that has built one generation and registered no port. */
  function Scene(mutex: Option<Tid>, inFlight: int, inst: Option<Gen>, c: Crew, comp: Comp,
                 flags: Flags, sdk: Sdk, marks: seq<Mark>): State {
    State(mutex, inFlight, inst, 1, Threads(c), Only(comp), flags, sdk, Push(false, marks))
  }

  function Up(mutex: Option<Tid>, inFlight: int, c: Crew, comp: Comp, flags: Flags): State {
    Scene(mutex, inFlight, Some(0), c, comp, flags, BOOTED_SDK, [])
  }

  /** Who may be tearing down. */
  function Suspects(k: nat): set<Tid> {
    if k == 0 then {} else if k == 1 then {U1} else {U1, U2}
  }

  lemma Hop(cfg: Config, s: State, a: Action, s': State, k: nat)
    requires Reached(cfg, s, k) && Step(cfg, s, a) == Some(s')
    requires forall t | t in s'.threads && t !in Suspects(k) :: !Tears(s'.threads[t])
    ensures Reached(cfg, s', k)
  {
    Next(cfg, s, a, s', k, Suspects(k));
  }

  /** A hop of User(1), the only one who may be tearing down, or of the archive worker. */
  lemma ExitHop(cfg: Config, s: State, a: Action, s': State, c: Crew)
    requires Reached(cfg, s, 1) && Step(cfg, s, a) == Some(s') && s'.threads == Threads(c)
    requires !Tears(c.w) && !Tears(c.p0) && (c.p2.Some? ==> !Tears(c.p2.value))
    ensures Reached(cfg, s', 1)
  {
    Hop(cfg, s, a, s', 1);
  }

  lemma InitWaiting(cfg: Config, k: nat)
    ensures Reached(cfg, At(START, U0, Waiting(Init)), k)
  {
    Begin(cfg, k);
    Hop(cfg, START, Spawn(0, Init), At(START, U0, Waiting(Init)), k);
  }

  lemma Installed(cfg: Config, k: nat)
    ensures Reached(cfg, Up(Some(U0), 0, Crew(Idle, BODY0, None, None), FRESH_COMP, CALM), k)
  {
    InitWaiting(cfg, k);
    var s0 := At(START, U0, Waiting(Init));
    var s1 := Up(Some(U0), 0, Crew(Idle, BODY0, None, None), FRESH_COMP, CALM);
    assert s0.threads[W := Idle][U0 := BODY0] == s1.threads && s0.comps[0 := FRESH_COMP] == s1.comps;
    assert !SomeoneTears(s0);
    Hop(cfg, s0, Move(U0, Go), s1, k);
  }

  lemma WindowStep(cfg: Config)
    ensures Step(cfg, Up(Some(U0), 0, Crew(Idle, BODY0, None, None), FRESH_COMP, CALM), Move(U0, OpenSubscribe))
            == Some(Up(None, 1, Crew(Idle, SUB0, None, None), FRESH_COMP, CALM))
  {
    var s := Up(Some(U0), 0, Crew(Idle, BODY0, None, None), FRESH_COMP, CALM);
    assert s.threads[U0] == BODY0 && 0 in s.comps;
    Recast(Crew(Idle, BODY0, None, None), SUB0);
    assert MoveStep(cfg, s, U0, OpenSubscribe)
        == CommandStep(s, U0, 0, Body, OpenSubscribe, cfg.entityPutWaits && Busy(s, Heal));
  }

  lemma Window(cfg: Config, k: nat)
    ensures Reached(cfg, Up(None, 1, Crew(Idle, SUB0, None, None), FRESH_COMP, CALM), k)
  {
    Installed(cfg, k);
    WindowStep(cfg);
    Hop(cfg, Up(Some(U0), 0, Crew(Idle, BODY0, None, None), FRESH_COMP, CALM), Move(U0, OpenSubscribe),
        Up(None, 1, Crew(Idle, SUB0, None, None), FRESH_COMP, CALM), k);
  }

  /** gcs_init has returned. */
  lemma InitDone(cfg: Config, k: nat)
    ensures Reached(cfg, Up(None, 0, Crew(Idle, Done, None, None), FRESH_COMP, CALM), k)
  {
    Installed(cfg, k);
    var c := Crew(Idle, BODY0, None, None);
    Recast(c, Done);
    Hop(cfg, Up(Some(U0), 0, c, FRESH_COMP, CALM), Move(U0, Finish(false)),
        Up(None, 0, c.(p0 := Done), FRESH_COMP, CALM), k);
  }

  // ---- heal callbacks ------------------------------------------------------------------------------

  lemma HealStarts(cfg: Config, k: nat, i: Item)
    requires cfg.strayKeys || !Stray(i)
    ensures Reached(cfg, Up(None, 0, Crew(Idle, Done, None, Some(Waiting(Gate(Heal, i)))), FRESH_COMP, CALM), k)
  {
    InitDone(cfg, k);
    var c := Crew(Idle, Done, None, None);
    Recast(c, Waiting(Gate(Heal, i)));
    Hop(cfg, Up(None, 0, c, FRESH_COMP, CALM), Spawn(2, Gate(Heal, i)),
        Up(None, 0, c.(p2 := Some(Waiting(Gate(Heal, i)))), FRESH_COMP, CALM), k);
  }

  /** User(2) is a heal callback past the receive gate. */
  lemma HealArrives(cfg: Config, k: nat, i: Item)
    requires cfg.strayKeys || !Stray(i)
    ensures Reached(cfg, Up(None, 0, Crew(Idle, Done, None, Some(Waiting(Callback(Heal, i)))), FRESH_COMP, CALM), k)
  {
    HealStarts(cfg, k, i);
    var c := Crew(Idle, Done, None, Some(Waiting(Gate(Heal, i))));
    Recast(c, Waiting(Callback(Heal, i)));
    Hop(cfg, Up(None, 0, c, FRESH_COMP, CALM), Move(U2, Go),
        Up(None, 0, c.(p2 := Some(Waiting(Callback(Heal, i)))), FRESH_COMP, CALM), k);
  }

  /** It is counted, and about to enter the funnel. */
  lemma HealEnters(cfg: Config, k: nat, i: Item)
    requires cfg.strayKeys || !Stray(i)
    ensures Reached(cfg, Up(None, 1, Crew(Idle, Done, None, Some(InWindow(0, Nothing, FunnelWantsSeen(Heal, i)))),
                            FRESH_COMP, CALM), k)
  {
    HealArrives(cfg, k, i);
    var c := Crew(Idle, Done, None, Some(Waiting(Callback(Heal, i))));
    var pc := InWindow(0, Nothing, FunnelWantsSeen(Heal, i));
    Recast(c, pc);
    Hop(cfg, Up(None, 0, c, FRESH_COMP, CALM), Move(U2, Go), Up(None, 1, c.(p2 := Some(pc)), FRESH_COMP, CALM), k);
  }

  const STRAY_ITEM := ("/gcs/messages/v", "x")

  lemma StrayItemThrows()
    ensures Stray(STRAY_ITEM)
  {
    KeyGrammar.KnownFrames("");
    assert STRAY_ITEM.0 == "/" + KeyGrammar.MESSAGES_PREFIX + "v";
    KeyGrammar.OutOfRangeExactly(STRAY_ITEM.0);
  }

  lemma ThrowStep(cfg: Config)
    ensures Step(cfg, Up(None, 1, Crew(Idle, Done, None, Some(InWindow(0, Nothing, FunnelWantsSeen(Heal, STRAY_ITEM)))),
                         FRESH_COMP, CALM), Move(U2, Go))
            == Some(Up(None, 1, Crew(Idle, Done, None, Some(Leaked)), FRESH_COMP, CALM))
  {
    var pc := InWindow(0, Nothing, FunnelWantsSeen(Heal, STRAY_ITEM));
    StrayItemThrows();
    assert Doomed(pc);
    Recast(Crew(Idle, Done, None, Some(pc)), Leaked);
  }

  /** The exception leaves the callback, and the count stays. */
  lemma HealThrows(cfg: Config)
    requires cfg.strayKeys
    ensures Reached(cfg, Up(None, 1, Crew(Idle, Done, None, Some(Leaked)), FRESH_COMP, CALM), 1)
  {
    HealEnters(cfg, 1, STRAY_ITEM);
    ThrowStep(cfg);
    var c := Crew(Idle, Done, None, Some(InWindow(0, Nothing, FunnelWantsSeen(Heal, STRAY_ITEM))));
    Hop(cfg, Up(None, 1, c, FRESH_COMP, CALM), Move(U2, Go), Up(None, 1, c.(p2 := Some(Leaked)), FRESH_COMP, CALM), 1);
  }

  lemma ShutdownStarts(cfg: Config)
    requires cfg.strayKeys
    ensures Reached(cfg, Up(None, 1, Crew(Idle, Done, Some(Waiting(Shutdown(0))), Some(Leaked)), FRESH_COMP, CALM), 1)
  {
    HealThrows(cfg);
    var c := Crew(Idle, Done, None, Some(Leaked));
    Recast(c, Waiting(Shutdown(0)));
    Hop(cfg, Up(None, 1, c, FRESH_COMP, CALM), Spawn(1, Shutdown(0)),
        Up(None, 1, c.(p1 := Some(Waiting(Shutdown(0)))), FRESH_COMP, CALM), 1);
  }

  /** gcs_shutdown waits for a count nobody will take back. */
  function HungState(): State {
    Up(None, 1, Crew(Idle, Done, Some(Waiting(ShutdownDrain)), Some(Leaked)), FRESH_COMP, GATED)
  }

  lemma ShutdownHangs(cfg: Config)
    requires cfg.strayKeys
    ensures Reached(cfg, HungState(), 1)
  {
    ShutdownStarts(cfg);
    var c := Crew(Idle, Done, Some(Waiting(Shutdown(0))), Some(Leaked));
    Recast(c, Waiting(ShutdownDrain));
    Hop(cfg, Up(None, 1, c, FRESH_COMP, CALM), Move(U1, Go), HungState(), 1);
  }

  // ---- a gcs_init that no smoke topic joins --------------------------------------------------------

  /** The node is booted, the init has failed, and the node stays. */
  function SmokeFailed(): State {
    At(START, U0, Done).(sdk := BOOTED_SDK)
  }

  lemma SmokeFailsAlone(cfg: Config)
    ensures Step(cfg, At(START, U0, Waiting(Init)), Move(U0, SmokeFails)) == Some(SmokeFailed())
    ensures Reached(cfg, SmokeFailed(), 0)
  {
    InitWaiting(cfg, 0);
    var s := At(START, U0, Waiting(Init));
    assert s.threads[U0 := Done] == SmokeFailed().threads;
    Hop(cfg, s, Move(U0, SmokeFails), SmokeFailed(), 0);
  }

  // ---- an exit hook that gives up its drain -------------------------------------------------
  //
  // Whoever is in a window when the hook arrives: User(0) in p0, User(2), if it has started, in p2.

  /** Neither tears down, and neither runs on the pubsub strand. */
  predicate Bystanders(p0: Pc, p2: Option<Pc>) {
    !Tears(p0) && !OnRoute(p0, Live) && (p2.Some? ==> !Tears(p2.value) && !OnRoute(p2.value, Live))
  }

  ghost predicate Counting(cfg: Config, p0: Pc, p2: Option<Pc>) {
    cfg.exitMayTimeOut && Bystanders(p0, p2) && Reached(cfg, Up(None, 1, Crew(Idle, p0, None, p2), FRESH_COMP, CALM), 1)
  }

  /** The exit hook, whose drain starts with one operation counted, in pc. */
  function AtExit(mutex: Option<Tid>, p0: Pc, pc: Pc, p2: Option<Pc>, flags: Flags): State {
    Up(mutex, 1, Crew(Idle, p0, Some(pc), p2), FRESH_COMP, flags)
  }

  lemma ExitStarts(cfg: Config, p0: Pc, p2: Option<Pc>)
    requires Counting(cfg, p0, p2)
    ensures Reached(cfg, AtExit(None, p0, Waiting(ExitHook), p2, CALM), 1)
  {
    var c := Crew(Idle, p0, None, p2);
    Recast(c, Waiting(ExitHook));
    ExitHop(cfg, Up(None, 1, c, FRESH_COMP, CALM), Spawn(1, ExitHook),
            AtExit(None, p0, Waiting(ExitHook), p2, CALM), c.(p1 := Some(Waiting(ExitHook))));
  }

  lemma ExitLocks(cfg: Config, p0: Pc, p2: Option<Pc>)
    requires Counting(cfg, p0, p2)
    ensures Reached(cfg, AtExit(None, p0, Waiting(ExitLock), p2, RAISED), 1)
  {
    ExitStarts(cfg, p0, p2);
    Recast(Crew(Idle, p0, Some(Waiting(ExitHook)), p2), Waiting(ExitLock));
    ExitHop(cfg, AtExit(None, p0, Waiting(ExitHook), p2, CALM), Move(U1, Go),
            AtExit(None, p0, Waiting(ExitLock), p2, RAISED), Crew(Idle, p0, Some(Waiting(ExitLock)), p2));
  }

  lemma ExitWaits(cfg: Config, p0: Pc, p2: Option<Pc>)
    requires Counting(cfg, p0, p2)
    ensures Reached(cfg, AtExit(None, p0, Waiting(ExitDrain), p2, RAISED), 1)
  {
    ExitLocks(cfg, p0, p2);
    Recast(Crew(Idle, p0, Some(Waiting(ExitLock)), p2), Waiting(ExitDrain));
    ExitHop(cfg, AtExit(None, p0, Waiting(ExitLock), p2, RAISED), Move(U1, Go),
            AtExit(None, p0, Waiting(ExitDrain), p2, RAISED), Crew(Idle, p0, Some(Waiting(ExitDrain)), p2));
  }

  /** The exit hook runs out of time with an operation still in its window. */
  lemma ExitGivesUp(cfg: Config, p0: Pc, p2: Option<Pc>)
    requires Counting(cfg, p0, p2)
    ensures Reached(cfg, AtExit(Some(U1), p0, Evicting(true), p2, RAISED), 1)
  {
    ExitWaits(cfg, p0, p2);
    Recast(Crew(Idle, p0, Some(Waiting(ExitDrain)), p2), Evicting(true));
    ExitHop(cfg, AtExit(None, p0, Waiting(ExitDrain), p2, RAISED), Move(U1, Go),
            AtExit(Some(U1), p0, Evicting(true), p2, RAISED), Crew(Idle, p0, Some(Evicting(true)), p2));
  }

  const HANDED_SDK := Sdk(EmbeddedNode, false, Some(U1), 1, 0)
  const DOWN_SDK := Sdk(NoNode, false, None, 1, 1)

  /** The exit hook tears down, in pc, what is left of the generation. */
  function Gone(w: Pc, p0: Pc, pc: Pc, p2: Option<Pc>, comp: Comp, sdk: Sdk): State {
    Scene(None, 1, None, Crew(w, p0, Some(pc), p2), comp, RAISED, sdk, [Evicted])
  }

  function Dead(life: Life, arch: Option<Tid>): Comp {
    Comp(Some(U1), life, None, arch, Archive([], [], [], []))
  }

  const WHOLE := Life(false, false, true, false)
  const STOPPED := Life(true, false, true, false)
  const FREED := Life(true, true, true, false)

  function Tear(holds: Hold, stage: Stage, booted: bool): Pc {
    Destroying(Some(0), holds, stage, booted, true)
  }

  const QUIESCES := Tear(Nothing, Quiescing, true)
  const STOPS := Tear(Nothing, Stopping, false)
  const TELLS := Tear(Arch, Stopping, false)
  const JOINS := Tear(Nothing, Joining, false)
  const CLOSES := Tear(Nothing, Closing, false)

  lemma ExitEvicts(cfg: Config, p0: Pc, p2: Option<Pc>)
    requires Counting(cfg, p0, p2)
    ensures Reached(cfg, Gone(Idle, p0, QUIESCES, p2, Dead(WHOLE, None), HANDED_SDK), 1)
  {
    ExitGivesUp(cfg, p0, p2);
    Recast(Crew(Idle, p0, Some(Evicting(true)), p2), QUIESCES);
    OnlyUpdate(FRESH_COMP, Dead(WHOLE, None));
    assert [] + [Evicted] == [Evicted];
    ExitHop(cfg, AtExit(Some(U1), p0, Evicting(true), p2, RAISED), Move(U1, Go),
            Gone(Idle, p0, QUIESCES, p2, Dead(WHOLE, None), HANDED_SDK), Crew(Idle, p0, Some(QUIESCES), p2));
  }

  lemma QuiesceStep(cfg: Config, p0: Pc, p2: Option<Pc>)
    requires Bystanders(p0, p2)
    ensures Step(cfg, Gone(Idle, p0, QUIESCES, p2, Dead(WHOLE, None), HANDED_SDK), Move(U1, Go))
            == Some(Gone(Idle, p0, STOPS, p2, Dead(WHOLE, None), DOWN_SDK))
  {
    Recast(Crew(Idle, p0, Some(QUIESCES), p2), STOPS);
    assert !Busy(Gone(Idle, p0, QUIESCES, p2, Dead(WHOLE, None), HANDED_SDK), Live);
  }

  lemma ExitQuiesces(cfg: Config, p0: Pc, p2: Option<Pc>)
    requires Counting(cfg, p0, p2)
    ensures Reached(cfg, Gone(Idle, p0, STOPS, p2, Dead(WHOLE, None), DOWN_SDK), 1)
  {
    ExitEvicts(cfg, p0, p2);
    QuiesceStep(cfg, p0, p2);
    ExitHop(cfg, Gone(Idle, p0, QUIESCES, p2, Dead(WHOLE, None), HANDED_SDK), Move(U1, Go),
            Gone(Idle, p0, STOPS, p2, Dead(WHOLE, None), DOWN_SDK), Crew(Idle, p0, Some(STOPS), p2));
  }

  lemma ExitTells(cfg: Config, p0: Pc, p2: Option<Pc>)
    requires Counting(cfg, p0, p2)
    ensures Reached(cfg, Gone(Idle, p0, TELLS, p2, Dead(WHOLE, Some(U1)), DOWN_SDK), 1)
  {
    ExitQuiesces(cfg, p0, p2);
    Recast(Crew(Idle, p0, Some(STOPS), p2), TELLS);
    OnlyUpdate(Dead(WHOLE, None), Dead(WHOLE, Some(U1)));
    ExitHop(cfg, Gone(Idle, p0, STOPS, p2, Dead(WHOLE, None), DOWN_SDK), Move(U1, Go),
            Gone(Idle, p0, TELLS, p2, Dead(WHOLE, Some(U1)), DOWN_SDK), Crew(Idle, p0, Some(TELLS), p2));
  }

  lemma ExitStops(cfg: Config, p0: Pc, p2: Option<Pc>)
    requires Counting(cfg, p0, p2)
    ensures Reached(cfg, Gone(Idle, p0, JOINS, p2, Dead(STOPPED, None), DOWN_SDK), 1)
  {
    ExitTells(cfg, p0, p2);
    Recast(Crew(Idle, p0, Some(TELLS), p2), JOINS);
    OnlyUpdate(Dead(WHOLE, Some(U1)), Dead(STOPPED, None));
    ExitHop(cfg, Gone(Idle, p0, TELLS, p2, Dead(WHOLE, Some(U1)), DOWN_SDK), Move(U1, Go),
            Gone(Idle, p0, JOINS, p2, Dead(STOPPED, None), DOWN_SDK), Crew(Idle, p0, Some(JOINS), p2));
  }

  lemma ExitWakesWorker(cfg: Config, p0: Pc, p2: Option<Pc>)
    requires Counting(cfg, p0, p2)
    ensures Reached(cfg, Gone(Picking, p0, JOINS, p2, Dead(STOPPED, Some(W)), DOWN_SDK), 1)
  {
    ExitStops(cfg, p0, p2);
    Recast(Crew(Idle, p0, Some(JOINS), p2), Picking);
    OnlyUpdate(Dead(STOPPED, None), Dead(STOPPED, Some(W)));
    ExitHop(cfg, Gone(Idle, p0, JOINS, p2, Dead(STOPPED, None), DOWN_SDK), Move(W, Go),
            Gone(Picking, p0, JOINS, p2, Dead(STOPPED, Some(W)), DOWN_SDK), Crew(Picking, p0, Some(JOINS), p2));
  }

  lemma ExitDrainsWorker(cfg: Config, p0: Pc, p2: Option<Pc>)
    requires Counting(cfg, p0, p2)
    ensures Reached(cfg, Gone(Drained, p0, JOINS, p2, Dead(STOPPED, None), DOWN_SDK), 1)
  {
    ExitWakesWorker(cfg, p0, p2);
    Recast(Crew(Picking, p0, Some(JOINS), p2), Drained);
    OnlyUpdate(Dead(STOPPED, Some(W)), Dead(STOPPED, None));
    ExitHop(cfg, Gone(Picking, p0, JOINS, p2, Dead(STOPPED, Some(W)), DOWN_SDK), Move(W, Go),
            Gone(Drained, p0, JOINS, p2, Dead(STOPPED, None), DOWN_SDK), Crew(Drained, p0, Some(JOINS), p2));
  }

  lemma DestroysStep(cfg: Config, p0: Pc, p2: Option<Pc>)
    ensures Step(cfg, Gone(Drained, p0, JOINS, p2, Dead(STOPPED, None), DOWN_SDK), Move(U1, Go))
            == Some(Gone(Drained, p0, CLOSES, p2, Dead(FREED, None), DOWN_SDK))
  {
    Recast(Crew(Drained, p0, Some(JOINS), p2), CLOSES);
    OnlyUpdate(Dead(STOPPED, None), Dead(FREED, None));
  }

  lemma ExitDestroys(cfg: Config, p0: Pc, p2: Option<Pc>)
    requires Counting(cfg, p0, p2)
    ensures Reached(cfg, Gone(Drained, p0, CLOSES, p2, Dead(FREED, None), DOWN_SDK), 1)
  {
    ExitDrainsWorker(cfg, p0, p2);
    DestroysStep(cfg, p0, p2);
    ExitHop(cfg, Gone(Drained, p0, JOINS, p2, Dead(STOPPED, None), DOWN_SDK), Move(U1, Go),
            Gone(Drained, p0, CLOSES, p2, Dead(FREED, None), DOWN_SDK), Crew(Drained, p0, Some(CLOSES), p2));
  }

  /** User(0) is inside its live subscribe, and the messaging component is gone. */
  function FreedUnderUse(): State {
    Gone(Drained, SUB0, CLOSES, None, Dead(FREED, None), DOWN_SDK)
  }

  lemma ExitFrees(cfg: Config)
    requires cfg.exitMayTimeOut
    ensures Reached(cfg, FreedUnderUse(), 1)
  {
    Window(cfg, 1);
    ExitDestroys(cfg, SUB0, None);
  }

  // ---- and a callback that queues its message on what is freed --------------------------------------

  const ITEM := ("key", "value")

  lemma ItemParses()
    ensures !Stray(ITEM)
  {
    assert |ITEM.0| < |KeyGrammar.MESSAGES_PREFIX|;
  }

  const MARKS := InWindow(0, Seen, FunnelMarks(Heal, ITEM))
  const PUSHES := InWindow(0, Nothing, FunnelPush(Heal, ITEM))
  const WANTS_ARCH := InWindow(0, Nothing, FunnelWantsArch(Heal, ITEM))
  const QUEUES := InWindow(0, Arch, FunnelQueues(Heal, ITEM))
  const HAS_QUEUED := InWindow(0, Nothing, FunnelDone(Heal))

  lemma Marking(cfg: Config)
    ensures Reached(cfg, Up(None, 1, Crew(Idle, Done, None, Some(MARKS)), FRESH_COMP.(seenBy := Some(U2)), CALM), 1)
  {
    ItemParses();
    HealEnters(cfg, 1, ITEM);
    var c := Crew(Idle, Done, None, Some(InWindow(0, Nothing, FunnelWantsSeen(Heal, ITEM))));
    Recast(c, MARKS);
    OnlyUpdate(FRESH_COMP, FRESH_COMP.(seenBy := Some(U2)));
    Hop(cfg, Up(None, 1, c, FRESH_COMP, CALM), Move(U2, Go),
        Up(None, 1, c.(p2 := Some(MARKS)), FRESH_COMP.(seenBy := Some(U2)), CALM), 1);
  }

  /** A heal callback has admitted its message, and not queued it yet. */
  lemma Admitted(cfg: Config)
    ensures Reached(cfg, Up(None, 1, Crew(Idle, Done, None, Some(PUSHES)), FRESH_COMP, CALM), 1)
  {
    Marking(cfg);
    var c := Crew(Idle, Done, None, Some(MARKS));
    Recast(c, PUSHES);
    OnlyUpdate(FRESH_COMP.(seenBy := Some(U2)), FRESH_COMP);
    Hop(cfg, Up(None, 1, c, FRESH_COMP.(seenBy := Some(U2)), CALM), Move(U2, Go),
        Up(None, 1, c.(p2 := Some(PUSHES)), FRESH_COMP, CALM), 1);
  }

  lemma AboutToQueue(cfg: Config)
    ensures Reached(cfg, Up(None, 1, Crew(Idle, Done, None, Some(WANTS_ARCH)), FRESH_COMP, CALM), 1)
  {
    Admitted(cfg);
    var c := Crew(Idle, Done, None, Some(PUSHES));
    Recast(c, WANTS_ARCH);
    Hop(cfg, Up(None, 1, c, FRESH_COMP, CALM), Move(U2, Go),
        Up(None, 1, c.(p2 := Some(WANTS_ARCH)), FRESH_COMP, CALM), 1);
  }

  lemma LateStep(cfg: Config)
    ensures Step(cfg, Gone(Drained, Done, CLOSES, Some(WANTS_ARCH), Dead(FREED, None), DOWN_SDK), Move(U2, Go))
            == Some(Gone(Drained, Done, CLOSES, Some(QUEUES), Dead(FREED, Some(U2)), DOWN_SDK))
  {
    var c := Crew(Drained, Done, Some(CLOSES), Some(WANTS_ARCH));
    Recast(c, QUEUES);
    OnlyUpdate(Dead(FREED, None), Dead(FREED, Some(U2)));
  }

  lemma QueuesLate(cfg: Config)
    requires cfg.exitMayTimeOut
    ensures Reached(cfg, Gone(Drained, Done, CLOSES, Some(QUEUES), Dead(FREED, Some(U2)), DOWN_SDK), 1)
  {
    AboutToQueue(cfg);
    ExitDestroys(cfg, Done, Some(WANTS_ARCH));
    LateStep(cfg);
    ExitHop(cfg, Gone(Drained, Done, CLOSES, Some(WANTS_ARCH), Dead(FREED, None), DOWN_SDK), Move(U2, Go),
            Gone(Drained, Done, CLOSES, Some(QUEUES), Dead(FREED, Some(U2)), DOWN_SDK),
            Crew(Drained, Done, Some(CLOSES), Some(QUEUES)));
  }

  /** The component is freed, and its queue holds a write. */
  function LateState(): State {
    var comp := Comp(Some(U1), FREED, None, None, Archive([ITEM], [ITEM], [], []));
    Gone(Drained, Done, CLOSES, Some(HAS_QUEUED), comp, DOWN_SDK)
  }

  lemma QueuedTooLate(cfg: Config)
    requires cfg.exitMayTimeOut
    ensures Reached(cfg, LateState(), 1)
  {
    QueuesLate(cfg);
    Recast(Crew(Drained, Done, Some(CLOSES), Some(QUEUES)), HAS_QUEUED);
    OnlyUpdate(Dead(FREED, Some(U2)), Comp(Some(U1), FREED, None, None, Archive([ITEM], [ITEM], [], [])));
    assert [] + [ITEM] == [ITEM];
    Hop(cfg, Gone(Drained, Done, CLOSES, Some(QUEUES), Dead(FREED, Some(U2)), DOWN_SDK), Move(U2, Go), LateState(), 1);
  }

  // ---- two shutdowns that wait at the same time ----------------------------------------------

  const DRAINING := Some(Waiting(ShutdownDrain))
  const STARTING := Some(Waiting(Shutdown(0)))

  function AtShutdown(mutex: Option<Tid>, inFlight: int, p0: Pc, p1: Option<Pc>, p2: Option<Pc>, flags: Flags): State {
    Up(mutex, inFlight, Crew(Idle, p0, p1, p2), FRESH_COMP, flags)
  }

  lemma FirstStarts(cfg: Config)
    ensures Reached(cfg, AtShutdown(None, 1, SUB0, STARTING, None, CALM), 2)
  {
    Window(cfg, 2);
    Recast(Crew(Idle, SUB0, None, None), Waiting(Shutdown(0)));
    Hop(cfg, AtShutdown(None, 1, SUB0, None, None, CALM), Spawn(1, Shutdown(0)),
        AtShutdown(None, 1, SUB0, STARTING, None, CALM), 2);
  }

  lemma FirstWaits(cfg: Config)
    ensures Reached(cfg, AtShutdown(None, 1, SUB0, DRAINING, None, GATED), 2)
  {
    FirstStarts(cfg);
    Recast(Crew(Idle, SUB0, STARTING, None), Waiting(ShutdownDrain));
    Hop(cfg, AtShutdown(None, 1, SUB0, STARTING, None, CALM), Move(U1, Go),
        AtShutdown(None, 1, SUB0, DRAINING, None, GATED), 2);
  }

  lemma SecondStarts(cfg: Config)
    ensures Reached(cfg, AtShutdown(None, 1, SUB0, DRAINING, STARTING, GATED), 2)
  {
    FirstWaits(cfg);
    Recast(Crew(Idle, SUB0, DRAINING, None), Waiting(Shutdown(0)));
    Hop(cfg, AtShutdown(None, 1, SUB0, DRAINING, None, GATED), Spawn(2, Shutdown(0)),
        AtShutdown(None, 1, SUB0, DRAINING, STARTING, GATED), 2);
  }

  lemma BothWait(cfg: Config)
    ensures Reached(cfg, AtShutdown(None, 1, SUB0, DRAINING, DRAINING, GATED), 2)
  {
    SecondStarts(cfg);
    Recast(Crew(Idle, SUB0, DRAINING, STARTING), Waiting(ShutdownDrain));
    Hop(cfg, AtShutdown(None, 1, SUB0, DRAINING, STARTING, GATED), Move(U2, Go),
        AtShutdown(None, 1, SUB0, DRAINING, DRAINING, GATED), 2);
  }

  const SUBSCRIBED0 := InWindow(0, Nothing, Subscribed)

  lemma SubscribeReturns(cfg: Config)
    ensures Reached(cfg, AtShutdown(None, 1, SUBSCRIBED0, DRAINING, DRAINING, GATED), 2)
  {
    BothWait(cfg);
    var s := AtShutdown(None, 1, SUB0, DRAINING, DRAINING, GATED);
    assert !Busy(s, Live);
    Recast(Crew(Idle, SUB0, DRAINING, DRAINING), SUBSCRIBED0);
    Hop(cfg, s, Move(U0, Go), AtShutdown(None, 1, SUBSCRIBED0, DRAINING, DRAINING, GATED), 2);
  }

  lemma WindowCloses(cfg: Config)
    ensures Reached(cfg, AtShutdown(Some(U0), 0, BODY0, DRAINING, DRAINING, GATED), 2)
  {
    SubscribeReturns(cfg);
    Recast(Crew(Idle, SUBSCRIBED0, DRAINING, DRAINING), BODY0);
    Hop(cfg, AtShutdown(None, 1, SUBSCRIBED0, DRAINING, DRAINING, GATED), Move(U0, Go),
        AtShutdown(Some(U0), 0, BODY0, DRAINING, DRAINING, GATED), 2);
  }

  lemma InitReturns(cfg: Config)
    ensures Reached(cfg, AtShutdown(None, 0, Done, DRAINING, DRAINING, GATED), 2)
  {
    WindowCloses(cfg);
    Recast(Crew(Idle, BODY0, DRAINING, DRAINING), Done);
    Hop(cfg, AtShutdown(Some(U0), 0, BODY0, DRAINING, DRAINING, GATED), Move(U0, Finish(false)),
        AtShutdown(None, 0, Done, DRAINING, DRAINING, GATED), 2);
  }

  lemma FirstWakes(cfg: Config)
    ensures Reached(cfg, AtShutdown(Some(U1), 0, Done, Some(Evicting(false)), DRAINING, GATED), 2)
  {
    InitReturns(cfg);
    Recast(Crew(Idle, Done, DRAINING, DRAINING), Evicting(false));
    Hop(cfg, AtShutdown(None, 0, Done, DRAINING, DRAINING, GATED), Move(U1, Go),
        AtShutdown(Some(U1), 0, Done, Some(Evicting(false)), DRAINING, GATED), 2);
  }

  const DESTROYER := Destroying(Some(0), Nothing, Quiescing, true, false)

  /** User(1) destroys what it evicted, User(2) is in p2. */
  function Torn(mutex: Option<Tid>, p2: Pc, flags: Flags): State {
    Scene(mutex, 0, None, Crew(Idle, Done, Some(DESTROYER), Some(p2)), Dead(WHOLE, None), flags, HANDED_SDK, [Evicted])
  }

  lemma FirstEvicts(cfg: Config)
    ensures Reached(cfg, Torn(None, Waiting(ShutdownDrain), RAISED), 2)
  {
    FirstWakes(cfg);
    Recast(Crew(Idle, Done, Some(Evicting(false)), DRAINING), DESTROYER);
    OnlyUpdate(FRESH_COMP, Dead(WHOLE, None));
    assert [] + [Evicted] == [Evicted];
    Hop(cfg, AtShutdown(Some(U1), 0, Done, Some(Evicting(false)), DRAINING, GATED), Move(U1, Go),
        Torn(None, Waiting(ShutdownDrain), RAISED), 2);
  }

  lemma SecondWakes(cfg: Config)
    ensures Reached(cfg, Torn(Some(U2), Evicting(false), RAISED), 2)
  {
    FirstEvicts(cfg);
    Recast(Crew(Idle, Done, Some(DESTROYER), DRAINING), Evicting(false));
    Hop(cfg, Torn(None, Waiting(ShutdownDrain), RAISED), Move(U2, Go), Torn(Some(U2), Evicting(false), RAISED), 2);
  }

  const NOTHING_LEFT := Destroying(None, Nothing, Quiescing, false, false)

  lemma SecondEvicts(cfg: Config)
    ensures Reached(cfg, Torn(None, NOTHING_LEFT, RAISED), 2)
  {
    SecondWakes(cfg);
    Recast(Crew(Idle, Done, Some(DESTROYER), Some(Evicting(false))), NOTHING_LEFT);
    Hop(cfg, Torn(Some(U2), Evicting(false), RAISED), Move(U2, Go), Torn(None, NOTHING_LEFT, RAISED), 2);
  }

  lemma SecondLeaves(cfg: Config)
    ensures Reached(cfg, Torn(None, Waiting(Relock), RAISED), 2)
  {
    SecondEvicts(cfg);
    Recast(Crew(Idle, Done, Some(DESTROYER), Some(NOTHING_LEFT)), Waiting(Relock));
    Hop(cfg, Torn(None, NOTHING_LEFT, RAISED), Move(U2, Go), Torn(None, Waiting(Relock), RAISED), 2);
  }

  /** It lowers g_tearingDown on its way out. */
  lemma GateLowered(cfg: Config)
    ensures Reached(cfg, Torn(None, Done, GATED), 2)
  {
    SecondLeaves(cfg);
    Recast(Crew(Idle, Done, Some(DESTROYER), Some(Waiting(Relock))), Done);
    Hop(cfg, Torn(None, Waiting(Relock), RAISED), Move(U2, Go), Torn(None, Done, GATED), 2);
  }

  /** gcs_init has built over the first one's teardown. */
  function ClashState(): State {
    Install(At(Torn(None, Done, GATED), U3, Waiting(Init)), U3, HANDED_SDK, true)
  }

  lemma InitWaits(cfg: Config)
    ensures Reached(cfg, At(Torn(None, Done, GATED), U3, Waiting(Init)), 2)
  {
    GateLowered(cfg);
    var s := At(Torn(None, Done, GATED), U3, Waiting(Init));
    Hop(cfg, Torn(None, Done, GATED), Spawn(3, Init), s, 2);
  }

  lemma InitClashes(cfg: Config)
    ensures Reached(cfg, ClashState(), 2)
  {
    InitWaits(cfg);
    var s := At(Torn(None, Done, GATED), U3, Waiting(Init));
    assert InTeardown(s.threads[U1]);
    Hop(cfg, s, Move(U3, Go), ClashState(), 2);
  }

  // ---- a catalog write that waits for the CRDT worker under g_mutex ----------------------------

  const WRITING := Commanding(0, Nothing, WritingEntity)
  const HEAL_CALL := Waiting(Callback(Heal, ITEM))

  function AtWrite(mutex: Option<Tid>, pc: Pc): State {
    Up(mutex, 0, Crew(Idle, Done, Some(pc), Some(HEAL_CALL)), FRESH_COMP, CALM)
  }

  lemma PublishStarts(cfg: Config)
    ensures Reached(cfg, AtWrite(None, Waiting(Publish(0))), 0)
  {
    ItemParses();
    HealArrives(cfg, 0, ITEM);
    var c := Crew(Idle, Done, None, Some(HEAL_CALL));
    Recast(c, Waiting(Publish(0)));
    Hop(cfg, Up(None, 0, c, FRESH_COMP, CALM), Spawn(1, Publish(0)), AtWrite(None, Waiting(Publish(0))), 0);
  }

  lemma PublishRuns(cfg: Config)
    ensures Reached(cfg, AtWrite(Some(U1), BODY0), 0)
  {
    PublishStarts(cfg);
    Recast(Crew(Idle, Done, Some(Waiting(Publish(0))), Some(HEAL_CALL)), BODY0);
    Hop(cfg, AtWrite(None, Waiting(Publish(0))), Move(U1, Go), AtWrite(Some(U1), BODY0), 0);
  }

  /** The heal callback waits for g_mutex, whose holder waits for the heal callback. */
  function EmbracedState(): State {
    AtWrite(Some(U1), WRITING)
  }

  lemma Embrace(cfg: Config)
    ensures Reached(cfg, EmbracedState(), 0)
  {
    PublishRuns(cfg);
    Recast(Crew(Idle, Done, Some(BODY0), Some(HEAL_CALL)), WRITING);
    Hop(cfg, AtWrite(Some(U1), BODY0), Move(U1, WriteEntity), EmbracedState(), 0);
  }
}
