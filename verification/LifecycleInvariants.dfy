/** Inductive invariants of the lifecycle machine. */
module LifecycleInvariants {
  import opened Basics
  import opened Lifecycle

  // ---- the invariants --------------------------------------------------------------------

  /** g_mutex is held by exactly the thread whose program counter says so. */
  ghost predicate MutexOk(s: State) {
    && (s.mutex.Some? ==> s.mutex.value in s.threads)
    && (forall t | t in s.threads :: HoldsMutex(s.threads[t]) <==> s.mutex == Some(t))
  }

  /** What a thread holds, the lock says. */
  ghost predicate HoldsOk(s: State) {
    && (forall t | t in s.threads && Held(t, s.threads[t]).0 == Seen ::
          Held(t, s.threads[t]).1 in s.comps && s.comps[Held(t, s.threads[t]).1].seenBy == Some(t))
    && (forall t | t in s.threads && Held(t, s.threads[t]).0 == Arch ::
          Held(t, s.threads[t]).1 in s.comps && s.comps[Held(t, s.threads[t]).1].archBy == Some(t))
  }

  /** What a lock says, its holder holds. */
  ghost predicate HoldersOk(s: State) {
    && (forall g | g in s.comps && s.comps[g].seenBy.Some? ::
          s.comps[g].seenBy.value in s.threads
          && Held(s.comps[g].seenBy.value, s.threads[s.comps[g].seenBy.value]) == (Seen, g))
    && (forall g | g in s.comps && s.comps[g].archBy.Some? ::
          s.comps[g].archBy.value in s.threads
          && Held(s.comps[g].archBy.value, s.threads[s.comps[g].archBy.value]) == (Arch, g))
  }

  /** So is each component lock. */
  ghost predicate LocksOk(s: State) {
    HoldsOk(s) && HoldersOk(s)
  }

  /** The threads inside an unlocked pointer-holding window. */
  function Flying(s: State): set<Tid> {
    set t | t in s.threads && s.threads[t].InWindow?
  }

  /** The callbacks that left by an exception. */
  function Lost(s: State): set<Tid> {
    set t | t in s.threads && s.threads[t].Leaked?
  }

  predicate Counts(pc: Pc) {
    pc.InWindow? || pc.Leaked?
  }

  function Counted(s: State): set<Tid> {
    set t | t in s.threads && Counts(s.threads[t])
  }

  ghost predicate CountOk(s: State) {
    s.inFlight == |Counted(s)|
  }

  /** The locks and fields a program counter may carry at all. */
  predicate ShapeOk(pc: Pc) {
    && (pc.Commanding? ==> pc.holds == if pc.at.ReadingHistory? then Seen else Nothing)
    && (pc.InWindow? ==> pc.holds == if pc.where.SendMarks? || pc.where.FunnelMarks? then Seen
                                     else if pc.where.FunnelQueues? then Arch else Nothing)
    && (pc.Destroying? ==>
          && (pc.holds != Nothing ==> pc.holds == Arch && pc.stage.Stopping? && pc.own.Some?)
          && (pc.own.None? || pc.booted ==> pc.stage.Quiescing?))
  }

  /** A thread that uses a generation, in a window or under the mutex, uses the installed one. */
  ghost predicate PinnedOk(s: State) {
    forall t | t in s.threads ::
      && ShapeOk(s.threads[t])
      && (s.threads[t].InWindow? ==> s.installed == Some(s.threads[t].g))
      && (s.threads[t].Commanding? ==> s.installed == Some(s.threads[t].g))
      && (s.threads[t].Evicting? ==> s.inFlight == 0)
  }

  function Hand(pc: Pc): seq<Item> {
    if pc.Putting? then [pc.item] else []
  }

  /** One generation's objects die in order, and its archive accounts for every enqueued write. */
  ghost predicate CompOk(c: Comp, worker: Pc) {
    && (c.life.stopped ==> c.owner.Some?)
    && (c.life.freed ==> c.life.stopped && worker.Drained?)
    && (!c.life.storeUp ==> c.life.freed)
    && (c.life.sessionFreed ==> !c.life.storeUp)
    && (worker.Drained? ==> c.life.stopped && c.archive.queue == [])
    && c.archive.enqueued == c.archive.written + Hand(worker) + c.archive.queue
    && c.archive.dropped == []
    && (worker.Picking? ==> c.life.stopped || c.archive.queue != [])
  }

  ghost predicate CompsOk(s: State) {
    && (forall g | g in s.comps :: g < s.nextGen)
    && (forall g | g in s.comps :: Worker(g) in s.threads && CompOk(s.comps[g], s.threads[Worker(g)]))
    && (s.installed.Some? ==> s.installed.value in s.comps && s.comps[s.installed.value].owner.None?)
    && (forall t | t in s.threads ::
          (WorkerPc(s.threads[t]) <==> t.Worker?) && (t.Worker? ==> t.g in s.comps))
  }

  /** Where the owner stands in the teardown sequence fixes what is already gone. */
  ghost predicate StageOk(stage: Stage, c: Comp) {
    match stage
    case Quiescing => !c.life.stopped && !c.life.freed && c.life.storeUp
    case Stopping => !c.life.stopped && !c.life.freed && c.life.storeUp
    case Joining => c.life.stopped && !c.life.freed && c.life.storeUp
    case Closing => c.life.freed && c.life.storeUp
    case Freeing => c.life.freed && !c.life.storeUp && !c.life.sessionFreed
  }

  ghost predicate OwnersOk(s: State) {
    forall t | t in s.threads && s.threads[t].Destroying? && s.threads[t].own.Some? ::
      && s.threads[t].own.value in s.comps
      && s.comps[s.threads[t].own.value].owner == Some(t)
      && StageOk(s.threads[t].stage, s.comps[s.threads[t].own.value])
  }

  ghost predicate Inv(s: State) {
    MutexOk(s) && LocksOk(s) && CountOk(s) && PinnedOk(s) && CompsOk(s) && OwnersOk(s)
  }

  predicate Tidy(pc: Pc) {
    !pc.Leaked? && !Doomed(pc)
  }

  /** No callback has left by an exception, or is about to. */
  ghost predicate Clean(s: State) {
    forall t | t in s.threads :: Tidy(s.threads[t])
  }

  // ---- what the invariants say at one thread -------------------------------------------------

  /** The generation a program counter reads or writes. */
  function Touched(t: Tid, pc: Pc): Option<Gen> {
    if pc.Commanding? then Some(pc.g)
    else if pc.InWindow? then Some(pc.g)
    else if pc.Destroying? then pc.own
    else if t.Worker? then Some(t.g)
    else None
  }

  /** Every invariant, instantiated at thread t and at the generation it touches. */
  ghost predicate Local(s: State, t: Tid) {
    t in s.threads
    && var pc := s.threads[t];
    && ShapeOk(pc)
    && (WorkerPc(pc) <==> t.Worker?)
    && (HoldsMutex(pc) <==> s.mutex == Some(t))
    && (pc.Evicting? ==> s.inFlight == 0)
    && (s.installed.Some? ==> s.installed.value in s.comps && s.comps[s.installed.value].owner.None?)
    && (pc.InWindow? || pc.Commanding? ==> s.installed == Some(pc.g))
    && (match Touched(t, pc)
        case None => true
        case Some(g) =>
          && g in s.comps
          && Worker(g) in s.threads
          && CompOk(s.comps[g], s.threads[Worker(g)])
          && (Held(t, pc).0 == Seen <==> s.comps[g].seenBy == Some(t))
          && (Held(t, pc).0 == Arch <==> s.comps[g].archBy == Some(t))
          && (pc.Destroying? ==> s.comps[g].owner == Some(t) && StageOk(pc.stage, s.comps[g])))
  }

  lemma LocksAt(s: State, t: Tid, g: Gen)
    requires LocksOk(s) && t in s.threads && g in s.comps && Touched(t, s.threads[t]) == Some(g)
    ensures Held(t, s.threads[t]).0 == Seen <==> s.comps[g].seenBy == Some(t)
    ensures Held(t, s.threads[t]).0 == Arch <==> s.comps[g].archBy == Some(t)
  {}

  lemma InvLocal(s: State, t: Tid)
    requires Inv(s) && t in s.threads
    ensures Local(s, t)
  {
    match Touched(t, s.threads[t])
    case None =>
    case Some(g) => LocksAt(s, t, g);
  }

  // ---- what one step may change -----------------------------------------------------------

  ghost predicate OneThread(s: State, t: Tid, s': State) {
    && t in s.threads && t in s'.threads
    && s'.threads == s.threads[t := s'.threads[t]]
    && s'.installed == s.installed && s'.nextGen == s.nextGen
    && (WorkerPc(s'.threads[t]) <==> t.Worker?) && (WorkerPc(s.threads[t]) <==> t.Worker?)
  }

  ghost predicate MutexRule(s: State, t: Tid, s': State)
    requires OneThread(s, t, s')
  {
    && (HoldsMutex(s'.threads[t]) <==> s'.mutex == Some(t))
    && (s'.mutex == s.mutex
        || ((s.mutex.None? || s.mutex == Some(t)) && (s'.mutex.None? || s'.mutex == Some(t))))
  }

  ghost predicate CountRule(s: State, t: Tid, s': State)
    requires OneThread(s, t, s')
  {
    && s'.inFlight == s.inFlight + (if Counts(s'.threads[t]) then 1 else 0) - (if Counts(s.threads[t]) then 1 else 0)
    && (s'.inFlight != s.inFlight ==> s.mutex.None? || (s.mutex == Some(t) && !s.threads[t].Evicting?))
  }

  ghost predicate PinRule(s: State, t: Tid, s': State)
    requires OneThread(s, t, s')
  {
    var pc := s'.threads[t];
    && ShapeOk(pc)
    && (pc.InWindow? ==> s.installed == Some(pc.g))
    && (pc.Commanding? ==> s.installed == Some(pc.g))
    && (pc.Evicting? ==> s'.inFlight == 0)
  }

  predicate LockMove(held: bool, holds: bool, t: Tid, from: Option<Tid>, to: Option<Tid>) {
    && (held == holds ==> to == from)
    && (held && !holds ==> from == Some(t) && to.None?)
    && (!held && holds ==> from.None? && to == Some(t))
  }

  /** At most the component t touches changes, and its locks follow t's program counter. */
  ghost predicate LockRule(s: State, t: Tid, s': State)
    requires OneThread(s, t, s')
  {
    var was, pc := Held(t, s.threads[t]), Held(t, s'.threads[t]);
    match Touched(t, s.threads[t])
    case None => s'.comps == s.comps && was.0 == pc.0 == Nothing
    case Some(g) =>
      && g in s.comps && g in s'.comps
      && s'.comps == s.comps[g := s'.comps[g]]
      && (was.0 != Nothing ==> was.1 == g)
      && (pc.0 != Nothing ==> pc.1 == g)
      && LockMove(was.0 == Seen, pc.0 == Seen, t, s.comps[g].seenBy, s'.comps[g].seenBy)
      && LockMove(was.0 == Arch, pc.0 == Arch, t, s.comps[g].archBy, s'.comps[g].archBy)
  }

  ghost predicate CompRule(s: State, t: Tid, s': State)
    requires OneThread(s, t, s') && LockRule(s, t, s')
  {
    var pc := s'.threads[t];
    match Touched(t, s.threads[t])
    case None => !pc.Destroying? && !t.Worker?
    case Some(g) =>
      && s'.comps[g].owner == s.comps[g].owner
      && Worker(g) in s.threads
      && CompOk(s'.comps[g], s'.threads[Worker(g)])
      // only the owner moves the teardown flags, and only the worker or a window thread the queue
      && (s.comps[g].owner != Some(t) ==>
            s'.comps[g].life == s.comps[g].life)
      && (pc.Destroying? && pc.own.Some? ==>
            pc.own == Some(g) && s.comps[g].owner == Some(t) && StageOk(pc.stage, s'.comps[g]))
      && (s.comps[g].life.stopped ==> s'.comps[g].archive.enqueued == s.comps[g].archive.enqueued)
      && (t.Worker? ==> t.g == g)
  }

  /** Every step but Install and Evict is of this kind. */
  ghost predicate Rule(s: State, t: Tid, s': State) {
    && OneThread(s, t, s')
    && MutexRule(s, t, s') && CountRule(s, t, s') && PinRule(s, t, s') && LockRule(s, t, s') && CompRule(s, t, s')
  }

  lemma RuleMutex(s: State, t: Tid, s': State)
    requires MutexOk(s) && OneThread(s, t, s') && MutexRule(s, t, s')
    ensures MutexOk(s')
  {}

  lemma RuleCount(s: State, t: Tid, s': State)
    requires CountOk(s) && OneThread(s, t, s') && CountRule(s, t, s')
    ensures CountOk(s')
  {
    var now, before := Counts(s'.threads[t]), Counts(s.threads[t]);
    if now && !before {
      assert Counted(s') == Counted(s) + {t};
    } else if !now && before {
      assert Counted(s) == Counted(s') + {t};
    } else {
      assert Counted(s') == Counted(s);
    }
  }

  lemma RulePinned(s: State, t: Tid, s': State)
    requires PinnedOk(s) && MutexOk(s) && OneThread(s, t, s') && PinRule(s, t, s') && CountRule(s, t, s')
    ensures PinnedOk(s')
  {}

  lemma RuleLocks(s: State, t: Tid, s': State)
    requires LocksOk(s) && OneThread(s, t, s') && LockRule(s, t, s')
    ensures LocksOk(s')
  {}

  lemma RuleComps(s: State, t: Tid, s': State)
    requires CompsOk(s) && OneThread(s, t, s') && LockRule(s, t, s') && CompRule(s, t, s')
    ensures CompsOk(s')
  {}

  lemma RuleOwners(s: State, t: Tid, s': State)
    requires OwnersOk(s) && OneThread(s, t, s') && LockRule(s, t, s') && CompRule(s, t, s')
    ensures OwnersOk(s')
  {}

  lemma RuleInv(s: State, t: Tid, s': State)
    requires Inv(s) && Rule(s, t, s')
    ensures Inv(s')
  {
    RuleMutex(s, t, s');
    RuleCount(s, t, s');
    RulePinned(s, t, s');
    RuleLocks(s, t, s');
    RuleComps(s, t, s');
    RuleOwners(s, t, s');
  }
}
