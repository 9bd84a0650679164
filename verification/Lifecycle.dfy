/**
  The session lifecycle of the FFI layer as a step machine over any number of threads.

  Every thread carries a program counter.  A region that holds the global mutex and neither
  blocks nor releases it half-way is one step, taken when the mutex is free.  Regions that
  take a second lock, wait for another thread, or let go of the mutex in the middle are
  split, and the mutex holder is then recorded in the state.
 */
module Lifecycle {
  import opened Basics
  import KeyGrammar

  /** A generation stands for the session, messaging and catalog objects one gcs_init builds. */
  type Gen = nat

  datatype Tid = User(n: nat) | Worker(g: Gen)

  /** An archive write: key and value bytes as received. */
  type Item = (string, string)

  /** Live callbacks run on the pubsub strand, heal callbacks on the CRDT worker. */
  datatype Route = Live | Heal

  datatype Node = NoNode | HostNode | EmbeddedNode

  // ---- program counters ------------------------------------------------------------------

  /** The component lock a thread holds: m_seenMutex or m_archiveMutex of its generation. */
  datatype Hold = Nothing | Seen | Arch

  /** Threads that hold no lock and no pointer. */
  datatype Entry =
    | Init
    | Publish(handle: Gen)
    | Register(handle: Gen)
    | Gate(route: Route, item: Item)
    | Callback(route: Route, item: Item)
    | Shutdown(handle: Gen)
    | ShutdownDrain
    | ExitHook
    | ExitLock
    | ExitDrain
    | Relock

  /** Inside a command, holding g_mutex. */
  datatype CommandAt = Body | WritingEntity | WantsHistory | ReadingHistory

  /** Running with g_mutex released, counted in g_inFlight: SubscribeLive, SendMessage, ApplyMessage. */
  datatype WindowAt =
    | Subscribing | Subscribed
    | SendWantsSeen | SendMarks | SendPending | SendPut | SendTerminal | Sent
    | FunnelWantsSeen(route: Route, item: Item)
    | FunnelMarks(route: Route, item: Item)
    | FunnelPush(route: Route, item: Item)
    | FunnelWantsArch(route: Route, item: Item)
    | FunnelQueues(route: Route, item: Item)
    | FunnelDone(route: Route)

  datatype Stage = Quiescing | Stopping | Joining | Closing | Freeing

  datatype Pc =
    | Done
    | Waiting(entry: Entry)
    | Commanding(g: Gen, holds: Hold, at: CommandAt)
    | InWindow(g: Gen, holds: Hold, where: WindowAt)
    | Evicting(exit: bool)
    | Destroying(own: Option<Gen>, holds: Hold, stage: Stage, booted: bool, exit: bool)
    | Idle
    | Picking
    | Putting(item: Item)
    | Drained
    | Leaked                 // an exception left the heal callback, and its count was never taken back

  // ---- state -----------------------------------------------------------------------------

  /** What is left of a generation's objects. */
  datatype Life = Life(
    stopped: bool,           // m_archiveStopped
    freed: bool,             // ~Messaging has returned
    storeUp: bool,           // GcsGlobalDb's m_running
    sessionFreed: bool)      // catalog and session destroyed

  /** The archive queue of a generation, with its whole history. */
  datatype Archive = Archive(
    queue: seq<Item>,        // m_archiveQueue
    enqueued: seq<Item>,     // everything the funnel ever enqueued
    written: seq<Item>,      // Puts the worker issued on a running store
    dropped: seq<Item>)      // Puts the worker issued on a stopped store

  datatype Comp = Comp(
    owner: Option<Tid>,      // the teardown thread the objects were evicted to (history)
    life: Life,
    seenBy: Option<Tid>,     // holder of m_seenMutex
    archBy: Option<Tid>,     // holder of m_archiveMutex
    archive: Archive)

  datatype Flags = Flags(
    disabled: bool,          // g_receivingDisabled
    tearing: bool,           // g_tearingDown
    clash: bool)             // a session was built while another was being destroyed (history)

  datatype Sdk = Sdk(
    node: Node,
    bootedHere: bool,        // g_sdkBootedHere
    handed: Option<Tid>,     // teardown thread that consumed g_sdkBootedHere (history)
    boots: nat,              // embedded boots so far
    downs: nat)              // GeniusSDKShutdown calls so far

  /** What happened on the push port, oldest first. */
  datatype Mark = Posted | Registered | Evicted

  datatype Push = Push(
    port: bool,              // g_dartPort != 0
    marks: seq<Mark>)

  datatype State = State(
    mutex: Option<Tid>,      // holder of g_mutex
    inFlight: int,           // g_inFlight
    installed: Option<Gen>,  // g_session, g_messaging and g_entities
    nextGen: nat,
    threads: map<Tid, Pc>,
    comps: map<Gen, Comp>,
    flags: Flags,
    sdk: Sdk,
    push: Push)

  /** exitMayTimeOut: the exit hook's bounded drain may give up.
      entityPutWaits: a catalog Put, made under g_mutex, waits for the CRDT worker.
      strayKeys: a heal callback may be handed a key the topic parse throws on. */
  datatype Config = Config(exitMayTimeOut: bool, entityPutWaits: bool, strayKeys: bool)

  const START := State(None, 0, None, 0, map[], map[], Flags(false, false, false),
                       Sdk(NoNode, false, None, 0, 0), Push(false, []))

  const FRESH_COMP := Comp(None, Life(false, false, true, false), None, None, Archive([], [], [], []))

  /** What a step may decide: outcomes of foreign calls and the command a caller sent. */
  datatype Choice =
    | Go
    | BadConfig | BootFails | SessionFails | SmokeFails
    | WriteEntity | Replay | OpenSubscribe | OpenSend | Finish(post: bool)
    | Skip | Abandon

  datatype Action =
    | Spawn(n: nat, entry: Entry)
    | Move(t: Tid, c: Choice)
    | HostBoot
    | HostStop

  predicate HoldsMutex(pc: Pc) {
    pc.Commanding? || pc.Evicting?
  }

  /** The component lock a thread holds, and of which generation. */
  function Held(t: Tid, pc: Pc): (Hold, Gen) {
    if pc.Commanding? then (pc.holds, pc.g)
    else if pc.InWindow? then (pc.holds, pc.g)
    else if pc.Destroying? && pc.own.Some? then (pc.holds, pc.own.value)
    else if pc.Picking? && t.Worker? then (Arch, t.g)
    else (Nothing, 0)
  }

  predicate InTeardown(pc: Pc) {
    pc.Destroying? || pc == Waiting(Relock)
  }

  /** Past gcs_shutdown's handle check, or inside the exit hook. */
  predicate Tears(pc: Pc) {
    || InTeardown(pc) || pc.Evicting?
    || (pc.Waiting? && (pc.entry.ShutdownDrain? || pc.entry.ExitHook? || pc.entry.ExitLock? || pc.entry.ExitDrain?))
  }

  predicate OnRoute(pc: Pc, r: Route) {
    match pc
    case Waiting(e) => (e.Gate? || e.Callback?) && e.route == r
    case InWindow(_, _, w) =>
      (w.FunnelWantsSeen? || w.FunnelMarks? || w.FunnelPush? || w.FunnelWantsArch? || w.FunnelQueues? || w.FunnelDone?)
      && w.route == r
    case _ => false
  }

  /** RoomTopicFromKey throws std::out_of_range on the item's key. */
  predicate Stray(i: Item) {
    KeyGrammar.RoomTopicFromKey(i.0).OutOfRange?
  }

  /** A heal callback on its way to, or at, the parse of a key that throws. */
  predicate Doomed(pc: Pc) {
    match pc
    case Waiting(e) => (e.Gate? || e.Callback?) && e.route.Heal? && Stray(e.item)
    case InWindow(_, _, w) => w.FunnelWantsSeen? && w.route.Heal? && Stray(w.item)
    case _ => false
  }

  predicate WorkerPc(pc: Pc) {
    pc.Idle? || pc.Picking? || pc.Putting? || pc.Drained?
  }

  /** Some callback of this route has not returned, so its thread cannot serve anyone else. */
  predicate Busy(s: State, r: Route) {
    exists t | t in s.threads :: OnRoute(s.threads[t], r)
  }

  // ---- effects ---------------------------------------------------------------------------

  function At(s: State, t: Tid, pc: Pc): State {
    s.(threads := s.threads[t := pc])
  }

  /** Moves t to pc, which holds the mutex if m says so, and adds d to the in-flight count. */
  function Go(s: State, t: Tid, pc: Pc, m: Option<Tid>, d: int): State {
    s.(threads := s.threads[t := pc], mutex := m, inFlight := s.inFlight + d)
  }

  /** Moves t to pc and replaces the component of generation g. */
  function With(s: State, t: Tid, pc: Pc, g: Gen, c: Comp): State {
    s.(threads := s.threads[t := pc], comps := s.comps[g := c])
  }

  function Post(s: State): State {
    if s.push.port then s.(push := Push(true, s.push.marks + [Posted])) else s
  }

  /** EnsureSdkBooted on its success path: a node that exists already is reused. */
  function Booted(k: Sdk): Sdk {
    if k.node == NoNode then k.(node := EmbeddedNode, bootedHere := true, boots := k.boots + 1) else k
  }

  /** gcs_init's failed-session path: the boot flag is consumed and the node goes down at once. */
  function Unbooted(k: Sdk): Sdk {
    if k.bootedHere then k.(node := NoNode, bootedHere := false, downs := k.downs + 1) else k
  }

  /** GeniusSDKShutdown by the thread the flag was handed to. */
  function NodeDown(k: Sdk): Sdk {
    k.(node := NoNode, handed := None, downs := k.downs + 1)
  }

  predicate SomeoneTears(s: State) {
    exists u | u in s.threads :: InTeardown(s.threads[u])
  }

  function Install(s: State, t: Tid, k: Sdk, tears: bool): State {
    var g := s.nextGen;
    s.(installed := Some(g), nextGen := g + 1, mutex := Some(t), sdk := k,
       comps := s.comps[g := FRESH_COMP],
       threads := s.threads[Worker(g) := Idle][t := Commanding(g, Nothing, Body)],
       flags := Flags(false, s.flags.tearing, s.flags.clash || tears))
  }

  function InitBody(s: State, t: Tid, c: Choice, tears: bool): State {
    if s.flags.tearing || s.installed.Some? || c == BadConfig then At(s, t, Done)
    else if s.sdk.node == NoNode && c == BootFails then At(s, t, Done)
    else if c == SessionFails then At(s, t, Done).(sdk := Unbooted(Booted(s.sdk)))
    else if c == SmokeFails then At(s, t, Done).(sdk := Booted(s.sdk))   // the node stays up, flag still set
    else Install(s, t, Booted(s.sdk), tears)
  }

  /** TeardownSessionAndNode up to the point where it lets go of the mutex.  The exit hook raised
      both flags before it asked for the mutex, and does not raise them again. */
  function EvictBody(s: State, t: Tid, exit: bool): State {
    var pc := Destroying(s.installed, Nothing, Quiescing, s.sdk.bootedHere, exit);
    var flags := Flags(s.flags.disabled || !exit, s.flags.tearing || !exit, s.flags.clash);
    var sdk := s.sdk.(bootedHere := false, handed := if s.sdk.bootedHere then Some(t) else s.sdk.handed);
    match s.installed
    case Some(g) =>
      s.(mutex := None, installed := None, threads := s.threads[t := pc],
         comps := if g in s.comps then s.comps[g := s.comps[g].(owner := Some(t))] else s.comps,
         flags := flags, sdk := sdk, push := Push(false, s.push.marks + [Evicted]))
    case None =>
      s.(mutex := None, threads := s.threads[t := pc], flags := flags, sdk := sdk)
  }

  function AfterTeardown(exit: bool): Pc {
    if exit then Done else Waiting(Relock)
  }

  // ---- steps: None means blocked, or not offered at this point ------------------------------

  /** gcs_init, gcs_publish and gcs_subscribe up to their first unlock. */
  function EntryStep(s: State, t: Tid, e: Entry, c: Choice, tears: bool): Option<State> {
    if s.mutex.Some? then None
    else match e
      case Init => Some(InitBody(s, t, c, tears))
      case Publish(h) =>
        Some(if s.installed == Some(h) then Go(s, t, Commanding(h, Nothing, Body), Some(t), 0)
             else At(s, t, Done))
      case Register(h) =>
        Some(if s.installed == Some(h)
             then Post(At(s, t, Done).(push := Push(true, s.push.marks + [Registered])))
             else At(s, t, Done))
      case _ => None
  }

  /** A command's body under the mutex: catalog writes, history replays, and the two unlocks. */
  function CommandStep(s: State, t: Tid, g: Gen, at: CommandAt, c: Choice, putBlocked: bool): Option<State>
    requires g in s.comps
  {
    match at
    case Body =>
      (match c
       case WriteEntity => Some(At(s, t, Commanding(g, Nothing, WritingEntity)))
       case Replay => Some(At(s, t, Commanding(g, Nothing, WantsHistory)))
       case OpenSubscribe =>
         Some(Go(s, t, InWindow(g, Nothing, Subscribing), None, 1))
       case OpenSend =>
         Some(Go(s, t, InWindow(g, Nothing, SendWantsSeen), None, 1))
       case Finish(post) =>
         Some(Go(if post then Post(s) else s, t, Done, None, 0))
       case _ => None)
    case WritingEntity =>
      if putBlocked then None else Some(At(s, t, Commanding(g, Nothing, Body)))
    case WantsHistory =>
      if s.comps[g].seenBy.Some? then None
      else Some(With(s, t, Commanding(g, Seen, ReadingHistory), g, s.comps[g].(seenBy := Some(t))))
    case ReadingHistory =>
      Some(With(Post(s), t, Commanding(g, Nothing, Body), g, s.comps[g].(seenBy := None)))
  }

  /** SubscribeLive and Messaging::SendMessage with the mutex released, and the way back under it. */
  function SendStep(s: State, t: Tid, g: Gen, w: WindowAt, c: Choice, strandBusy: bool, dagBusy: bool): Option<State>
    requires g in s.comps
  {
    var back := Go(s, t, Commanding(g, Nothing, Body), Some(t), -1);
    match w
    case Subscribing => if strandBusy then None else Some(At(s, t, InWindow(g, Nothing, Subscribed)))
    case Subscribed => if s.mutex.Some? then None else Some(back)
    case SendWantsSeen =>
      if s.comps[g].seenBy.Some? then None
      else Some(With(s, t, InWindow(g, Seen, SendMarks), g, s.comps[g].(seenBy := Some(t))))
    case SendMarks => Some(With(s, t, InWindow(g, Nothing, SendPending), g, s.comps[g].(seenBy := None)))
    case SendPending => if s.mutex.Some? then None else Some(At(Post(s), t, InWindow(g, Nothing, SendPut)))
    case SendPut =>                                   // Skip: encrypt or publish failed; else WaitForJob
      if c != Skip && dagBusy then None else Some(At(s, t, InWindow(g, Nothing, SendTerminal)))
    case SendTerminal => if s.mutex.Some? then None else Some(At(Post(s), t, InWindow(g, Nothing, Sent)))
    case Sent => if s.mutex.Some? then None else Some(back)
    case _ => None
  }

  /** The pubsub and CRDT bridge lambdas before they reach the funnel. */
  function BridgeStep(s: State, t: Tid, e: Entry): Option<State> {
    match e
    case Gate(r, i) => Some(At(s, t, if s.flags.disabled then Done else Waiting(Callback(r, i))))
    case Callback(r, i) =>
      if s.mutex.Some? then None
      else (match s.installed
            case None => Some(At(s, t, Done))
            case Some(g) => Some(Go(s, t, InWindow(g, Nothing, FunnelWantsSeen(r, i)), None, 1)))
    case _ => None
  }

  function Enqueue(a: Archive, i: Item): Archive {
    a.(queue := a.queue + [i], enqueued := a.enqueued + [i])
  }

  /** Messaging::ApplyMessage, behind OnMessageArrived's key parse on the heal route, which may throw.
      Skip: undecryptable, unparseable, or already seen. */
  function FunnelStep(s: State, t: Tid, g: Gen, w: WindowAt, c: Choice, throws: bool): Option<State>
    requires g in s.comps
  {
    match w
    case FunnelWantsSeen(r, i) =>
      if throws then Some(At(s, t, Leaked))
      else if c == Skip then Some(At(s, t, InWindow(g, Nothing, FunnelDone(r))))
      else if s.comps[g].seenBy.Some? then None
      else Some(With(s, t, InWindow(g, Seen, FunnelMarks(r, i)), g, s.comps[g].(seenBy := Some(t))))
    case FunnelMarks(r, i) =>
      Some(With(s, t, InWindow(g, Nothing, if c == Skip then FunnelDone(r) else FunnelPush(r, i)),
                g, s.comps[g].(seenBy := None)))
    case FunnelPush(r, i) =>
      if s.mutex.Some? then None else Some(At(Post(s), t, InWindow(g, Nothing, FunnelWantsArch(r, i))))
    case FunnelWantsArch(r, i) =>
      if s.comps[g].archBy.Some? then None
      else Some(With(s, t, InWindow(g, Arch, FunnelQueues(r, i)), g, s.comps[g].(archBy := Some(t))))
    case FunnelQueues(r, i) =>
      Some(With(s, t, InWindow(g, Nothing, FunnelDone(r)), g,
                s.comps[g].(archBy := None, archive := Enqueue(s.comps[g].archive, i))))
    case FunnelDone(r) =>
      if s.mutex.Some? then None else Some(Go(s, t, Done, None, -1))
    case _ => None
  }

  /** GcsGlobalDb::Put: its m_running gate drops the write once the store is down. */
  function PutItem(a: Archive, i: Item, up: bool): Archive {
    if up then a.(written := a.written + [i]) else a.(dropped := a.dropped + [i])
  }

  /** Messaging::ArchiveWorker. */
  function WorkerStep(s: State, t: Tid, pc: Pc, dagBusy: bool): Option<State> {
    if !t.Worker? || t.g !in s.comps then None
    else
      var c := s.comps[t.g];
      match pc
      case Idle =>
        if c.archBy.Some? || (!c.life.stopped && c.archive.queue == []) then None
        else Some(With(s, t, Picking, t.g, c.(archBy := Some(t))))
      case Picking =>
        Some(if c.archive.queue == [] then With(s, t, if c.life.stopped then Drained else Idle, t.g, c.(archBy := None))
             else With(s, t, Putting(c.archive.queue[0]), t.g,
                       c.(archBy := None, archive := c.archive.(queue := c.archive.queue[1..]))))
      case Putting(i) =>
        if dagBusy then None
        else Some(With(s, t, Idle, t.g, c.(archive := PutItem(c.archive, i, c.life.storeUp))))
      case _ => None
  }

  /** gcs_shutdown and the exit hook up to the point where they hold the mutex with a drained count. */
  function DrainStep(cfg: Config, s: State, t: Tid, e: Entry, c: Choice): Option<State> {
    match e
    case Shutdown(h) =>
      if s.mutex.Some? then None
      else if s.installed != Some(h) then Some(At(s, t, Done))
      else if s.inFlight == 0 then Some(Go(s, t, Evicting(false), Some(t), 0).(flags := s.flags.(disabled := true)))
      else Some(At(s, t, Waiting(ShutdownDrain)).(flags := s.flags.(disabled := true)))
    case ShutdownDrain =>
      if s.mutex.Some? || s.inFlight != 0 then None else Some(Go(s, t, Evicting(false), Some(t), 0))
    case ExitHook => Some(At(s, t, Waiting(ExitLock)).(flags := s.flags.(disabled := true, tearing := true)))
    case ExitLock =>
      if c == Abandon then Some(At(s, t, Done))
      else if s.mutex.Some? then None
      else if s.inFlight == 0 then Some(Go(s, t, Evicting(true), Some(t), 0))
      else Some(At(s, t, Waiting(ExitDrain)))
    case ExitDrain =>
      if s.mutex.Some? || (s.inFlight != 0 && !cfg.exitMayTimeOut) then None
      else Some(Go(s, t, Evicting(true), Some(t), 0))
    case Relock =>
      if s.mutex.Some? then None else Some(At(s, t, Done).(flags := s.flags.(tearing := false)))
    case _ => None
  }

  /** TeardownSessionAndNode's unlocked phase: node, messaging, store, catalog and session. */
  function DestroyStep(s: State, t: Tid, pc: Pc, strandBusy: bool, dagBusy: bool): Option<State>
    requires pc.Destroying?
  {
    var exit := pc.exit;
    match pc.own
    case None =>
      if pc.booted && strandBusy then None
      else if pc.booted then Some(At(s, t, AfterTeardown(exit)).(sdk := NodeDown(s.sdk)))
      else Some(At(s, t, AfterTeardown(exit)))
    case Some(g) =>
      if g !in s.comps then None
      else
        var c := s.comps[g];
        match pc.stage
        case Quiescing =>
          var next := pc.(stage := Stopping, booted := false);
          if !pc.booted then Some(At(s, t, next))
          else if strandBusy then None              // joins the node's pubsub threads
          else Some(At(s, t, next).(sdk := NodeDown(s.sdk)))
        case Stopping =>
          if pc.holds == Arch then Some(With(s, t, pc.(holds := Nothing, stage := Joining), g,
                                             c.(archBy := None, life := c.life.(stopped := true))))
          else if c.archBy.Some? then None
          else Some(With(s, t, pc.(holds := Arch), g, c.(archBy := Some(t))))
        case Joining =>
          if Worker(g) in s.threads && s.threads[Worker(g)].Drained?
          then Some(With(s, t, pc.(stage := Closing), g, c.(life := c.life.(freed := true)))) else None
        case Closing =>                                // waits for the CRDT workers to exit
          if dagBusy then None else Some(With(s, t, pc.(stage := Freeing), g, c.(life := c.life.(storeUp := false))))
        case Freeing => Some(With(s, t, AfterTeardown(exit), g, c.(life := c.life.(sessionFreed := true))))
  }

  function MoveStep(cfg: Config, s: State, t: Tid, c: Choice): Option<State>
    requires t in s.threads
  {
    match s.threads[t]
    case Done => None
    case Waiting(e) =>
      if e.Init? || e.Publish? || e.Register? then EntryStep(s, t, e, c, SomeoneTears(s))
      else if e.Gate? || e.Callback? then BridgeStep(s, t, e)
      else DrainStep(cfg, s, t, e, c)
    case Commanding(g, _, at) =>
      if g in s.comps then CommandStep(s, t, g, at, c, cfg.entityPutWaits && Busy(s, Heal)) else None
    case InWindow(g, _, w) =>
      if g !in s.comps then None
      else if OnRoute(s.threads[t], Live) || OnRoute(s.threads[t], Heal) then
        FunnelStep(s, t, g, w, c, Doomed(s.threads[t]))
      else SendStep(s, t, g, w, c, Busy(s, Live), Busy(s, Heal))
    case Evicting(exit) => Some(EvictBody(s, t, exit))
    case Destroying(_, _, _, _, _) => DestroyStep(s, t, s.threads[t], Busy(s, Live), Busy(s, Heal))
    case _ => WorkerStep(s, t, s.threads[t], Busy(s, Heal))
  }

  /** Entry points a new thread may start at. */
  predicate Fresh(e: Entry) {
    e.Init? || e.Publish? || e.Register? || e.Gate? || e.Shutdown? || e.ExitHook?
  }

  function Step(cfg: Config, s: State, a: Action): Option<State> {
    match a
    case Spawn(n, e) =>
      if User(n) in s.threads || !Fresh(e) || (!cfg.strayKeys && Doomed(Waiting(e))) then None
      else Some(At(s, User(n), Waiting(e)))
    case Move(t, c) => if t in s.threads then MoveStep(cfg, s, t, c) else None
    case HostBoot => if s.sdk.node == NoNode then Some(s.(sdk := s.sdk.(node := HostNode))) else None
    case HostStop => if s.sdk.node == HostNode then Some(s.(sdk := s.sdk.(node := NoNode))) else None
  }

  /** The state after a whole schedule; None when some action was not enabled. */
  function Run(cfg: Config, s: State, acts: seq<Action>): Option<State>
    decreases |acts|
  {
    if acts == [] then Some(s)
    else match Step(cfg, s, acts[0])
      case None => None
      case Some(s1) => Run(cfg, s1, acts[1..])
  }
}
