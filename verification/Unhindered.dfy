/** What a callback and a send do to the session when nobody gets in their way. */
module Unhindered {
  import opened Basics
  import opened Lifecycle
  import opened LifecycleRuns

  function Moves(t: Tid, cs: seq<Choice>): seq<Action> {
    if cs == [] then [] else Moves(t, cs[..|cs| - 1]) + [Move(t, cs[|cs| - 1])]
  }

  /** A thread that starts with first and then moves from at(0) to at(1), at(2) and so on. */
  lemma {:induction false} Follows(cfg: Config, s: State, first: Action, t: Tid, cs: seq<Choice>, at: nat -> State)
    requires Step(cfg, s, first) == Some(at(0))
    requires forall k: nat | k < |cs| :: Step(cfg, at(k), Move(t, cs[k])) == Some(at(k + 1))
    ensures Run(cfg, s, [first] + Moves(t, cs)) == Some(at(|cs|))
  {
    if cs == [] {
      assert [first] + Moves(t, cs) == [first] && [first][1..] == [];
      assert Run(cfg, at(0), []) == Some(at(0));
    } else {
      var n := |cs| - 1;
      Follows(cfg, s, first, t, cs[..n], at);
      Extend(cfg, s, [first] + Moves(t, cs[..n]), at(n), Move(t, cs[n]), at(n + 1));
      assert [first] + Moves(t, cs) == [first] + Moves(t, cs[..n]) + [Move(t, cs[n])];
    }
  }

  /** A session is installed, nobody holds a lock, no callback is under way, and the gate is open. */
  ghost predicate Quiet(s: State, g: Gen) {
    && s.installed == Some(g) && g in s.comps && s.mutex.None? && !s.flags.disabled
    && s.comps[g].seenBy.None? && s.comps[g].archBy.None? && !Busy(s, Live) && !Busy(s, Heal)
  }

  function Posts(s: State, n: nat): Push {
    if s.push.port then Push(true, s.push.marks + seq(n, _ => Posted)) else s.push
  }

  /** s with t in pc, the mutex in hold's hands, d more in flight, comp installed, and n posts. */
  function Now(s: State, t: Tid, pc: Pc, hold: Option<Tid>, d: int, g: Gen, comp: Comp, n: nat): State {
    s.(threads := s.threads[t := pc], mutex := hold, inFlight := s.inFlight + d, comps := s.comps[g := comp],
       push := Posts(s, n))
  }

  /** Two moves in a row overwrite thread and component, and add up their posts. */
  lemma Overwrites(s: State, m: State, t: Tid, pc: Pc, g: Gen, comp: Comp)
    requires exists pc0, hold, d, comp0, n :: m == Now(s, t, pc0, hold, d, g, comp0, n)
    ensures m.threads[t := pc] == s.threads[t := pc] && m.comps[g := comp] == s.comps[g := comp]
  {}

  lemma PostedOnce(s: State, m: State, n: nat)
    requires m.push == Posts(s, n)
    ensures Post(m).push == Posts(s, n + 1)
  {
    assert seq(n + 1, _ => Posted) == seq(n, _ => Posted) + [Posted];
  }

  lemma Begins(s: State, t: Tid, g: Gen)
    requires g in s.comps
    ensures forall pc :: Now(s, t, pc, s.mutex, 0, g, s.comps[g], 0) == At(s, t, pc)
    ensures forall d: int, pc :: Now(s, t, pc, s.mutex, d, g, s.comps[g], 0).comps == s.comps
  {
    assert s.comps[g := s.comps[g]] == s.comps && s.push.marks + seq(0, _ => Posted) == s.push.marks;
  }

  // ---- a receive callback ----------------------------------------------------------------------------

  function Queued(c: Comp, i: Item): Comp {
    c.(archive := c.archive.(queue := c.archive.queue + [i], enqueued := c.archive.enqueued + [i]))
  }

  /** After k moves of the callback. */
  function CallbackAt(s: State, t: Tid, g: Gen, r: Route, i: Item, k: nat): State
    requires g in s.comps
  {
    var c := s.comps[g];
    match k
    case 0 => Now(s, t, Waiting(Gate(r, i)), None, 0, g, c, 0)
    case 1 => Now(s, t, Waiting(Callback(r, i)), None, 0, g, c, 0)
    case 2 => Now(s, t, InWindow(g, Nothing, FunnelWantsSeen(r, i)), None, 1, g, c, 0)
    case 3 => Now(s, t, InWindow(g, Seen, FunnelMarks(r, i)), None, 1, g, c.(seenBy := Some(t)), 0)
    case 4 => Now(s, t, InWindow(g, Nothing, FunnelPush(r, i)), None, 1, g, c, 0)
    case 5 => Now(s, t, InWindow(g, Nothing, FunnelWantsArch(r, i)), None, 1, g, c, 1)
    case 6 => Now(s, t, InWindow(g, Arch, FunnelQueues(r, i)), None, 1, g, c.(archBy := Some(t)), 1)
    case 7 => Now(s, t, InWindow(g, Nothing, FunnelDone(r)), None, 1, g, Queued(c, i), 1)
    case _ => Now(s, t, Done, None, 0, g, Queued(c, i), 1)
  }

  lemma CallbackEnters(cfg: Config, s: State, t: Tid, g: Gen, r: Route, i: Item, k: nat)
    requires Quiet(s, g) && t.User? && k < 2 && (r.Heal? ==> !Stray(i))
    ensures Step(cfg, CallbackAt(s, t, g, r, i, k), Move(t, Go)) == Some(CallbackAt(s, t, g, r, i, k + 1))
  {
    var m, m' := CallbackAt(s, t, g, r, i, k), CallbackAt(s, t, g, r, i, k + 1);
    Overwrites(s, m, t, m'.threads[t], g, m'.comps[g]);
  }

  lemma CallbackAdmits(cfg: Config, s: State, t: Tid, g: Gen, r: Route, i: Item, k: nat)
    requires Quiet(s, g) && t.User? && 2 <= k < 4 && (r.Heal? ==> !Stray(i))
    ensures Step(cfg, CallbackAt(s, t, g, r, i, k), Move(t, Go)) == Some(CallbackAt(s, t, g, r, i, k + 1))
  {
    var m, m' := CallbackAt(s, t, g, r, i, k), CallbackAt(s, t, g, r, i, k + 1);
    Overwrites(s, m, t, m'.threads[t], g, m'.comps[g]);
  }

  lemma CallbackPosts(cfg: Config, s: State, t: Tid, g: Gen, r: Route, i: Item, k: nat)
    requires Quiet(s, g) && t.User? && k == 4 && (r.Heal? ==> !Stray(i))
    ensures Step(cfg, CallbackAt(s, t, g, r, i, k), Move(t, Go)) == Some(CallbackAt(s, t, g, r, i, k + 1))
  {
    var m, m' := CallbackAt(s, t, g, r, i, k), CallbackAt(s, t, g, r, i, k + 1);
    Overwrites(s, m, t, m'.threads[t], g, m'.comps[g]);
    PostedOnce(s, m, 0);
  }

  lemma CallbackQueues(cfg: Config, s: State, t: Tid, g: Gen, r: Route, i: Item, k: nat)
    requires Quiet(s, g) && t.User? && 5 <= k < 7 && (r.Heal? ==> !Stray(i))
    ensures Step(cfg, CallbackAt(s, t, g, r, i, k), Move(t, Go)) == Some(CallbackAt(s, t, g, r, i, k + 1))
  {
    var m, m' := CallbackAt(s, t, g, r, i, k), CallbackAt(s, t, g, r, i, k + 1);
    Overwrites(s, m, t, m'.threads[t], g, m'.comps[g]);
  }

  lemma CallbackLeaves(cfg: Config, s: State, t: Tid, g: Gen, r: Route, i: Item, k: nat)
    requires Quiet(s, g) && t.User? && k == 7 && (r.Heal? ==> !Stray(i))
    ensures Step(cfg, CallbackAt(s, t, g, r, i, k), Move(t, Go)) == Some(CallbackAt(s, t, g, r, i, k + 1))
  {
    var m, m' := CallbackAt(s, t, g, r, i, k), CallbackAt(s, t, g, r, i, k + 1);
    Overwrites(s, m, t, m'.threads[t], g, m'.comps[g]);
  }

  lemma CallbackStep(cfg: Config, s: State, t: Tid, g: Gen, r: Route, i: Item, k: nat)
    requires Quiet(s, g) && t.User? && k < 8 && (r.Heal? ==> !Stray(i))
    ensures Step(cfg, CallbackAt(s, t, g, r, i, k), Move(t, Go)) == Some(CallbackAt(s, t, g, r, i, k + 1))
  {
    if k < 2 {
      CallbackEnters(cfg, s, t, g, r, i, k);
    } else if k < 4 {
      CallbackAdmits(cfg, s, t, g, r, i, k);
    } else if k == 4 {
      CallbackPosts(cfg, s, t, g, r, i, k);
    } else if k < 7 {
      CallbackQueues(cfg, s, t, g, r, i, k);
    } else {
      CallbackLeaves(cfg, s, t, g, r, i, k);
    }
  }

  function Goes(n: nat): seq<Choice> {
    seq(n, _ => Go)
  }

  /** A callback that meets nobody is let in, posts once to the client if there is a port, queues its
      message for the archive, and takes its count back. */
  lemma CallbackDelivers(cfg: Config, s: State, n: nat, g: Gen, r: Route, i: Item)
    requires Quiet(s, g) && User(n) !in s.threads && (r.Heal? ==> !Stray(i))
    ensures var c := s.comps[g];
            Run(cfg, s, [Spawn(n, Gate(r, i))] + Moves(User(n), Goes(8)))
            == Some(s.(threads := s.threads[User(n) := Done],
                       comps := s.comps[g := c.(archive := c.archive.(queue := c.archive.queue + [i],
                                                                      enqueued := c.archive.enqueued + [i]))],
                       push := if s.push.port then Push(true, s.push.marks + [Posted]) else s.push))
  {
    forall k: nat | k < 8 ensures Step(cfg, CallbackAt(s, User(n), g, r, i, k), Move(User(n), Goes(8)[k]))
                                  == Some(CallbackAt(s, User(n), g, r, i, k + 1)) {
      CallbackStep(cfg, s, User(n), g, r, i, k);
    }
    Begins(s, User(n), g);
    Follows(cfg, s, Spawn(n, Gate(r, i)), User(n), Goes(8), (k: nat) => CallbackAt(s, User(n), g, r, i, k));
    assert seq(1, _ => Posted) == [Posted];
  }

  // ---- a send ----------------------------------------------------------------------------------------

  /** What a command that sends one text decides at each move. */
  const SENDS := [Go, OpenSend, Go, Go, Go, Go, Go, Go, Finish(false)]

  /** After k moves of the send. */
  function SendAt(s: State, t: Tid, g: Gen, k: nat): State
    requires g in s.comps
  {
    var c := s.comps[g];
    match k
    case 0 => Now(s, t, Waiting(Publish(g)), None, 0, g, c, 0)
    case 1 => Now(s, t, Commanding(g, Nothing, Body), Some(t), 0, g, c, 0)
    case 2 => Now(s, t, InWindow(g, Nothing, SendWantsSeen), None, 1, g, c, 0)
    case 3 => Now(s, t, InWindow(g, Seen, SendMarks), None, 1, g, c.(seenBy := Some(t)), 0)
    case 4 => Now(s, t, InWindow(g, Nothing, SendPending), None, 1, g, c, 0)
    case 5 => Now(s, t, InWindow(g, Nothing, SendPut), None, 1, g, c, 1)
    case 6 => Now(s, t, InWindow(g, Nothing, SendTerminal), None, 1, g, c, 1)
    case 7 => Now(s, t, InWindow(g, Nothing, Sent), None, 1, g, c, 2)
    case 8 => Now(s, t, Commanding(g, Nothing, Body), Some(t), 0, g, c, 2)
    case _ => Now(s, t, Done, None, 0, g, c, 2)
  }

  lemma SendOpens(cfg: Config, s: State, t: Tid, g: Gen, k: nat)
    requires Quiet(s, g) && t.User? && k < 2
    ensures Step(cfg, SendAt(s, t, g, k), Move(t, SENDS[k])) == Some(SendAt(s, t, g, k + 1))
  {
    var m, m' := SendAt(s, t, g, k), SendAt(s, t, g, k + 1);
    Overwrites(s, m, t, m'.threads[t], g, m'.comps[g]);
  }

  lemma SendMarksItsId(cfg: Config, s: State, t: Tid, g: Gen, k: nat)
    requires Quiet(s, g) && t.User? && 2 <= k < 4
    ensures Step(cfg, SendAt(s, t, g, k), Move(t, SENDS[k])) == Some(SendAt(s, t, g, k + 1))
  {
    var m, m' := SendAt(s, t, g, k), SendAt(s, t, g, k + 1);
    Overwrites(s, m, t, m'.threads[t], g, m'.comps[g]);
  }

  lemma SendPosts(cfg: Config, s: State, t: Tid, g: Gen, k: nat)
    requires Quiet(s, g) && t.User? && (k == 4 || k == 6)
    ensures Step(cfg, SendAt(s, t, g, k), Move(t, SENDS[k])) == Some(SendAt(s, t, g, k + 1))
  {
    var m, m' := SendAt(s, t, g, k), SendAt(s, t, g, k + 1);
    Overwrites(s, m, t, m'.threads[t], g, m'.comps[g]);
    PostedOnce(s, m, if k == 4 then 0 else 1);
  }

  /** No callback is under way that the store write could wait for. */
  lemma SendPuts(cfg: Config, s: State, t: Tid, g: Gen, k: nat)
    requires Quiet(s, g) && t.User? && k == 5
    ensures Step(cfg, SendAt(s, t, g, k), Move(t, SENDS[k])) == Some(SendAt(s, t, g, k + 1))
  {
    var m, m' := SendAt(s, t, g, k), SendAt(s, t, g, k + 1);
    Overwrites(s, m, t, m'.threads[t], g, m'.comps[g]);
    assert !Busy(m, Heal) by {
      assert forall u | u in m.threads && u != t :: m.threads[u] == s.threads[u];
    }
  }

  lemma SendReturns(cfg: Config, s: State, t: Tid, g: Gen, k: nat)
    requires Quiet(s, g) && t.User? && 7 <= k < 9
    ensures Step(cfg, SendAt(s, t, g, k), Move(t, SENDS[k])) == Some(SendAt(s, t, g, k + 1))
  {
    var m, m' := SendAt(s, t, g, k), SendAt(s, t, g, k + 1);
    Overwrites(s, m, t, m'.threads[t], g, m'.comps[g]);
  }

  lemma SendStep(cfg: Config, s: State, t: Tid, g: Gen, k: nat)
    requires Quiet(s, g) && t.User? && k < 9
    ensures Step(cfg, SendAt(s, t, g, k), Move(t, SENDS[k])) == Some(SendAt(s, t, g, k + 1))
  {
    if k < 2 {
      SendOpens(cfg, s, t, g, k);
    } else if k < 4 {
      SendMarksItsId(cfg, s, t, g, k);
    } else if k == 5 {
      SendPuts(cfg, s, t, g, k);
    } else if k < 7 {
      SendPosts(cfg, s, t, g, k);
    } else {
      SendReturns(cfg, s, t, g, k);
    }
  }

  /** A send that meets nobody posts twice, PENDING and the terminal state, and leaves the session as it
      found it: no lock held, no operation counted. */
  lemma SendPostsTwice(cfg: Config, s: State, n: nat, g: Gen)
    requires Quiet(s, g) && User(n) !in s.threads
    ensures Run(cfg, s, [Spawn(n, Publish(g))] + Moves(User(n), SENDS))
            == Some(s.(threads := s.threads[User(n) := Done],
                       push := if s.push.port then Push(true, s.push.marks + [Posted, Posted]) else s.push))
  {
    forall k: nat | k < 9 ensures Step(cfg, SendAt(s, User(n), g, k), Move(User(n), SENDS[k]))
                                  == Some(SendAt(s, User(n), g, k + 1)) {
      SendStep(cfg, s, User(n), g, k);
    }
    Begins(s, User(n), g);
    Follows(cfg, s, Spawn(n, Publish(g)), User(n), SENDS, (k: nat) => SendAt(s, User(n), g, k));
    assert seq(2, _ => Posted) == [Posted, Posted];
  }

  // ---- a join's history replay, a registration, a stale handle ------------------------------------------

  const REPLAYS := [Go, Replay, Go, Go, Finish(false)]

  /** After k moves of a command that replays a room's history. */
  function ReplayAt(s: State, t: Tid, g: Gen, k: nat): State
    requires g in s.comps
  {
    var c := s.comps[g];
    match k
    case 0 => Now(s, t, Waiting(Publish(g)), None, 0, g, c, 0)
    case 1 => Now(s, t, Commanding(g, Nothing, Body), Some(t), 0, g, c, 0)
    case 2 => Now(s, t, Commanding(g, Nothing, WantsHistory), Some(t), 0, g, c, 0)
    case 3 => Now(s, t, Commanding(g, Seen, ReadingHistory), Some(t), 0, g, c.(seenBy := Some(t)), 0)
    case 4 => Now(s, t, Commanding(g, Nothing, Body), Some(t), 0, g, c, 1)
    case _ => Now(s, t, Done, None, 0, g, c, 1)
  }

  lemma ReplayPosts(cfg: Config, s: State, t: Tid, g: Gen)
    requires Quiet(s, g) && t.User?
    ensures Step(cfg, ReplayAt(s, t, g, 3), Move(t, Go)) == Some(ReplayAt(s, t, g, 4))
  {
    var m, m' := ReplayAt(s, t, g, 3), ReplayAt(s, t, g, 4);
    Overwrites(s, m, t, m'.threads[t], g, m'.comps[g]);
    PostedOnce(s, m, 0);
  }

  lemma ReplayStep(cfg: Config, s: State, t: Tid, g: Gen, k: nat)
    requires Quiet(s, g) && t.User? && k < 5
    ensures Step(cfg, ReplayAt(s, t, g, k), Move(t, REPLAYS[k])) == Some(ReplayAt(s, t, g, k + 1))
  {
    if k == 3 {
      ReplayPosts(cfg, s, t, g);
    } else {
      var m, m' := ReplayAt(s, t, g, k), ReplayAt(s, t, g, k + 1);
      Overwrites(s, m, t, m'.threads[t], g, m'.comps[g]);
    }
  }

  /** A replay that meets nobody posts one batch and leaves the session as it found it. */
  lemma ReplayPostsOnce(cfg: Config, s: State, n: nat, g: Gen)
    requires Quiet(s, g) && User(n) !in s.threads
    ensures Run(cfg, s, [Spawn(n, Publish(g))] + Moves(User(n), REPLAYS))
            == Some(s.(threads := s.threads[User(n) := Done],
                       push := if s.push.port then Push(true, s.push.marks + [Posted]) else s.push))
  {
    forall k: nat | k < 5 ensures Step(cfg, ReplayAt(s, User(n), g, k), Move(User(n), REPLAYS[k]))
                                  == Some(ReplayAt(s, User(n), g, k + 1)) {
      ReplayStep(cfg, s, User(n), g, k);
    }
    Begins(s, User(n), g);
    Follows(cfg, s, Spawn(n, Publish(g)), User(n), REPLAYS, (k: nat) => ReplayAt(s, User(n), g, k));
    assert seq(1, _ => Posted) == [Posted];
  }

  /** A gcs_subscribe with the right handle attaches the port and posts to it. */
  lemma RegisterAttaches(cfg: Config, s: State, t: Tid, g: Gen, c: Choice)
    requires s.installed == Some(g) && s.mutex.None? && t in s.threads && s.threads[t] == Waiting(Register(g))
    ensures Step(cfg, s, Move(t, c))
            == Some(s.(threads := s.threads[t := Done], push := Push(true, s.push.marks + [Registered, Posted])))
  {
    assert s.push.marks + [Registered] + [Posted] == s.push.marks + [Registered, Posted];
  }

  /** A command's last step posts what it has to say, if there is a port, and lets go of the mutex. */
  lemma CommandEnds(cfg: Config, s: State, t: Tid, g: Gen, post: bool)
    requires g in s.comps && t in s.threads && s.threads[t] == Commanding(g, Nothing, Body)
    ensures Step(cfg, s, Move(t, Finish(post)))
            == Some(s.(threads := s.threads[t := Done], mutex := None,
                       push := if post && s.push.port then Push(true, s.push.marks + [Posted]) else s.push))
  {}

  /** A call with the handle of another session changes nothing. */
  lemma StaleHandleDoesNothing(cfg: Config, s: State, t: Tid, h: Gen, c: Choice)
    requires s.installed != Some(h) && s.mutex.None? && t in s.threads
    requires s.threads[t] in {Waiting(Publish(h)), Waiting(Register(h)), Waiting(Shutdown(h))}
    ensures Step(cfg, s, Move(t, c)) == Some(s.(threads := s.threads[t := Done]))
  {}
}
