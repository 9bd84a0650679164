/** The lock protocol cannot get stuck, unless a catalog write waits for the CRDT worker. */
module Deadlock {
  import opened Basics
  import opened Lifecycle
  import opened LifecycleInvariants

  /** What a thread does when nothing fails: a command ends, everything else goes on. */
  function Ahead(pc: Pc): Choice {
    if pc.Commanding? && pc.at.Body? then Finish(false) else Go
  }

  /** t's next step is enabled, without the help of a failing foreign call or an abandoned wait. */
  predicate CanMove(cfg: Config, s: State, t: Tid) {
    t in s.threads && MoveStep(cfg, s, t, Ahead(s.threads[t])).Some?
  }

  /** A thread that has something left to do; an archive worker with nothing queued rests. */
  predicate Unfinished(s: State, t: Tid) {
    t in s.threads
    && match s.threads[t]
       case Done => false
       case Drained => false
       case Leaked => false
       case Idle => t.Worker? && t.g in s.comps && (s.comps[t.g].life.stopped || s.comps[t.g].archive.queue != [])
       case _ => true
  }

  /** The holder of a component lock never waits for anything. */
  lemma LockHolderMoves(cfg: Config, s: State, t: Tid)
    requires Inv(s) && t in s.threads && Held(t, s.threads[t]).0 != Nothing
    ensures CanMove(cfg, s, t)
  {
    InvLocal(s, t);
  }

  /** With the component locks free, the holder of g_mutex can go on, whatever it is doing. */
  lemma MutexHolderMoves(cfg: Config, s: State, t: Tid)
    requires Inv(s) && !cfg.entityPutWaits && s.mutex == Some(t)
    requires forall g | g in s.comps :: s.comps[g].seenBy.None?
    ensures CanMove(cfg, s, t)
  {
    InvLocal(s, t);
  }

  ghost predicate AllFree(s: State) {
    s.mutex.None? && forall g | g in s.comps :: s.comps[g].seenBy.None? && s.comps[g].archBy.None?
  }

  /** With every mutex free, a receive callback can go on at any point. */
  lemma CallbackMoves(cfg: Config, s: State, t: Tid, r: Route)
    requires Inv(s) && AllFree(s) && t in s.threads && OnRoute(s.threads[t], r)
    ensures CanMove(cfg, s, t)
  {
    InvLocal(s, t);
  }

  ghost predicate Quiet(s: State) {
    AllFree(s) && !Busy(s, Live) && !Busy(s, Heal)
  }

  /** With no callback in progress either, so can every other thread inside a window. */
  lemma WindowMoves(cfg: Config, s: State, t: Tid)
    requires Inv(s) && Quiet(s) && t in s.threads && s.threads[t].InWindow?
    ensures CanMove(cfg, s, t)
  {
    InvLocal(s, t);
    if OnRoute(s.threads[t], Live) {
      CallbackMoves(cfg, s, t, Live);
    } else if OnRoute(s.threads[t], Heal) {
      CallbackMoves(cfg, s, t, Heal);
    } else {
    }
  }

  lemma WorkerMoves(cfg: Config, s: State, t: Tid)
    requires Inv(s) && Quiet(s) && Unfinished(s, t) && WorkerPc(s.threads[t])
    ensures CanMove(cfg, s, t)
  {
    InvLocal(s, t);
  }

  /** A teardown that joins the archive worker waits for a worker that can move. */
  lemma TeardownMoves(cfg: Config, s: State, t: Tid) returns (u: Tid)
    requires Inv(s) && Quiet(s) && t in s.threads && s.threads[t].Destroying?
    ensures CanMove(cfg, s, u)
  {
    InvLocal(s, t);
    var pc := s.threads[t];
    if pc.own.Some? && pc.stage.Joining? && !s.threads[Worker(pc.own.value)].Drained? {
      u := Worker(pc.own.value);
      InvLocal(s, u);
      WorkerMoves(cfg, s, u);
    } else {
      u := t;
    }
  }

  /** A shutdown that waits for the in-flight count waits for a thread that can move. */
  lemma DrainMoves(cfg: Config, s: State, t: Tid) returns (u: Tid)
    requires Inv(s) && Quiet(s) && Lost(s) == {} && t in s.threads && s.threads[t].Waiting?
    ensures CanMove(cfg, s, u)
  {
    InvLocal(s, t);
    var e := s.threads[t].entry;
    if (e.ShutdownDrain? || e.ExitDrain?) && s.inFlight != 0 {
      assert Counted(s) != {};
      u :| u in Counted(s);
      assert u !in Lost(s);
      WindowMoves(cfg, s, u);
    } else {
      u := t;
    }
  }

  lemma QuietMoves(cfg: Config, s: State, t: Tid) returns (u: Tid)
    requires Inv(s) && Quiet(s) && Lost(s) == {} && Unfinished(s, t)
    ensures CanMove(cfg, s, u)
  {
    InvLocal(s, t);
    match s.threads[t] {
      case InWindow(_, _, _) =>
        u := t;
        WindowMoves(cfg, s, t);
      case Destroying(_, _, _, _, _) => u := TeardownMoves(cfg, s, t);
      case Waiting(_) => u := DrainMoves(cfg, s, t);
      case _ =>
        u := t;
        WorkerMoves(cfg, s, t);
    }
  }

  lemma SomeoneMoves(cfg: Config, s: State, t: Tid) returns (u: Tid)
    requires Inv(s) && !cfg.entityPutWaits && Lost(s) == {} && Unfinished(s, t)
    ensures CanMove(cfg, s, u)
  {
    if g :| g in s.comps && s.comps[g].seenBy.Some? {
      u := s.comps[g].seenBy.value;
      LockHolderMoves(cfg, s, u);
    } else if g :| g in s.comps && s.comps[g].archBy.Some? {
      u := s.comps[g].archBy.value;
      LockHolderMoves(cfg, s, u);
    } else if s.mutex.Some? {
      u := s.mutex.value;
      MutexHolderMoves(cfg, s, u);
    } else if v :| v in s.threads && OnRoute(s.threads[v], Live) {
      u := v;
      CallbackMoves(cfg, s, u, Live);
    } else if v :| v in s.threads && OnRoute(s.threads[v], Heal) {
      u := v;
      CallbackMoves(cfg, s, u, Heal);
    } else {
      assert Quiet(s);
      u := QuietMoves(cfg, s, t);
    }
  }
}
