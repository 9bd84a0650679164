/** What becomes of a session: it is installed, or the thread that evicted it is destroying it, or it is gone. */
module Eviction {
  import opened Basics
  import opened Lifecycle
  import opened LifecycleInvariants
  import opened LifecycleMoves
  import opened LifecycleSafety

  /** Worker told to stop and joined, messaging freed, store shut down, catalog and session freed. */
  const GONE := Life(stopped := true, freed := true, storeUp := false, sessionFreed := true)

  predicate Destroys(pc: Pc, g: Gen) {
    pc.Destroying? && pc.own == Some(g)
  }

  ghost predicate FateOk(s: State, g: Gen)
    requires g in s.comps
  {
    var owner := s.comps[g].owner;
    && (owner.Some? ==> owner.value.User?)
    && (|| s.installed == Some(g)
        || (owner.Some? && owner.value in s.threads && Destroys(s.threads[owner.value], g))
        || s.comps[g].life == GONE)
  }

  ghost predicate FatesOk(s: State) {
    forall g | g in s.comps :: FateOk(s, g)
  }

  /** Only the thread that destroys a generation changes its life. */
  lemma LifeKept(s: State, t: Tid, s': State, g: Gen)
    requires Inv(s) && FatesOk(s) && Rule(s, t, s') && g in s.comps && !Destroys(s.threads[t], g)
    ensures g in s'.comps && s'.comps[g].owner == s.comps[g].owner && s'.comps[g].life == s.comps[g].life
  {
    InvLocal(s, t);
    assert FateOk(s, g);
  }

  lemma DestroyFate(s: State, t: Tid, live: bool, heal: bool, s': State, g: Gen)
    requires g in s.comps && t in s.threads && Destroys(s.threads[t], g)
    requires s.threads[t].stage.Freeing? ==> s.comps[g].life == GONE.(sessionFreed := false)
    requires DestroyStep(s, t, s.threads[t], live, heal) == Some(s')
    ensures t in s'.threads && g in s'.comps && s'.comps[g].owner == s.comps[g].owner
    ensures Destroys(s'.threads[t], g) || s'.comps[g].life == GONE
  {}

  lemma FreeingLife(s: State, t: Tid, g: Gen)
    requires CompsOk(s) && OwnersOk(s) && t in s.threads && g in s.comps && Destroys(s.threads[t], g)
    ensures s.threads[t].stage.Freeing? ==> s.comps[g].life == GONE.(sessionFreed := false)
  {
    assert CompOk(s.comps[g], s.threads[Worker(g)]) && StageOk(s.threads[t].stage, s.comps[g]);
  }

  lemma FateKept(s: State, t: Tid, s': State, g: Gen)
    requires OneThread(s, t, s') && g in s.comps && FateOk(s, g)
    requires g in s'.comps && s'.comps[g].owner == s.comps[g].owner
    requires if Destroys(s.threads[t], g) then Destroys(s'.threads[t], g) || s'.comps[g].life == GONE
             else s'.comps[g].life == s.comps[g].life
    requires Destroys(s.threads[t], g) ==> s.comps[g].owner == Some(t)
    ensures FateOk(s', g)
  {}

  lemma MoveFates(cfg: Config, s: State, t: Tid, c: Choice, s': State)
    requires Inv(s) && FatesOk(s) && t in s.threads && MoveStep(cfg, s, t, c) == Some(s')
    requires !s.threads[t].Waiting? && !s.threads[t].Evicting?
    ensures FatesOk(s')
  {
    InvLocal(s, t);
    MoveRule(cfg, s, t, c, s');
    forall g | g in s'.comps ensures FateOk(s', g) {
      assert g in s.comps && FateOk(s, g);
      if Destroys(s.threads[t], g) {
        FreeingLife(s, t, g);
        DestroyFate(s, t, Busy(s, Live), Busy(s, Heal), s', g);
      } else {
        LifeKept(s, t, s', g);
      }
      FateKept(s, t, s', g);
    }
  }

  lemma InstallFates(s: State, t: Tid, k: Sdk, tears: bool)
    requires CompsOk(s) && FatesOk(s) && t in s.threads && s.threads[t].Waiting? && s.installed.None?
    ensures FatesOk(Install(s, t, k, tears))
  {
    var s' := Install(s, t, k, tears);
    forall g | g in s'.comps ensures FateOk(s', g) {
      assert g != s.nextGen ==> FateOk(s, g);
    }
  }

  lemma WaitingFates(cfg: Config, s: State, t: Tid, e: Entry, c: Choice, s': State)
    requires Inv(s) && FatesOk(s) && t in s.threads && s.threads[t] == Waiting(e) && MoveStep(cfg, s, t, c) == Some(s')
    ensures FatesOk(s')
  {
    WaitingMoved(cfg, s, t, e, c, s');
    if s' == Install(s, t, Booted(s.sdk), SomeoneTears(s)) && s.installed.None? {
      InstallFates(s, t, Booted(s.sdk), SomeoneTears(s));
    } else {
      forall g | g in s'.comps ensures FateOk(s', g) {
        assert FateOk(s, g);
      }
    }
  }

  lemma EvictFates(s: State, t: Tid, exit: bool)
    requires FatesOk(s) && t in s.threads && s.threads[t] == Evicting(exit) && t.User?
    ensures FatesOk(EvictBody(s, t, exit))
  {
    var s' := EvictBody(s, t, exit);
    forall g | g in s'.comps ensures FateOk(s', g) {
      assert FateOk(s, g);
    }
  }

  lemma StepFates(cfg: Config, s: State, a: Action, s': State)
    requires Inv(s) && FatesOk(s) && Step(cfg, s, a) == Some(s')
    ensures FatesOk(s')
  {
    match a {
      case Move(t, c) =>
        if s.threads[t].Waiting? {
          WaitingFates(cfg, s, t, s.threads[t].entry, c, s');
        } else if s.threads[t].Evicting? {
          assert !WorkerPc(s.threads[t]);
          EvictFates(s, t, s.threads[t].exit);
        } else {
          MoveFates(cfg, s, t, c, s');
        }
      case _ =>
        forall g | g in s'.comps ensures FateOk(s', g) {
          assert FateOk(s, g);
        }
    }
  }

  lemma {:induction false} RunFates(cfg: Config, s: State, acts: seq<Action>, s': State)
    requires Inv(s) && FatesOk(s) && !cfg.exitMayTimeOut && Run(cfg, s, acts) == Some(s')
    ensures FatesOk(s')
    decreases |acts|
  {
    if acts != [] {
      var s1 := Step(cfg, s, acts[0]).value;
      StepInv(cfg, s, acts[0], s1);
      StepFates(cfg, s, acts[0], s1);
      RunFates(cfg, s1, acts[1..], s');
    }
  }
}
