/** The intake gate: from the moment a teardown raises it, no callback comes in. */
module Intake {
  import opened Basics
  import opened Lifecycle
  import opened LifecycleMoves

  /** The gate is up, and nobody is past it who was not before. */
  ghost predicate Closed(s: State, s': State) {
    && s'.flags.disabled
    && forall t | t in s'.threads && LetIn(s'.threads[t]) :: t in s.threads && LetIn(s.threads[t])
  }

  lemma StepClosed(cfg: Config, s: State, a: Action, s': State)
    requires s.flags.disabled && Step(cfg, s, a) == Some(s')
    ensures s'.nextGen > s.nextGen || (s'.nextGen == s.nextGen && Closed(s, s'))
  {
    if a.Move? {
      MoveMoved(cfg, s, a.t, a.c, s');
    }
  }

  lemma StepCounts(cfg: Config, s: State, a: Action, s': State)
    requires Step(cfg, s, a) == Some(s')
    ensures s.nextGen <= s'.nextGen
  {
    if a.Move? {
      MoveMoved(cfg, s, a.t, a.c, s');
    }
  }

  lemma {:induction false} RunCounts(cfg: Config, s: State, acts: seq<Action>, s': State)
    requires Run(cfg, s, acts) == Some(s')
    ensures s.nextGen <= s'.nextGen
    decreases |acts|
  {
    if acts != [] {
      StepCounts(cfg, s, acts[0], Step(cfg, s, acts[0]).value);
      RunCounts(cfg, Step(cfg, s, acts[0]).value, acts[1..], s');
    }
  }

  /** Once the gate is up it stays up until a gcs_init builds the next session, and until then every
      callback that is past it in a later state was past it already. */
  lemma {:induction false} GateHolds(cfg: Config, s: State, acts: seq<Action>, s': State)
    requires s.flags.disabled && Run(cfg, s, acts) == Some(s') && s'.nextGen == s.nextGen
    ensures s'.flags.disabled
    ensures forall t | t in s'.threads && LetIn(s'.threads[t]) :: t in s.threads && LetIn(s.threads[t])
    decreases |acts|
  {
    if acts != [] {
      var s1 := Step(cfg, s, acts[0]).value;
      StepClosed(cfg, s, acts[0], s1);
      RunCounts(cfg, s1, acts[1..], s');
      GateHolds(cfg, s1, acts[1..], s');
    }
  }

  /** The step in which a gcs_shutdown with the right handle, or the exit hook, starts its teardown raises
      the gate; only a gcs_shutdown with another handle goes away without. */
  lemma TeardownRaisesGate(cfg: Config, s: State, t: Tid, c: Choice, s': State)
    requires t in s.threads && Step(cfg, s, Move(t, c)) == Some(s')
    requires s.threads[t].Waiting? && (s.threads[t].entry.Shutdown? || s.threads[t].entry.ExitHook?)
    ensures s'.flags.disabled || (s.threads[t].entry.Shutdown? && s.installed != Some(s.threads[t].entry.handle))
  {}

  /** So from the first step of a teardown on, for as long as no session is built, no callback comes in
      that had not already: neither into the count the teardown waits on, nor into the funnel. */
  lemma IntakeStops(cfg: Config, s: State, t: Tid, c: Choice, s1: State, acts: seq<Action>, s': State)
    requires t in s.threads && Step(cfg, s, Move(t, c)) == Some(s1)
    requires s.threads[t] == Waiting(ExitHook)
             || (s.installed.Some? && s.threads[t] == Waiting(Shutdown(s.installed.value)))
    requires Run(cfg, s1, acts) == Some(s') && s'.nextGen == s.nextGen
    ensures s'.flags.disabled
    ensures forall u | u in s'.threads && LetIn(s'.threads[u]) :: u in s.threads && LetIn(s.threads[u])
  {
    TeardownRaisesGate(cfg, s, t, c, s1);
    StepCounts(cfg, s, Move(t, c), s1);
    RunCounts(cfg, s1, acts, s');
    GateHolds(cfg, s1, acts, s');
    DrainMoved(cfg, s, t, s.threads[t].entry, c, s1);
  }
}
