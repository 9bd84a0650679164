/**
  RefreshDerivedJoins as it interleaves: it recomputes the derived topics once, lets go of the mutex
  at every live subscribe, and goes on from that snapshot when it has the mutex back.
 */
module Refreshes {
  import opened Basics
  import opened KeyGrammar
  import opened Joins

  /** A refresh in its live-subscribe window: the ids it found derived, and how many are handled. */
  datatype Refresh = Refresh(snapshot: seq<string>, next: nat)

  /** catalog: the ids of the rooms that derive a join now. */
  datatype State = State(lists: Lists, catalog: seq<string>, running: map<nat, Refresh>)

  /** Command: a catalog command leaves these rooms deriving, and refreshes.  Resume: a refresh has the
      mutex back.  fails: the topics whose registration fails until it lets go of it again.
      Join: an explicit join. */
  datatype Action =
    | Command(t: nat, catalog: seq<string>, fails: set<string>)
    | Resume(t: nat, fails: set<string>)
    | Join(topic: string)

  /** overlap: a catalog command may run while another thread's refresh is in its window.
      failing: a registration may fail. */
  datatype Config = Config(overlap: bool, failing: bool)

  /** What gcs_init has joined when it first refreshes: one or both smoke topics. */
  predicate Booted(s: State) {
    s == State(Lists(s.lists.smoke, s.lists.smoke, [], []), [], map[])
    && s.lists.smoke in [[SMOKE_A], [SMOKE_B], [SMOKE_A, SMOKE_B]]
  }

  predicate DerivedBy(ids: seq<string>, t: string) {
    exists i :: 0 <= i < |ids| && t == TopicOf(ids[i])
  }

  /** The derived topics that left the snapshot. */
  function Gone(derived: seq<string>, snapshot: seq<string>): (r: seq<string>)
    ensures forall t :: t in r <==> t in derived && !DerivedBy(snapshot, t)
  {
    if derived == [] then []
    else
      assert derived == [derived[0]] + derived[1..];
      (if DerivedBy(snapshot, derived[0]) then [] else [derived[0]]) + Gone(derived[1..], snapshot)
  }

  /** One locked region: up to the next topic it registers, or through the eviction loop to the end. */
  function Region(l: Lists, snapshot: seq<string>, next: nat, fails: set<string>): (Lists, Option<nat>)
    requires next <= |snapshot|
    decreases |snapshot| - next
  {
    if next == |snapshot| then (EvictAll(l, Gone(l.derived, snapshot)), None)
    else if TopicOf(snapshot[next]) in l.derived || TopicOf(snapshot[next]) in fails then
      Region(l, snapshot, next + 1, fails)
    else (JoinDerived(l, TopicOf(snapshot[next])), Some(next + 1))
  }

  /** A thread is back in the command loop once its refresh is through. */
  function Refreshed(s: State, t: nat, catalog: seq<string>, snapshot: seq<string>, next: nat, fails: set<string>)
    : State
    requires next <= |snapshot|
  {
    var (l, w) := Region(s.lists, snapshot, next, fails);
    State(l, catalog, if w.Some? then s.running[t := Refresh(snapshot, w.value)] else s.running - {t})
  }

  function Step(cfg: Config, s: State, a: Action): Option<State> {
    match a
    case Command(t, catalog, fails) =>
      if t in s.running || (!cfg.overlap && s.running != map[]) || (!cfg.failing && fails != {})
         || (exists id | id in catalog :: !MintedRoomId(id)) then None
      else Some(Refreshed(s, t, catalog, catalog, 0, fails))
    case Resume(t, fails) =>
      if t !in s.running || s.running[t].next > |s.running[t].snapshot| || (!cfg.failing && fails != {}) then None
      else Some(Refreshed(s, t, s.catalog, s.running[t].snapshot, s.running[t].next, fails))
    case Join(topic) => Some(s.(lists := JoinExplicit(s.lists, topic)))
  }

  function Run(cfg: Config, start: State, acts: seq<Action>): Option<State> {
    if acts == [] then Some(start)
    else match Run(cfg, start, acts[..|acts| - 1])
      case None => None
      case Some(s) => Step(cfg, s, acts[|acts| - 1])
  }

  ghost predicate Reachable(cfg: Config, s: State) {
    exists start, acts :: Booted(start) && Run(cfg, start, acts) == Some(s)
  }

  // ---- the room list at every unlock point -----------------------------------------------------------

  ghost predicate Inv(s: State) {
    && Projected(s.lists)
    && forall t | t in s.running ::
         s.running[t].next <= |s.running[t].snapshot| && forall id | id in s.running[t].snapshot :: MintedRoomId(id)
  }

  lemma {:induction false} RegionKeeps(l: Lists, snapshot: seq<string>, next: nat, fails: set<string>)
    requires next <= |snapshot| && Projected(l) && forall id | id in snapshot :: MintedRoomId(id)
    ensures var (l', w) := Region(l, snapshot, next, fails); Projected(l') && (w.Some? ==> next < w.value <= |snapshot|)
    decreases |snapshot| - next
  {
    if next == |snapshot| {
      EvictProjected(l, Gone(l.derived, snapshot));
    } else if TopicOf(snapshot[next]) in l.derived || TopicOf(snapshot[next]) in fails {
      RegionKeeps(l, snapshot, next + 1, fails);
    } else {
      JoinProjected(l, Derived(snapshot[next]));
    }
  }

  lemma StepInv(cfg: Config, s: State, a: Action, s': State)
    requires Inv(s) && Step(cfg, s, a) == Some(s')
    ensures Inv(s')
  {
    match a {
      case Command(t, catalog, fails) => RegionKeeps(s.lists, catalog, 0, fails);
      case Resume(t, fails) => RegionKeeps(s.lists, s.running[t].snapshot, s.running[t].next, fails);
      case Join(topic) => JoinProjected(s.lists, Explicit(topic));
    }
  }

  lemma {:induction false} RunInv(cfg: Config, start: State, acts: seq<Action>, s: State)
    requires Booted(start) && Run(cfg, start, acts) == Some(s)
    ensures Inv(s)
  {
    if acts != [] {
      var front := acts[..|acts| - 1];
      RunInv(cfg, start, front, Run(cfg, start, front).value);
      StepInv(cfg, Run(cfg, start, front).value, acts[|acts| - 1], s);
    }
  }

  /** Whenever the mutex is free, however commands and half-done refreshes interleave, the room list is
      without repeats exactly smoke + explicit + derived. */
  lemma RoomListProjected(cfg: Config, s: State)
    requires Reachable(cfg, s)
    ensures Projected(s.lists)
  {
    var start, acts :| Booted(start) && Run(cfg, start, acts) == Some(s);
    RunInv(cfg, start, acts, s);
  }

  // ---- where the rooms come from -----------------------------------------------------------------------

  lemma {:induction false} RegionSources(l: Lists, snapshot: seq<string>, next: nat, fails: set<string>)
    requires next <= |snapshot|
    ensures var l' := Region(l, snapshot, next, fails).0; l'.smoke == l.smoke && l'.explicit == l.explicit
    decreases |snapshot| - next
  {
    if next == |snapshot| {
      EvictRemoves(l, Gone(l.derived, snapshot));
    } else if TopicOf(snapshot[next]) in l.derived || TopicOf(snapshot[next]) in fails {
      RegionSources(l, snapshot, next + 1, fails);
    }
  }

  lemma StepSources(cfg: Config, s: State, a: Action, s': State)
    requires Inv(s) && Step(cfg, s, a) == Some(s')
    ensures s'.lists.smoke == s.lists.smoke
    ensures forall t :: t in s'.lists.explicit <==> t in s.lists.explicit || a == Join(t)
  {
    match a {
      case Command(t, catalog, fails) => RegionSources(s.lists, catalog, 0, fails);
      case Resume(t, fails) => RegionSources(s.lists, s.running[t].snapshot, s.running[t].next, fails);
      case Join(topic) =>
    }
  }

  /** In any later state, whatever commands, refreshes and evictions follow, a room is listed exactly if
      gcs_init joined it, a join_topic in the run named it, or it is derived. */
  lemma {:induction false} RoomsAreJoined(cfg: Config, start: State, acts: seq<Action>, s: State)
    requires Booted(start) && Run(cfg, start, acts) == Some(s)
    ensures s.lists.smoke == start.lists.smoke && forall t :: t in s.lists.explicit <==> Join(t) in acts
    ensures forall t :: t in s.lists.rooms <==> t in start.lists.smoke || Join(t) in acts || t in s.lists.derived
  {
    RunInv(cfg, start, acts, s);
    if acts != [] {
      var front, last := acts[..|acts| - 1], acts[|acts| - 1];
      assert acts == front + [last];
      RunInv(cfg, start, front, Run(cfg, start, front).value);
      RoomsAreJoined(cfg, start, front, Run(cfg, start, front).value);
      StepSources(cfg, Run(cfg, start, front).value, last, s);
    }
  }

  // ---- the derived part -------------------------------------------------------------------------------

  /** Nothing is joined as derived that the catalog does not derive. */
  ghost predicate NoStale(s: State) {
    forall t | t in s.lists.derived :: DerivedBy(s.catalog, t)
  }

  /** Nor is anything missing. */
  ghost predicate InSync(s: State) {
    NoStale(s) && forall i | 0 <= i < |s.catalog| :: TopicOf(s.catalog[i]) in s.lists.derived
  }

  /** At most one refresh is under way, and its snapshot is what derives now. */
  ghost predicate Orderly(s: State) {
    && (s.running == map[] ==> NoStale(s))
    && (forall t, u | t in s.running && u in s.running :: t == u)
    && forall t | t in s.running :: s.running[t].snapshot == s.catalog && s.running[t].next <= |s.catalog|
  }

  /** What is handled is joined. */
  ghost predicate Complete(s: State) {
    && (s.running == map[] ==> InSync(s))
    && forall t, i | t in s.running && 0 <= i < s.running[t].next && i < |s.catalog| ::
         TopicOf(s.catalog[i]) in s.lists.derived
  }

  lemma {:induction false} RegionEvicts(l: Lists, snapshot: seq<string>, next: nat, fails: set<string>)
    requires next <= |snapshot|
    ensures var (l', w) := Region(l, snapshot, next, fails);
            && (w.Some? ==> w.value <= |snapshot|)
            && (w.None? ==> forall t | t in l'.derived :: DerivedBy(snapshot, t))
    decreases |snapshot| - next
  {
    if next == |snapshot| {
      EvictRemoves(l, Gone(l.derived, snapshot));
    } else if TopicOf(snapshot[next]) in l.derived || TopicOf(snapshot[next]) in fails {
      RegionEvicts(l, snapshot, next + 1, fails);
    }
  }

  lemma {:induction false} RegionJoins(l: Lists, snapshot: seq<string>, next: nat)
    requires next <= |snapshot| && forall i | 0 <= i < next :: TopicOf(snapshot[i]) in l.derived
    ensures var (l', w) := Region(l, snapshot, next, {});
            forall i | 0 <= i < w.GetOr(|snapshot|) && i < |snapshot| :: TopicOf(snapshot[i]) in l'.derived
    decreases |snapshot| - next
  {
    if next == |snapshot| {
      EvictRemoves(l, Gone(l.derived, snapshot));
    } else if TopicOf(snapshot[next]) in l.derived {
      RegionJoins(l, snapshot, next + 1);
    }
  }

  lemma RefreshedOrderly(s: State, t: nat, catalog: seq<string>, next: nat, fails: set<string>)
    requires next <= |catalog| && forall u | u in s.running :: u == t
    ensures Orderly(Refreshed(s, t, catalog, catalog, next, fails))
  {
    RegionEvicts(s.lists, catalog, next, fails);
    var s' := Refreshed(s, t, catalog, catalog, next, fails);
    if Region(s.lists, catalog, next, fails).1.Some? {
      assert t in s'.running;
    }
  }

  lemma RefreshedComplete(s: State, t: nat, catalog: seq<string>, next: nat)
    requires next <= |catalog| && forall u | u in s.running :: u == t
    requires forall i | 0 <= i < next :: TopicOf(catalog[i]) in s.lists.derived
    ensures Complete(Refreshed(s, t, catalog, catalog, next, {}))
  {
    RegionJoins(s.lists, catalog, next);
    RefreshedOrderly(s, t, catalog, next, {});
    var s' := Refreshed(s, t, catalog, catalog, next, {});
    if Region(s.lists, catalog, next, {}).1.Some? {
      assert t in s'.running;
    }
  }

  lemma StepOrderly(cfg: Config, s: State, a: Action, s': State)
    requires Orderly(s) && !cfg.overlap && Step(cfg, s, a) == Some(s')
    ensures Orderly(s')
  {
    match a {
      case Command(t, catalog, fails) => RefreshedOrderly(s, t, catalog, 0, fails);
      case Resume(t, fails) => RefreshedOrderly(s, t, s.catalog, s.running[t].next, fails);
      case Join(topic) =>
    }
  }

  lemma StepComplete(cfg: Config, s: State, a: Action, s': State)
    requires Orderly(s) && Complete(s) && !cfg.overlap && !cfg.failing && Step(cfg, s, a) == Some(s')
    ensures Complete(s')
  {
    match a {
      case Command(t, catalog, _) => RefreshedComplete(s, t, catalog, 0);
      case Resume(t, _) => RefreshedComplete(s, t, s.catalog, s.running[t].next);
      case Join(topic) =>
    }
  }

  lemma {:induction false} RunOrderly(cfg: Config, start: State, acts: seq<Action>, s: State)
    requires Booted(start) && !cfg.overlap && Run(cfg, start, acts) == Some(s)
    ensures Orderly(s) && (!cfg.failing ==> Complete(s))
  {
    if acts != [] {
      var front := acts[..|acts| - 1];
      var s0 := Run(cfg, start, front).value;
      RunOrderly(cfg, start, front, s0);
      StepOrderly(cfg, s0, acts[|acts| - 1], s);
      if !cfg.failing {
        StepComplete(cfg, s0, acts[|acts| - 1], s);
      }
    }
  }

  // ---- what overlapping commands and failing registrations do ---------------------------------------

  lemma Next(cfg: Config, s: State, a: Action, s': State)
    requires Reachable(cfg, s) && Step(cfg, s, a) == Some(s')
    ensures Reachable(cfg, s')
  {
    var start, acts :| Booted(start) && Run(cfg, start, acts) == Some(s);
    assert (acts + [a])[..|acts + [a]| - 1] == acts;
    assert Run(cfg, start, acts + [a]) == Some(s');
  }

  lemma Begin(cfg: Config) returns (s: State)
    ensures Reachable(cfg, s) && s == State(Lists([SMOKE_A], [SMOKE_A], [], []), [], map[])
  {
    s := State(Lists([SMOKE_A], [SMOKE_A], [], []), [], map[]);
    assert Booted(s) && Run(cfg, s, []) == Some(s);
  }

  /** A refresh joins its first room and waits. */
  lemma FirstJoined(cfg: Config, a: string, b: string) returns (s: State)
    requires MintedRoomId(a) && MintedRoomId(b)
    ensures Reachable(cfg, s) && s.running == map[0 := Refresh([a, b], 1)] && s.lists.derived == [TopicOf(a)]
  {
    var s0 := Begin(cfg);
    s := Refreshed(s0, 0, [a, b], [a, b], 0, {});
    Next(cfg, s0, Command(0, [a, b], {}), s);
    assert [] + [TopicOf(a)] == [TopicOf(a)];
  }

  /** Meanwhile auto-join is switched off, and the refresh for that evicts the room. */
  lemma SwitchedOff(cfg: Config, a: string, b: string) returns (s: State)
    requires cfg.overlap && MintedRoomId(a) && MintedRoomId(b)
    ensures Reachable(cfg, s) && s.running == map[0 := Refresh([a, b], 1)] && s.catalog == []
    ensures forall t :: t !in s.lists.derived
  {
    var s1 := FirstJoined(cfg, a, b);
    s := Refreshed(s1, 1, [], [], 0, {});
    EvictRemoves(s1.lists, Gone(s1.lists.derived, []));
    Next(cfg, s1, Command(1, [], {}), s);
  }

  lemma FinishStale(cfg: Config, s3: State, a: string, b: string) returns (s: State)
    requires Reachable(cfg, s3) && s3.running == map[0 := Refresh([a, b], 2)] && s3.catalog == []
    requires TopicOf(b) in s3.lists.derived
    ensures Reachable(cfg, s) && s.running == map[] && !NoStale(s)
  {
    s := Refreshed(s3, 0, [], [a, b], 2, {});
    Next(cfg, s3, Resume(0, {}), s);
    EvictRemoves(s3.lists, Gone(s3.lists.derived, [a, b]));
    assert TopicOf(b) == TopicOf([a, b][1]);
    assert TopicOf(b) in s.lists.derived && !DerivedBy([], TopicOf(b));
  }

  /** The first refresh goes on from its snapshot: it joins its second room, and finishes. */
  lemma StaleJoin(cfg: Config, a: string, b: string) returns (s: State)
    requires cfg.overlap && MintedRoomId(a) && MintedRoomId(b)
    ensures Reachable(cfg, s) && s.running == map[] && !NoStale(s)
  {
    var s2 := SwitchedOff(cfg, a, b);
    var s3 := Refreshed(s2, 0, [], [a, b], 1, {});
    Next(cfg, s2, Resume(0, {}), s3);
    assert s3.running == map[0 := Refresh([a, b], 2)];
    s := FinishStale(cfg, s3, a, b);
  }

  /** A room whose topic does not register is derived and not joined. */
  lemma Unregistered(cfg: Config, a: string) returns (s: State)
    requires cfg.failing && MintedRoomId(a)
    ensures Reachable(cfg, s) && s.running == map[] && !InSync(s)
  {
    var s0 := Begin(cfg);
    s := Refreshed(s0, 0, [a], [a], 0, {TopicOf(a)});
    Next(cfg, s0, Command(0, [a], {TopicOf(a)}), s);
    assert Region(s0.lists, [a], 0, {TopicOf(a)}) == Region(s0.lists, [a], 1, {TopicOf(a)});
    EvictRemoves(s0.lists, Gone(s0.lists.derived, [a]));
    assert s.catalog[0] == a;
  }

  /** With no refresh under way nothing is joined as derived that the catalog does not derive, whatever
      registrations fail, exactly when no catalog command runs inside another one's refresh. */
  lemma NoStaleJoinIffCommandsDoNotOverlap(cfg: Config)
    ensures (forall s | Reachable(cfg, s) && s.running == map[] :: NoStale(s)) <==> !cfg.overlap
  {
    if cfg.overlap {
      var s := StaleJoin(cfg, "room-1", "room-2");
    } else {
      forall s | Reachable(cfg, s) && s.running == map[] ensures NoStale(s) {
        var start, acts :| Booted(start) && Run(cfg, start, acts) == Some(s);
        RunOrderly(cfg, start, acts, s);
      }
    }
  }

  /** And the derived joins are those recomputed from the catalog exactly when, besides, registrations
      do not fail. */
  lemma InSyncIffOrderly(cfg: Config)
    ensures (forall s | Reachable(cfg, s) && s.running == map[] :: InSync(s)) <==> !cfg.overlap && !cfg.failing
  {
    if cfg.overlap {
      var s := StaleJoin(cfg, "room-1", "room-2");
    } else if cfg.failing {
      var s := Unregistered(cfg, "room-1");
    } else {
      forall s | Reachable(cfg, s) && s.running == map[] ensures InSync(s) {
        var start, acts :| Booted(start) && Run(cfg, start, acts) == Some(s);
        RunOrderly(cfg, start, acts, s);
      }
    }
  }
}
