/**
  Apply-once under races.  Live and heal callbacks share the dedupe set with sends and history
  scans; a callback marks an id as seen under the lock, and pushes and queues the message after
  releasing it.  Every locked region, every push and every enqueue is one step here.
 */
module Dedupe {
  import opened Basics
  import opened Records
  import opened History
  import opened Funnel
  import KeyGrammar

  datatype Mark =
    | Admitted(id: string)   // the funnel found the id unseen and inserted it
    | Scanned(id: string)    // a history scan inserted it
    | Sent(id: string)       // a send inserted it, without looking at the set's size
    | Pushed(id: string)
    | Enqueued(id: string)
    | Cleared                // the set was full and was emptied

  /** Where a callback is once it has admitted an id. */
  datatype Pc = Pushing(id: string) | Queueing(id: string)

  datatype State = State(seen: set<string>, threads: map<nat, Pc>, log: seq<Mark>)

  const START := State({}, map[], [])

  /** Look is one id of a history scan.  A scan keeps the lock from its first id to its last; allowing
      other steps in between only adds schedules. */
  datatype Action = Arrive(t: nat, id: string) | Advance(t: nat) | Send(id: string) | Look(id: string)

  /** racing: the set may be cleared while a callback stands between admission and enqueue. */
  datatype Config = Config(racing: bool)

  /** Bounded insertion. */
  function Insert(s: State, m: Mark): State
    requires m.Admitted? || m.Scanned?
  {
    s.(seen := Absorb(s.seen, m.id), log := s.log + (if |s.seen| >= MAX_SEEN then [Cleared, m] else [m]))
  }

  function Step(cfg: Config, s: State, a: Action): Option<State> {
    var blocked := !cfg.racing && |s.seen| >= MAX_SEEN && s.threads != map[];
    match a
    case Arrive(t, id) =>
      if t in s.threads then None
      else if id in s.seen then Some(s)
      else if blocked then None
      else Some(Insert(s, Admitted(id)).(threads := s.threads[t := Pushing(id)]))
    case Advance(t) =>
      if t !in s.threads then None
      else (match s.threads[t]
            case Pushing(id) => Some(s.(threads := s.threads[t := Queueing(id)], log := s.log + [Pushed(id)]))
            case Queueing(id) => Some(s.(threads := s.threads - {t}, log := s.log + [Enqueued(id)])))
    case Send(id) => Some(s.(seen := s.seen + {id}, log := s.log + [Sent(id)]))
    case Look(id) => if blocked then None else Some(Insert(s, Scanned(id)))
  }

  function Run(cfg: Config, acts: seq<Action>): Option<State> {
    if acts == [] then Some(START)
    else match Run(cfg, acts[..|acts| - 1])
      case None => None
      case Some(s) => Step(cfg, s, acts[|acts| - 1])
  }

  /** Every id the schedule involves is one of ids. */
  predicate Within(acts: seq<Action>, ids: set<string>) {
    forall a | a in acts && !a.Advance? :: a.id in ids
  }

  ghost predicate Reached(cfg: Config, ids: set<string>, s: State) {
    exists acts :: Run(cfg, acts) == Some(s) && Within(acts, ids)
  }

  // ---- what a log says -------------------------------------------------------------------------

  predicate Inserts(m: Mark) {
    m.Admitted? || m.Scanned? || m.Sent?
  }

  /** The ids inserted since the last clear. */
  function SeenOf(log: seq<Mark>): set<string> {
    if log == [] then {}
    else
      var before, last := SeenOf(log[..|log| - 1]), log[|log| - 1];
      if last.Cleared? then {} else if Inserts(last) then before + {last.id} else before
  }

  function Count(log: seq<Mark>, m: Mark): nat {
    if log == [] then 0 else Count(log[..|log| - 1], m) + if log[|log| - 1] == m then 1 else 0
  }

  /** Sends since the last bounded insertion. */
  function SendsSince(log: seq<Mark>): nat {
    if log == [] then 0
    else
      var before, last := SendsSince(log[..|log| - 1]), log[|log| - 1];
      if last.Admitted? || last.Scanned? then 0 else if last.Sent? then before + 1 else before
  }

  predicate ClearBetween(log: seq<Mark>, i: nat, j: nat) {
    exists k :: i < k < j && k < |log| && log[k].Cleared?
  }

  /** No id is admitted that was inserted since the last clear. */
  predicate AdmitsUnseen(log: seq<Mark>) {
    log != [] ==>
      var front, last := log[..|log| - 1], log[|log| - 1];
      AdmitsUnseen(front) && (last.Admitted? ==> last.id !in SeenOf(front))
  }

  lemma Grown(log: seq<Mark>, m: Mark)
    ensures (log + [m])[..|log + [m]| - 1] == log
  {}

  /** The marks a step adds, one after the other. */
  lemma Added(log: seq<Mark>, m: Mark)
    ensures SeenOf(log + [m]) == if m.Cleared? then {} else if Inserts(m) then SeenOf(log) + {m.id} else SeenOf(log)
    ensures AdmitsUnseen(log + [m]) <==> AdmitsUnseen(log) && (m.Admitted? ==> m.id !in SeenOf(log))
    ensures SendsSince(log + [m]) ==
              if m.Admitted? || m.Scanned? then 0 else if m.Sent? then SendsSince(log) + 1 else SendsSince(log)
  {
    Grown(log, m);
  }

  lemma Counted(log: seq<Mark>, m: Mark, x: Mark)
    ensures Count(log + [m], x) == Count(log, x) + if x == m then 1 else 0
  {
    Grown(log, m);
  }

  lemma CountedByInsert(s: State, m: Mark, x: Mark)
    requires m.Admitted? || m.Scanned?
    ensures Count(Insert(s, m).log, x) == Count(s.log, x) + (if x == m then 1 else 0)
                                          + (if x.Cleared? && |s.seen| >= MAX_SEEN then 1 else 0)
  {
    if |s.seen| >= MAX_SEEN {
      Counted(s.log, Cleared, x);
      Counted(s.log + [Cleared], m, x);
      assert s.log + [Cleared, m] == s.log + [Cleared] + [m];
    } else {
      Counted(s.log, m, x);
    }
  }

  lemma AddedByInsert(s: State, m: Mark)
    requires (m.Admitted? || m.Scanned?) && s.seen == SeenOf(s.log)
    ensures var l := Insert(s, m).log;
            && Insert(s, m).seen == SeenOf(l) && SendsSince(l) == 0
            && (AdmitsUnseen(s.log) && (m.Admitted? ==> m.id !in s.seen) ==> AdmitsUnseen(l))
  {
    if |s.seen| >= MAX_SEEN {
      Added(s.log, Cleared);
      Added(s.log + [Cleared], m);
      assert s.log + [Cleared, m] == s.log + [Cleared] + [m];
    } else {
      Added(s.log, m);
    }
  }

  // ---- invariants --------------------------------------------------------------------------------

  ghost predicate Inv(s: State) {
    && s.seen == SeenOf(s.log) && AdmitsUnseen(s.log)
    && |s.seen| <= MAX_SEEN + SendsSince(s.log)
  }

  lemma AbsorbBounded(seen: set<string>, id: string)
    ensures |Absorb(seen, id)| <= MAX_SEEN
  {}

  lemma StepInv(cfg: Config, s: State, a: Action, s': State)
    requires Inv(s) && Step(cfg, s, a) == Some(s')
    ensures Inv(s')
  {
    match a {
      case Arrive(t, id) =>
        AddedByInsert(s, Admitted(id));
        AbsorbBounded(s.seen, id);
      case Advance(t) =>
        Added(s.log, Pushed(s.threads[t].id));
        Added(s.log, Enqueued(s.threads[t].id));
      case Send(id) => Added(s.log, Sent(id));
      case Look(id) =>
        AddedByInsert(s, Scanned(id));
        AbsorbBounded(s.seen, id);
    }
  }

  lemma {:induction false} RunInv(cfg: Config, acts: seq<Action>, s: State)
    requires Run(cfg, acts) == Some(s)
    ensures Inv(s)
  {
    if acts != [] {
      var front := acts[..|acts| - 1];
      RunInv(cfg, front, Run(cfg, front).value);
      StepInv(cfg, Run(cfg, front).value, acts[|acts| - 1], s);
    }
  }

  lemma ReachedInv(cfg: Config, ids: set<string>, s: State)
    requires Reached(cfg, ids, s)
    ensures Inv(s)
  {
    var acts :| Run(cfg, acts) == Some(s) && Within(acts, ids);
    RunInv(cfg, acts, s);
  }

  // ---- between two clears ----------------------------------------------------------------------

  lemma {:induction false} ForgottenByClear(log: seq<Mark>, i: nat)
    requires i < |log| && Inserts(log[i]) && log[i].id !in SeenOf(log)
    ensures ClearBetween(log, i, |log|)
  {
    var n := |log| - 1;
    if i < n && !log[n].Cleared? {
      assert log[..n][i] == log[i];
      ForgottenByClear(log[..n], i);
      var k :| i < k < n && log[..n][k].Cleared?;
      assert log[k].Cleared?;
    } else if i < n {
      assert log[n].Cleared?;
    }
  }

  lemma {:induction false} AdmitsUnseenAt(log: seq<Mark>, j: nat)
    requires AdmitsUnseen(log) && j < |log| && log[j].Admitted?
    ensures log[j].id !in SeenOf(log[..j])
  {
    var n := |log| - 1;
    if j < n {
      assert log[..n][..j] == log[..j] && log[..n][j] == log[j];
      AdmitsUnseenAt(log[..n], j);
    }
  }

  /** Whatever inserted an id, the funnel admits it again only past a clear: at most one admission
      between two clears, and none of an id a send or a scan put there. */
  lemma AdmittedOncePerEpoch(cfg: Config, ids: set<string>, s: State, i: nat, j: nat)
    requires Reached(cfg, ids, s) && i < j < |s.log|
    requires s.log[j].Admitted? && Inserts(s.log[i]) && s.log[i].id == s.log[j].id
    ensures ClearBetween(s.log, i, j)
  {
    ReachedInv(cfg, ids, s);
    AdmitsUnseenAt(s.log, j);
    var before := s.log[..j];
    assert before[i] == s.log[i];
    ForgottenByClear(before, i);
    var k :| i < k < j && before[k].Cleared?;
    assert s.log[k].Cleared?;
  }

  // ---- every admission is pushed once and enqueued once -----------------------------------------

  function Pushers(s: State, id: string): set<nat> {
    set t | t in s.threads && s.threads[t] == Pushing(id)
  }

  function Queuers(s: State, id: string): set<nat> {
    set t | t in s.threads && s.threads[t] == Queueing(id)
  }

  ghost predicate Conserved(s: State, id: string) {
    && Count(s.log, Admitted(id)) == Count(s.log, Pushed(id)) + |Pushers(s, id)|
    && Count(s.log, Pushed(id)) == Count(s.log, Enqueued(id)) + |Queuers(s, id)|
    && Count(s.log, Admitted(id)) <= Count(s.log, Cleared) + if id in s.seen then 1 else 0
  }

  function One(b: bool): nat {
    if b then 1 else 0
  }

  lemma Toggled(a: set<nat>, b: set<nat>, t: nat)
    requires forall u | u != t :: u in a <==> u in b
    ensures |b| == |a| + One(t in b) - One(t in a)
  {
    assert a - {t} == b - {t};
    assert (a - {t}) + {t} == a + {t} && (b - {t}) + {t} == b + {t};
    assert t in a ==> a + {t} == a;
    assert t in b ==> b + {t} == b;
  }

  lemma ThreadMoves(s: State, t: nat, s': State, id: string)
    requires forall u | u != t :: u in s.threads <==> u in s'.threads
    requires forall u | u in s.threads && u != t :: s'.threads[u] == s.threads[u]
    ensures |Pushers(s', id)| == |Pushers(s, id)| + One(t in Pushers(s', id)) - One(t in Pushers(s, id))
    ensures |Queuers(s', id)| == |Queuers(s, id)| + One(t in Queuers(s', id)) - One(t in Queuers(s, id))
  {
    Toggled(Pushers(s, id), Pushers(s', id), t);
    Toggled(Queuers(s, id), Queuers(s', id), t);
  }

  lemma InsertConserved(s: State, m: Mark, s': State, id: string)
    requires Inv(s) && Conserved(s, id) && (m.Scanned? || (m.Admitted? && m.id !in s.seen))
    requires s'.log == Insert(s, m).log && s'.seen == Insert(s, m).seen
    requires |Queuers(s', id)| == |Queuers(s, id)|
    requires |Pushers(s', id)| == |Pushers(s, id)| + One(m == Admitted(id))
    ensures Conserved(s', id)
  {
    CountedByInsert(s, m, Admitted(id));
    CountedByInsert(s, m, Pushed(id));
    CountedByInsert(s, m, Enqueued(id));
    CountedByInsert(s, m, Cleared);
  }

  lemma MarkConserved(s: State, m: Mark, s': State, id: string)
    requires Conserved(s, id) && s'.log == s.log + [m] && s.seen <= s'.seen && (m.Sent? || m.Pushed? || m.Enqueued?)
    requires |Pushers(s', id)| == |Pushers(s, id)| - One(m == Pushed(id))
    requires |Queuers(s', id)| == |Queuers(s, id)| + One(m == Pushed(id)) - One(m == Enqueued(id))
    ensures Conserved(s', id)
  {
    Counted(s.log, m, Admitted(id));
    Counted(s.log, m, Pushed(id));
    Counted(s.log, m, Enqueued(id));
    Counted(s.log, m, Cleared);
  }

  lemma AdvanceConserved(s: State, t: nat, pc: Pc, s': State, id: string)
    requires Conserved(s, id) && t in s.threads && s.threads[t] == pc && Step(Config(true), s, Advance(t)) == Some(s')
    ensures Conserved(s', id)
  {
    ThreadMoves(s, t, s', id);
    match pc {
      case Pushing(x) => MarkConserved(s, Pushed(x), s', id);
      case Queueing(x) => MarkConserved(s, Enqueued(x), s', id);
    }
  }

  lemma ArriveConserved(s: State, t: nat, x: string, s': State, id: string)
    requires Inv(s) && Conserved(s, id) && Step(Config(true), s, Arrive(t, x)) == Some(s')
    ensures Conserved(s', id)
  {
    if x !in s.seen {
      ThreadMoves(s, t, s', id);
      assert t in Pushers(s', id) <==> x == id;
      InsertConserved(s, Admitted(x), s', id);
    }
  }

  /** The threads stay where they are. */
  lemma SameThreads(s: State, s': State, id: string)
    requires s'.threads == s.threads
    ensures Pushers(s', id) == Pushers(s, id) && Queuers(s', id) == Queuers(s, id)
  {}

  lemma StepConserved(cfg: Config, s: State, a: Action, s': State, id: string)
    requires Inv(s) && Conserved(s, id) && Step(cfg, s, a) == Some(s')
    ensures Conserved(s', id)
  {
    match a {
      case Arrive(t, x) => ArriveConserved(s, t, x, s', id);
      case Advance(t) => AdvanceConserved(s, t, s.threads[t], s', id);
      case Send(x) =>
        SameThreads(s, s', id);
        MarkConserved(s, Sent(x), s', id);
      case Look(x) =>
        SameThreads(s, s', id);
        InsertConserved(s, Scanned(x), s', id);
    }
  }

  lemma {:induction false} RunConserved(cfg: Config, acts: seq<Action>, s: State, id: string)
    requires Run(cfg, acts) == Some(s)
    ensures Conserved(s, id)
  {
    if acts != [] {
      var front := acts[..|acts| - 1];
      RunConserved(cfg, front, Run(cfg, front).value, id);
      RunInv(cfg, front, Run(cfg, front).value);
      StepConserved(cfg, Run(cfg, front).value, acts[|acts| - 1], s, id);
    }
  }

  /** Over a whole run an id is pushed, and queued for the archive, at most once more than the set was
      cleared; and once the callbacks are through, exactly as often as it was admitted. */
  lemma PushedAsOftenAsAdmitted(cfg: Config, ids: set<string>, s: State, id: string)
    requires Reached(cfg, ids, s)
    ensures Count(s.log, Enqueued(id)) <= Count(s.log, Pushed(id)) <= Count(s.log, Admitted(id))
            <= 1 + Count(s.log, Cleared)
    ensures s.threads == map[] ==> Count(s.log, Enqueued(id)) == Count(s.log, Pushed(id)) == Count(s.log, Admitted(id))
  {
    var acts :| Run(cfg, acts) == Some(s) && Within(acts, ids);
    RunConserved(cfg, acts, s, id);
  }

  // ---- the size of the set -----------------------------------------------------------------------

  /** The set outgrows its cap by no more than the sends since the last bounded insertion. */
  lemma SeenBounded(cfg: Config, ids: set<string>, s: State)
    requires Reached(cfg, ids, s)
    ensures |s.seen| <= MAX_SEEN + SendsSince(s.log)
  {
    ReachedInv(cfg, ids, s);
  }

  // ---- building schedules ------------------------------------------------------------------------

  lemma Begin(cfg: Config, ids: set<string>)
    ensures Reached(cfg, ids, START)
  {
    assert Run(cfg, []) == Some(START) && Within([], ids);
  }

  lemma Next(cfg: Config, ids: set<string>, s: State, a: Action, s': State)
    requires Reached(cfg, ids, s) && Step(cfg, s, a) == Some(s') && (!a.Advance? ==> a.id in ids)
    ensures Reached(cfg, ids, s')
  {
    var acts :| Run(cfg, acts) == Some(s) && Within(acts, ids);
    var more := acts + [a];
    assert more[..|more| - 1] == acts;
    assert Run(cfg, more) == Some(s') && Within(more, ids);
  }

  ghost predicate Unseen(seen: set<string>, more: set<string>) {
    forall id | id in more :: id !in seen
  }

  lemma TakeOne(seen: set<string>, more: set<string>, id: string)
    requires id in more && Unseen(seen, more)
    ensures var rest := more - {id};
            && |rest| + 1 == |more| && |seen + {id}| == |seen| + 1
            && Unseen(seen + {id}, rest) && seen + {id} + rest == seen + more
  {}

  lemma LookAt(cfg: Config, ids: set<string>, s: State, id: string) returns (s': State)
    requires Reached(cfg, ids, s) && id in ids && |s.seen| < MAX_SEEN
    ensures Reached(cfg, ids, s') && s' == State(s.seen + {id}, s.threads, s.log + [Scanned(id)])
    ensures SendsSince(s'.log) == 0
  {
    s' := State(s.seen + {id}, s.threads, s.log + [Scanned(id)]);
    assert Step(cfg, s, Look(id)) == Some(s');
    Next(cfg, ids, s, Look(id), s');
    Added(s.log, Scanned(id));
  }

  /** A history scan takes in ids until the set is full. */
  lemma {:induction false} Fill(cfg: Config, ids: set<string>, s: State, more: set<string>) returns (s': State)
    requires Reached(cfg, ids, s) && more <= ids && Unseen(s.seen, more) && |s.seen| + |more| <= MAX_SEEN
    ensures Reached(cfg, ids, s') && s'.seen == s.seen + more && s'.threads == s.threads
    ensures s.log <= s'.log && if more == {} then s' == s else SendsSince(s'.log) == 0
    decreases |more|
  {
    if more == {} {
      s' := s;
    } else {
      var id :| id in more;
      TakeOne(s.seen, more, id);
      var s1 := LookAt(cfg, ids, s, id);
      s' := Fill(cfg, ids, s1, more - {id});
    }
  }

  function Repeat(c: char, n: nat): string {
    seq(n, _ => c)
  }

  /** Some n ids, none of them longer than n. */
  lemma {:induction false} Names(n: nat) returns (ids: set<string>)
    ensures |ids| == n && forall id | id in ids :: 0 < |id| <= n && id == Repeat('a', |id|)
  {
    ids := {};
    if n > 0 {
      ids := Names(n - 1);
      assert forall id | id in ids :: |id| < |Repeat('a', n)|;
      ids := ids + {Repeat('a', n)};
    }
  }

  lemma Wider(cfg: Config, ids: set<string>, more: set<string>, s: State)
    requires Reached(cfg, ids, s) && ids <= more
    ensures Reached(cfg, more, s)
  {
    var acts :| Run(cfg, acts) == Some(s) && Within(acts, ids);
    assert Within(acts, more);
  }

  // ---- the bound is attained ---------------------------------------------------------------------

  /** SeenBounded is tight: any number of sends in a row goes on top of a full set. */
  lemma {:induction false} SeenBoundAttained(cfg: Config, n: nat) returns (ids: set<string>, s: State)
    ensures Reached(cfg, ids, s) && SendsSince(s.log) == n && |s.seen| == MAX_SEEN + n
    ensures forall id | id in s.seen :: |id| <= MAX_SEEN + n
  {
    Begin(cfg, {});
    if n == 0 {
      ids := Names(MAX_SEEN);
      Wider(cfg, {}, ids, START);
      s := Fill(cfg, ids, START, ids);
      assert {} + ids == ids;
    } else {
      var ids0, s0 := SeenBoundAttained(cfg, n - 1);
      var id := Repeat('a', MAX_SEEN + n);
      ids := ids0 + {id};
      Wider(cfg, ids0, ids, s0);
      s := s0.(seen := s0.seen + {id}, log := s0.log + [Sent(id)]);
      Next(cfg, ids, s0, Send(id), s);
      Added(s0.log, Sent(id));
    }
  }

  // ---- few ids -----------------------------------------------------------------------------------

  /** Nothing is admitted twice, and nothing this node sent is admitted at all. */
  ghost predicate ApplyOnce(log: seq<Mark>) {
    forall i, j | 0 <= i < j < |log| && log[j].Admitted? :: log[i] != log[j] && log[i] != Sent(log[j].id)
  }

  lemma {:induction false} NeverClears(cfg: Config, acts: seq<Action>, ids: set<string>, s: State)
    requires Run(cfg, acts) == Some(s) && Within(acts, ids) && |ids| < MAX_SEEN
    ensures s.seen <= ids && Cleared !in s.log
  {
    if acts != [] {
      var front, last := acts[..|acts| - 1], acts[|acts| - 1];
      var s0 := Run(cfg, front).value;
      NeverClears(cfg, front, ids, s0);
      assert last in acts;
      SubsetSize(s0.seen, ids);
    }
  }

  lemma {:induction false} Subset(ids: set<string>, n: nat) returns (some: set<string>)
    requires n <= |ids|
    ensures some <= ids && |some| == n
    decreases |ids|
  {
    some := ids;
    if n < |ids| {
      var id :| id in ids;
      some := Subset(ids - {id}, n);
    }
  }

  /** With enough ids to fill the set, a scan forgets a send, and its echo is admitted. */
  lemma EchoAdmitted(cfg: Config, ids: set<string>) returns (s: State)
    requires |ids| >= MAX_SEEN
    ensures Reached(cfg, ids, s) && !ApplyOnce(s.log)
  {
    var full := Subset(ids, MAX_SEEN);
    var u :| u in full;
    var others := full - {u};
    assert |others| == MAX_SEEN - 1;
    var v :| v in others;
    Begin(cfg, ids);
    var s1 := State({u}, map[], [Sent(u)]);
    assert {} + {u} == {u} && [] + [Sent(u)] == [Sent(u)];
    Next(cfg, ids, START, Send(u), s1);
    var s2 := Fill(cfg, ids, s1, others);
    assert s2.seen == full;
    var s3 := s2.(seen := {v}, log := s2.log + [Cleared, Scanned(v)]);
    assert {} + {v} == {v};
    Next(cfg, ids, s2, Look(v), s3);
    s := State({v} + {u}, map[0 := Pushing(u)], s3.log + [Admitted(u)]);
    assert s3.threads[0 := Pushing(u)] == map[0 := Pushing(u)];
    Next(cfg, ids, s3, Arrive(0, u), s);
    assert s.log[0] == s1.log[0] && s.log[|s3.log|] == Admitted(u);
  }

  /** Apply-once over whole runs, own sends included, holds exactly while fewer ids than the set's cap
      are involved. */
  lemma ApplyOnceIffFewIds(cfg: Config, ids: set<string>)
    ensures (forall s | Reached(cfg, ids, s) :: ApplyOnce(s.log)) <==> |ids| < MAX_SEEN
  {
    if |ids| >= MAX_SEEN {
      var s := EchoAdmitted(cfg, ids);
    } else {
      forall s | Reached(cfg, ids, s) ensures ApplyOnce(s.log) {
        var acts :| Run(cfg, acts) == Some(s) && Within(acts, ids);
        NeverClears(cfg, acts, ids, s);
        forall i, j | 0 <= i < j < |s.log| && s.log[j].Admitted?
          ensures s.log[i] != s.log[j] && s.log[i] != Sent(s.log[j].id)
        {
          if Inserts(s.log[i]) && s.log[i].id == s.log[j].id {
            AdmittedOncePerEpoch(cfg, ids, s, i, j);
          }
        }
      }
    }
  }

  // ---- pushes between two clears -------------------------------------------------------------------

  predicate Delivers(m: Mark) {
    m.Pushed? || m.Enqueued?
  }

  /** Between two consecutive clears no id is pushed twice or enqueued twice. */
  ghost predicate DeliversOncePerEpoch(log: seq<Mark>) {
    forall i, j | 0 <= i < j < |log| && Delivers(log[i]) && log[i] == log[j] :: ClearBetween(log, i, j)
  }

  /** The marks since the last clear. */
  function Recent(log: seq<Mark>): set<Mark> {
    if log == [] then {}
    else if log[|log| - 1].Cleared? then {}
    else Recent(log[..|log| - 1]) + {log[|log| - 1]}
  }

  lemma {:induction false} RecentOrCleared(log: seq<Mark>, i: nat)
    requires i < |log| && log[i] !in Recent(log)
    ensures log[i].Cleared? || ClearBetween(log, i, |log|)
  {
    var n := |log| - 1;
    if i < n && !log[n].Cleared? {
      assert log[..n][i] == log[i];
      RecentOrCleared(log[..n], i);
      if !log[i].Cleared? {
        var k :| i < k < n && log[..n][k].Cleared?;
        assert log[k].Cleared?;
      }
    } else if i < n {
      assert log[n].Cleared?;
    }
  }

  /** No delivery mark repeats since the last clear before it. */
  predicate DeliversFresh(log: seq<Mark>) {
    log != [] ==>
      var front, last := log[..|log| - 1], log[|log| - 1];
      DeliversFresh(front) && (Delivers(last) ==> last !in Recent(front))
  }

  lemma {:induction false} FreshMeansOnce(log: seq<Mark>)
    requires DeliversFresh(log)
    ensures DeliversOncePerEpoch(log)
  {
    var n := |log| - 1;
    if log != [] {
      var front := log[..n];
      FreshMeansOnce(front);
      forall i, j | 0 <= i < j < |log| && Delivers(log[i]) && log[i] == log[j] ensures ClearBetween(log, i, j) {
        if j == n {
          RecentOrCleared(front, i);
          var k :| i < k < n && front[k].Cleared?;
          assert log[k].Cleared?;
        } else {
          assert ClearBetween(front, i, j);
          var k :| i < k < j && k < n && front[k].Cleared?;
          assert log[k].Cleared?;
        }
      }
    }
  }

  /** While no clear meets a callback on its way: what a callback still owes was not delivered since
      the last clear, and two callbacks never carry the same id. */
  ghost predicate Serial(s: State) {
    && DeliversFresh(s.log)
    && (forall t | t in s.threads :: s.threads[t].id in s.seen && Enqueued(s.threads[t].id) !in Recent(s.log))
    && (forall t | t in s.threads && s.threads[t].Pushing? :: Pushed(s.threads[t].id) !in Recent(s.log))
    && (forall t, u | t in s.threads && u in s.threads && t != u :: s.threads[t].id != s.threads[u].id)
    && (forall m | m in Recent(s.log) && Delivers(m) :: m.id in s.seen)
  }

  lemma RecentAdded(log: seq<Mark>, m: Mark)
    ensures Recent(log + [m]) == if m.Cleared? then {} else Recent(log) + {m}
    ensures DeliversFresh(log + [m]) <==> DeliversFresh(log) && (Delivers(m) ==> m !in Recent(log))
  {
    Grown(log, m);
  }

  lemma ClearSerial(s: State, m: Mark)
    requires m.Admitted? || m.Scanned?
    ensures Recent(s.log + [Cleared, m]) == {m} && (DeliversFresh(s.log + [Cleared, m]) <==> DeliversFresh(s.log))
  {
    RecentAdded(s.log, Cleared);
    RecentAdded(s.log + [Cleared], m);
    assert s.log + [Cleared, m] == s.log + [Cleared] + [m];
  }

  lemma ArriveSerial(s: State, t: nat, id: string, s': State)
    requires Serial(s) && Step(Config(false), s, Arrive(t, id)) == Some(s')
    ensures Serial(s')
  {
    if |s.seen| >= MAX_SEEN {
      ClearSerial(s, Admitted(id));
    } else {
      RecentAdded(s.log, Admitted(id));
    }
  }

  lemma LookSerial(s: State, id: string, s': State)
    requires Serial(s) && Step(Config(false), s, Look(id)) == Some(s')
    ensures Serial(s')
  {
    if |s.seen| >= MAX_SEEN {
      ClearSerial(s, Scanned(id));
    } else {
      RecentAdded(s.log, Scanned(id));
    }
  }

  lemma PushSerial(s: State, t: nat, id: string)
    requires Serial(s) && t in s.threads && s.threads[t] == Pushing(id)
    ensures Serial(s.(threads := s.threads[t := Queueing(id)], log := s.log + [Pushed(id)]))
  {
    RecentAdded(s.log, Pushed(id));
  }

  lemma QueueSerial(s: State, t: nat, id: string)
    requires Serial(s) && t in s.threads && s.threads[t] == Queueing(id)
    ensures Serial(s.(threads := s.threads - {t}, log := s.log + [Enqueued(id)]))
  {
    RecentAdded(s.log, Enqueued(id));
  }

  lemma AdvanceSerial(s: State, t: nat, s': State)
    requires Serial(s) && Step(Config(false), s, Advance(t)) == Some(s')
    ensures Serial(s')
  {
    var id := s.threads[t].id;
    if s.threads[t].Pushing? {
      PushSerial(s, t, id);
    } else {
      QueueSerial(s, t, id);
    }
  }

  lemma StepSerial(s: State, a: Action, s': State)
    requires Serial(s) && Step(Config(false), s, a) == Some(s')
    ensures Serial(s')
  {
    match a {
      case Arrive(t, id) => ArriveSerial(s, t, id, s');
      case Advance(t) => AdvanceSerial(s, t, s');
      case Send(id) => RecentAdded(s.log, Sent(id));
      case Look(id) => LookSerial(s, id, s');
    }
  }

  lemma {:induction false} RunSerial(acts: seq<Action>, s: State)
    requires Run(Config(false), acts) == Some(s)
    ensures Serial(s)
  {
    if acts != [] {
      var front := acts[..|acts| - 1];
      RunSerial(front, Run(Config(false), front).value);
      StepSerial(Run(Config(false), front).value, acts[|acts| - 1], s);
    }
  }

  predicate Distinct(x: string, y: string) {
    x != y && x == Repeat('x', |x|) && y == Repeat('y', |y|) && x != "" && y != ""
  }

  /** A callback admits x and stalls, and the set fills up. */
  lemma StalledAndFull(cfg: Config, x: string, y: string) returns (ids: set<string>, s: State)
    requires Distinct(x, y)
    ensures Reached(cfg, ids, s) && x in ids && y in ids
    ensures |s.seen| == MAX_SEEN && y !in s.seen && s.threads == map[0 := Pushing(x)]
  {
    var names := Names(MAX_SEEN - 1);
    assert forall id | id in names :: id[0] == 'a';
    assert x[0] == 'x' && y[0] == 'y';
    ids := names + {x, y};
    Begin(cfg, ids);
    var s1 := State({x}, map[0 := Pushing(x)], [Admitted(x)]);
    assert START.threads[0 := Pushing(x)] == s1.threads && [] + [Admitted(x)] == s1.log && {} + {x} == {x};
    Next(cfg, ids, START, Arrive(0, x), s1);
    s := Fill(cfg, ids, s1, names);
    assert s.seen == names + {x};
  }

  /** Another callback empties the set, and x is pushed. */
  lemma PushedLate(cfg: Config, x: string, y: string) returns (ids: set<string>, s: State)
    requires cfg.racing && Distinct(x, y)
    ensures Reached(cfg, ids, s) && x in ids && s.seen == {y} && 2 !in s.threads
    ensures s.log != [] && s.log[|s.log| - 1] == Pushed(x)
  {
    var s2;
    ids, s2 := StalledAndFull(cfg, x, y);
    var s3 := State({} + {y}, s2.threads[1 := Pushing(y)], s2.log + [Cleared, Admitted(y)]);
    Next(cfg, ids, s2, Arrive(1, y), s3);
    s := s3.(threads := s3.threads[0 := Queueing(x)], log := s3.log + [Pushed(x)]);
    Next(cfg, ids, s3, Advance(0), s);
  }

  lemma TwiceInARow(log: seq<Mark>, m: Mark, between: Mark)
    requires log != [] && log[|log| - 1] == m && Delivers(m) && !between.Cleared?
    ensures !DeliversOncePerEpoch(log + [between] + [m])
  {
    var more, i := log + [between] + [m], |log| - 1;
    assert more[i] == m == more[i + 2] && more[i + 1] == between;
    assert !ClearBetween(more, i, i + 2);
  }

  /** x arrives again, unseen. */
  lemma ArrivesAgain(cfg: Config, x: string, y: string) returns (ids: set<string>, s: State, log: seq<Mark>)
    requires cfg.racing && Distinct(x, y)
    ensures Reached(cfg, ids, s) && 2 in s.threads && s.threads[2] == Pushing(x)
    ensures log != [] && log[|log| - 1] == Pushed(x) && s.log == log + [Admitted(x)]
  {
    var s4;
    ids, s4 := PushedLate(cfg, x, y);
    log := s4.log;
    assert |s4.seen| == 1 && x !in s4.seen;
    s := State({y} + {x}, s4.threads[2 := Pushing(x)], s4.log + [Admitted(x)]);
    assert Step(cfg, s4, Arrive(2, x)) == Some(s);
    Next(cfg, ids, s4, Arrive(2, x), s);
  }

  /** And it is pushed again. */
  lemma PushedTwice(cfg: Config, x: string, y: string) returns (ids: set<string>, s: State)
    requires cfg.racing && Distinct(x, y)
    ensures Reached(cfg, ids, s) && !DeliversOncePerEpoch(s.log)
  {
    var s5, log;
    ids, s5, log := ArrivesAgain(cfg, x, y);
    s := s5.(threads := s5.threads[2 := Queueing(x)], log := s5.log + [Pushed(x)]);
    Next(cfg, ids, s5, Advance(2), s);
    TwiceInARow(log, Pushed(x), Admitted(x));
  }

  /** Pushed and enqueued at most once between two clears, exactly when no clear can happen while a
      callback stands between admission and enqueue. */
  lemma OncePerEpochIffNoRace(cfg: Config)
    ensures (forall ids, s | Reached(cfg, ids, s) :: DeliversOncePerEpoch(s.log)) <==> !cfg.racing
  {
    if cfg.racing {
      var x, y := Repeat('x', 1), Repeat('y', 1);
      assert x[0] != y[0];
      var ids, s := PushedTwice(cfg, x, y);
    } else {
      forall ids, s | Reached(cfg, ids, s) ensures DeliversOncePerEpoch(s.log) {
        var acts :| Run(cfg, acts) == Some(s) && Within(acts, ids);
        RunSerial(acts, s);
        FreshMeansOnce(s.log);
      }
    }
  }

  // ---- the funnel, uninterrupted ---------------------------------------------------------------------

  /** A callback that is not interrupted does to set, client and queue what the sequential funnel does,
      whatever other callbacks stand half-way: a new id is inserted under the bound, its message pushed
      once and its bytes queued once, and a seen one leaves no trace. */
  lemma UninterruptedFunnel(cfg: Config, env: Env, i: Inbox, topic: string, bytes: Bytes, m: Message, s: State, t: nat)
    requires Decode(env, topic, bytes) == Some(m) && i.seen == s.seen && t !in s.threads
    requires m.id in s.seen || cfg.racing || |s.seen| < MAX_SEEN || s.threads == map[]
    ensures var i', s1 := Receive(env, i, topic, bytes), Step(cfg, s, Arrive(t, m.id));
            && s1.Some?
            && (m.id in s.seen ==> i' == i && s1.value == s)
            && (m.id !in s.seen ==>
                  && i'.pushed == i.pushed + [Stamped(env, m)]
                  && i'.queue == i.queue + [(KeyGrammar.BuildKey(m.roomTopic, m.id), bytes)]
                  && Step(cfg, s1.value, Advance(t)).Some?
                  && Step(cfg, Step(cfg, s1.value, Advance(t)).value, Advance(t)) ==
                     Some(State(i'.seen, s.threads, s1.value.log + [Pushed(m.id)] + [Enqueued(m.id)])))
  {
    if m.id !in s.seen {
      var s1 := Step(cfg, s, Arrive(t, m.id)).value;
      var s2 := Step(cfg, s1, Advance(t)).value;
      assert s2.threads - {t} == s.threads;
    }
  }
}
