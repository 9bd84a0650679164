/** What sending, receiving and scanning do to the messaging component's memory, as values. */
module Funnel {
  import opened Basics
  import opened Records
  import opened GlobalDb
  import opened History
  import opened KeyGrammar

  const MAX_SEEN: nat := 4096

  /** Bounded insertion: a full dedupe set is cleared first. */
  function Absorb(seen: set<string>, id: string): set<string> {
    (if |seen| >= MAX_SEEN then {} else seen) + {id}
  }

  /** A history scan absorbs id after id, known or not. */
  function AbsorbAll(seen: set<string>, ids: seq<string>): set<string> {
    if ids == [] then seen else Absorb(AbsorbAll(seen, ids[..|ids| - 1]), ids[|ids| - 1])
  }

  /** The dedupe set, everything pushed to the client, and the archive queue. */
  datatype Inbox = Inbox(seen: set<string>, pushed: seq<Message>, queue: seq<Entry>)

  function Stamped(env: Env, m: Message): Message {
    m.(role := RoleFor(m, env.sender))
  }

  /** An id not seen before is pushed once and queued, bytes as received, under its own room and id. */
  function Admit(env: Env, i: Inbox, m: Message, bytes: Bytes): Inbox {
    if m.id in i.seen then i
    else Inbox(Absorb(i.seen, m.id), i.pushed + [Stamped(env, m)], i.queue + [(BuildKey(m.roomTopic, m.id), bytes)])
  }

  /** The receive funnel: what does not decode leaves no trace. */
  function Receive(env: Env, i: Inbox, topic: string, bytes: Bytes): Inbox {
    match Decode(env, topic, bytes)
    case None => i
    case Some(m) => Admit(env, i, m, bytes)
  }

  function Elements(ids: seq<string>): set<string> {
    set id | id in ids
  }

  lemma ElementsGrow(ids: seq<string>, id: string)
    ensures Elements(ids + [id]) == Elements(ids) + {id}
  {}

  /** Below the cap a scan forgets nothing and absorbs everything. */
  lemma {:induction false} AbsorbedBelowCap(seen: set<string>, ids: seq<string>)
    requires ids == [] || |seen + Elements(ids[..|ids| - 1])| < MAX_SEEN
    ensures AbsorbAll(seen, ids) == seen + Elements(ids)
  {
    if ids != [] {
      var front, last := ids[..|ids| - 1], ids[|ids| - 1];
      ElementsGrow(front, last);
      assert ids == front + [last];
      if front != [] {
        ElementsGrow(front[..|front| - 1], front[|front| - 1]);
        assert front == front[..|front| - 1] + [front[|front| - 1]];
        SubsetSize(seen + Elements(front[..|front| - 1]), seen + Elements(front));
      }
      AbsorbedBelowCap(seen, front);
      calc {
        AbsorbAll(seen, ids);
        Absorb(seen + Elements(front), last);
        seen + Elements(front) + {last};
        seen + Elements(ids);
      }
    }
  }

  /** A scan that starts below the cap and meets it on the way loses the first id it absorbed. */
  lemma {:induction false} ScanKeepsIffBelowCap(seen: set<string>, ids: seq<string>)
    requires NoRepeats(ids) && ids != [] && |seen| < MAX_SEEN
    ensures ids[0] in AbsorbAll(seen, ids) <==> |seen + Elements(ids[..|ids| - 1])| < MAX_SEEN
    ensures AbsorbAll(seen, ids) == seen + Elements(ids) <==> |seen + Elements(ids[..|ids| - 1])| < MAX_SEEN
  {
    var front, last := ids[..|ids| - 1], ids[|ids| - 1];
    assert front == [] ==> seen + Elements(front) == seen;
    if |seen + Elements(front)| < MAX_SEEN {
      AbsorbedBelowCap(seen, ids);
    } else {
      ScanKeepsIffBelowCap(seen, front);
      if |seen + Elements(front[..|front| - 1])| < MAX_SEEN {
        AbsorbedBelowCap(seen, front);
      }
      assert ids[0] !in AbsorbAll(seen, ids) && ids[0] in Elements(ids);
    }
  }

  lemma {:induction false} ElementsBound(ids: seq<string>)
    ensures |Elements(ids)| <= |ids|
  {
    if ids != [] {
      ElementsBound(ids[1..]);
      assert ids == [ids[0]] + ids[1..];
      assert Elements(ids) == {ids[0]} + Elements(ids[1..]);
    }
  }

  lemma FewAbsorbed(seen: set<string>, ids: seq<string>)
    requires |seen| + |ids| <= MAX_SEEN
    ensures AbsorbAll(seen, ids) == seen + Elements(ids)
  {
    if ids != [] {
      ElementsBound(ids[..|ids| - 1]);
      AbsorbedBelowCap(seen, ids);
    }
  }

  /** A message whose id a scan has shown is not pushed when it comes in afterwards. */
  lemma ScannedNotPushed(env: Env, i: Inbox, ids: seq<string>, topic: string, bytes: Bytes, m: Message)
    requires |i.seen| + |ids| <= MAX_SEEN && Decode(env, topic, bytes) == Some(m) && m.id in ids
    ensures Receive(env, i.(seen := AbsorbAll(i.seen, ids)), topic, bytes).pushed == i.pushed
    ensures Receive(env, i.(seen := AbsorbAll(i.seen, ids)), topic, bytes).queue == i.queue
  {
    FewAbsorbed(i.seen, ids);
  }

  // ---- sending -------------------------------------------------------------------------------

  /** The bytes of both the publish and the archive write. */
  function Payload(env: Env, nonce: nat, m: Message): Option<Bytes> {
    match env.crypto
    case Plain => Some(env.wire.encode(m))
    case Cipher(encrypt, _) => encrypt(nonce, m.roomTopic, env.wire.encode(m))
  }

  /** Whoever receives a sent payload on its topic reads the sent record back. */
  lemma PayloadDecodes(env: Env, nonce: nat, m: Message)
    requires EnvLawful(env) && Payload(env, nonce, m).Some?
    ensures Decode(env, m.roomTopic, Payload(env, nonce, m).value) == Some(m)
  {
    assert env.wire.decode(env.wire.encode(m)) == Some(m);
  }

  /** The cipher tells apart what was encrypted for different rooms. */
  ghost predicate RoomBound(c: Crypto) {
    c.Cipher? ==>
      forall nonce, topic, other, plain ::
        topic != other && c.encrypt(nonce, topic, plain).Some? ==>
          c.decrypt(other, c.encrypt(nonce, topic, plain).value) == None
  }

  /** With such a cipher a payload that comes in on another room's topic leaves no trace there. */
  lemma OtherRoomLeavesNoTrace(env: Env, nonce: nat, m: Message, i: Inbox, other: string)
    requires env.crypto.Cipher? && RoomBound(env.crypto) && Payload(env, nonce, m).Some? && other != m.roomTopic
    ensures Receive(env, i, other, Payload(env, nonce, m).value) == i
  {
    assert Payload(env, nonce, m) == env.crypto.encrypt(nonce, m.roomTopic, env.wire.encode(m));
  }

  // ---- the archive worker ----------------------------------------------------------------------

  /** The store after the worker has put items in order; accepts says which writes the store takes. */
  function Archived(data: map<string, Bytes>, items: seq<Entry>, accepts: Entry -> bool): map<string, Bytes> {
    if items == [] then data
    else
      var before := Archived(data, items[..|items| - 1], accepts);
      var last := items[|items| - 1];
      if accepts(last) then before[last.0 := last.1] else before
  }

  /** items[i] is the last write under its key that the store takes. */
  ghost predicate Final(items: seq<Entry>, accepts: Entry -> bool, i: nat) {
    i < |items| && accepts(items[i]) && forall j | i < j < |items| && accepts(items[j]) :: items[j].0 != items[i].0
  }

  /** Every accepted write shows under its key until a later one replaces it; nothing else changes. */
  lemma {:induction false} ArchivedMeans(data: map<string, Bytes>, items: seq<Entry>, accepts: Entry -> bool)
    ensures forall i: nat | Final(items, accepts, i) ::
              items[i].0 in Archived(data, items, accepts) && Archived(data, items, accepts)[items[i].0] == items[i].1
    ensures forall k :: k in Archived(data, items, accepts) <==>
              k in data || exists i: nat :: Final(items, accepts, i) && items[i].0 == k
    ensures forall k | k in data && !(exists i: nat :: Final(items, accepts, i) && items[i].0 == k) ::
              Archived(data, items, accepts)[k] == data[k]
  {
    if items != [] {
      var front, n := items[..|items| - 1], |items| - 1;
      ArchivedMeans(data, front, accepts);
      assert accepts(items[n]) ==> Final(items, accepts, n);
      forall i: nat | i < n ensures Final(items, accepts, i) <==>
        Final(front, accepts, i) && !(accepts(items[n]) && items[n].0 == items[i].0) {}
    }
  }

  lemma {:induction false} ArchivedAppends(data: map<string, Bytes>, first: Entry, rest: seq<Entry>,
                                           accepts: Entry -> bool)
    ensures Archived(data, [first] + rest, accepts) == Archived(Archived(data, [first], accepts), rest, accepts)
  {
    var items := [first] + rest;
    if rest == [] {
      assert items == [first];
    } else {
      assert items[..|items| - 1] == [first] + rest[..|rest| - 1];
      ArchivedAppends(data, first, rest[..|rest| - 1], accepts);
    }
  }
}
