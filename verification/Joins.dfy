/** The joined-topic projection: the room list, kept up to date step by step. */
module Joins {
  import opened Basics
  import opened KeyGrammar

  const SMOKE_A := "gcs/chat/smoke-test"
  const SMOKE_B := "gcs/chat/smoke-test-2"

  /** NextEntityId stamps every room id with this prefix. */
  predicate MintedRoomId(id: string) {
    "room-" <= id
  }

  /** g_roomTopics and its three sources; smoke is what gcs_init joined. */
  datatype Lists = Lists(rooms: seq<string>, smoke: seq<string>, explicit: seq<string>, derived: seq<string>)

  /** The room list, without repeats, is what was joined: smoke topics, explicit joins, derived joins. */
  ghost predicate Projected(l: Lists) {
    && NoRepeats(l.rooms) && NoRepeats(l.derived)
    && (forall t :: t in l.rooms <==> t in l.smoke || t in l.explicit || t in l.derived)
    && (forall t | t in l.derived :: t !in l.smoke)
    && (forall t | t in l.smoke :: t == SMOKE_A || t == SMOKE_B)
  }

  function Appended(ts: seq<string>, t: string): seq<string> {
    if t in ts then ts else ts + [t]
  }

  /** std::remove and erase. */
  function Without(ts: seq<string>, t: string): (r: seq<string>)
    ensures forall x :: x in r <==> x in ts && x != t
  {
    if ts == [] then []
    else
      assert ts == ts[..|ts| - 1] + [ts[|ts| - 1]];
      Without(ts[..|ts| - 1], t) + if ts[|ts| - 1] == t then [] else [ts[|ts| - 1]]
  }

  lemma {:induction false} WithoutNoRepeats(ts: seq<string>, t: string)
    requires NoRepeats(ts)
    ensures NoRepeats(Without(ts, t))
  {
    if ts != [] {
      var front, last := ts[..|ts| - 1], ts[|ts| - 1];
      WithoutNoRepeats(front, t);
      var kept := Without(front, t);
      forall i | 0 <= i < |kept| ensures kept[i] != last {
        assert kept[i] in kept;
      }
    }
  }

  // ---- what one lock-held region does ----------------------------------------------------------

  function JoinExplicit(l: Lists, t: string): Lists {
    l.(rooms := Appended(l.rooms, t), explicit := Appended(l.explicit, t))
  }

  /** One registered topic of RefreshDerivedJoins, up to its live subscribe. */
  function JoinDerived(l: Lists, t: string): Lists {
    if t in l.derived then l else l.(rooms := Appended(l.rooms, t), derived := l.derived + [t])
  }

  /** One topic of the eviction loop that left the snapshot. */
  function EvictOne(l: Lists, t: string): Lists {
    l.(rooms := if t in l.explicit then l.rooms else Without(l.rooms, t), derived := Without(l.derived, t))
  }

  function EvictAll(l: Lists, gone: seq<string>): Lists
    decreases |gone|
  {
    if gone == [] then l else EvictAll(EvictOne(l, gone[0]), gone[1..])
  }

  /** A join with the mutex held. */
  datatype Region = Explicit(topic: string) | Derived(roomId: string)

  function Do(l: Lists, r: Region): Lists {
    match r
    case Explicit(t) => JoinExplicit(l, t)
    case Derived(id) => JoinDerived(l, TopicOf(id))
  }

  lemma MintedNotSmoke(id: string)
    requires MintedRoomId(id)
    ensures TopicOf(id) != SMOKE_A && TopicOf(id) != SMOKE_B
  {
    assert TopicOf(id)[|ROOM_NAMESPACE|] == id[0] == 'r';
  }

  lemma EvictOneProjected(l: Lists, t: string)
    requires Projected(l) && t !in l.smoke
    ensures Projected(EvictOne(l, t))
  {
    WithoutNoRepeats(l.rooms, t);
    WithoutNoRepeats(l.derived, t);
  }

  lemma {:induction false} EvictProjected(l: Lists, gone: seq<string>)
    requires Projected(l) && forall t | t in gone :: t !in l.smoke
    ensures Projected(EvictAll(l, gone))
    decreases |gone|
  {
    if gone != [] {
      EvictOneProjected(l, gone[0]);
      EvictProjected(EvictOne(l, gone[0]), gone[1..]);
    }
  }

  /** Of the three sources, eviction touches the derived joins only. */
  lemma {:induction false} EvictRemoves(l: Lists, gone: seq<string>)
    ensures EvictAll(l, gone).smoke == l.smoke && EvictAll(l, gone).explicit == l.explicit
    ensures forall t :: t in EvictAll(l, gone).derived <==> t in l.derived && t !in gone
    decreases |gone|
  {
    if gone != [] {
      EvictRemoves(EvictOne(l, gone[0]), gone[1..]);
      assert gone == [gone[0]] + gone[1..];
    }
  }

  lemma JoinProjected(l: Lists, r: Region)
    requires Projected(l) && (r.Derived? ==> MintedRoomId(r.roomId))
    ensures Projected(Do(l, r))
  {
    if r.Derived? {
      MintedNotSmoke(r.roomId);
    }
  }

  const NOTHING := Lists([], [], [], [])
}
