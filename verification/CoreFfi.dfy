/** The command surface of the FFI layer in sequential use: joins, catalog commands, and what is
    pushed to the client for each. */
module CoreFfi {
  import opened Basics
  import opened Records
  import opened Catalog
  import opened KeyGrammar
  import opened EntityStore
  import opened Joins
  import Utf8

  const MAX_NAME_LENGTH := 64

  datatype Status = Okay | Generic | InvalidArgument

  datatype Event =
    | RoomList(topics: seq<string>)
    | SpaceTree(spaces: seq<SpaceRecord>, rooms: seq<RoomRecord>)
    | MessageHistory(topic: string)
    | Readiness
    | ErrorNotice

  /** The client's picture: the last room list and the last space tree it was sent. */
  function LastRooms(events: seq<Event>): Option<seq<string>> {
    if events == [] then None
    else match events[|events| - 1]
      case RoomList(ts) => Some(ts)
      case _ => LastRooms(events[..|events| - 1])
  }

  function LastTree(events: seq<Event>): Option<(seq<SpaceRecord>, seq<RoomRecord>)> {
    if events == [] then None
    else match events[|events| - 1]
      case SpaceTree(ss, rs) => Some((ss, rs))
      case _ => LastTree(events[..|events| - 1])
  }

  lemma LastOfPosted(events: seq<Event>, e: Event)
    ensures LastRooms(events + [e]) == if e.RoomList? then Some(e.topics) else LastRooms(events)
    ensures LastTree(events + [e]) == if e.SpaceTree? then Some((e.spaces, e.rooms)) else LastTree(events)
  {
    assert (events + [e])[..|events|] == events;
  }

  /** What one post adds. */
  function Posted(port: bool, e: Event): seq<Event> {
    if port then [e] else []
  }

  /** What joining one derived room posts: its history unless the scan fails, then an error notice if its
      live subscribe does not arm. */
  function Announcement(port: bool, t: string, armed: bool, scanned: bool): seq<Event> {
    (if scanned then Posted(port, MessageHistory(t)) else []) + (if armed then [] else Posted(port, ErrorNotice))
  }

  function Announced(port: bool, ts: seq<string>, arms: string -> bool, scans: string -> bool): seq<Event> {
    if ts == [] then []
    else
      var last := ts[|ts| - 1];
      Announced(port, ts[..|ts| - 1], arms, scans) + Announcement(port, last, arms(last), scans(last))
  }

  lemma AnnouncedNext(before: seq<Event>, port: bool, ts: seq<string>, t: string, arms: string -> bool,
                      scans: string -> bool)
    ensures before + Announced(port, ts + [t], arms, scans)
            == before + Announced(port, ts, arms, scans) + Announcement(port, t, arms(t), scans(t))
  {
    assert (ts + [t])[..|ts|] == ts;
  }

  /** Each joined room's history is replayed if it can be scanned, and a notice says that one did not arm. */
  lemma {:induction false} AnnouncedMeans(port: bool, ts: seq<string>, arms: string -> bool, scans: string -> bool)
    ensures forall t :: MessageHistory(t) in Announced(port, ts, arms, scans) <==> port && t in ts && scans(t)
    ensures ErrorNotice in Announced(port, ts, arms, scans) <==> port && exists t :: t in ts && !arms(t)
    ensures forall e | e in Announced(port, ts, arms, scans) :: e.MessageHistory? || e.ErrorNotice?
    ensures !port ==> Announced(port, ts, arms, scans) == []
  {
    if ts != [] {
      var front, last := ts[..|ts| - 1], ts[|ts| - 1];
      AnnouncedMeans(port, front, arms, scans);
      assert ts == front + [last];
      forall e ensures e in Announced(port, ts, arms, scans) <==>
                         || e in Announced(port, front, arms, scans)
                         || (port && scans(last) && e == MessageHistory(last))
                         || (port && !arms(last) && e == ErrorNotice) {}
    }
  }

  /** Histories and notices leave the last room list and the last tree what they were. */
  lemma {:induction false} PictureKept(events: seq<Event>, posted: seq<Event>)
    requires forall e | e in posted :: e.MessageHistory? || e.ErrorNotice?
    ensures LastRooms(events + posted) == LastRooms(events) && LastTree(events + posted) == LastTree(events)
  {
    if posted == [] {
      assert events + [] == events;
    } else {
      var front, last := posted[..|posted| - 1], posted[|posted| - 1];
      assert posted == front + [last] && events + posted == events + front + [last];
      assert last in posted;
      PictureKept(events, front);
      LastOfPosted(events + front, last);
    }
  }

  /** posted announces exactly the topics that are joined now and were not before, once each. */
  ghost predicate Announces(posted: seq<Event>, port: bool, was: seq<string>, now: seq<string>,
                            arms: string -> bool, scans: string -> bool) {
    exists joined ::
      && NoRepeats(joined) && (forall t :: t in joined <==> t in now && t !in was)
      && posted == Announced(port, joined, arms, scans)
  }

  lemma AnnouncesJoined(port: bool, was: seq<string>, joined: seq<string>, derived: seq<string>, now: seq<string>,
                        arms: string -> bool, scans: string -> bool)
    requires NoRepeats(was + joined) && forall t | t in joined :: t in derived
    requires forall t :: t in now <==> t in was + joined && t in derived
    ensures Announces(Announced(port, joined, arms, scans), port, was, now, arms, scans)
  {
    var all := was + joined;
    assert forall i | 0 <= i < |joined| :: joined[i] == all[|was| + i];
    forall t | t in joined ensures t !in was {
      var i :| 0 <= i < |joined| && joined[i] == t;
      assert forall k | 0 <= k < |was| :: was[k] == all[k] != all[|was| + i];
    }
  }

  /** The tree shows exactly the living entities, by ascending id. */
  ghost predicate Shows(c: Cat, tree: (seq<SpaceRecord>, seq<RoomRecord>)) {
    && ListsLiving(tree.0, c.spaces, (s: SpaceRecord) => s.deleted)
    && ListsLiving(tree.1, c.rooms, (r: RoomRecord) => r.deleted)
  }

  /** Room records carry minted ids and are filed under them. */
  ghost predicate RoomsMinted(c: Cat) {
    forall id | id in c.rooms :: c.rooms[id].id == id && MintedRoomId(id)
  }

  ghost predicate DerivedTopic(c: Cat, t: string) {
    exists id :: Derives(c, id) && t == TopicOf(id)
  }

  /** The derived list is the one recomputed from the catalog. */
  ghost predicate Recomputed(c: Cat, derived: seq<string>) {
    forall t :: t in derived <==> DerivedTopic(c, t)
  }

  predicate NobodyUnder(rooms: map<string, RoomRecord>, spaceId: string) {
    forall id | id in rooms :: rooms[id].parentSpaceId != spaceId
  }

  /** A space nobody is filed under derives nothing new. */
  lemma NewSpaceDerivesNothing(w: Wires, c: Cat, r: SpaceRecord, io: Io, t: string)
    requires NobodyUnder(c.rooms, r.id)
    ensures DerivedTopic(Catalog.CreateSpace(w, c, r, io), t) <==> DerivedTopic(c, t)
  {
    var c' := Catalog.CreateSpace(w, c, r, io);
    forall id ensures Derives(c', id) <==> Derives(c, id) {}
  }

  class Ffi {
    const entities: EntityStore.Store
    var roomTopics: seq<string>
    var derivedTopics: seq<string>
    var explicitTopics: seq<string>
    ghost var smokeTopics: seq<string>
    var port: bool
    var events: seq<Event>

    ghost function Lists(): Joins.Lists
      reads this
    {
      Joins.Lists(roomTopics, smokeTopics, explicitTopics, derivedTopics)
    }

    /** What the client was last told is what is so. */
    ghost predicate Mirrored()
      reads this, entities, entities.db
    {
      port ==>
        && LastRooms(events) == Some(roomTopics)
        && LastTree(events).Some? && Shows(entities.View(), LastTree(events).value)
    }

    ghost predicate Valid()
      reads this, entities, entities.db
    {
      entities.Ready() && Projected(Lists()) && RoomsMinted(entities.View())
    }

    constructor (entities: EntityStore.Store)
      ensures this.entities == entities && Lists() == NOTHING && !port && events == []
    {
      this.entities := entities;
      roomTopics, derivedTopics, explicitTopics, smokeTopics := [], [], [], [];
      port, events := false, [];
    }

    method Post(e: Event)
      modifies this`events
      ensures events == old(events) + Posted(port, e)
      ensures LastRooms(events) == if port && e.RoomList? then Some(e.topics) else LastRooms(old(events))
      ensures LastTree(events) == if port && e.SpaceTree? then Some((e.spaces, e.rooms)) else LastTree(old(events))
    {
      LastOfPosted(events, e);
      if port {
        events := events + [e];
      }
    }

    method PostSpaceTree() returns (tree: (seq<SpaceRecord>, seq<RoomRecord>))
      requires entities.Ready()
      modifies this`events
      ensures Shows(entities.View(), tree) && events == old(events) + Posted(port, SpaceTree(tree.0, tree.1))
      ensures port ==> LastRooms(events) == LastRooms(old(events)) && LastTree(events) == Some(tree)
    {
      var spaces := entities.Spaces();
      var rooms := entities.Rooms();
      tree := (spaces, rooms);
      Post(SpaceTree(spaces, rooms));
    }

    method AddDerived(topic: string, ghost id: string)
      requires Projected(Lists()) && topic == TopicOf(id) && MintedRoomId(id) && topic !in derivedTopics
      modifies this`roomTopics, this`derivedTopics
      ensures Lists() == JoinDerived(old(Lists()), topic) && Projected(Lists())
    {
      JoinProjected(Lists(), Derived(id));
      derivedTopics := derivedTopics + [topic];
      if topic !in roomTopics {
        roomTopics := roomTopics + [topic];
      }
    }

    method SubscribeLive(armed: bool)
      modifies this`events
      ensures events == old(events) + if armed then [] else Posted(port, ErrorNotice)
      ensures LastTree(events) == LastTree(old(events)) && LastRooms(events) == LastRooms(old(events))
      ensures !port ==> events == old(events)
    {
      if !armed {
        Post(ErrorNotice);
      }
    }

    /** A history scan that fails is only logged. */
    method PushMessageHistory(topic: string, scanned: bool)
      modifies this`events
      ensures events == old(events) + if scanned then Posted(port, MessageHistory(topic)) else []
      ensures LastTree(events) == LastTree(old(events)) && LastRooms(events) == LastRooms(old(events))
    {
      if scanned {
        Post(MessageHistory(topic));
      }
    }

    /** A newly derived topic that has registered. */
    method EnterDerived(topic: string, armed: bool, scanned: bool)
      requires Valid() && DerivedTopic(entities.View(), topic) && topic !in derivedTopics
      modifies this`roomTopics, this`derivedTopics, this`events
      ensures Valid() && derivedTopics == old(derivedTopics) + [topic]
      ensures events == old(events) + Announcement(port, topic, armed, scanned)
    {
      ghost var id :| Derives(entities.View(), id) && topic == TopicOf(id);
      AddDerived(topic, id);
      PushMessageHistory(topic, scanned);
      SubscribeLive(armed);
    }

    /** The first loop of RefreshDerivedJoins; joined is what it adds. */
    method RegisterDerived(derived: seq<string>, registers: string -> bool, arms: string -> bool,
                           scans: string -> bool) returns (ghost joined: seq<string>)
      requires Valid() && forall t | t in derived :: DerivedTopic(entities.View(), t)
      modifies this`roomTopics, this`derivedTopics, this`events
      ensures Valid() && derivedTopics == old(derivedTopics) + joined
      ensures forall t :: t in joined <==> t in derived && t !in old(derivedTopics) && registers(t)
      ensures events == old(events) + Announced(port, joined, arms, scans)
    {
      joined := [];
      for i := 0 to |derived|
        invariant Valid() && derivedTopics == old(derivedTopics) + joined
        invariant forall t :: t in joined <==> t in derived[..i] && t !in old(derivedTopics) && registers(t)
        invariant events == old(events) + Announced(port, joined, arms, scans)
      {
        var topic := derived[i];
        assert derived[..i + 1] == derived[..i] + [topic];
        assert topic in derived;
        if topic !in derivedTopics && registers(topic) {
          EnterDerived(topic, arms(topic), scans(topic));
          AnnouncedNext(old(events), port, joined, topic, arms, scans);
          joined := joined + [topic];
        }
      }
      assert derived[..|derived|] == derived;
    }

    /** The second loop of RefreshDerivedJoins. */
    method EvictUnderived(derived: seq<string>)
      requires Valid()
      modifies this`roomTopics, this`derivedTopics
      ensures Valid() && forall t :: t in derivedTopics <==> t in old(derivedTopics) && t in derived
    {
      var stillDerived: seq<string> := [];
      var all := derivedTopics;
      for i := 0 to |all|
        invariant derivedTopics == all && NoRepeats(roomTopics) && NoRepeats(stillDerived)
        invariant forall t :: t in stillDerived <==> t in all[..i] && t in derived
        invariant forall t :: t in roomTopics <==>
                    t in smokeTopics || t in explicitTopics || t in stillDerived || t in all[i..]
      {
        assert all[..i + 1] == all[..i] + [all[i]] && all[i..] == [all[i]] + all[i + 1..];
        assert all[i] !in all[..i] && all[i] !in all[i + 1..];
        if all[i] in derived {
          stillDerived := stillDerived + [all[i]];
        } else if all[i] !in explicitTopics {
          WithoutNoRepeats(roomTopics, all[i]);
          roomTopics := Without(roomTopics, all[i]);
        }
      }
      assert all[..|all|] == all;
      derivedTopics := stillDerived;
    }

    /** registers says for which topics listening and broadcasting succeed, arms for which the live
        subscribe does, scans for which the history scan does. */
    method RefreshDerivedJoins(registers: string -> bool, arms: string -> bool, scans: string -> bool)
      requires Valid()
      modifies this`roomTopics, this`derivedTopics, this`events
      ensures Valid()
      ensures forall t :: t in derivedTopics <==>
                DerivedTopic(entities.View(), t) && (t in old(derivedTopics) || registers(t))
      ensures LastTree(events) == LastTree(old(events)) && LastRooms(events) == LastRooms(old(events))
      ensures !port ==> events == old(events)
      ensures exists posted ::
                && Announces(posted, port, old(derivedTopics), derivedTopics, arms, scans)
                && events == old(events) + posted
    {
      var derived := entities.DerivedJoinedTopics();
      ghost var joined := RegisterDerived(derived, registers, arms, scans);
      EvictUnderived(derived);
      AnnouncedMeans(port, joined, arms, scans);
      PictureKept(old(events), Announced(port, joined, arms, scans));
      AnnouncesJoined(port, old(derivedTopics), joined, derived, derivedTopics, arms, scans);
    }

    /** gcs_init after the session is up: smoke topics, catalog replay, derived joins.  No port is
        registered yet, so nothing is pushed. */
    method Init(smokeA: bool, smokeB: bool, readable: string -> bool,
                registers: string -> bool, arms: string -> bool, scans: string -> bool) returns (ok: bool)
      requires Lists() == NOTHING && !port && entities.Ready()
      requires RoomsMinted(Reload(entities.wires, Visible(entities.db.data, readable)))
      modifies this, entities
      ensures ok <==> smokeA || smokeB
      ensures ok ==> Valid()
      ensures ok ==>
                entities.View()
                == Reload(entities.wires, Visible(old(entities.db.data), readable)).(store := old(entities.db.data))
      ensures ok && (forall t :: registers(t)) ==> Recomputed(entities.View(), derivedTopics)
      ensures smokeTopics == (if smokeA then ["gcs/chat/smoke-test"] else [])
                             + (if smokeB then ["gcs/chat/smoke-test-2"] else [])
      ensures explicitTopics == []
      ensures ok ==> forall t :: t in roomTopics <==> t in smokeTopics || t in derivedTopics
      ensures !ok ==> roomTopics == []
      ensures events == old(events) && !port
    {
      if smokeA {
        roomTopics := roomTopics + [SMOKE_A];
        smokeTopics := smokeTopics + [SMOKE_A];
      }
      if smokeB {
        roomTopics := roomTopics + [SMOKE_B];
        smokeTopics := smokeTopics + [SMOKE_B];
      }
      if !smokeA && !smokeB {
        return false;
      }
      entities.LoadFromStore(readable);
      RefreshDerivedJoins(registers, arms, scans);
      return true;
    }

    /** gcs_subscribe: the tree, the room list, then readiness.  known: the handle is this session's, and
        topic and port are given. */
    method RegisterPort(known: bool) returns (status: Status)
      requires Valid()
      modifies this`port, this`events
      ensures Valid() && status == if known then Okay else InvalidArgument
      ensures !known ==> port == old(port) && events == old(events)
      ensures known ==> port && Mirrored()
      ensures known ==>
                exists tree ::
                  && Shows(entities.View(), tree)
                  && events == old(events) + [SpaceTree(tree.0, tree.1), RoomList(roomTopics), Readiness]
    {
      if !known {
        return InvalidArgument;
      }
      port := true;
      var tree := PostSpaceTree();
      Post(RoomList(roomTopics));
      Post(Readiness);
      assert events == old(events) + [SpaceTree(tree.0, tree.1), RoomList(roomTopics), Readiness];
      return Okay;
    }

    method Reject() returns (status: Status)
      modifies this`events
      ensures status == InvalidArgument && events == old(events) + Posted(port, ErrorNotice)
      ensures LastTree(events) == LastTree(old(events)) && LastRooms(events) == LastRooms(old(events))
    {
      Post(ErrorNotice);
      return InvalidArgument;
    }

    method Fail() returns (status: Status)
      modifies this`events
      ensures status == Generic && events == old(events) + Posted(port, ErrorNotice)
      ensures LastTree(events) == LastTree(old(events)) && LastRooms(events) == LastRooms(old(events))
    {
      Post(ErrorNotice);
      return Generic;
    }

    method AddExplicit(topic: string) returns (alreadyJoined: bool)
      requires Projected(Lists())
      modifies this`roomTopics, this`explicitTopics
      ensures Lists() == JoinExplicit(old(Lists()), topic) && Projected(Lists())
      ensures alreadyJoined <==> topic in old(roomTopics)
    {
      JoinProjected(Lists(), Explicit(topic));
      alreadyJoined := topic in roomTopics;
      if !alreadyJoined {
        roomTopics := roomTopics + [topic];
      }
      if topic !in explicitTopics {
        explicitTopics := explicitTopics + [topic];
      }
    }

    method PushJoin(topic: string, scanned: bool)
      modifies this`events
      ensures events == old(events) + Posted(port, RoomList(roomTopics))
                        + if scanned then Posted(port, MessageHistory(topic)) else []
      ensures LastTree(events) == LastTree(old(events)) && (port ==> LastRooms(events) == Some(roomTopics))
    {
      Post(RoomList(roomTopics));
      PushMessageHistory(topic, scanned);
    }

    /** join_topic once listening and broadcasting have succeeded. */
    method JoinRegistered(topic: string, armed: bool, scanned: bool) returns (status: Status)
      requires Valid() && Mirrored()
      modifies this`roomTopics, this`explicitTopics, this`events
      ensures Valid() && Mirrored() && Lists() == JoinExplicit(old(Lists()), topic)
      ensures status == if armed || topic in old(roomTopics) then Okay else Generic
      ensures events == old(events) + Posted(port, RoomList(roomTopics))
                        + (if scanned then Posted(port, MessageHistory(topic)) else [])
                        + (if status == Okay then [] else Posted(port, ErrorNotice))
    {
      var alreadyJoined := AddExplicit(topic);
      PushJoin(topic, scanned);
      if alreadyJoined {
        return Okay;
      }
      SubscribeLive(armed);
      return if armed then Okay else Generic;
    }

    /** join_topic. */
    method JoinTopic(topic: string, registers: bool, armed: bool, scanned: bool) returns (status: Status)
      requires Valid() && Mirrored()
      modifies this`roomTopics, this`explicitTopics, this`events
      ensures Valid() && Mirrored()
      ensures status == InvalidArgument <==> |topic| > 128 || !ValidTopic(topic)
      ensures status == Okay <==>
                |topic| <= 128 && ValidTopic(topic) && registers && (armed || topic in old(roomTopics))
      ensures if |topic| <= 128 && ValidTopic(topic) && registers then
                && roomTopics == (if topic in old(roomTopics) then old(roomTopics) else old(roomTopics) + [topic])
                && explicitTopics == (if topic in old(explicitTopics) then old(explicitTopics)
                                      else old(explicitTopics) + [topic])
              else Lists() == old(Lists())
      ensures events == old(events) +
                if |topic| <= 128 && ValidTopic(topic) && registers
                then Posted(port, RoomList(roomTopics)) + (if scanned then Posted(port, MessageHistory(topic)) else [])
                     + (if armed || topic in old(roomTopics) then [] else Posted(port, ErrorNotice))
                else Posted(port, ErrorNotice)
    {
      if topic == "" || |topic| > MAX_TOPIC_LENGTH || !ValidTopic(topic) {
        status := Reject();
        return;
      }
      if !registers {
        status := Fail();
        return;
      }
      status := JoinRegistered(topic, armed, scanned);
    }

    /** 1 to 64 code points. */
    predicate NameAccepted(name: Utf8.Text) {
      name != "" && Utf8.CodePointCount(name) <= MAX_NAME_LENGTH
    }

    /** create_space: no refresh, because a new space has no rooms. */
    method CreateSpace(name: Utf8.Text, isPublic: bool, autoJoin: bool, id: string, nowMs: int, io: Io)
      returns (status: Status)
      requires Valid() && Mirrored()
      modifies this`events, entities, entities.db`data
      ensures Valid() && Mirrored()
      ensures status == InvalidArgument <==> name == "" || Utf8.CodePointCount(name) > 64
      ensures status == Okay <==> NameAccepted(name) && io.manifestOk && io.recordOk
      ensures status != Okay ==> events == old(events) + Posted(port, ErrorNotice)
      ensures status == Okay ==>
                exists tree :: Shows(entities.View(), tree)
                               && events == old(events) + Posted(port, SpaceTree(tree.0, tree.1))
      ensures entities.rooms == old(entities.rooms)
      ensures status == Okay && id !in old(entities.spaces) ==>
                entities.spaces == old(entities.spaces)[id :=
                  SpaceRecord(id := id, name := name, isPublic := isPublic, autoJoinRooms := autoJoin,
                              createdAtMs := nowMs, updatedAtMs := nowMs, deleted := false, deletedAtMs := 0)]
      ensures entities.View() == if !NameAccepted(name) then old(entities.View())
                else Catalog.CreateSpace(entities.wires, old(entities.View()),
                                         SpaceRecord(id, name, isPublic, autoJoin, nowMs, nowMs, false, 0), io)
      ensures old(Recomputed(entities.View(), derivedTopics) && NobodyUnder(entities.rooms, id)) ==>
                Recomputed(entities.View(), derivedTopics)
    {
      ghost var before := entities.View();
      if !NameAccepted(name) {
        status := Reject();
        return;
      }
      ghost var record := SpaceRecord(id, name, isPublic, autoJoin, nowMs, nowMs, false, 0);
      forall t | NobodyUnder(before.rooms, id)
        ensures DerivedTopic(Catalog.CreateSpace(entities.wires, before, record, io), t) <==> DerivedTopic(before, t)
      {
        NewSpaceDerivesNothing(entities.wires, before, record, io, t);
      }
      var created := entities.CreateSpace(name, isPublic, autoJoin, id, nowMs, io);
      if created.Failure? {
        status := Fail();
        return;
      }
      var tree := PostSpaceTree();
      return Okay;
    }

    /** What follows a catalog change that may derive or end joins. */
    method RefreshAndPush(registers: string -> bool, arms: string -> bool, scans: string -> bool)
      requires Valid()
      modifies this`roomTopics, this`derivedTopics, this`events
      ensures Valid() && Mirrored()
      ensures forall t :: t in derivedTopics <==>
                DerivedTopic(entities.View(), t) && (t in old(derivedTopics) || registers(t))
      ensures exists posted, tree ::
                && Announces(posted, port, old(derivedTopics), derivedTopics, arms, scans)
                && Shows(entities.View(), tree)
                && events == old(events) + posted + Posted(port, SpaceTree(tree.0, tree.1))
                             + Posted(port, RoomList(roomTopics))
    {
      RefreshDerivedJoins(registers, arms, scans);
      var tree := PostSpaceTree();
      Post(RoomList(roomTopics));
    }

    /** create_room; id is what NextEntityId mints. */
    method CreateRoom(name: Utf8.Text, parent: string, id: string, nowMs: int, io: Io,
                      registers: string -> bool, arms: string -> bool, scans: string -> bool) returns (status: Status)
      requires Valid() && Mirrored() && MintedRoomId(id)
      modifies this`roomTopics, this`derivedTopics, this`events, entities, entities.db`data
      ensures Valid() && Mirrored()
      ensures status == InvalidArgument <==>
                || name == "" || Utf8.CodePointCount(name) > 64
                || (parent != "" && (parent !in old(entities.spaces) || old(entities.spaces)[parent].deleted))
      ensures status == Okay <==> NameAccepted(name) && (parent == "" || ValidParent(old(entities.spaces), parent))
                                  && io.manifestOk && io.recordOk
      ensures status != Okay ==> events == old(events) + Posted(port, ErrorNotice)
      ensures status == Okay ==>
                exists posted, tree ::
                  && Announces(posted, port, old(derivedTopics), derivedTopics, arms, scans)
                  && Shows(entities.View(), tree)
                  && events == old(events) + posted + Posted(port, SpaceTree(tree.0, tree.1))
                               + Posted(port, RoomList(roomTopics))
      ensures entities.spaces == old(entities.spaces)
      ensures status == Okay && id !in old(entities.rooms) ==>
                entities.rooms == old(entities.rooms)[id :=
                  RoomRecord(id := id, name := name, parentSpaceId := parent, createdAtMs := nowMs,
                             updatedAtMs := nowMs, deleted := false, deletedAtMs := 0)]
      ensures entities.View() == if !NameAccepted(name) then old(entities.View())
                else Catalog.CreateRoom(entities.wires, old(entities.View()),
                                        RoomRecord(id, name, parent, nowMs, nowMs, false, 0), io)
      ensures old(Recomputed(entities.View(), derivedTopics)) && (forall t :: registers(t)) ==>
                Recomputed(entities.View(), derivedTopics)
    {
      ghost var before := entities.View();
      if !NameAccepted(name) {
        status := Reject();
        return;
      }
      var known := entities.IsValidParentSpace(parent);
      if parent != "" && !known {
        status := Reject();
        return;
      }
      var created := entities.CreateRoom(name, parent, id, nowMs, io);
      if created.Failure? {
        status := Fail();
        return;
      }
      RefreshAndPush(registers, arms, scans);
      return Okay;
    }

    /** update_space: the full desired state of a known space. */
    method UpdateSpace(id: string, name: Utf8.Text, isPublic: bool, autoJoin: bool, nowMs: int, accepted: bool,
                       registers: string -> bool, arms: string -> bool, scans: string -> bool) returns (status: Status)
      requires Valid() && Mirrored()
      modifies this`roomTopics, this`derivedTopics, this`events, entities, entities.db`data
      ensures Valid() && Mirrored()
      ensures status == InvalidArgument <==> id == "" || name == "" || Utf8.CodePointCount(name) > 64
      ensures status == Okay <==> id != "" && NameAccepted(name) && ValidParent(old(entities.spaces), id) && accepted
      ensures status != Okay ==> events == old(events) + Posted(port, ErrorNotice)
      ensures status == Okay ==>
                exists posted, tree ::
                  && Announces(posted, port, old(derivedTopics), derivedTopics, arms, scans)
                  && Shows(entities.View(), tree)
                  && events == old(events) + posted + Posted(port, SpaceTree(tree.0, tree.1))
                               + Posted(port, RoomList(roomTopics))
      ensures entities.rooms == old(entities.rooms)
      ensures status == Okay ==>
                var was := old(entities.spaces)[id];
                entities.spaces == old(entities.spaces)[id :=
                  SpaceRecord(id := id, name := name, isPublic := isPublic, autoJoinRooms := autoJoin,
                              createdAtMs := was.createdAtMs, updatedAtMs := nowMs,
                              deleted := was.deleted, deletedAtMs := was.deletedAtMs)]
      ensures entities.View() == if id == "" || !NameAccepted(name) then old(entities.View())
                else Catalog.UpdateSpace(entities.wires, old(entities.View()),
                                         SpaceRecord(id, name, isPublic, autoJoin, 0, 0, false, 0), nowMs, accepted)
      ensures old(Recomputed(entities.View(), derivedTopics)) && (forall t :: registers(t)) ==>
                Recomputed(entities.View(), derivedTopics)
    {
      if id == "" || !NameAccepted(name) {
        status := Reject();
        return;
      }
      var desired := SpaceRecord(id, name, isPublic, autoJoin, 0, 0, false, 0);
      var updated := entities.UpdateSpace(desired, nowMs, accepted);
      if updated.Failure? {
        status := Fail();
        return;
      }
      RefreshAndPush(registers, arms, scans);
      return Okay;
    }
  }
}
