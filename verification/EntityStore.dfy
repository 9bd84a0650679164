/** The entity store: a write-through cache of spaces and rooms over the session's store. */
module EntityStore {
  import opened Basics
  import opened Records
  import opened GlobalDb
  import opened Catalog
  import opened KeyGrammar
  import Order

  /** The derived-join set: one topic per living room whose space is known, alive and auto-joining. */
  ghost predicate Derives(c: Cat, id: string) {
    && id in c.rooms && !c.rooms[id].deleted && c.rooms[id].parentSpaceId != ""
    && ValidParent(c.spaces, c.rooms[id].parentSpaceId)
    && c.spaces[c.rooms[id].parentSpaceId].autoJoinRooms
  }

  /** r holds the records of m that are not gone, by ascending key; ids are their keys. */
  ghost predicate Picks<T>(r: seq<T>, m: map<string, T>, gone: T -> bool, ids: seq<string>) {
    && |ids| == |r| && Order.Ascending(ids)
    && (forall k | 0 <= k < |r| :: ids[k] in m && r[k] == m[ids[k]])
    && forall id :: id in ids <==> id in m && !gone(m[id])
  }

  ghost predicate ListsLiving<T>(r: seq<T>, m: map<string, T>, gone: T -> bool) {
    exists ids :: Picks(r, m, gone, ids)
  }

  /** What is listed is there and not gone, what is there and not gone is listed, and keys ascend. */
  lemma ListedMeans<T>(r: seq<T>, m: map<string, T>, gone: T -> bool, keyOf: T -> string)
    requires ListsLiving(r, m, gone) && forall id | id in m :: keyOf(m[id]) == id
    ensures forall v :: v in r <==> v in m.Values && !gone(v)
    ensures forall i, j | 0 <= i < j < |r| :: Order.Less(keyOf(r[i]), keyOf(r[j]))
  {
    var ids :| Picks(r, m, gone, ids);
    forall v | v in m.Values && !gone(v) ensures v in r {
      assert keyOf(v) in ids;
    }
    forall v | v in r ensures v in m.Values && !gone(v) {
      var k :| 0 <= k < |r| && r[k] == v;
      assert ids[k] in ids;
    }
  }

  class Store {
    const db: Db
    const wires: Wires
    var spaces: map<string, SpaceRecord>
    var rooms: map<string, RoomRecord>

    constructor (db: Db, wires: Wires)
      ensures this.db == db && this.wires == wires && spaces == map[] && rooms == map[]
    {
      this.db, this.wires := db, wires;
      spaces, rooms := map[], map[];
    }

    function View(): Cat
      reads this, db
    {
      Cat(db.data, spaces, rooms)
    }

    /** The session is initialized before the catalog is built and shut down after it is gone. */
    ghost predicate Ready()
      reads this, db
    {
      db.Valid() && db.running
    }

    /** readable says which keys can be read; what cannot, or does not parse, is skipped. */
    method LoadFromStore(readable: string -> bool)
      requires Ready()
      modifies this
      ensures View() == Reload(wires, Visible(db.data, readable)).(store := db.data)
    {
      ghost var seen := Visible(db.data, readable);
      spaces, rooms := map[], map[];
      var bytes := db.Get(MANIFEST_KEY, readable(MANIFEST_KEY));
      if bytes.None? {
        return;
      }
      var parsed := wires.manifest.decode(bytes.value);
      if parsed.None? {
        return;
      }
      var m := parsed.value;
      for i := 0 to |m.spaceIds|
        invariant Ready() && rooms == map[] && spaces == LoadSpaces(wires, seen, m.spaceIds[..i])
      {
        assert m.spaceIds[..i + 1][..i] == m.spaceIds[..i];
        var key := SPACES_PREFIX + m.spaceIds[i];
        var record := db.Get(key, readable(key));
        if record.Some? {
          var space := wires.space.decode(record.value);
          if space.Some? && space.value.id !in spaces {
            spaces := spaces[space.value.id := space.value];
          }
        }
      }
      assert m.spaceIds[..|m.spaceIds|] == m.spaceIds;
      for i := 0 to |m.roomIds|
        invariant Ready() && spaces == LoadSpaces(wires, seen, m.spaceIds)
        invariant rooms == LoadRooms(wires, seen, m.roomIds[..i])
      {
        assert m.roomIds[..i + 1][..i] == m.roomIds[..i];
        var key := ROOMS_PREFIX + m.roomIds[i];
        var record := db.Get(key, readable(key));
        if record.Some? {
          var room := wires.room.decode(record.value);
          if room.Some? && room.value.id !in rooms {
            rooms := rooms[room.value.id := room.value];
          }
        }
      }
      assert m.roomIds[..|m.roomIds|] == m.roomIds;
    }

    method AppendToManifest(isSpace: bool, id: string, readable: bool, accepted: bool) returns (ok: bool)
      requires Ready()
      modifies db`data
      ensures Ready() && ok == accepted
      ensures db.data == if ok then
                old(db.data)[MANIFEST_KEY := wires.manifest.encode(Union(wires, old(db.data), readable, isSpace, id))]
              else old(db.data)
    {
      var manifest := Manifest([], []);
      var bytes := db.Get(MANIFEST_KEY, readable);
      if bytes.Some? {
        var parsed := wires.manifest.decode(bytes.value);
        if parsed.Some? {
          manifest := parsed.value;
        }
      }
      var ids := if isSpace then manifest.spaceIds else manifest.roomIds;
      if id !in ids {
        if isSpace {
          manifest := manifest.(spaceIds := manifest.spaceIds + [id]);
        } else {
          manifest := manifest.(roomIds := manifest.roomIds + [id]);
        }
      }
      ok := db.Put(MANIFEST_KEY, wires.manifest.encode(manifest), accepted);
    }

    /** id and nowMs are what NextEntityId and the clock return; io is how the store answers. */
    method CreateSpace(name: string, isPublic: bool, autoJoin: bool, id: string, nowMs: int, io: Io)
      returns (r: Result<SpaceRecord>)
      requires Ready()
      modifies this, db`data
      ensures Ready()
      ensures r == if io.manifestOk && io.recordOk
                   then Success(SpaceRecord(id, name, isPublic, autoJoin, nowMs, nowMs, false, 0)) else Failure
      ensures View() == Catalog.CreateSpace(wires, old(View()),
                                            SpaceRecord(id, name, isPublic, autoJoin, nowMs, nowMs, false, 0), io)
      ensures rooms == old(rooms)
      ensures r.Failure? ==>
                spaces == old(spaces) && forall k | k != MANIFEST_KEY ::
                  (k in db.data <==> k in old(db.data)) && (k in db.data ==> db.data[k] == old(db.data)[k])
      ensures r.Success? ==>
                && spaces == (if id in old(spaces) then old(spaces) else old(spaces)[id := r.value])
                && db.data == old(db.data)[MANIFEST_KEY := wires.manifest.encode(
                                Union(wires, old(db.data), io.readable, true, id))]
                              ["gcs/entities/spaces/" + id := wires.space.encode(r.value)]
    {
      var record := SpaceRecord(id, name, isPublic, autoJoin, nowMs, nowMs, false, 0);
      var listed := AppendToManifest(true, id, io.readable, io.manifestOk);
      if !listed {
        return Failure;
      }
      var written := db.Put(SPACES_PREFIX + id, wires.space.encode(record), io.recordOk);
      if !written {
        return Failure;
      }
      if id !in spaces {
        spaces := spaces[id := record];
      }
      return Success(record);
    }

    method IsValidParentSpace(id: string) returns (ok: bool)
      ensures ok == ValidParent(spaces, id)
    {
      ok := id in spaces && !spaces[id].deleted;
    }

    method CreateRoom(name: string, parent: string, id: string, nowMs: int, io: Io) returns (r: Result<RoomRecord>)
      requires Ready()
      modifies this, db`data
      ensures Ready()
      ensures r == if ParentAccepted(old(View()), RoomRecord(id, name, parent, nowMs, nowMs, false, 0))
                      && io.manifestOk && io.recordOk
                   then Success(RoomRecord(id, name, parent, nowMs, nowMs, false, 0)) else Failure
      ensures View() == Catalog.CreateRoom(wires, old(View()), RoomRecord(id, name, parent, nowMs, nowMs, false, 0), io)
      ensures spaces == old(spaces)
      ensures r.Failure? ==>
                rooms == old(rooms) && forall k | k != MANIFEST_KEY ::
                  (k in db.data <==> k in old(db.data)) && (k in db.data ==> db.data[k] == old(db.data)[k])
      ensures r.Success? ==>
                && rooms == (if id in old(rooms) then old(rooms) else old(rooms)[id := r.value])
                && db.data == old(db.data)[MANIFEST_KEY := wires.manifest.encode(
                                Union(wires, old(db.data), io.readable, false, id))]
                              ["gcs/entities/rooms/" + id := wires.room.encode(r.value)]
    {
      var valid := IsValidParentSpace(parent);
      if parent != "" && !valid {
        return Failure;
      }
      var record := RoomRecord(id, name, parent, nowMs, nowMs, false, 0);
      var listed := AppendToManifest(false, id, io.readable, io.manifestOk);
      if !listed {
        return Failure;
      }
      var written := db.Put(ROOMS_PREFIX + id, wires.room.encode(record), io.recordOk);
      if !written {
        return Failure;
      }
      if id !in rooms {
        rooms := rooms[id := record];
      }
      return Success(record);
    }

    method UpdateSpace(desired: SpaceRecord, nowMs: int, accepted: bool) returns (r: Result<SpaceRecord>)
      requires Ready()
      modifies this, db`data
      ensures Ready()
      ensures r.Success? <==> desired.id in old(spaces) && !old(spaces)[desired.id].deleted && accepted
      ensures r.Success? ==>
                var was := old(spaces)[desired.id];
                r.value == SpaceRecord(id := desired.id, name := desired.name, isPublic := desired.isPublic,
                                       autoJoinRooms := desired.autoJoinRooms, createdAtMs := was.createdAtMs,
                                       updatedAtMs := nowMs, deleted := was.deleted, deletedAtMs := was.deletedAtMs)
      ensures r.Success? ==> spaces == old(spaces)[desired.id := r.value] && rooms == old(rooms)
      ensures r.Success? ==>
                db.data == old(db.data)["gcs/entities/spaces/" + desired.id := wires.space.encode(r.value)]
      ensures r.Failure? ==> View() == old(View())
      ensures View() == Catalog.UpdateSpace(wires, old(View()), desired, nowMs, accepted)
    {
      if desired.id !in spaces || spaces[desired.id].deleted {
        return Failure;
      }
      var existing := spaces[desired.id];
      var updated := desired;
      updated := updated.(createdAtMs := existing.createdAtMs);
      updated := updated.(deleted := existing.deleted);
      updated := updated.(deletedAtMs := existing.deletedAtMs);
      updated := updated.(updatedAtMs := nowMs);
      var written := db.Put(SPACES_PREFIX + updated.id, wires.space.encode(updated), accepted);
      if !written {
        return Failure;
      }
      spaces := spaces[updated.id := updated];
      return Success(updated);
    }

    /** The living spaces, once each, by ascending key. */
    method Spaces() returns (r: seq<SpaceRecord>)
      ensures ListsLiving(r, spaces, (s: SpaceRecord) => s.deleted)
    {
      r := [];
      var ids := Order.Keys(spaces.Keys);
      ghost var picked: seq<string> := [];
      for i := 0 to |ids|
        invariant |picked| == |r| && forall k | 0 <= k < |r| :: picked[k] in spaces && r[k] == spaces[picked[k]]
        invariant Order.Ascending(picked) && forall k | 0 <= k < |picked| :: picked[k] in ids[..i]
        invariant forall id :: id in picked <==> id in ids[..i] && !spaces[id].deleted
      {
        assert ids[..i + 1] == ids[..i] + [ids[i]];
        var space := spaces[ids[i]];
        if !space.deleted {
          r := r + [space];
          picked := picked + [ids[i]];
        }
      }
      assert ids[..|ids|] == ids;
      assert Picks(r, spaces, (s: SpaceRecord) => s.deleted, picked);
    }

    method Rooms() returns (r: seq<RoomRecord>)
      ensures ListsLiving(r, rooms, (m: RoomRecord) => m.deleted)
    {
      r := [];
      var ids := Order.Keys(rooms.Keys);
      ghost var picked: seq<string> := [];
      for i := 0 to |ids|
        invariant |picked| == |r| && forall k | 0 <= k < |r| :: picked[k] in rooms && r[k] == rooms[picked[k]]
        invariant Order.Ascending(picked) && forall k | 0 <= k < |picked| :: picked[k] in ids[..i]
        invariant forall id :: id in picked <==> id in ids[..i] && !rooms[id].deleted
      {
        assert ids[..i + 1] == ids[..i] + [ids[i]];
        var room := rooms[ids[i]];
        if !room.deleted {
          r := r + [room];
          picked := picked + [ids[i]];
        }
      }
      assert ids[..|ids|] == ids;
      assert Picks(r, rooms, (m: RoomRecord) => m.deleted, picked);
    }

    lemma TopicUnseen(ids: seq<string>, i: nat, topics: seq<string>)
      requires i < |ids| && Order.Ascending(ids)
      requires forall t :: t in topics ==> exists k :: 0 <= k < i && t == TopicOf(ids[k])
      ensures TopicOf(ids[i]) !in topics
    {
      if TopicOf(ids[i]) in topics {
        var k :| 0 <= k < i && TopicOf(ids[i]) == TopicOf(ids[k]);
        assert TopicOf(ids[i])[|ROOM_NAMESPACE|..] == ids[i] && TopicOf(ids[k])[|ROOM_NAMESPACE|..] == ids[k];
        Order.Irreflexive(ids[i]);
      }
    }

    lemma TopicsOfAll(living: seq<RoomRecord>, ids: seq<string>, topics: seq<string>)
      requires Picks(living, rooms, (m: RoomRecord) => m.deleted, ids)
      requires forall t :: t in topics <==>
                 exists k :: 0 <= k < |ids| && Derives(View(), ids[k]) && t == TopicOf(ids[k])
      ensures forall t :: t in topics <==> exists id :: Derives(View(), id) && t == TopicOf(id)
      ensures forall id | id in rooms :: TopicOf(id) in topics <==> Derives(View(), id)
    {
      forall t ensures t in topics <==> exists id :: Derives(View(), id) && t == TopicOf(id) {
        if id :| Derives(View(), id) && t == TopicOf(id) {
          assert id in ids;
        }
      }
      forall id | id in rooms ensures TopicOf(id) in topics <==> Derives(View(), id) {
        if other :| Derives(View(), other) && TopicOf(id) == TopicOf(other) {
          assert TopicOf(id)[|ROOM_NAMESPACE|..] == id && TopicOf(other)[|ROOM_NAMESPACE|..] == other;
        }
      }
    }

    /** The room's space is known, alive and auto-joining. */
    method JoinsWithSpace(room: RoomRecord) returns (joins: bool)
      ensures joins <==> room.parentSpaceId != "" && ValidParent(spaces, room.parentSpaceId)
                         && spaces[room.parentSpaceId].autoJoinRooms
    {
      if room.parentSpaceId == "" || room.parentSpaceId !in spaces {
        return false;
      }
      var parent := spaces[room.parentSpaceId];
      return !parent.deleted && parent.autoJoinRooms;
    }

    /** Each derived topic once; a room's record is filed under its own id. */
    method DerivedJoinedTopics() returns (topics: seq<string>)
      requires forall id | id in rooms :: rooms[id].id == id
      ensures forall t :: t in topics <==> exists id :: Derives(View(), id) && t == TopicOf(id)
      ensures forall id | id in rooms ::
                "gcs/chat/" + id in topics <==>
                  && !rooms[id].deleted && rooms[id].parentSpaceId != "" && rooms[id].parentSpaceId in spaces
                  && !spaces[rooms[id].parentSpaceId].deleted && spaces[rooms[id].parentSpaceId].autoJoinRooms
      ensures NoRepeats(topics)
    {
      topics := [];
      var living := Rooms();
      ghost var ids: seq<string> :| Picks(living, rooms, (m: RoomRecord) => m.deleted, ids);
      for i := 0 to |living|
        invariant forall t :: t in topics <==> exists k :: 0 <= k < i && Derives(View(), ids[k]) && t == TopicOf(ids[k])
        invariant NoRepeats(topics)
      {
        var room := living[i];
        assert room == rooms[ids[i]] && room.id == ids[i];
        ghost var before := topics;
        var joins := JoinsWithSpace(room);
        assert joins <==> Derives(View(), ids[i]);
        if joins {
          TopicUnseen(ids, i, topics);
          topics := topics + [ROOM_NAMESPACE + room.id];
        }
        assert topics == if joins then before + [TopicOf(ids[i])] else before;
      }
      TopicsOfAll(living, ids, topics);
    }
  }
}
