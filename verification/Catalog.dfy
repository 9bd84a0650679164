/** The entity catalog as values: the store, the two cached maps, and every call's effect on them. */
module Catalog {
  import opened Basics
  import opened Records

  const MANIFEST_KEY := "gcs/index/manifest"
  const SPACES_PREFIX := "gcs/entities/spaces/"
  const ROOMS_PREFIX := "gcs/entities/rooms/"

  type Store = map<string, Bytes>

  datatype Wires = Wires(manifest: Wire<Manifest>, space: Wire<SpaceRecord>, room: Wire<RoomRecord>)

  ghost predicate WiresLawful(w: Wires) {
    Lawful(w.manifest) && Lawful(w.space) && Lawful(w.room)
  }

  function SpaceKey(id: string): string { SPACES_PREFIX + id }
  function RoomKey(id: string): string { ROOMS_PREFIX + id }

  lemma KeysApart(a: string, b: string)
    ensures SpaceKey(a) != MANIFEST_KEY && RoomKey(a) != MANIFEST_KEY && SpaceKey(a) != RoomKey(b)
    ensures SpaceKey(a) == SpaceKey(b) <==> a == b
    ensures RoomKey(a) == RoomKey(b) <==> a == b
  {
    assert SpaceKey(a)[4] == RoomKey(a)[4] == 'e' && MANIFEST_KEY[4] == 'i';
    assert SpaceKey(a)[13] == 's' && RoomKey(b)[13] == 'r';
    assert SpaceKey(a)[|SPACES_PREFIX|..] == a && SpaceKey(b)[|SPACES_PREFIX|..] == b;
    assert RoomKey(a)[|ROOMS_PREFIX|..] == a && RoomKey(b)[|ROOMS_PREFIX|..] == b;
  }

  // ---- what the store says -----------------------------------------------------------------

  /** Absent and unparseable manifest bytes both read as an empty catalog. */
  function ReadManifest(w: Wires, store: Store): Manifest {
    if MANIFEST_KEY !in store then Manifest([], [])
    else w.manifest.decode(store[MANIFEST_KEY]).GetOr(Manifest([], []))
  }

  function ReadSpace(w: Wires, store: Store, id: string): Option<SpaceRecord> {
    if SpaceKey(id) in store then w.space.decode(store[SpaceKey(id)]) else None
  }

  function ReadRoom(w: Wires, store: Store, id: string): Option<RoomRecord> {
    if RoomKey(id) in store then w.room.decode(store[RoomKey(id)]) else None
  }

  /** std::map::emplace: an id already present keeps its record. */
  function Emplace<T>(m: map<string, T>, id: string, v: T): map<string, T> {
    if id in m then m else m[id := v]
  }

  /** The loop of LoadFromStore over the first ids of the manifest. */
  function LoadSpaces(w: Wires, store: Store, ids: seq<string>): map<string, SpaceRecord> {
    if ids == [] then map[]
    else
      var m := LoadSpaces(w, store, ids[..|ids| - 1]);
      match ReadSpace(w, store, ids[|ids| - 1])
      case None => m
      case Some(r) => Emplace(m, r.id, r)
  }

  function LoadRooms(w: Wires, store: Store, ids: seq<string>): map<string, RoomRecord> {
    if ids == [] then map[]
    else
      var m := LoadRooms(w, store, ids[..|ids| - 1]);
      match ReadRoom(w, store, ids[|ids| - 1])
      case None => m
      case Some(r) => Emplace(m, r.id, r)
  }

  /** A catalog: the store and the cache over it. */
  datatype Cat = Cat(store: Store, spaces: map<string, SpaceRecord>, rooms: map<string, RoomRecord>)

  /** What a fresh LoadFromStore rebuilds. */
  function Reload(w: Wires, store: Store): Cat {
    var m := ReadManifest(w, store);
    Cat(store, LoadSpaces(w, store, m.spaceIds), LoadRooms(w, store, m.roomIds))
  }

  /** The part of the store whose reads succeed. */
  function Visible(store: Store, readable: string -> bool): Store {
    map k | k in store && readable(k) :: store[k]
  }

  // ---- the calls -------------------------------------------------------------------------

  predicate ValidParent(spaces: map<string, SpaceRecord>, id: string) {
    id in spaces && !spaces[id].deleted
  }

  function Listed(ids: seq<string>, id: string): seq<string> {
    if id in ids then ids else ids + [id]
  }

  /** How the store answered one call: the manifest read, the manifest write, the record write. */
  datatype Io = Io(readable: bool, manifestOk: bool, recordOk: bool)

  /** AppendToManifest's union; a failed read starts from an empty manifest. */
  function Union(w: Wires, store: Store, readable: bool, isSpace: bool, id: string): Manifest {
    var m := if readable then ReadManifest(w, store) else Manifest([], []);
    if isSpace then m.(spaceIds := Listed(m.spaceIds, id)) else m.(roomIds := Listed(m.roomIds, id))
  }

  function CreateSpace(w: Wires, c: Cat, r: SpaceRecord, io: Io): Cat {
    var s1 := c.store[MANIFEST_KEY := w.manifest.encode(Union(w, c.store, io.readable, true, r.id))];
    if !io.manifestOk then c
    else if !io.recordOk then c.(store := s1)
    else c.(store := s1[SpaceKey(r.id) := w.space.encode(r)], spaces := Emplace(c.spaces, r.id, r))
  }

  predicate ParentAccepted(c: Cat, r: RoomRecord) {
    r.parentSpaceId == "" || ValidParent(c.spaces, r.parentSpaceId)
  }

  function CreateRoom(w: Wires, c: Cat, r: RoomRecord, io: Io): Cat {
    var s1 := c.store[MANIFEST_KEY := w.manifest.encode(Union(w, c.store, io.readable, false, r.id))];
    if !ParentAccepted(c, r) || !io.manifestOk then c
    else if !io.recordOk then c.(store := s1)
    else c.(store := s1[RoomKey(r.id) := w.room.encode(r)], rooms := Emplace(c.rooms, r.id, r))
  }

  /** The record UpdateSpace writes: the caller's, with creation stamp and tombstone of the stored one. */
  function Updated(was: SpaceRecord, desired: SpaceRecord, nowMs: int): SpaceRecord {
    desired.(createdAtMs := was.createdAtMs, deleted := was.deleted, deletedAtMs := was.deletedAtMs,
             updatedAtMs := nowMs)
  }

  function UpdateSpace(w: Wires, c: Cat, desired: SpaceRecord, nowMs: int, ok: bool): Cat {
    if !ValidParent(c.spaces, desired.id) || !ok then c
    else
      var r := Updated(c.spaces[desired.id], desired, nowMs);
      c.(store := c.store[SpaceKey(r.id) := w.space.encode(r)], spaces := c.spaces[r.id := r])
  }

  datatype Op =
    | NewSpace(space: SpaceRecord, io: Io)
    | NewRoom(room: RoomRecord, io: Io)
    | SetSpace(desired: SpaceRecord, nowMs: int, ok: bool)

  function Apply(w: Wires, c: Cat, op: Op): Cat {
    match op
    case NewSpace(r, io) => CreateSpace(w, c, r, io)
    case NewRoom(r, io) => CreateRoom(w, c, r, io)
    case SetSpace(d, now, ok) => UpdateSpace(w, c, d, now, ok)
  }

  function ApplyAll(w: Wires, c: Cat, ops: seq<Op>): Cat
    decreases |ops|
  {
    if ops == [] then c else ApplyAll(w, Apply(w, c, ops[0]), ops[1..])
  }

  // ---- what a reload keeps, and what a run does to one space ------------------------------------------

  /** The record listed at i reads, parses and claims id. */
  predicate ClaimsSpace(w: Wires, store: Store, ids: seq<string>, id: string, i: nat) {
    i < |ids| && ReadSpace(w, store, ids[i]).Some? && ReadSpace(w, store, ids[i]).value.id == id
  }

  ghost predicate FirstSpace(w: Wires, store: Store, ids: seq<string>, id: string, i: nat) {
    ClaimsSpace(w, store, ids, id, i) && forall j: nat | j < i :: !ClaimsSpace(w, store, ids, id, j)
  }

  lemma {:induction false} HasFirstSpace(w: Wires, store: Store, ids: seq<string>, id: string, i: nat)
    requires ClaimsSpace(w, store, ids, id, i)
    ensures exists j: nat :: j <= i && FirstSpace(w, store, ids, id, j)
  {
    if j: nat :| j < i && ClaimsSpace(w, store, ids, id, j) {
      HasFirstSpace(w, store, ids, id, j);
    } else {
      assert FirstSpace(w, store, ids, id, i);
    }
  }

  /** A reload keeps, for every id, the first listed record that reads, parses and claims it. */
  lemma {:induction false} FirstSpaceWins(w: Wires, store: Store, ids: seq<string>, id: string)
    ensures id in LoadSpaces(w, store, ids) <==> exists i: nat :: FirstSpace(w, store, ids, id, i)
    ensures forall i: nat | FirstSpace(w, store, ids, id, i) ::
              ReadSpace(w, store, ids[i]) == Some(LoadSpaces(w, store, ids)[id])
  {
    if ids != [] {
      var n := |ids| - 1;
      FirstSpaceWins(w, store, ids[..n], id);
      forall i: nat | i < n ensures FirstSpace(w, store, ids, id, i) <==> FirstSpace(w, store, ids[..n], id, i) {
        assert forall j: nat | j <= i :: ClaimsSpace(w, store, ids[..n], id, j) <==> ClaimsSpace(w, store, ids, id, j);
      }
      if ClaimsSpace(w, store, ids, id, n) {
        HasFirstSpace(w, store, ids, id, n);
      }
    }
  }

  predicate ClaimsRoom(w: Wires, store: Store, ids: seq<string>, id: string, i: nat) {
    i < |ids| && ReadRoom(w, store, ids[i]).Some? && ReadRoom(w, store, ids[i]).value.id == id
  }

  ghost predicate FirstRoom(w: Wires, store: Store, ids: seq<string>, id: string, i: nat) {
    ClaimsRoom(w, store, ids, id, i) && forall j: nat | j < i :: !ClaimsRoom(w, store, ids, id, j)
  }

  lemma {:induction false} HasFirstRoom(w: Wires, store: Store, ids: seq<string>, id: string, i: nat)
    requires ClaimsRoom(w, store, ids, id, i)
    ensures exists j: nat :: j <= i && FirstRoom(w, store, ids, id, j)
  {
    if j: nat :| j < i && ClaimsRoom(w, store, ids, id, j) {
      HasFirstRoom(w, store, ids, id, j);
    } else {
      assert FirstRoom(w, store, ids, id, i);
    }
  }

  lemma {:induction false} FirstRoomWins(w: Wires, store: Store, ids: seq<string>, id: string)
    ensures id in LoadRooms(w, store, ids) <==> exists i: nat :: FirstRoom(w, store, ids, id, i)
    ensures forall i: nat | FirstRoom(w, store, ids, id, i) ::
              ReadRoom(w, store, ids[i]) == Some(LoadRooms(w, store, ids)[id])
  {
    if ids != [] {
      var n := |ids| - 1;
      FirstRoomWins(w, store, ids[..n], id);
      forall i: nat | i < n ensures FirstRoom(w, store, ids, id, i) <==> FirstRoom(w, store, ids[..n], id, i) {
        assert forall j: nat | j <= i :: ClaimsRoom(w, store, ids[..n], id, j) <==> ClaimsRoom(w, store, ids, id, j);
      }
      if ClaimsRoom(w, store, ids, id, n) {
        HasFirstRoom(w, store, ids, id, n);
      }
    }
  }

  /** An update of id that the store took. */
  predicate Updates(op: Op, id: string) {
    op.SetSpace? && op.ok && op.desired.id == id
  }

  predicate LastUpdate(ops: seq<Op>, id: string, i: nat) {
    i < |ops| && Updates(ops[i], id) && forall j | i < j < |ops| :: !Updates(ops[j], id)
  }

  lemma {:induction false} HasLastUpdate(ops: seq<Op>, id: string, i: nat)
    requires i < |ops| && Updates(ops[i], id)
    ensures exists j: nat :: LastUpdate(ops, id, j)
    decreases |ops| - i
  {
    if j :| i < j < |ops| && Updates(ops[j], id) {
      HasLastUpdate(ops, id, j);
    } else {
      assert LastUpdate(ops, id, i);
    }
  }

  lemma LastUpdateShifts(ops: seq<Op>, id: string)
    requires ops != []
    ensures forall i: nat :: LastUpdate(ops[1..], id, i) <==> LastUpdate(ops, id, i + 1)
    ensures LastUpdate(ops, id, 0) <==> Updates(ops[0], id) && forall i: nat :: !LastUpdate(ops[1..], id, i)
  {
    var rest := ops[1..];
    if Updates(ops[0], id) && !LastUpdate(ops, id, 0) {
      var j :| 0 < j < |ops| && Updates(ops[j], id);
      HasLastUpdate(rest, id, j - 1);
    }
  }

  /** Whatever the calls, a space in the catalog keeps its creation stamp and its tombstone, no update
      touches a deleted one, and on a living one the last update the store took decides the rest. */
  lemma {:induction false} SpaceAfterRun(w: Wires, c: Cat, ops: seq<Op>, id: string)
    requires id in c.spaces
    ensures id in ApplyAll(w, c, ops).spaces
    ensures var was, now := c.spaces[id], ApplyAll(w, c, ops).spaces[id];
            && now.createdAtMs == was.createdAtMs
            && now.deleted == was.deleted && now.deletedAtMs == was.deletedAtMs
            && (was.deleted || (forall i: nat :: !LastUpdate(ops, id, i)) ==> now == was)
            && forall i: nat | LastUpdate(ops, id, i) && !was.deleted ::
                 && now.id == id && now.updatedAtMs == ops[i].nowMs && now.name == ops[i].desired.name
                 && now.isPublic == ops[i].desired.isPublic && now.autoJoinRooms == ops[i].desired.autoJoinRooms
    decreases |ops|
  {
    if ops != [] {
      SpaceAfterRun(w, Apply(w, c, ops[0]), ops[1..], id);
      LastUpdateShifts(ops, id);
    }
  }

  // ---- write-through -------------------------------------------------------------------------

  /** Every listed record carries the id it is stored under. */
  ghost predicate Keyed(w: Wires, store: Store) {
    && (forall id | id in ReadManifest(w, store).spaceIds && ReadSpace(w, store, id).Some? ::
          ReadSpace(w, store, id).value.id == id)
    && (forall id | id in ReadManifest(w, store).roomIds && ReadRoom(w, store, id).Some? ::
          ReadRoom(w, store, id).value.id == id)
  }

  /** The cache is what a reload would rebuild. */
  ghost predicate Refines(w: Wires, c: Cat) {
    Keyed(w, c.store) && c == Reload(w, c.store)
  }

  lemma {:induction false} SpacesLoaded(w: Wires, store: Store, ids: seq<string>)
    requires forall id | id in ids && ReadSpace(w, store, id).Some? :: ReadSpace(w, store, id).value.id == id
    ensures forall id :: id in LoadSpaces(w, store, ids) <==> id in ids && ReadSpace(w, store, id).Some?
    ensures forall id | id in LoadSpaces(w, store, ids) ::
              ReadSpace(w, store, id) == Some(LoadSpaces(w, store, ids)[id])
  {
    if ids != [] {
      var front, last := ids[..|ids| - 1], ids[|ids| - 1];
      assert ids == front + [last];
      SpacesLoaded(w, store, front);
    }
  }

  lemma {:induction false} RoomsLoaded(w: Wires, store: Store, ids: seq<string>)
    requires forall id | id in ids && ReadRoom(w, store, id).Some? :: ReadRoom(w, store, id).value.id == id
    ensures forall id :: id in LoadRooms(w, store, ids) <==> id in ids && ReadRoom(w, store, id).Some?
    ensures forall id | id in LoadRooms(w, store, ids) ::
              ReadRoom(w, store, id) == Some(LoadRooms(w, store, ids)[id])
  {
    if ids != [] {
      var front, last := ids[..|ids| - 1], ids[|ids| - 1];
      assert ids == front + [last];
      RoomsLoaded(w, store, front);
    }
  }

  /** Refinement, pointwise: both maps hold exactly the listed records that read back. */
  ghost predicate Mirrors(w: Wires, c: Cat) {
    var m := ReadManifest(w, c.store);
    && (forall id :: id in c.spaces <==> id in m.spaceIds && ReadSpace(w, c.store, id).Some?)
    && (forall id | id in c.spaces :: ReadSpace(w, c.store, id) == Some(c.spaces[id]))
    && (forall id :: id in c.rooms <==> id in m.roomIds && ReadRoom(w, c.store, id).Some?)
    && (forall id | id in c.rooms :: ReadRoom(w, c.store, id) == Some(c.rooms[id]))
  }

  lemma RefinesIffMirrors(w: Wires, c: Cat)
    requires Keyed(w, c.store)
    ensures Refines(w, c) <==> Mirrors(w, c)
  {
    SpacesLoaded(w, c.store, ReadManifest(w, c.store).spaceIds);
    RoomsLoaded(w, c.store, ReadManifest(w, c.store).roomIds);
    if Mirrors(w, c) {
      var l := Reload(w, c.store);
      assert c.spaces == l.spaces;
      assert c.rooms == l.rooms;
    }
  }

  /** The minted id is new to store and cache. */
  ghost predicate Fresh(w: Wires, c: Cat, op: Op) {
    match op
    case NewSpace(r, _) => r.id !in ReadManifest(w, c.store).spaceIds && SpaceKey(r.id) !in c.store && r.id !in c.spaces
    case NewRoom(r, _) => r.id !in ReadManifest(w, c.store).roomIds && RoomKey(r.id) !in c.store && r.id !in c.rooms
    case SetSpace(_, _, _) => true
  }

  lemma ReadsAfter(w: Wires, store: Store, m: Manifest)
    requires WiresLawful(w)
    ensures var s := store[MANIFEST_KEY := w.manifest.encode(m)];
            && ReadManifest(w, s) == m
            && (forall id :: ReadSpace(w, s, id) == ReadSpace(w, store, id))
            && (forall id :: ReadRoom(w, s, id) == ReadRoom(w, store, id))
  {
    forall id ensures SpaceKey(id) != MANIFEST_KEY && RoomKey(id) != MANIFEST_KEY {
      KeysApart(id, id);
    }
  }

  lemma ReadsAfterSpace(w: Wires, store: Store, r: SpaceRecord)
    requires WiresLawful(w)
    ensures var s := store[SpaceKey(r.id) := w.space.encode(r)];
            && ReadManifest(w, s) == ReadManifest(w, store)
            && (forall id :: ReadSpace(w, s, id) == if id == r.id then Some(r) else ReadSpace(w, store, id))
            && (forall id :: ReadRoom(w, s, id) == ReadRoom(w, store, id))
  {
    forall id ensures RoomKey(id) != SpaceKey(r.id) && (SpaceKey(id) == SpaceKey(r.id) <==> id == r.id) {
      KeysApart(r.id, id);
    }
  }

  lemma ReadsAfterRoom(w: Wires, store: Store, r: RoomRecord)
    requires WiresLawful(w)
    ensures var s := store[RoomKey(r.id) := w.room.encode(r)];
            && ReadManifest(w, s) == ReadManifest(w, store)
            && (forall id :: ReadRoom(w, s, id) == if id == r.id then Some(r) else ReadRoom(w, store, id))
            && (forall id :: ReadSpace(w, s, id) == ReadSpace(w, store, id))
  {
    forall id ensures SpaceKey(id) != RoomKey(r.id) && (RoomKey(id) == RoomKey(r.id) <==> id == r.id) {
      KeysApart(id, r.id);
    }
    KeysApart(r.id, r.id);
  }

  lemma CreateSpaceRefines(w: Wires, c: Cat, r: SpaceRecord, io: Io)
    requires WiresLawful(w) && Refines(w, c) && Fresh(w, c, NewSpace(r, io)) && io.readable
    ensures Refines(w, CreateSpace(w, c, r, io))
  {
    var m := Union(w, c.store, true, true, r.id);
    var s1 := c.store[MANIFEST_KEY := w.manifest.encode(m)];
    RefinesIffMirrors(w, c);
    ReadsAfter(w, c.store, m);
    ReadsAfterSpace(w, s1, r);
    var c' := CreateSpace(w, c, r, io);
    assert Keyed(w, c'.store) && Mirrors(w, c');
    RefinesIffMirrors(w, c');
  }

  lemma CreateRoomRefines(w: Wires, c: Cat, r: RoomRecord, io: Io)
    requires WiresLawful(w) && Refines(w, c) && Fresh(w, c, NewRoom(r, io)) && io.readable
    ensures Refines(w, CreateRoom(w, c, r, io))
  {
    var m := Union(w, c.store, true, false, r.id);
    var s1 := c.store[MANIFEST_KEY := w.manifest.encode(m)];
    RefinesIffMirrors(w, c);
    ReadsAfter(w, c.store, m);
    ReadsAfterRoom(w, s1, r);
    var c' := CreateRoom(w, c, r, io);
    assert Keyed(w, c'.store) && Mirrors(w, c');
    RefinesIffMirrors(w, c');
  }

  lemma UpdateSpaceRefines(w: Wires, c: Cat, desired: SpaceRecord, nowMs: int, ok: bool)
    requires WiresLawful(w) && Refines(w, c)
    ensures Refines(w, UpdateSpace(w, c, desired, nowMs, ok))
  {
    if ValidParent(c.spaces, desired.id) && ok {
      RefinesIffMirrors(w, c);
      ReadsAfterSpace(w, c.store, Updated(c.spaces[desired.id], desired, nowMs));
      var c' := UpdateSpace(w, c, desired, nowMs, ok);
      assert Keyed(w, c'.store) && Mirrors(w, c');
      RefinesIffMirrors(w, c');
    }
  }

  ghost predicate FreshRun(w: Wires, c: Cat, ops: seq<Op>)
    decreases |ops|
  {
    ops != [] ==> Fresh(w, c, ops[0]) && FreshRun(w, Apply(w, c, ops[0]), ops[1..])
  }

  // ---- a manifest read that fails though the manifest is there -----------------------------------

  /** The call writes a manifest that starts from nothing. */
  predicate Overwrites(c: Cat, op: Op) {
    match op
    case NewSpace(_, io) => !io.readable && io.manifestOk
    case NewRoom(r, io) => ParentAccepted(c, r) && !io.readable && io.manifestOk
    case SetSpace(_, _, _) => false
  }

  predicate LosesIndex(c: Cat, op: Op) {
    Overwrites(c, op) && (c.spaces != map[] || c.rooms != map[])
  }

  /** The cache holds an entity the manifest does not list. */
  ghost predicate Unlisted(w: Wires, c: Cat) {
    || (exists id :: id in c.spaces && id !in ReadManifest(w, c.store).spaceIds)
    || (exists id :: id in c.rooms && id !in ReadManifest(w, c.store).roomIds)
  }

  lemma EmptyOrNot<T>(m: map<string, T>)
    ensures m == map[] <==> forall id :: id !in m
  {}

  lemma UnlistedDiffers(w: Wires, c: Cat)
    requires Keyed(w, c.store) && Unlisted(w, c)
    ensures c != Reload(w, c.store)
  {
    SpacesLoaded(w, c.store, ReadManifest(w, c.store).spaceIds);
    RoomsLoaded(w, c.store, ReadManifest(w, c.store).roomIds);
  }

  /** A manifest of new ids alone lists nothing the cache held. */
  lemma AllUnlisted(w: Wires, c: Cat, c': Cat)
    requires Refines(w, c) && c.spaces.Keys <= c'.spaces.Keys && c.rooms.Keys <= c'.rooms.Keys
    requires forall id | id in ReadManifest(w, c'.store).spaceIds :: id !in ReadManifest(w, c.store).spaceIds
    requires forall id | id in ReadManifest(w, c'.store).roomIds :: id !in ReadManifest(w, c.store).roomIds
    ensures c.spaces != map[] || c.rooms != map[] ==> Unlisted(w, c')
  {
    if id :| id in c.spaces {
      SpacesLoaded(w, c.store, ReadManifest(w, c.store).spaceIds);
      assert id in c'.spaces && id !in ReadManifest(w, c'.store).spaceIds;
    } else if id :| id in c.rooms {
      RoomsLoaded(w, c.store, ReadManifest(w, c.store).roomIds);
      assert id in c'.rooms && id !in ReadManifest(w, c'.store).roomIds;
    } else {
      EmptyOrNot(c.spaces);
      EmptyOrNot(c.rooms);
    }
  }

  lemma SpaceUnlists(w: Wires, c: Cat, r: SpaceRecord, io: Io)
    requires WiresLawful(w) && Refines(w, c) && Fresh(w, c, NewSpace(r, io)) && Overwrites(c, NewSpace(r, io))
    ensures Keyed(w, CreateSpace(w, c, r, io).store)
    ensures c.spaces != map[] || c.rooms != map[] ==> Unlisted(w, CreateSpace(w, c, r, io))
  {
    var m := Manifest([r.id], []);
    assert Listed([], r.id) == [r.id];
    ReadsAfter(w, c.store, m);
    ReadsAfterSpace(w, c.store[MANIFEST_KEY := w.manifest.encode(m)], r);
    AllUnlisted(w, c, CreateSpace(w, c, r, io));
  }

  lemma FirstSpaceRefines(w: Wires, c: Cat, r: SpaceRecord, io: Io)
    requires WiresLawful(w) && Refines(w, c) && Fresh(w, c, NewSpace(r, io)) && Overwrites(c, NewSpace(r, io))
    requires c.spaces == map[] && c.rooms == map[]
    ensures Refines(w, CreateSpace(w, c, r, io))
  {
    var m := Manifest([r.id], []);
    assert Listed([], r.id) == [r.id];
    ReadsAfter(w, c.store, m);
    ReadsAfterSpace(w, c.store[MANIFEST_KEY := w.manifest.encode(m)], r);
    SpaceUnlists(w, c, r, io);
    var c' := CreateSpace(w, c, r, io);
    assert Mirrors(w, c');
    RefinesIffMirrors(w, c');
  }

  lemma OverwrittenBySpace(w: Wires, c: Cat, r: SpaceRecord, io: Io)
    requires WiresLawful(w) && Refines(w, c) && Fresh(w, c, NewSpace(r, io)) && Overwrites(c, NewSpace(r, io))
    ensures Keyed(w, CreateSpace(w, c, r, io).store)
    ensures Refines(w, CreateSpace(w, c, r, io)) <==> c.spaces == map[] && c.rooms == map[]
    ensures c.spaces != map[] || c.rooms != map[] ==> Unlisted(w, CreateSpace(w, c, r, io))
  {
    SpaceUnlists(w, c, r, io);
    if c.spaces == map[] && c.rooms == map[] {
      FirstSpaceRefines(w, c, r, io);
    } else {
      UnlistedDiffers(w, CreateSpace(w, c, r, io));
    }
  }

  lemma RoomUnlists(w: Wires, c: Cat, r: RoomRecord, io: Io)
    requires WiresLawful(w) && Refines(w, c) && Fresh(w, c, NewRoom(r, io)) && Overwrites(c, NewRoom(r, io))
    ensures Keyed(w, CreateRoom(w, c, r, io).store)
    ensures c.spaces != map[] || c.rooms != map[] ==> Unlisted(w, CreateRoom(w, c, r, io))
  {
    var m := Manifest([], [r.id]);
    assert Listed([], r.id) == [r.id];
    ReadsAfter(w, c.store, m);
    ReadsAfterRoom(w, c.store[MANIFEST_KEY := w.manifest.encode(m)], r);
    AllUnlisted(w, c, CreateRoom(w, c, r, io));
  }

  lemma FirstRoomRefines(w: Wires, c: Cat, r: RoomRecord, io: Io)
    requires WiresLawful(w) && Refines(w, c) && Fresh(w, c, NewRoom(r, io)) && Overwrites(c, NewRoom(r, io))
    requires c.spaces == map[] && c.rooms == map[]
    ensures Refines(w, CreateRoom(w, c, r, io))
  {
    var m := Manifest([], [r.id]);
    assert Listed([], r.id) == [r.id];
    ReadsAfter(w, c.store, m);
    ReadsAfterRoom(w, c.store[MANIFEST_KEY := w.manifest.encode(m)], r);
    RoomUnlists(w, c, r, io);
    var c' := CreateRoom(w, c, r, io);
    assert Mirrors(w, c');
    RefinesIffMirrors(w, c');
  }

  lemma OverwrittenByRoom(w: Wires, c: Cat, r: RoomRecord, io: Io)
    requires WiresLawful(w) && Refines(w, c) && Fresh(w, c, NewRoom(r, io)) && Overwrites(c, NewRoom(r, io))
    ensures Keyed(w, CreateRoom(w, c, r, io).store)
    ensures Refines(w, CreateRoom(w, c, r, io)) <==> c.spaces == map[] && c.rooms == map[]
    ensures c.spaces != map[] || c.rooms != map[] ==> Unlisted(w, CreateRoom(w, c, r, io))
  {
    RoomUnlists(w, c, r, io);
    if c.spaces == map[] && c.rooms == map[] {
      FirstRoomRefines(w, c, r, io);
    } else {
      UnlistedDiffers(w, CreateRoom(w, c, r, io));
    }
  }

  /** A manifest read that fails for another reason than absence loses the index: after create_space the
      cache equals a reload exactly when the manifest was not written, or there was nothing to lose. */
  lemma TransientReadLosesIndex(w: Wires, c: Cat, r: SpaceRecord, io: Io)
    requires WiresLawful(w) && Refines(w, c) && Fresh(w, c, NewSpace(r, io)) && !io.readable
    ensures var c' := CreateSpace(w, c, r, io);
            c' == Reload(w, c'.store) <==> !io.manifestOk || (c.spaces == map[] && c.rooms == map[])
  {
    if io.manifestOk {
      OverwrittenBySpace(w, c, r, io);
    }
  }

  /** And after create_room exactly when, besides, the parent was not refused. */
  lemma TransientReadLosesRoomIndex(w: Wires, c: Cat, r: RoomRecord, io: Io)
    requires WiresLawful(w) && Refines(w, c) && Fresh(w, c, NewRoom(r, io)) && !io.readable
    ensures var c' := CreateRoom(w, c, r, io);
            c' == Reload(w, c'.store) <==>
              !ParentAccepted(c, r) || !io.manifestOk || (c.spaces == map[] && c.rooms == map[])
  {
    if ParentAccepted(c, r) && io.manifestOk {
      OverwrittenByRoom(w, c, r, io);
    }
  }

  // ---- whole runs ----------------------------------------------------------------------------------

  lemma SpaceRefines(w: Wires, c: Cat, r: SpaceRecord, io: Io)
    requires WiresLawful(w) && Refines(w, c) && Fresh(w, c, NewSpace(r, io))
    ensures Keyed(w, CreateSpace(w, c, r, io).store)
    ensures Refines(w, CreateSpace(w, c, r, io)) <==> !LosesIndex(c, NewSpace(r, io))
    ensures LosesIndex(c, NewSpace(r, io)) ==> Unlisted(w, CreateSpace(w, c, r, io))
  {
    if io.readable {
      CreateSpaceRefines(w, c, r, io);
    } else if io.manifestOk {
      OverwrittenBySpace(w, c, r, io);
    }
  }

  lemma RoomRefines(w: Wires, c: Cat, r: RoomRecord, io: Io)
    requires WiresLawful(w) && Refines(w, c) && Fresh(w, c, NewRoom(r, io))
    ensures Keyed(w, CreateRoom(w, c, r, io).store)
    ensures Refines(w, CreateRoom(w, c, r, io)) <==> !LosesIndex(c, NewRoom(r, io))
    ensures LosesIndex(c, NewRoom(r, io)) ==> Unlisted(w, CreateRoom(w, c, r, io))
  {
    if io.readable {
      CreateRoomRefines(w, c, r, io);
    } else if Overwrites(c, NewRoom(r, io)) {
      OverwrittenByRoom(w, c, r, io);
    }
  }

  lemma StepRefines(w: Wires, c: Cat, op: Op)
    requires WiresLawful(w) && Refines(w, c) && Fresh(w, c, op)
    ensures Keyed(w, Apply(w, c, op).store)
    ensures Refines(w, Apply(w, c, op)) <==> !LosesIndex(c, op)
    ensures LosesIndex(c, op) ==> Unlisted(w, Apply(w, c, op))
  {
    match op {
      case NewSpace(r, io) => SpaceRefines(w, c, r, io);
      case NewRoom(r, io) => RoomRefines(w, c, r, io);
      case SetSpace(d, now, ok) => UpdateSpaceRefines(w, c, d, now, ok);
    }
  }

  lemma SpaceStaysUnlisted(w: Wires, c: Cat, r: SpaceRecord, io: Io)
    requires WiresLawful(w) && Keyed(w, c.store) && Unlisted(w, c) && Fresh(w, c, NewSpace(r, io))
    ensures Keyed(w, CreateSpace(w, c, r, io).store) && Unlisted(w, CreateSpace(w, c, r, io))
  {
    var m := Union(w, c.store, io.readable, true, r.id);
    var c' := CreateSpace(w, c, r, io);
    ReadsAfter(w, c.store, m);
    ReadsAfterSpace(w, c.store[MANIFEST_KEY := w.manifest.encode(m)], r);
    if id :| id in c.spaces && id !in ReadManifest(w, c.store).spaceIds {
      assert id in c'.spaces && id !in ReadManifest(w, c'.store).spaceIds;
    } else {
      var id :| id in c.rooms && id !in ReadManifest(w, c.store).roomIds;
      assert id in c'.rooms && id !in ReadManifest(w, c'.store).roomIds;
    }
  }

  lemma RoomStaysUnlisted(w: Wires, c: Cat, r: RoomRecord, io: Io)
    requires WiresLawful(w) && Keyed(w, c.store) && Unlisted(w, c) && Fresh(w, c, NewRoom(r, io))
    ensures Keyed(w, CreateRoom(w, c, r, io).store) && Unlisted(w, CreateRoom(w, c, r, io))
  {
    var m := Union(w, c.store, io.readable, false, r.id);
    var c' := CreateRoom(w, c, r, io);
    ReadsAfter(w, c.store, m);
    ReadsAfterRoom(w, c.store[MANIFEST_KEY := w.manifest.encode(m)], r);
    if id :| id in c.spaces && id !in ReadManifest(w, c.store).spaceIds {
      assert id in c'.spaces && id !in ReadManifest(w, c'.store).spaceIds;
    } else {
      var id :| id in c.rooms && id !in ReadManifest(w, c.store).roomIds;
      assert id in c'.rooms && id !in ReadManifest(w, c'.store).roomIds;
    }
  }

  lemma UpdateStaysUnlisted(w: Wires, c: Cat, d: SpaceRecord, nowMs: int, ok: bool)
    requires WiresLawful(w) && Keyed(w, c.store) && Unlisted(w, c)
    ensures Keyed(w, UpdateSpace(w, c, d, nowMs, ok).store) && Unlisted(w, UpdateSpace(w, c, d, nowMs, ok))
  {
    if ValidParent(c.spaces, d.id) && ok {
      ReadsAfterSpace(w, c.store, Updated(c.spaces[d.id], d, nowMs));
    }
  }

  /** What the manifest has lost no later call brings back. */
  lemma {:induction false} StaysUnlisted(w: Wires, c: Cat, ops: seq<Op>)
    requires WiresLawful(w) && Keyed(w, c.store) && Unlisted(w, c) && FreshRun(w, c, ops)
    ensures Keyed(w, ApplyAll(w, c, ops).store) && Unlisted(w, ApplyAll(w, c, ops))
    decreases |ops|
  {
    if ops != [] {
      match ops[0] {
        case NewSpace(r, io) => SpaceStaysUnlisted(w, c, r, io);
        case NewRoom(r, io) => RoomStaysUnlisted(w, c, r, io);
        case SetSpace(d, now, ok) => UpdateStaysUnlisted(w, c, d, now, ok);
      }
      StaysUnlisted(w, Apply(w, c, ops[0]), ops[1..]);
    }
  }

  predicate KeepsIndex(w: Wires, c: Cat, ops: seq<Op>)
    decreases |ops|
  {
    ops != [] ==> !LosesIndex(c, ops[0]) && KeepsIndex(w, Apply(w, c, ops[0]), ops[1..])
  }

  /** After any calls, with any reads and writes of theirs failing, the cache is what LoadFromStore would
      rebuild, exactly when no call overwrote the manifest of a catalog that held something. */
  lemma {:induction false} CacheEqualsReload(w: Wires, c: Cat, ops: seq<Op>)
    requires WiresLawful(w) && Refines(w, c) && FreshRun(w, c, ops)
    ensures ApplyAll(w, c, ops) == Reload(w, ApplyAll(w, c, ops).store) <==> KeepsIndex(w, c, ops)
    decreases |ops|
  {
    if ops != [] {
      StepRefines(w, c, ops[0]);
      if LosesIndex(c, ops[0]) {
        StaysUnlisted(w, Apply(w, c, ops[0]), ops[1..]);
        UnlistedDiffers(w, ApplyAll(w, c, ops));
      } else {
        CacheEqualsReload(w, Apply(w, c, ops[0]), ops[1..]);
      }
    }
  }

  // ---- crashes: the sequence of store writes, cut anywhere -----------------------------------

  /** Every record key is listed, and nothing is listed twice. */
  ghost predicate Indexed(w: Wires, store: Store) {
    var m := ReadManifest(w, store);
    && (forall id | SpaceKey(id) in store :: id in m.spaceIds)
    && (forall id | RoomKey(id) in store :: id in m.roomIds)
    && NoRepeats(m.spaceIds) && NoRepeats(m.roomIds)
  }

  /** Every room stands alone or under a known, living space. */
  ghost predicate Parented(c: Cat) {
    forall id | id in c.rooms :: ParentAccepted(c, c.rooms[id])
  }

  /** Nothing unreachable, nothing listed twice, and no reloaded room without its space. */
  ghost predicate Intact(w: Wires, store: Store) {
    Keyed(w, store) && Indexed(w, store) && Parented(Reload(w, store))
  }

  /** The store after each single write of a call, in order. */
  function Trail(w: Wires, c: Cat, op: Op): seq<Store> {
    match op
    case NewSpace(r, io) =>
      if !io.manifestOk then []
      else [CreateSpace(w, c, r, io.(recordOk := false)).store]
           + if io.recordOk then [CreateSpace(w, c, r, io).store] else []
    case NewRoom(r, io) =>
      if !ParentAccepted(c, r) || !io.manifestOk then []
      else [CreateRoom(w, c, r, io.(recordOk := false)).store]
           + if io.recordOk then [CreateRoom(w, c, r, io).store] else []
    case SetSpace(d, now, ok) =>
      if !ValidParent(c.spaces, d.id) || !ok then [] else [UpdateSpace(w, c, d, now, ok).store]
  }

  /** The store after each single write of a run. */
  function TrailAll(w: Wires, c: Cat, ops: seq<Op>): seq<Store>
    decreases |ops|
  {
    if ops == [] then [] else Trail(w, c, ops[0]) + TrailAll(w, Apply(w, c, ops[0]), ops[1..])
  }

  /** Both id lists only grow, at the end. */
  ghost predicate Grows(w: Wires, before: Store, after: Store) {
    && ReadManifest(w, before).spaceIds <= ReadManifest(w, after).spaceIds
    && ReadManifest(w, before).roomIds <= ReadManifest(w, after).roomIds
  }

  lemma ListedFacts(ids: seq<string>, id: string)
    ensures ids <= Listed(ids, id) && id in Listed(ids, id)
    ensures NoRepeats(ids) ==> NoRepeats(Listed(ids, id))
    ensures forall x :: x in Listed(ids, id) <==> x in ids || x == id
  {}

  /** A space key is neither the manifest's nor a room's, and names its id. */
  lemma NewKeys(id: string)
    ensures forall x :: SpaceKey(x) != MANIFEST_KEY && RoomKey(x) != MANIFEST_KEY
    ensures forall x :: SpaceKey(x) != RoomKey(id) && RoomKey(x) != SpaceKey(id)
    ensures forall x :: (SpaceKey(x) == SpaceKey(id) <==> x == id) && (RoomKey(x) == RoomKey(id) <==> x == id)
  {
    forall x ensures SpaceKey(x) != MANIFEST_KEY && RoomKey(x) != MANIFEST_KEY
      && SpaceKey(x) != RoomKey(id) && RoomKey(x) != SpaceKey(id)
      && (SpaceKey(x) == SpaceKey(id) <==> x == id) && (RoomKey(x) == RoomKey(id) <==> x == id)
    {
      KeysApart(x, id);
      KeysApart(id, x);
    }
  }

  lemma CreateSpaceIndexed(w: Wires, c: Cat, r: SpaceRecord, io: Io)
    requires WiresLawful(w) && Indexed(w, c.store) && io.readable
    ensures Indexed(w, CreateSpace(w, c, r, io).store) && Grows(w, c.store, CreateSpace(w, c, r, io).store)
  {
    var m := Union(w, c.store, true, true, r.id);
    ListedFacts(ReadManifest(w, c.store).spaceIds, r.id);
    ReadsAfter(w, c.store, m);
    ReadsAfterSpace(w, c.store[MANIFEST_KEY := w.manifest.encode(m)], r);
    NewKeys(r.id);
  }

  lemma CreateRoomIndexed(w: Wires, c: Cat, r: RoomRecord, io: Io)
    requires WiresLawful(w) && Indexed(w, c.store) && io.readable
    ensures Indexed(w, CreateRoom(w, c, r, io).store) && Grows(w, c.store, CreateRoom(w, c, r, io).store)
  {
    var m := Union(w, c.store, true, false, r.id);
    ListedFacts(ReadManifest(w, c.store).roomIds, r.id);
    ReadsAfter(w, c.store, m);
    ReadsAfterRoom(w, c.store[MANIFEST_KEY := w.manifest.encode(m)], r);
    NewKeys(r.id);
  }

  lemma UpdateSpaceIndexed(w: Wires, c: Cat, d: SpaceRecord, nowMs: int, ok: bool)
    requires WiresLawful(w) && Indexed(w, c.store) && Refines(w, c)
    ensures Indexed(w, UpdateSpace(w, c, d, nowMs, ok).store)
    ensures Grows(w, c.store, UpdateSpace(w, c, d, nowMs, ok).store)
  {
    if ValidParent(c.spaces, d.id) && ok {
      RefinesIffMirrors(w, c);
      ReadsAfterSpace(w, c.store, Updated(c.spaces[d.id], d, nowMs));
      NewKeys(d.id);
    }
  }

  /** Spaces only appear or keep their tombstone, and a new room was checked against them. */
  lemma StepParented(w: Wires, c: Cat, op: Op)
    requires Parented(c)
    ensures Parented(Apply(w, c, op))
  {}

  /** One write of a call: the call with its second write refused, if it has one. */
  function FirstOnly(op: Op): Op {
    match op
    case NewSpace(r, io) => NewSpace(r, io.(recordOk := false))
    case NewRoom(r, io) => NewRoom(r, io.(recordOk := false))
    case SetSpace(_, _, _) => op
  }

  /** The call with its manifest read answered. */
  function Answered(op: Op): Op {
    match op
    case NewSpace(r, io) => NewSpace(r, io.(readable := true))
    case NewRoom(r, io) => NewRoom(r, io.(readable := true))
    case SetSpace(_, _, _) => op
  }

  /** The call writes a manifest that starts from nothing over one that lists something. */
  predicate LosesList(w: Wires, c: Cat, op: Op) {
    Overwrites(c, op) && ReadManifest(w, c.store) != Manifest([], [])
  }

  /** Over an empty manifest a failed read makes no difference. */
  lemma AsAnswered(w: Wires, c: Cat, op: Op)
    requires !LosesList(w, c, op)
    ensures Apply(w, c, Answered(op)) == Apply(w, c, op) && Trail(w, c, Answered(op)) == Trail(w, c, op)
  {}

  lemma AnsweredIntact(w: Wires, c: Cat, op: Op)
    requires WiresLawful(w) && Refines(w, c) && Intact(w, c.store) && Fresh(w, c, op) && op == Answered(op)
    ensures Intact(w, Apply(w, c, op).store) && Grows(w, c.store, Apply(w, c, op).store) && Refines(w, Apply(w, c, op))
  {
    StepRefines(w, c, op);
    StepParented(w, c, op);
    match op {
      case NewSpace(r, io) => CreateSpaceIndexed(w, c, r, io);
      case NewRoom(r, io) => CreateRoomIndexed(w, c, r, io);
      case SetSpace(d, now, ok) => UpdateSpaceIndexed(w, c, d, now, ok);
    }
  }

  lemma CallIntact(w: Wires, c: Cat, op: Op)
    requires WiresLawful(w) && Refines(w, c) && Intact(w, c.store) && Fresh(w, c, op) && !LosesList(w, c, op)
    ensures Intact(w, Apply(w, c, op).store) && Grows(w, c.store, Apply(w, c, op).store) && Refines(w, Apply(w, c, op))
  {
    AsAnswered(w, c, op);
    AnsweredIntact(w, c, Answered(op));
  }

  /** The second write of a call leaves the manifest alone. */
  lemma SecondWriteGrows(w: Wires, c: Cat, op: Op)
    requires WiresLawful(w)
    ensures op.NewSpace? && op.io.manifestOk && op.io.recordOk ==>
              Grows(w, Apply(w, c, FirstOnly(op)).store, Apply(w, c, op).store)
    ensures op.NewRoom? && op.io.manifestOk && op.io.recordOk ==>
              Grows(w, Apply(w, c, FirstOnly(op)).store, Apply(w, c, op).store)
  {
    match op {
      case NewSpace(r, io) => ReadsAfterSpace(w, Apply(w, c, FirstOnly(op)).store, r);
      case NewRoom(r, io) => ReadsAfterRoom(w, Apply(w, c, FirstOnly(op)).store, r);
      case _ =>
    }
  }

  lemma TrailForm(w: Wires, c: Cat, op: Op)
    ensures Trail(w, c, op) == [] ==> Apply(w, c, op).store == c.store
    ensures |Trail(w, c, op)| <= 2
    ensures |Trail(w, c, op)| >= 1 ==> Trail(w, c, op)[0] == Apply(w, c, FirstOnly(op)).store
    ensures |Trail(w, c, op)| == 2 ==> Trail(w, c, op)[1] == Apply(w, c, op).store
    ensures |Trail(w, c, op)| == 1 ==> Apply(w, c, op) == Apply(w, c, FirstOnly(op))
    ensures |Trail(w, c, op)| == 2 ==> (op.NewSpace? || op.NewRoom?) && op.io.manifestOk && op.io.recordOk
    ensures Overwrites(c, op) ==> Trail(w, c, op) != []
  {}

  lemma TrailIntact(w: Wires, c: Cat, op: Op, i: nat)
    requires WiresLawful(w) && Refines(w, c) && Intact(w, c.store) && Fresh(w, c, op) && !LosesList(w, c, op)
    requires i < |Trail(w, c, op)|
    ensures Intact(w, Trail(w, c, op)[i]) && Grows(w, c.store, Trail(w, c, op)[i])
  {
    TrailForm(w, c, op);
    CallIntact(w, c, if i == 0 then FirstOnly(op) else op);
  }

  /** The store before write i of trail, which starts from first. */
  function Prior(first: Store, trail: seq<Store>, i: nat): Store
    requires i <= |trail|
  {
    if i == 0 then first else trail[i - 1]
  }

  lemma WithinCall(w: Wires, c: Cat, op: Op, i: nat)
    requires WiresLawful(w) && Refines(w, c) && Intact(w, c.store) && Fresh(w, c, op) && !LosesList(w, c, op)
    requires i < |Trail(w, c, op)|
    ensures Intact(w, Trail(w, c, op)[i])
    ensures Grows(w, Prior(c.store, Trail(w, c, op), i), Trail(w, c, op)[i])
  {
    TrailIntact(w, c, op, i);
    TrailForm(w, c, op);
    if i > 0 {
      SecondWriteGrows(w, c, op);
    }
  }

  /** A manifest overwritten with the new id alone has lost what it listed. */
  lemma OverwriteShrinks(w: Wires, c: Cat, op: Op)
    requires WiresLawful(w) && Fresh(w, c, op) && LosesList(w, c, op)
    ensures Trail(w, c, op) != [] && !Grows(w, c.store, Trail(w, c, op)[0])
  {
    TrailForm(w, c, op);
    var m := ReadManifest(w, c.store);
    match op {
      case NewSpace(r, _) =>
        assert Listed([], r.id) == [r.id];
        assert m.spaceIds != [] ==> m.spaceIds[0] in m.spaceIds;
        ReadsAfter(w, c.store, Manifest([r.id], []));
      case NewRoom(r, _) =>
        assert Listed([], r.id) == [r.id];
        assert m.roomIds != [] ==> m.roomIds[0] in m.roomIds;
        ReadsAfter(w, c.store, Manifest([], [r.id]));
      case SetSpace(_, _, _) =>
    }
  }

  // ---- the writes of a whole run, one after the other ----------------------------------------------

  lemma EndsApplied(w: Wires, c: Cat, op: Op)
    ensures Prior(c.store, Trail(w, c, op), |Trail(w, c, op)|) == Apply(w, c, op).store
  {
    TrailForm(w, c, op);
  }

  ghost predicate Sound(w: Wires, first: Store, trail: seq<Store>, cut: nat)
    requires cut < |trail|
  {
    Intact(w, trail[cut]) && Grows(w, Prior(first, trail, cut), trail[cut])
  }

  /** Every cut of the trail is sound. */
  ghost predicate AllSound(w: Wires, first: Store, trail: seq<Store>) {
    forall cut: nat | cut < |trail| :: Sound(w, first, trail, cut)
  }

  lemma SoundInParts(w: Wires, first: Store, head: seq<Store>, tail: seq<Store>)
    ensures AllSound(w, first, head + tail) <==>
              AllSound(w, first, head) && AllSound(w, Prior(first, head, |head|), tail)
  {
    forall cut: nat | cut < |head| ensures Sound(w, first, head + tail, cut) <==> Sound(w, first, head, cut) {}
    forall cut: nat | cut < |tail|
      ensures Sound(w, first, head + tail, |head| + cut) <==> Sound(w, Prior(first, head, |head|), tail, cut) {}
    forall cut: nat | |head| <= cut < |head| + |tail| && AllSound(w, Prior(first, head, |head|), tail)
      ensures Sound(w, first, head + tail, cut)
    {
      assert Sound(w, Prior(first, head, |head|), tail, cut - |head|);
      assert cut == |head| + (cut - |head|);
    }
  }

  lemma CallSound(w: Wires, c: Cat, op: Op)
    requires WiresLawful(w) && Refines(w, c) && Intact(w, c.store) && Fresh(w, c, op)
    ensures AllSound(w, c.store, Trail(w, c, op)) <==> !LosesList(w, c, op)
  {
    if LosesList(w, c, op) {
      OverwriteShrinks(w, c, op);
      assert !Sound(w, c.store, Trail(w, c, op), 0);
    } else {
      forall cut: nat | cut < |Trail(w, c, op)| ensures Sound(w, c.store, Trail(w, c, op), cut) {
        WithinCall(w, c, op, cut);
      }
    }
  }

  predicate KeepsList(w: Wires, c: Cat, ops: seq<Op>)
    decreases |ops|
  {
    ops != [] ==> !LosesList(w, c, ops[0]) && KeepsList(w, Apply(w, c, ops[0]), ops[1..])
  }

  lemma TrailInParts(w: Wires, c: Cat, ops: seq<Op>)
    requires ops != []
    ensures AllSound(w, c.store, TrailAll(w, c, ops)) <==>
              && AllSound(w, c.store, Trail(w, c, ops[0]))
              && AllSound(w, Apply(w, c, ops[0]).store, TrailAll(w, Apply(w, c, ops[0]), ops[1..]))
  {
    EndsApplied(w, c, ops[0]);
    SoundInParts(w, c.store, Trail(w, c, ops[0]), TrailAll(w, Apply(w, c, ops[0]), ops[1..]));
  }

  /** Stop after any single write of any run: the store reloads to an intact catalog, and from write to
      write the manifest only grows, exactly when no call overwrote a manifest that listed something. */
  lemma {:induction false} CrashIntact(w: Wires, c: Cat, ops: seq<Op>)
    requires WiresLawful(w) && Refines(w, c) && Intact(w, c.store) && FreshRun(w, c, ops)
    ensures AllSound(w, c.store, TrailAll(w, c, ops)) <==> KeepsList(w, c, ops)
    decreases |ops|
  {
    if ops != [] {
      TrailInParts(w, c, ops);
      CallSound(w, c, ops[0]);
      if !LosesList(w, c, ops[0]) {
        CallIntact(w, c, ops[0]);
        CrashIntact(w, Apply(w, c, ops[0]), ops[1..]);
      }
    }
  }

  /** A first launch starts intact. */
  lemma EmptyIntact(w: Wires)
    ensures Intact(w, map[]) && Refines(w, Cat(map[], map[], map[]))
  {}
}
