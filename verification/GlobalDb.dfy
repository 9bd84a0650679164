/** The store wrapper: resources acquired and released around one running flag, which gates every call. */
module GlobalDb {
  import opened Basics
  import opened Records

  type Entry = (string, Bytes)

  /** entries lists exactly the records under prefix, once each, in no particular order. */
  ghost predicate IsScan(data: map<string, Bytes>, prefix: string, entries: seq<Entry>) {
    && (forall i | 0 <= i < |entries| ::
          entries[i].0 in data && prefix <= entries[i].0 && entries[i].1 == data[entries[i].0])
    && (forall i, j | 0 <= i < j < |entries| :: entries[i].0 != entries[j].0)
    && (forall k | k in data && prefix <= k :: (k, data[k]) in entries)
  }

  /** What Initialize acquires and Shutdown releases. */
  datatype Resources = Resources(io: bool, scheduler: bool, generator: bool, network: bool, pubsub: bool, db: bool)

  const NONE := Resources(false, false, false, false, false, false)
  const ALL := Resources(true, true, true, true, true, true)

  class Db {
    var running: bool
    var ioThread: bool
    var held: Resources
    var data: map<string, Bytes>           // what RocksDB holds on disk
    var published: seq<(string, Bytes)>    // raw pubsub publishes, oldest first

    /** Everything is held while running, and nothing otherwise. */
    ghost predicate Valid()
      reads this
    {
      && (running ==> ioThread && held == ALL)
      && (!running ==> !ioThread && held == NONE)
    }

    constructor (disk: map<string, Bytes>)
      ensures Valid() && !running && data == disk && published == []
    {
      running, ioThread, held := false, false, NONE;
      data, published := disk, [];
    }

    /** The arguments are the outcomes of the SDK calls.  A failure on any of them leaves no resource
        behind, and a second call leaves the running instance alone. */
    method Initialize(pubsub: bool, network: bool, created: bool, broadcast: bool) returns (r: Result<Unit>)
      requires Valid()
      modifies this
      ensures Valid() && data == old(data) && published == old(published)
      ensures r.Success? <==> !old(running) && pubsub && network && created && broadcast
      ensures running <==> old(running) || r.Success?
    {
      if running || !pubsub || !network {
        return Failure;
      }
      held := held.(io := true, scheduler := true, network := true, generator := true);
      held := held.(pubsub := true);
      if !created {
        held := NONE;
        return Failure;
      }
      held := held.(db := true);
      if !broadcast {
        held := NONE;
        return Failure;
      }
      ioThread := true;
      running := true;
      return Success(Unit.Unit);
    }

    /** Idempotent; the disk keeps its records. */
    method Shutdown()
      requires Valid()
      modifies this
      ensures Valid() && !running && data == old(data) && published == old(published)
    {
      if !running {
        return;
      }
      ioThread := false;
      held := NONE;
      running := false;
    }

    /** accepted: the store takes the write.  A refused Put changes nothing. */
    method Put(key: string, value: Bytes, accepted: bool) returns (ok: bool)
      requires Valid()
      modifies this`data
      ensures Valid() && ok == (running && accepted)
      ensures data == if ok then old(data)[key := value] else old(data)
    {
      if !running {
        return false;
      }
      if accepted {
        data := data[key := value];
      }
      return accepted;
    }

    /** readable: the read itself does not fail.  Missing and failed are not told apart. */
    method Get(key: string, readable: bool) returns (r: Option<Bytes>)
      requires Valid()
      ensures r == if running && readable && key in data then Some(data[key]) else None
    {
      if !running || !readable || key !in data {
        return None;
      }
      return Some(data[key]);
    }

    method QueryKeyValues(prefix: string, readable: bool) returns (r: Result<seq<Entry>>)
      requires Valid()
      ensures r.Success? <==> running && readable
      ensures r.Success? ==> IsScan(data, prefix, r.value)
    {
      if !running || !readable {
        return Failure;
      }
      var entries: seq<Entry> := [];
      var todo := set k | k in data && prefix <= k;
      while todo != {}
        invariant forall k | k in todo :: k in data && prefix <= k
        invariant forall i | 0 <= i < |entries| ::
                    entries[i].0 in data && prefix <= entries[i].0 && entries[i].1 == data[entries[i].0]
                    && entries[i].0 !in todo
        invariant forall i, j | 0 <= i < j < |entries| :: entries[i].0 != entries[j].0
        invariant forall k | k in data && prefix <= k :: k in todo || (k, data[k]) in entries
      {
        var k :| k in todo;
        todo := todo - {k};
        entries := entries + [(k, data[k])];
      }
      return Success(entries);
    }

    method Publish(topic: string, bytes: Bytes, accepted: bool) returns (ok: bool)
      requires Valid()
      modifies this`published
      ensures Valid() && ok == (running && accepted)
      ensures published == if ok then old(published) + [(topic, bytes)] else old(published)
    {
      if !running {
        return false;
      }
      if accepted {
        published := published + [(topic, bytes)];
      }
      return accepted;
    }
  }
}
