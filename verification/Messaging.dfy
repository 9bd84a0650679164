/** The messaging component: send, receive over two routes, archive worker, history. */
module Messaging {
  import opened Basics
  import opened Records
  import opened GlobalDb
  import opened History
  import opened KeyGrammar
  import opened Funnel
  import Order

  class Component {
    const env: Env
    const db: Db
    var seenIds: set<string>
    var archiveQueue: seq<Entry>
    var archiveStopped: bool
    var pushed: seq<Message>    // what the event sink was given, oldest first

    constructor (env: Env, db: Db)
      ensures this.env == env && this.db == db && View() == Inbox({}, [], []) && !archiveStopped
    {
      this.env, this.db := env, db;
      seenIds, archiveQueue, archiveStopped, pushed := {}, [], false, [];
    }

    function View(): Inbox
      reads this
    {
      Inbox(seenIds, pushed, archiveQueue)
    }

    method PushMessage(m: Message)
      modifies this`pushed
      ensures pushed == old(pushed) + [Stamped(env, m)]
    {
      pushed := pushed + [m.(role := RoleFor(m, env.sender))];
    }

    /** The id comes from NextMessageId, the stamp from the clock, the nonce from the cipher; takesPublish
        and takesPut are how the session answers.  PENDING is pushed, then exactly one of COMPLETE and
        ERROR for the same id, text and stamp; what is published decodes, on its topic, to the complete
        record; on COMPLETE the bytes published are the bytes archived; on ERROR the archive is as it was. */
    method SendMessage(topic: string, text: string, id: string, nowMs: int, nonce: nat,
                       takesPublish: bool, takesPut: bool)
      returns (ok: bool)
      requires db.Valid()
      modifies this`seenIds, this`pushed, db`data, db`published
      ensures db.Valid() && seenIds == old(seenIds) + {id}
      ensures pushed == old(pushed) +
                [Message(id := id, roomTopic := topic, role := UserSelf, state := Pending, text := text,
                         timestamp := nowMs, sender := env.sender),
                 Message(id := id, roomTopic := topic, role := UserSelf, state := if ok then Complete else Error,
                         text := text, timestamp := nowMs, sender := env.sender)]
      ensures var sent := Message(id := id, roomTopic := topic, role := UserSelf, state := Complete, text := text,
                                  timestamp := nowMs, sender := env.sender);
              var payload := Payload(env, nonce, sent);
              && (ok <==> payload.Some? && db.running && takesPublish && takesPut)
              && db.published == (if payload.Some? && db.running && takesPublish
                                  then old(db.published) + [(topic, payload.value)] else old(db.published))
              && db.data == (if ok then old(db.data)[BuildKey(topic, id) := payload.value] else old(db.data))
              && (payload.Some? && EnvLawful(env) ==> Decode(env, topic, payload.value) == Some(sent))
    {
      var msg := Message(id, topic, UserSelf, Pending, text, nowMs, env.sender);
      ghost var sent := msg.(state := Complete);
      if EnvLawful(env) && Payload(env, nonce, sent).Some? {
        PayloadDecodes(env, nonce, sent);
      }
      seenIds := seenIds + {id};
      PushMessage(msg);
      msg := msg.(state := Complete);
      var serialized := env.wire.encode(msg);
      var payload := serialized;
      if env.crypto.Cipher? {
        var encrypted := env.crypto.encrypt(nonce, topic, serialized);
        if encrypted.None? {
          PushMessage(msg.(state := Error));
          return false;
        }
        payload := encrypted.value;
      }
      var live := db.Publish(topic, payload, takesPublish);
      if !live {
        PushMessage(msg.(state := Error));
        return false;
      }
      var archived := db.Put(BuildKey(topic, id), payload, takesPut);
      if !archived {
        PushMessage(msg.(state := Error));
        return false;
      }
      PushMessage(msg);
      return true;
    }

    method EnqueueArchive(key: string, value: Bytes)
      modifies this`archiveQueue
      ensures archiveQueue == old(archiveQueue) + [(key, value)]
    {
      archiveQueue := archiveQueue + [(key, value)];
    }

    /** What does not decode, and what was seen before, leaves no trace; anything else is shown once, as self
        exactly when this node sent it, and queued, bytes as received, under the room and id it names. */
    method ApplyMessage(topic: string, bytes: Bytes)
      modifies this`seenIds, this`pushed, this`archiveQueue
      ensures View() == Receive(env, old(View()), topic, bytes)
      ensures Decode(env, topic, bytes).None? ==> View() == old(View())
      ensures forall m | Decode(env, topic, bytes) == Some(m) ::
                if m.id in old(seenIds) then View() == old(View())
                else
                  && pushed == old(pushed) + [m.(role := if m.sender == env.sender then UserSelf else UserPeer)]
                  && archiveQueue == old(archiveQueue) + [(BuildKey(m.roomTopic, m.id), bytes)]
                  && seenIds == (if |old(seenIds)| >= 4096 then {} else old(seenIds)) + {m.id}
    {
      var plain := bytes;
      if env.crypto.Cipher? {
        var decrypted := env.crypto.decrypt(topic, bytes);
        if decrypted.None? {
          return;
        }
        plain := decrypted.value;
      }
      var parsed := env.wire.decode(plain);
      if parsed.None? {
        return;
      }
      var msg := parsed.value;
      if msg.id in seenIds {
        return;
      }
      if |seenIds| >= MAX_SEEN {
        seenIds := {};
      }
      seenIds := seenIds + {msg.id};
      PushMessage(msg);
      EnqueueArchive(BuildKey(msg.roomTopic, msg.id), bytes);
    }

    method OnLiveMessage(topic: string, bytes: Bytes)
      modifies this`seenIds, this`pushed, this`archiveQueue
      ensures View() == Receive(env, old(View()), topic, bytes)
    {
      ApplyMessage(topic, bytes);
    }

    /** thrown: the key parse left the string's range, and std::out_of_range leaves this call. */
    method OnMessageArrived(key: string, bytes: Bytes) returns (thrown: bool)
      modifies this`seenIds, this`pushed, this`archiveQueue
      ensures thrown <==> RoomTopicFromKey(key).OutOfRange?
      ensures (forall i: nat :: !OccursAt(key, "gcs/messages/", i)) ==> !thrown && View() == old(View())
      ensures View() == match RoomTopicFromKey(key)
                        case OutOfRange => old(View())
                        case Topic(topic) =>
                          if topic == "" then old(View()) else Receive(env, old(View()), topic, bytes)
    {
      ForeignKeyIsEmpty(key);
      var parsed := RoomTopicFromKey(key);
      if parsed.OutOfRange? {
        return true;
      }
      if parsed.topic != "" {
        ApplyMessage(parsed.topic, bytes);
      }
      return false;
    }

    /** One round of the worker: the oldest queued write is put, and its outcome is only logged. */
    method PutNext(accepts: Entry -> bool)
      requires db.Valid() && archiveQueue != []
      modifies this`archiveQueue, db`data
      ensures db.Valid() && archiveQueue == old(archiveQueue)[1..]
      ensures db.data == if db.running then Archived(old(db.data), [old(archiveQueue)[0]], accepts) else old(db.data)
    {
      var item := archiveQueue[0];
      archiveQueue := archiveQueue[1..];
      assert [item][..0] == [];
      var put := db.Put(item.0, item.1, accepts(item));
    }

    /** The worker once it has been told to stop: every queued write is put, in order. */
    method ArchiveWorker(accepts: Entry -> bool)
      requires db.Valid() && archiveStopped
      modifies this`archiveQueue, db`data
      ensures db.Valid() && archiveQueue == []
      ensures db.data == if db.running then Archived(old(db.data), old(archiveQueue), accepts) else old(db.data)
    {
      while !(archiveStopped && archiveQueue == [])
        invariant db.Valid()
        invariant !db.running ==> db.data == old(db.data)
        invariant db.running ==>
                    Archived(db.data, archiveQueue, accepts) == Archived(old(db.data), old(archiveQueue), accepts)
        decreases |archiveQueue|
      {
        ArchivedAppends(db.data, archiveQueue[0], archiveQueue[1..], accepts);
        assert archiveQueue == [archiveQueue[0]] + archiveQueue[1..];
        PutNext(accepts);
      }
    }

    /** The destructor: stop the worker, let it drain, join it. */
    method Destroy(accepts: Entry -> bool)
      requires db.Valid()
      modifies this`archiveStopped, this`archiveQueue, db`data
      ensures db.Valid() && archiveStopped && archiveQueue == []
      ensures db.data == if db.running then Archived(old(db.data), old(archiveQueue), accepts) else old(db.data)
    {
      archiveStopped := true;
      ArchiveWorker(accepts);
    }

    /** The decodable entries of a scan, decrypted, parsed and stamped with this node's role. */
    method ReadRecords(topic: string, scan: seq<Entry>) returns (messages: seq<Message>)
      ensures messages == Collect(env, topic, scan)
    {
      messages := [];
      for i := 0 to |scan|
        invariant messages == Collect(env, topic, scan[..i])
      {
        assert scan[..i + 1][..i] == scan[..i];
        var plain := Some(scan[i].1);
        if env.crypto.Cipher? {
          plain := env.crypto.decrypt(topic, scan[i].1);
        }
        if plain.Some? {
          var parsed := env.wire.decode(plain.value);
          if parsed.Some? {
            messages := messages + [parsed.value.(role := RoleFor(parsed.value, env.sender))];
          }
        }
      }
      assert scan[..|scan|] == scan;
    }

    method AbsorbScanned(messages: seq<Message>)
      modifies this`seenIds
      ensures seenIds == AbsorbAll(old(seenIds), Ids(messages))
    {
      for i := 0 to |messages|
        invariant seenIds == AbsorbAll(old(seenIds), Ids(messages)[..i])
      {
        assert Ids(messages)[..i + 1][..i] == Ids(messages)[..i];
        if |seenIds| >= MAX_SEEN {
          seenIds := {};
        }
        seenIds := seenIds + {messages[i].id};
      }
      assert Ids(messages)[..|messages|] == Ids(messages);
    }

    /** The room's decodable records, every one and as often as it is stored, oldest first and by id within
        one stamp, as self exactly when this node sent them; their ids enter the dedupe set in that order. */
    method QueryHistory(topic: string, readable: bool) returns (r: Result<seq<Message>>)
      requires db.Valid()
      modifies this`seenIds
      ensures r.Success? <==> db.running && readable
      ensures r.Failure? ==> seenIds == old(seenIds)
      ensures r.Success? ==> seenIds == AbsorbAll(old(seenIds), Ids(r.value))
      ensures r.Success? ==> IsHistory(env, topic, db.data, r.value)
      ensures r.Success? ==> forall i, j | 0 <= i < j < |r.value| ::
                && r.value[i].timestamp <= r.value[j].timestamp
                && (r.value[i].timestamp == r.value[j].timestamp ==>
                      r.value[i].id == r.value[j].id || Order.Less(r.value[i].id, r.value[j].id))
      ensures r.Success? ==> forall m | m in r.value ::
                m.role == if m.sender == env.sender then UserSelf else UserPeer
      ensures r.Success? && |old(seenIds)| + |r.value| <= 4096 ==>
                seenIds == old(seenIds) + set m | m in r.value :: m.id
    {
      var scanResult := db.QueryKeyValues(ScanPrefix(topic), readable);
      if scanResult.Failure? {
        return Failure;
      }
      var messages := ReadRecords(topic, scanResult.value);
      forall m | m in messages ensures m.role == if m.sender == env.sender then UserSelf else UserPeer {
        CollectMembers(env, topic, scanResult.value, m);
      }
      ArrangeKeepsAll(messages);
      messages := Arrange(messages);
      SortedIffChronological(messages);
      if |seenIds| + |messages| <= MAX_SEEN {
        FewAbsorbed(seenIds, Ids(messages));
        IdsElements(messages);
      }
      AbsorbScanned(messages);
      return Success(messages);
    }
  }

  function Ids(ms: seq<Message>): seq<string> {
    seq(|ms|, i requires 0 <= i < |ms| => ms[i].id)
  }

  lemma IdsElements(ms: seq<Message>)
    ensures Elements(Ids(ms)) == set m | m in ms :: m.id
  {
    forall id ensures id in Elements(Ids(ms)) <==> id in set m | m in ms :: m.id {
      if m :| m in ms && m.id == id {
        var i :| 0 <= i < |ms| && ms[i] == m;
        assert Ids(ms)[i] == id;
      }
      if id in Ids(ms) {
        var i :| 0 <= i < |ms| && Ids(ms)[i] == id;
        assert ms[i] in ms;
      }
    }
  }

  /** A sorted arrangement of all the records a scan of the room decodes to. */
  ghost predicate IsHistory(env: Env, topic: string, data: map<string, Bytes>, ms: seq<Message>) {
    && Sorted(ms)
    && exists scan ::
         IsScan(data, ScanPrefix(topic), scan) && multiset(ms) == multiset(Collect(env, topic, scan))
  }

  /** History holds exactly the decodable records, so one bad record hides no other. */
  lemma HistoryMembers(env: Env, topic: string, data: map<string, Bytes>, ms: seq<Message>)
    requires IsHistory(env, topic, data, ms)
    ensures forall m :: m in ms <==>
              exists k :: k in data && ScanPrefix(topic) <= k && Shown(env, topic, data[k]) == Some(m)
  {
    var scan :| IsScan(data, ScanPrefix(topic), scan) && multiset(ms) == multiset(Collect(env, topic, scan));
    var cs := Collect(env, topic, scan);
    ScanMembers(env, topic, data, ScanPrefix(topic), scan);
    forall m ensures m in ms <==> m in cs {
      assert m in ms <==> m in multiset(ms);
      assert m in cs <==> m in multiset(cs);
    }
  }

  lemma HistoryDistinct(env: Env, topic: string, data: map<string, Bytes>, ms: seq<Message>)
    requires IsHistory(env, topic, data, ms) && IdsDistinct(env, topic, data, ScanPrefix(topic))
    ensures DistinctIds(ms)
  {
    var scan :| IsScan(data, ScanPrefix(topic), scan) && multiset(ms) == multiset(Collect(env, topic, scan));
    CollectDistinct(env, topic, data, ScanPrefix(topic), scan);
    DistinctByCount(Collect(env, topic, scan), ms);
  }

  /** With distinct ids there is a single answer, whatever the scan order and whatever std::sort may choose. */
  lemma HistoryCanonical(env: Env, topic: string, data: map<string, Bytes>, ms: seq<Message>, other: seq<Message>)
    requires IsHistory(env, topic, data, ms) && IsHistory(env, topic, data, other)
    requires IdsDistinct(env, topic, data, ScanPrefix(topic))
    ensures ms == other
  {
    HistoryMembers(env, topic, data, ms);
    HistoryMembers(env, topic, data, other);
    HistoryDistinct(env, topic, data, ms);
    HistoryDistinct(env, topic, data, other);
    Canonical(ms, other);
  }
}
