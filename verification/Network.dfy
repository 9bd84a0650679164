/**
  Any number of nodes over a network that may lose, duplicate, delay and reorder: what was published
  once may be delivered to anyone, any number of times, at any later moment, and any archived record
  may be merged into any other archive.  Senders are honest and ids are unique across nodes.
 */
module Network {
  import opened Basics
  import opened Records
  import opened History
  import opened KeyGrammar
  import opened Funnel
  import opened Messaging
  import Order

  /** What the nodes have in common, and the sender address of each.  Encryption and publish may fail
      anywhere; putsHold: no store refuses a send's archive write; workHolds: nor a worker's. */
  datatype World = World(wire: Wire<Message>, crypto: Crypto, address: nat -> string, putsHold: bool, workHolds: bool)

  function EnvOf(w: World, n: nat): Env {
    Env(w.address(n), w.wire, w.crypto)
  }

  ghost predicate WorldLawful(w: World) {
    Lawful(w.wire) && CryptoLawful(w.crypto)
  }

  /** Who sent it, the record, and the bytes that went out; none when encryption or publish failed. */
  datatype Sending = Sending(origin: nat, record: Message, payload: Option<Bytes>)

  datatype Node = Node(
    inbox: Inbox,
    archive: map<string, Bytes>,   // what the node's store holds under message keys
    owed: set<string>,             // published sends whose archive write is still to come
    got: set<string>)              // ids it published or was ever delivered (history)

  datatype Net = Net(nodes: map<nat, Node>, sent: map<string, Sending>, air: set<(string, Bytes)>)

  const EMPTY := Node(Inbox({}, [], []), map[], {}, {})
  const START := Net(map[], map[], {})

  datatype Action =
    | Join(n: nat)
    | Send(n: nat, topic: string, text: string, id: string, nowMs: int, nonce: nat, published: bool)
    | Put(n: nat, id: string, accepted: bool)
    | Live(n: nat, topic: string, bytes: Bytes)
    | Heal(n: nat, peer: nat, key: string, frame: string)
    | Work(n: nat, accepted: bool)
    | Scan(n: nat, topic: string, ms: seq<Message>)

  predicate MessageId(id: string) {
    "msg-" <= id && '/' !in id
  }

  /** The record a send publishes and archives. */
  function Record(w: World, a: Action): Message
    requires a.Send?
  {
    Message(id := a.id, roomTopic := a.topic, role := UserSelf, state := Complete, text := a.text,
            timestamp := a.nowMs, sender := w.address(a.n))
  }

  function SendStep(w: World, net: Net, a: Action): Option<Net>
    requires a.Send? && a.n in net.nodes
  {
    var nd, m := net.nodes[a.n], Record(w, a);
    var payload := if a.published then Payload(EnvOf(w, a.n), a.nonce, m) else None;
    var seen := nd.inbox.(seen := nd.inbox.seen + {m.id});
    var sent := net.sent[m.id := Sending(a.n, m, payload)];
    if m.id in net.sent || !MessageId(a.id) || !ValidTopic(a.topic) then None
    else if payload.Some? then
      Some(Net(net.nodes[a.n := nd.(inbox := seen, owed := nd.owed + {m.id}, got := nd.got + {m.id})], sent,
               net.air + {(m.roomTopic, payload.value)}))
    else Some(net.(nodes := net.nodes[a.n := nd.(inbox := seen)], sent := sent))
  }

  function PutStep(w: World, net: Net, n: nat, id: string, accepted: bool): Option<Net>
    requires n in net.nodes
  {
    var nd := net.nodes[n];
    if id !in nd.owed || id !in net.sent || net.sent[id].payload.None? || (w.putsHold && !accepted) then None
    else
      var key := BuildKey(net.sent[id].record.roomTopic, id);
      var archive := if accepted then nd.archive[key := net.sent[id].payload.value] else nd.archive;
      Some(net.(nodes := net.nodes[n := nd.(archive := archive, owed := nd.owed - {id})]))
  }

  /** The funnel, as seen by one node. */
  function Delivered(w: World, n: nat, nd: Node, topic: string, bytes: Bytes): Node {
    nd.(inbox := Receive(EnvOf(w, n), nd.inbox, topic, bytes),
        got := match Decode(EnvOf(w, n), topic, bytes)
               case None => nd.got
               case Some(m) => nd.got + {m.id})
  }

  /** The merge writes the record, and the new-element callback hands it to the funnel under its key in
      whatever framing the datastore uses. */
  ghost function HealStep(w: World, net: Net, n: nat, peer: nat, key: string, frame: string): Option<Net>
    requires n in net.nodes
  {
    if peer !in net.nodes || key !in net.nodes[peer].archive || !IsFrame(frame) then None
    else
      var bytes := net.nodes[peer].archive[key];
      var nd := net.nodes[n].(archive := net.nodes[n].archive[key := bytes]);
      match RoomTopicFromKey(frame + key)
      case OutOfRange => None
      case Topic(t) => Some(net.(nodes := net.nodes[n := if t == "" then nd else Delivered(w, n, nd, t, bytes)]))
  }

  function WorkStep(w: World, net: Net, n: nat, accepted: bool): Option<Net>
    requires n in net.nodes
  {
    var nd := net.nodes[n];
    if nd.inbox.queue == [] || (w.workHolds && !accepted) then None
    else
      var item := nd.inbox.queue[0];
      var archive := if accepted then nd.archive[item.0 := item.1] else nd.archive;
      Some(net.(nodes := net.nodes[n := nd.(archive := archive, inbox := nd.inbox.(queue := nd.inbox.queue[1..]))]))
  }

  ghost function Step(w: World, net: Net, a: Action): Option<Net> {
    if a.Join? then
      if a.n in net.nodes then None else Some(net.(nodes := net.nodes[a.n := EMPTY]))
    else if a.n !in net.nodes then None
    else match a
      case Send(_, _, _, _, _, _, _) => SendStep(w, net, a)
      case Put(n, id, accepted) => PutStep(w, net, n, id, accepted)
      case Live(n, topic, bytes) =>
        if (topic, bytes) !in net.air then None
        else Some(net.(nodes := net.nodes[n := Delivered(w, n, net.nodes[n], topic, bytes)]))
      case Heal(n, peer, key, frame) => HealStep(w, net, n, peer, key, frame)
      case Work(n, accepted) => WorkStep(w, net, n, accepted)
      case Scan(n, topic, ms) =>
        var nd := net.nodes[n];
        if !ValidTopic(topic) || !IsHistory(EnvOf(w, n), topic, nd.archive, ms) then None
        else Some(net.(nodes := net.nodes[n := nd.(inbox := nd.inbox.(seen := AbsorbAll(nd.inbox.seen, Ids(ms))))]))
  }

  ghost function Run(w: World, acts: seq<Action>): Option<Net> {
    if acts == [] then Some(START)
    else match Run(w, acts[..|acts| - 1])
      case None => None
      case Some(net) => Step(w, net, acts[|acts| - 1])
  }

  ghost predicate Reachable(w: World, net: Net) {
    exists acts :: Run(w, acts) == Some(net)
  }

  // ---- every stored record is what its sender sent ---------------------------------------------

  /** key and bytes are the archive entry of the sent message id. */
  predicate IsCopy(sent: map<string, Sending>, id: string, key: string, bytes: Bytes) {
    id in sent && key == BuildKey(sent[id].record.roomTopic, id) && sent[id].payload == Some(bytes)
  }

  ghost predicate Copied(sent: map<string, Sending>, key: string, bytes: Bytes) {
    exists id :: IsCopy(sent, id, key, bytes)
  }

  /** What was sent under id decodes to the record sent, at every node. */
  ghost predicate SentOk(w: World, id: string, s: Sending) {
    && s.record.id == id && MessageId(id) && ValidTopic(s.record.roomTopic)
    && (s.payload.Some? ==> Decode(EnvOf(w, 0), s.record.roomTopic, s.payload.value) == Some(s.record))
  }

  ghost predicate OnAir(sent: map<string, Sending>, topic: string, bytes: Bytes) {
    exists id :: id in sent && sent[id].record.roomTopic == topic && sent[id].payload == Some(bytes)
  }

  ghost predicate NodeOk(sent: map<string, Sending>, nd: Node) {
    && (forall k | k in nd.archive :: Copied(sent, k, nd.archive[k]))
    && (forall i | 0 <= i < |nd.inbox.queue| :: Copied(sent, nd.inbox.queue[i].0, nd.inbox.queue[i].1))
  }

  ghost predicate Inv(w: World, net: Net) {
    && (forall id | id in net.sent :: SentOk(w, id, net.sent[id]))
    && (forall p | p in net.air :: OnAir(net.sent, p.0, p.1))
    && (forall n | n in net.nodes :: NodeOk(net.sent, net.nodes[n]))
  }

  ghost predicate Extends(sent: map<string, Sending>, more: map<string, Sending>) {
    forall id | id in sent :: id in more && more[id] == sent[id]
  }

  lemma NodeStaysOk(sent: map<string, Sending>, more: map<string, Sending>, nd: Node)
    requires Extends(sent, more) && NodeOk(sent, nd)
    ensures NodeOk(more, nd)
  {
    forall k, b | Copied(sent, k, b) ensures Copied(more, k, b) {
      var id :| IsCopy(sent, id, k, b);
      assert IsCopy(more, id, k, b);
    }
  }

  /** One node changes, and nothing is sent. */
  lemma NodeChanges(w: World, net: Net, n: nat, nd: Node)
    requires Inv(w, net) && NodeOk(net.sent, nd)
    ensures Inv(w, net.(nodes := net.nodes[n := nd]))
  {}

  lemma ArchiveGrows(sent: map<string, Sending>, nd: Node, key: string, bytes: Bytes)
    requires NodeOk(sent, nd) && Copied(sent, key, bytes)
    ensures NodeOk(sent, nd.(archive := nd.archive[key := bytes]))
  {}

  /** A genuine payload enters the funnel: if it is admitted, it is queued as the copy it is. */
  lemma DeliveryOk(w: World, net: Net, n: nat, nd: Node, id: string)
    requires Inv(w, net) && NodeOk(net.sent, nd) && id in net.sent && net.sent[id].payload.Some?
    ensures NodeOk(net.sent, Delivered(w, n, nd, net.sent[id].record.roomTopic, net.sent[id].payload.value))
  {
    var s := net.sent[id];
    assert SentOk(w, id, s);
    var bytes := s.payload.value;
    assert IsCopy(net.sent, id, BuildKey(s.record.roomTopic, id), bytes);
  }

  lemma SendInv(w: World, net: Net, a: Action, net': Net)
    requires WorldLawful(w) && Inv(w, net) && a.Send? && a.n in net.nodes && SendStep(w, net, a) == Some(net')
    ensures Inv(w, net')
  {
    var m, payload := Record(w, a), Payload(EnvOf(w, a.n), a.nonce, Record(w, a));
    if payload.Some? {
      PayloadDecodes(EnvOf(w, a.n), a.nonce, m);
    }
    assert Extends(net.sent, net'.sent);
    assert SentOk(w, m.id, net'.sent[m.id]);
    forall n | n in net'.nodes ensures NodeOk(net'.sent, net'.nodes[n]) {
      NodeStaysOk(net.sent, net'.sent, net.nodes[n]);
    }
    forall p | p in net'.air ensures OnAir(net'.sent, p.0, p.1) {
      if p in net.air {
        var id :| id in net.sent && net.sent[id].record.roomTopic == p.0 && net.sent[id].payload == Some(p.1);
        assert id in net'.sent;
      } else {
        assert m.id in net'.sent;
      }
    }
  }

  lemma PutInv(w: World, net: Net, n: nat, id: string, accepted: bool, net': Net)
    requires Inv(w, net) && n in net.nodes && PutStep(w, net, n, id, accepted) == Some(net')
    ensures Inv(w, net')
  {
    var key := BuildKey(net.sent[id].record.roomTopic, id);
    assert IsCopy(net.sent, id, key, net.sent[id].payload.value);
    NodeChanges(w, net, n, net'.nodes[n]);
  }

  lemma WorkInv(w: World, net: Net, n: nat, accepted: bool, net': Net)
    requires Inv(w, net) && n in net.nodes && WorkStep(w, net, n, accepted) == Some(net')
    ensures Inv(w, net')
  {
    assert NodeOk(net.sent, net.nodes[n]);
    NodeChanges(w, net, n, net'.nodes[n]);
  }

  /** A key in whatever framing leads the funnel to the room the record was sent to. */
  lemma HealedTopic(w: World, net: Net, id: string, key: string, bytes: Bytes, frame: string)
    requires Inv(w, net) && IsCopy(net.sent, id, key, bytes) && IsFrame(frame)
    ensures RoomTopicFromKey(frame + key) == Topic(net.sent[id].record.roomTopic)
  {
    assert SentOk(w, id, net.sent[id]);
    assert id[0] == 'm';
    TopicRecovered(frame, net.sent[id].record.roomTopic, id);
  }

  /** A heal leaves the peer's record in the node's own archive. */
  lemma HealMerges(w: World, net: Net, n: nat, peer: nat, key: string, frame: string, net': Net)
    requires Step(w, net, Heal(n, peer, key, frame)) == Some(net')
    ensures net'.nodes[n].archive == net.nodes[n].archive[key := net.nodes[peer].archive[key]]
  {}

  lemma HealInv(w: World, net: Net, n: nat, peer: nat, key: string, frame: string, net': Net)
    requires Inv(w, net) && n in net.nodes && HealStep(w, net, n, peer, key, frame) == Some(net')
    ensures Inv(w, net')
  {
    var bytes := net.nodes[peer].archive[key];
    assert NodeOk(net.sent, net.nodes[peer]);
    var id :| IsCopy(net.sent, id, key, bytes);
    HealedTopic(w, net, id, key, bytes, frame);
    ArchiveGrows(net.sent, net.nodes[n], key, bytes);
    DeliveryOk(w, net, n, net.nodes[n].(archive := net.nodes[n].archive[key := bytes]), id);
    NodeChanges(w, net, n, net'.nodes[n]);
  }

  lemma StepInv(w: World, net: Net, a: Action, net': Net)
    requires WorldLawful(w) && Inv(w, net) && Step(w, net, a) == Some(net')
    ensures Inv(w, net')
  {
    match a {
      case Join(n) => NodeChanges(w, net, n, EMPTY);
      case Send(_, _, _, _, _, _, _) => SendInv(w, net, a, net');
      case Put(n, id, accepted) => PutInv(w, net, n, id, accepted, net');
      case Live(n, topic, bytes) =>
        assert OnAir(net.sent, (topic, bytes).0, (topic, bytes).1);
        var id :| id in net.sent && net.sent[id].record.roomTopic == topic && net.sent[id].payload == Some(bytes);
        DeliveryOk(w, net, n, net.nodes[n], id);
        NodeChanges(w, net, n, net'.nodes[n]);
      case Heal(n, peer, key, frame) => HealInv(w, net, n, peer, key, frame, net');
      case Work(n, accepted) => WorkInv(w, net, n, accepted, net');
      case Scan(n, _, _) =>
        assert NodeOk(net.sent, net.nodes[n]);
        NodeChanges(w, net, n, net'.nodes[n]);
    }
  }

  lemma {:induction false} RunInv(w: World, acts: seq<Action>, net: Net)
    requires WorldLawful(w) && Run(w, acts) == Some(net)
    ensures Inv(w, net)
  {
    if acts != [] {
      var front := acts[..|acts| - 1];
      RunInv(w, front, Run(w, front).value);
      StepInv(w, Run(w, front).value, acts[|acts| - 1], net);
    }
  }

  lemma ReachableInv(w: World, net: Net)
    requires WorldLawful(w) && Reachable(w, net)
    ensures Inv(w, net)
  {
    var acts :| Run(w, acts) == Some(net);
    RunInv(w, acts, net);
  }

  // ---- agreement -----------------------------------------------------------------------------------

  /** An archive key holds the same bytes on every node that holds it. */
  lemma Agreement(w: World, net: Net, m: nat, n: nat, key: string)
    requires WorldLawful(w) && Reachable(w, net) && m in net.nodes && n in net.nodes
    requires key in net.nodes[m].archive && key in net.nodes[n].archive
    ensures net.nodes[m].archive[key] == net.nodes[n].archive[key]
  {
    ReachableInv(w, net);
    assert NodeOk(net.sent, net.nodes[m]) && NodeOk(net.sent, net.nodes[n]);
    var a :| IsCopy(net.sent, a, key, net.nodes[m].archive[key]);
    var b :| IsCopy(net.sent, b, key, net.nodes[n].archive[key]);
    assert SentOk(w, a, net.sent[a]) && SentOk(w, b, net.sent[b]);
    BuildKeyInjective(net.sent[a].record.roomTopic, a, net.sent[b].record.roomTopic, b);
  }

  // ---- convergence ---------------------------------------------------------------------------------

  /** An entry the scan of a room returns is the copy of a record sent to that room, and shows as it. */
  lemma RoomEntry(w: World, net: Net, n: nat, topic: string, k: string) returns (id: string)
    requires Inv(w, net) && n in net.nodes && ValidTopic(topic)
    requires k in net.nodes[n].archive && ScanPrefix(topic) <= k
    ensures IsCopy(net.sent, id, k, net.nodes[n].archive[k]) && SentOk(w, id, net.sent[id])
    ensures net.sent[id].record.roomTopic == topic && k == BuildKey(topic, id)
    ensures Shown(EnvOf(w, n), topic, net.nodes[n].archive[k]) == Some(Stamped(EnvOf(w, n), net.sent[id].record))
  {
    assert NodeOk(net.sent, net.nodes[n]);
    id :| IsCopy(net.sent, id, k, net.nodes[n].archive[k]);
    assert SentOk(w, id, net.sent[id]);
    NoCrossRoomLeak(topic, net.sent[id].record.roomTopic, id);
  }

  ghost predicate InRoom(net: Net, n: nat, topic: string, id: string)
    requires n in net.nodes
  {
    id in net.sent && net.sent[id].record.roomTopic == topic && BuildKey(topic, id) in net.nodes[n].archive
  }

  lemma HistoryIsWhatIsHeld(w: World, net: Net, n: nat, topic: string, h: seq<Message>, m: Message)
    requires WorldLawful(w) && Reachable(w, net) && n in net.nodes && ValidTopic(topic)
    requires IsHistory(EnvOf(w, n), topic, net.nodes[n].archive, h)
    ensures m in h <==> exists id :: InRoom(net, n, topic, id) && m == Stamped(EnvOf(w, n), net.sent[id].record)
  {
    ReachableInv(w, net);
    HistoryMembers(EnvOf(w, n), topic, net.nodes[n].archive, h);
    var data := net.nodes[n].archive;
    if k :| k in data && ScanPrefix(topic) <= k && Shown(EnvOf(w, n), topic, data[k]) == Some(m) {
      var id := RoomEntry(w, net, n, topic, k);
      assert InRoom(net, n, topic, id);
    }
    if id :| InRoom(net, n, topic, id) && m == Stamped(EnvOf(w, n), net.sent[id].record) {
      var k := BuildKey(topic, id);
      assert SentOk(w, id, net.sent[id]);
      NoCrossRoomLeak(topic, topic, id);
      var id' := RoomEntry(w, net, n, topic, k);
      BuildKeyInjective(topic, id, topic, id');
    }
  }

  lemma HistoryDistinct(w: World, net: Net, n: nat, topic: string, h: seq<Message>)
    requires WorldLawful(w) && Reachable(w, net) && n in net.nodes && ValidTopic(topic)
    requires IsHistory(EnvOf(w, n), topic, net.nodes[n].archive, h)
    ensures DistinctIds(h)
  {
    ReachableInv(w, net);
    var env, data, prefix := EnvOf(w, n), net.nodes[n].archive, ScanPrefix(topic);
    forall k, l | k in data && l in data && prefix <= k && prefix <= l && k != l
      && Shown(env, topic, data[k]).Some? && Shown(env, topic, data[l]).Some?
      ensures Shown(env, topic, data[k]).value.id != Shown(env, topic, data[l]).value.id
    {
      var a := RoomEntry(w, net, n, topic, k);
      var b := RoomEntry(w, net, n, topic, l);
      assert a != b;
    }
    Messaging.HistoryDistinct(env, topic, data, h);
  }

  /** A history without the roles. */
  function Neutral(h: seq<Message>): seq<Message> {
    seq(|h|, i requires 0 <= i < |h| => h[i].(role := Unspecified))
  }

  lemma NeutralMembers(h: seq<Message>, m: Message)
    ensures m in Neutral(h) <==> exists x :: x in h && m == x.(role := Unspecified)
  {
    if m in Neutral(h) {
      var i :| 0 <= i < |h| && Neutral(h)[i] == m;
      assert h[i] in h;
    }
    if x :| x in h && m == x.(role := Unspecified) {
      var i :| 0 <= i < |h| && h[i] == x;
      assert Neutral(h)[i] == m;
    }
  }

  ghost predicate SameRoom(net: Net, m: nat, n: nat, topic: string)
    requires m in net.nodes && n in net.nodes
  {
    forall id | id in net.sent && net.sent[id].record.roomTopic == topic ::
      BuildKey(topic, id) in net.nodes[m].archive <==> BuildKey(topic, id) in net.nodes[n].archive
  }

  lemma NeutralIncluded(w: World, net: Net, m: nat, n: nat, topic: string, hm: seq<Message>, hn: seq<Message>,
                        x: Message)
    requires WorldLawful(w) && Reachable(w, net) && m in net.nodes && n in net.nodes && ValidTopic(topic)
    requires IsHistory(EnvOf(w, m), topic, net.nodes[m].archive, hm)
    requires IsHistory(EnvOf(w, n), topic, net.nodes[n].archive, hn)
    requires SameRoom(net, m, n, topic) && x in Neutral(hm)
    ensures x in Neutral(hn)
  {
    NeutralMembers(hm, x);
    var y :| y in hm && x == y.(role := Unspecified);
    HistoryIsWhatIsHeld(w, net, m, topic, hm, y);
    var id :| InRoom(net, m, topic, id) && y == Stamped(EnvOf(w, m), net.sent[id].record);
    assert InRoom(net, n, topic, id);
    HistoryIsWhatIsHeld(w, net, n, topic, hn, Stamped(EnvOf(w, n), net.sent[id].record));
    NeutralMembers(hn, x);
  }

  lemma RoleShown(w: World, net: Net, n: nat, topic: string, h: seq<Message>, i: nat)
    requires WorldLawful(w) && Reachable(w, net) && n in net.nodes && ValidTopic(topic) && i < |h|
    requires IsHistory(EnvOf(w, n), topic, net.nodes[n].archive, h)
    ensures h[i].role == RoleFor(h[i], w.address(n))
  {
    HistoryIsWhatIsHeld(w, net, n, topic, h, h[i]);
  }

  lemma NeutralCanonical(hm: seq<Message>, hn: seq<Message>)
    requires Sorted(hm) && Sorted(hn) && DistinctIds(hm) && DistinctIds(hn)
    requires forall x :: x in Neutral(hm) <==> x in Neutral(hn)
    ensures Neutral(hm) == Neutral(hn)
  {
    Canonical(Neutral(hm), Neutral(hn));
  }

  lemma SameNeutral(w: World, net: Net, m: nat, n: nat, topic: string, hm: seq<Message>, hn: seq<Message>)
    requires WorldLawful(w) && Reachable(w, net) && m in net.nodes && n in net.nodes && ValidTopic(topic)
    requires IsHistory(EnvOf(w, m), topic, net.nodes[m].archive, hm)
    requires IsHistory(EnvOf(w, n), topic, net.nodes[n].archive, hn)
    requires SameRoom(net, m, n, topic)
    ensures Neutral(hm) == Neutral(hn)
  {
    HistoryDistinct(w, net, m, topic, hm);
    HistoryDistinct(w, net, n, topic, hn);
    forall x ensures x in Neutral(hm) <==> x in Neutral(hn) {
      if x in Neutral(hm) {
        NeutralIncluded(w, net, m, n, topic, hm, hn, x);
      } else if x in Neutral(hn) {
        NeutralIncluded(w, net, n, m, topic, hn, hm, x);
      }
    }
    NeutralCanonical(hm, hn);
  }

  /** The same messages in the same order; only who is self may differ. */
  ghost predicate Alike(hm: seq<Message>, hn: seq<Message>, address: string) {
    && |hm| == |hn|
    && forall i | 0 <= i < |hm| :: hm[i] == hn[i].(role := if hn[i].sender == address then UserSelf else UserPeer)
  }

  lemma NeutralAlike(w: World, net: Net, m: nat, topic: string, hm: seq<Message>, hn: seq<Message>)
    requires WorldLawful(w) && Reachable(w, net) && m in net.nodes && ValidTopic(topic)
    requires IsHistory(EnvOf(w, m), topic, net.nodes[m].archive, hm) && Neutral(hm) == Neutral(hn)
    ensures Alike(hm, hn, w.address(m))
  {
    assert |Neutral(hm)| == |hm| && |Neutral(hn)| == |hn|;
    forall i | 0 <= i < |hm| ensures hm[i] == hn[i].(role := RoleFor(hn[i], w.address(m))) {
      assert Neutral(hm)[i] == Neutral(hn)[i];
      RoleShown(w, net, m, topic, hm, i);
    }
  }

  /** What m shows of the room, n holds. */
  lemma AlikeHeld(w: World, net: Net, m: nat, n: nat, topic: string, hm: seq<Message>, hn: seq<Message>, id: string)
    requires WorldLawful(w) && Reachable(w, net) && m in net.nodes && n in net.nodes && ValidTopic(topic)
    requires IsHistory(EnvOf(w, m), topic, net.nodes[m].archive, hm)
    requires IsHistory(EnvOf(w, n), topic, net.nodes[n].archive, hn)
    requires Neutral(hm) == Neutral(hn) && InRoom(net, m, topic, id)
    ensures InRoom(net, n, topic, id)
  {
    var y := Stamped(EnvOf(w, m), net.sent[id].record);
    HistoryIsWhatIsHeld(w, net, m, topic, hm, y);
    NeutralMembers(hm, y.(role := Unspecified));
    NeutralMembers(hn, y.(role := Unspecified));
    var z :| z in hn && y.(role := Unspecified) == z.(role := Unspecified);
    HistoryIsWhatIsHeld(w, net, n, topic, hn, z);
    var id' :| InRoom(net, n, topic, id') && z == Stamped(EnvOf(w, n), net.sent[id'].record);
    ReachableInv(w, net);
    assert SentOk(w, id, net.sent[id]) && SentOk(w, id', net.sent[id']);
  }

  lemma AlikeNeutral(hm: seq<Message>, hn: seq<Message>, address: string)
    requires Alike(hm, hn, address)
    ensures Neutral(hm) == Neutral(hn)
  {}

  /** Two nodes answer with the same history of a room, up to who is self, exactly when they hold the
      same keys of it: however the network behaved, and whatever order scan and sort produce. */
  lemma Convergence(w: World, net: Net, m: nat, n: nat, topic: string, hm: seq<Message>, hn: seq<Message>)
    requires WorldLawful(w) && Reachable(w, net) && m in net.nodes && n in net.nodes && ValidTopic(topic)
    requires IsHistory(EnvOf(w, m), topic, net.nodes[m].archive, hm)
    requires IsHistory(EnvOf(w, n), topic, net.nodes[n].archive, hn)
    ensures Alike(hm, hn, w.address(m)) <==> SameRoom(net, m, n, topic)
  {
    if SameRoom(net, m, n, topic) {
      SameNeutral(w, net, m, n, topic, hm, hn);
      NeutralAlike(w, net, m, topic, hm, hn);
    }
    if Alike(hm, hn, w.address(m)) {
      AlikeNeutral(hm, hn, w.address(m));
      forall id | id in net.sent && net.sent[id].record.roomTopic == topic
        ensures BuildKey(topic, id) in net.nodes[m].archive <==> BuildKey(topic, id) in net.nodes[n].archive
      {
        if InRoom(net, m, topic, id) {
          AlikeHeld(w, net, m, n, topic, hm, hn, id);
        } else if InRoom(net, n, topic, id) {
          AlikeHeld(w, net, n, m, topic, hn, hm, id);
        }
      }
    }
  }

  // ---- from what was handed to a send to what a client is shown -------------------------------------------

  lemma SentStays(w: World, net: Net, a: Action, net': Net, id: string)
    requires Step(w, net, a) == Some(net') && id in net.sent
    ensures id in net'.sent && net'.sent[id] == net.sent[id]
  {}

  lemma {:induction false} SendsRecorded(w: World, acts: seq<Action>, net: Net)
    requires Run(w, acts) == Some(net)
    ensures forall i | 0 <= i < |acts| && acts[i].Send? ::
              acts[i].id in net.sent && net.sent[acts[i].id].record == Record(w, acts[i])
    ensures forall id | id in net.sent :: exists i :: 0 <= i < |acts| && acts[i].Send? && acts[i].id == id
  {
    if acts != [] {
      var n, front := |acts| - 1, acts[..|acts| - 1];
      var before := Run(w, front).value;
      SendsRecorded(w, front, before);
      forall id | id in before.sent ensures id in net.sent && net.sent[id] == before.sent[id] {
        SentStays(w, before, acts[n], net, id);
      }
      forall i | 0 <= i < n ensures front[i] == acts[i] {}
      forall id | id in net.sent ensures exists i :: 0 <= i < |acts| && acts[i].Send? && acts[i].id == id {
        if id in before.sent {
          var i :| 0 <= i < |front| && front[i].Send? && front[i].id == id;
          assert acts[i].id == id;
        } else {
          assert acts[n].Send? && acts[n].id == id;
        }
      }
    }
  }

  /** A node's history of a room: for every send of the run to that room whose key the node holds, the text,
      id, stamp and sender it was handed, as self exactly when the sender has this node's address. */
  lemma HistoryIsWhatWasSent(w: World, acts: seq<Action>, net: Net, n: nat, topic: string, h: seq<Message>, m: Message)
    requires WorldLawful(w) && Run(w, acts) == Some(net) && n in net.nodes && ValidTopic(topic)
    requires IsHistory(EnvOf(w, n), topic, net.nodes[n].archive, h)
    ensures m in h <==>
              exists i :: 0 <= i < |acts| && acts[i].Send? && acts[i].topic == topic
                && BuildKey(topic, acts[i].id) in net.nodes[n].archive
                && m == Message(id := acts[i].id, roomTopic := topic,
                                role := if w.address(acts[i].n) == w.address(n) then UserSelf else UserPeer,
                                state := Complete, text := acts[i].text, timestamp := acts[i].nowMs,
                                sender := w.address(acts[i].n))
  {
    HistoryIsWhatIsHeld(w, net, n, topic, h, m);
    SendsRecorded(w, acts, net);
  }

  /** It runs from the oldest message to the newest, and by id within one stamp. */
  lemma HistoryInOrder(w: World, net: Net, n: nat, topic: string, h: seq<Message>, i: nat, j: nat)
    requires WorldLawful(w) && Reachable(w, net) && n in net.nodes && ValidTopic(topic) && i < j < |h|
    requires IsHistory(EnvOf(w, n), topic, net.nodes[n].archive, h)
    ensures h[i].timestamp < h[j].timestamp || (h[i].timestamp == h[j].timestamp && Order.Less(h[i].id, h[j].id))
  {
    HistoryDistinct(w, net, n, topic, h);
    SortedIffChronological(h);
  }

  ghost predicate PushedOk(w: World, net: Net) {
    forall n, m | n in net.nodes && m in net.nodes[n].inbox.pushed ::
      exists id :: id in net.sent && m == Stamped(EnvOf(w, n), net.sent[id].record)
  }

  lemma DeliveryPushes(w: World, net: Net, n: nat, nd: Node, id: string, m: Message)
    requires Inv(w, net) && id in net.sent && net.sent[id].payload.Some?
    requires m in Delivered(w, n, nd, net.sent[id].record.roomTopic, net.sent[id].payload.value).inbox.pushed
    ensures m in nd.inbox.pushed || m == Stamped(EnvOf(w, n), net.sent[id].record)
  {
    assert SentOk(w, id, net.sent[id]);
  }

  lemma StepPushed(w: World, net: Net, a: Action, net': Net)
    requires Inv(w, net) && PushedOk(w, net) && Step(w, net, a) == Some(net')
    ensures PushedOk(w, net')
  {
    forall n, m | n in net'.nodes && m in net'.nodes[n].inbox.pushed
      ensures exists id :: id in net'.sent && m == Stamped(EnvOf(w, n), net'.sent[id].record)
    {
      if n in net.nodes && m in net.nodes[n].inbox.pushed {
        var id :| id in net.sent && m == Stamped(EnvOf(w, n), net.sent[id].record);
        SentStays(w, net, a, net', id);
      } else if a.Live? {
        assert OnAir(net.sent, (a.topic, a.bytes).0, (a.topic, a.bytes).1);
        var id :| id in net.sent && net.sent[id].record.roomTopic == a.topic && net.sent[id].payload == Some(a.bytes);
        DeliveryPushes(w, net, n, net.nodes[n], id, m);
      } else if a.Heal? {
        var bytes := net.nodes[a.peer].archive[a.key];
        assert NodeOk(net.sent, net.nodes[a.peer]);
        var id :| IsCopy(net.sent, id, a.key, bytes);
        HealedTopic(w, net, id, a.key, bytes, a.frame);
        DeliveryPushes(w, net, n, net.nodes[n].(archive := net.nodes[n].archive[a.key := bytes]), id, m);
      }
    }
  }

  lemma {:induction false} RunPushed(w: World, acts: seq<Action>, net: Net)
    requires WorldLawful(w) && Run(w, acts) == Some(net)
    ensures PushedOk(w, net)
  {
    if acts != [] {
      var front := acts[..|acts| - 1];
      RunPushed(w, front, Run(w, front).value);
      RunInv(w, front, Run(w, front).value);
      StepPushed(w, Run(w, front).value, acts[|acts| - 1], net);
    }
  }

  /** Whatever the funnel pushes to a client is what some send of the run was handed, over either route. */
  lemma PushedIsWhatWasSent(w: World, acts: seq<Action>, net: Net, n: nat, m: Message)
    requires WorldLawful(w) && Run(w, acts) == Some(net) && n in net.nodes && m in net.nodes[n].inbox.pushed
    ensures exists i :: 0 <= i < |acts| && acts[i].Send?
              && m == Message(id := acts[i].id, roomTopic := acts[i].topic,
                              role := if w.address(acts[i].n) == w.address(n) then UserSelf else UserPeer,
                              state := Complete, text := acts[i].text, timestamp := acts[i].nowMs,
                              sender := w.address(acts[i].n))
  {
    RunPushed(w, acts, net);
    SendsRecorded(w, acts, net);
  }

  /** What a history has shown below the cap is not pushed when it comes in over the live route. */
  lemma ShownNotPushed(w: World, net: Net, n: nat, topic: string, ms: seq<Message>, scanned: Net,
                       t: string, bytes: Bytes, net': Net, m: Message)
    requires n in net.nodes && |net.nodes[n].inbox.seen| + |ms| <= MAX_SEEN
    requires Step(w, net, Scan(n, topic, ms)) == Some(scanned) && Step(w, scanned, Live(n, t, bytes)) == Some(net')
    requires Decode(EnvOf(w, n), t, bytes) == Some(m) && m.id in Ids(ms)
    ensures net'.nodes[n].inbox.pushed == net.nodes[n].inbox.pushed
    ensures net'.nodes[n].inbox.queue == net.nodes[n].inbox.queue
  {
    ScannedNotPushed(EnvOf(w, n), net.nodes[n].inbox, Ids(ms), t, bytes, m);
  }

  /** Nor is a node's own send when it comes back. */
  lemma EchoNotPushed(w: World, net: Net, a: Action, sent: Net, net': Net)
    requires WorldLawful(w) && a.Send? && a.n in net.nodes && a.published && Step(w, net, a) == Some(sent)
    requires sent.sent[a.id].payload.Some?
    requires Step(w, sent, Live(a.n, a.topic, sent.sent[a.id].payload.value)) == Some(net')
    ensures net'.nodes[a.n].inbox.pushed == net.nodes[a.n].inbox.pushed
    ensures net'.nodes[a.n].inbox.queue == net.nodes[a.n].inbox.queue
  {
    PayloadDecodes(EnvOf(w, a.n), a.nonce, Record(w, a));
  }

  // ---- delivery decides what is held ---------------------------------------------------------------

  /** The node has the record's archive write done, queued, or still to make. */
  ghost predicate Holds(sent: map<string, Sending>, nd: Node, id: string) {
    && id in sent && sent[id].payload.Some?
    && (    || BuildKey(sent[id].record.roomTopic, id) in nd.archive
        || id in nd.owed
        || (BuildKey(sent[id].record.roomTopic, id), sent[id].payload.value) in nd.inbox.queue)
  }

  /** Everything the node got it holds, and nothing else; and it has seen nothing else but sends of its
      own that never went out. */
  ghost predicate Kept(sent: map<string, Sending>, nd: Node) {
    && (forall id | id in nd.inbox.seen :: id in nd.got || (id in sent && sent[id].payload.None?))
    && nd.owed <= nd.got
    && forall id :: id in nd.got <==> Holds(sent, nd, id)
  }

  ghost predicate AllKept(net: Net) {
    forall n | n in net.nodes :: Kept(net.sent, net.nodes[n])
  }

  /** Distinct ids sent have distinct keys. */
  lemma KeyOf(w: World, net: Net, a: string, b: string)
    requires Inv(w, net) && a in net.sent && b in net.sent
    ensures BuildKey(net.sent[a].record.roomTopic, a) == BuildKey(net.sent[b].record.roomTopic, b) <==> a == b
  {
    assert SentOk(w, a, net.sent[a]) && SentOk(w, b, net.sent[b]);
    BuildKeyInjective(net.sent[a].record.roomTopic, a, net.sent[b].record.roomTopic, b);
  }

  /** One more record is held, and got. */
  lemma KeptGrows(w: World, net: Net, nd: Node, nd': Node, id: string)
    requires Inv(w, net) && Kept(net.sent, nd) && id in net.sent && net.sent[id].payload.Some?
    requires nd'.got == nd.got + {id} && nd'.inbox.seen <= nd.inbox.seen + {id} && nd'.owed <= nd'.got
    requires forall x | x in net.sent && net.sent[x].payload.Some? ::
               Holds(net.sent, nd', x) <==> Holds(net.sent, nd, x) || x == id
    ensures Kept(net.sent, nd')
  {}

  lemma DeliveredKept(w: World, net: Net, n: nat, nd: Node, id: string)
    requires Inv(w, net) && Kept(net.sent, nd) && id in net.sent && net.sent[id].payload.Some?
    ensures Kept(net.sent, Delivered(w, n, nd, net.sent[id].record.roomTopic, net.sent[id].payload.value))
  {
    var s := net.sent[id];
    assert SentOk(w, id, s);
    var nd' := Delivered(w, n, nd, s.record.roomTopic, s.payload.value);
    var entry := (BuildKey(s.record.roomTopic, id), s.payload.value);
    assert nd'.inbox.queue == if id in nd.inbox.seen then nd.inbox.queue else nd.inbox.queue + [entry];
    forall x | x in net.sent && net.sent[x].payload.Some?
      ensures Holds(net.sent, nd', x) <==> Holds(net.sent, nd, x) || x == id
    {
      KeyOf(w, net, x, id);
    }
    KeptGrows(w, net, nd, nd', id);
  }

  lemma ArchivedKept(w: World, net: Net, nd: Node, id: string, archive: map<string, Bytes>)
    requires Inv(w, net) && id in net.sent && net.sent[id].payload.Some?
    requires archive == nd.archive[BuildKey(net.sent[id].record.roomTopic, id) := net.sent[id].payload.value]
    ensures forall x | x in net.sent && net.sent[x].payload.Some? ::
              Holds(net.sent, nd.(archive := archive), x) <==> Holds(net.sent, nd, x) || x == id
  {
    forall x | x in net.sent && net.sent[x].payload.Some?
      ensures Holds(net.sent, nd.(archive := archive), x) <==> Holds(net.sent, nd, x) || x == id
    {
      KeyOf(w, net, x, id);
    }
  }

  lemma PutKept(w: World, net: Net, n: nat, id: string, net': Net)
    requires Inv(w, net) && AllKept(net) && n in net.nodes && PutStep(w, net, n, id, true) == Some(net')
    ensures AllKept(net')
  {
    var nd, nd' := net.nodes[n], net'.nodes[n];
    ArchivedKept(w, net, nd, id, nd'.archive);
    assert Holds(net.sent, nd, id) && nd.got + {id} == nd.got;
    KeptGrows(w, net, nd, nd', id);
  }

  lemma WorkKept(w: World, net: Net, n: nat, net': Net)
    requires Inv(w, net) && AllKept(net) && n in net.nodes && WorkStep(w, net, n, true) == Some(net')
    ensures AllKept(net')
  {
    var nd, nd' := net.nodes[n], net'.nodes[n];
    assert NodeOk(net.sent, nd);
    var item := nd.inbox.queue[0];
    assert Copied(net.sent, item.0, item.1);
    var id :| IsCopy(net.sent, id, item.0, item.1);
    ArchivedKept(w, net, nd, id, nd'.archive);
    assert nd.inbox.queue == [item] + nd'.inbox.queue;
    assert Holds(net.sent, nd, id) && nd.got + {id} == nd.got;
    forall x | x in net.sent && net.sent[x].payload.Some?
      ensures Holds(net.sent, nd', x) <==> Holds(net.sent, nd, x) || x == id {}
    KeptGrows(w, net, nd, nd', id);
  }

  /** The merge and the callback it triggers, taken together. */
  lemma MergedKept(w: World, net: Net, n: nat, nd: Node, id: string)
    requires Inv(w, net) && Kept(net.sent, nd) && id in net.sent && net.sent[id].payload.Some?
    ensures var s := net.sent[id];
            var merged := nd.(archive := nd.archive[BuildKey(s.record.roomTopic, id) := s.payload.value]);
            Kept(net.sent, Delivered(w, n, merged, s.record.roomTopic, s.payload.value))
  {
    var s := net.sent[id];
    assert SentOk(w, id, s);
    var merged := nd.(archive := nd.archive[BuildKey(s.record.roomTopic, id) := s.payload.value]);
    ArchivedKept(w, net, nd, id, merged.archive);
    var marked := merged.(got := nd.got + {id});
    KeptGrows(w, net, nd, marked, id);
    DeliveredKept(w, net, n, marked, id);
    assert marked.got + {id} == marked.got;
  }

  lemma HealKept(w: World, net: Net, n: nat, peer: nat, key: string, frame: string, net': Net)
    requires Inv(w, net) && AllKept(net) && n in net.nodes && HealStep(w, net, n, peer, key, frame) == Some(net')
    ensures AllKept(net')
  {
    var bytes := net.nodes[peer].archive[key];
    assert NodeOk(net.sent, net.nodes[peer]);
    var id :| IsCopy(net.sent, id, key, bytes);
    HealedTopic(w, net, id, key, bytes, frame);
    MergedKept(w, net, n, net.nodes[n], id);
  }

  lemma {:induction false} AbsorbsOnly(seen: set<string>, ids: seq<string>, got: set<string>)
    requires forall i | 0 <= i < |ids| :: ids[i] in got
    ensures AbsorbAll(seen, ids) <= seen + got
  {
    if ids != [] {
      AbsorbsOnly(seen, ids[..|ids| - 1], got);
    }
  }

  lemma ScannedGot(w: World, net: Net, n: nat, topic: string, ms: seq<Message>, m: Message)
    requires Inv(w, net) && AllKept(net) && n in net.nodes && ValidTopic(topic) && m in ms
    requires IsHistory(EnvOf(w, n), topic, net.nodes[n].archive, ms)
    ensures m.id in net.nodes[n].got
  {
    var nd := net.nodes[n];
    HistoryMembers(EnvOf(w, n), topic, nd.archive, ms);
    var k :| k in nd.archive && ScanPrefix(topic) <= k && Shown(EnvOf(w, n), topic, nd.archive[k]) == Some(m);
    var id := RoomEntry(w, net, n, topic, k);
    assert Holds(net.sent, nd, id);
  }

  lemma AbsorbedKept(net: Net, n: nat, inbox: Inbox)
    requires AllKept(net) && n in net.nodes && inbox.queue == net.nodes[n].inbox.queue
    requires inbox.seen <= net.nodes[n].inbox.seen + net.nodes[n].got
    ensures AllKept(net.(nodes := net.nodes[n := net.nodes[n].(inbox := inbox)]))
  {
    var nd := net.nodes[n];
    assert forall id :: Holds(net.sent, nd.(inbox := inbox), id) <==> Holds(net.sent, nd, id);
  }

  lemma ScanKept(w: World, net: Net, n: nat, topic: string, ms: seq<Message>, net': Net)
    requires Inv(w, net) && AllKept(net) && n in net.nodes && Step(w, net, Scan(n, topic, ms)) == Some(net')
    ensures AllKept(net')
  {
    var nd := net.nodes[n];
    forall i | 0 <= i < |ms| ensures Ids(ms)[i] in nd.got {
      ScannedGot(w, net, n, topic, ms, ms[i]);
    }
    AbsorbsOnly(nd.inbox.seen, Ids(ms), nd.got);
    AbsorbedKept(net, n, nd.inbox.(seen := AbsorbAll(nd.inbox.seen, Ids(ms))));
  }

  /** A new id is in nobody's hands. */
  lemma NotHeldBefore(w: World, net: Net, nd: Node, id: string, sent': map<string, Sending>)
    requires Inv(w, net) && NodeOk(net.sent, nd) && Kept(net.sent, nd) && id !in net.sent
    requires MessageId(id) && id in sent' && sent' == net.sent[id := sent'[id]]
    ensures Kept(sent', nd)
  {
    var key := BuildKey(sent'[id].record.roomTopic, id);
    forall k, b | Copied(net.sent, k, b) ensures k != key {
      var a :| IsCopy(net.sent, a, k, b);
      assert SentOk(w, a, net.sent[a]);
      BuildKeyInjective(net.sent[a].record.roomTopic, a, sent'[id].record.roomTopic, id);
    }
    assert !Holds(net.sent, nd, id);
  }

  lemma OwedKept(sent: map<string, Sending>, nd: Node, nd': Node, id: string)
    requires Kept(sent, nd) && id in sent && sent[id].payload.Some?
    requires nd' == nd.(inbox := nd.inbox.(seen := nd.inbox.seen + {id}), owed := nd.owed + {id}, got := nd.got + {id})
    ensures Kept(sent, nd')
  {
    forall x ensures Holds(sent, nd', x) <==> Holds(sent, nd, x) || x == id {}
  }

  lemma SendKept(w: World, net: Net, a: Action, net': Net)
    requires Inv(w, net) && AllKept(net) && a.Send? && a.n in net.nodes && SendStep(w, net, a) == Some(net')
    ensures AllKept(net')
  {
    var id := a.id;
    forall n | n in net'.nodes ensures Kept(net'.sent, net'.nodes[n]) {
      NotHeldBefore(w, net, net.nodes[n], id, net'.sent);
      if n == a.n && net'.sent[id].payload.Some? {
        OwedKept(net'.sent, net.nodes[n], net'.nodes[n], id);
      }
    }
  }

  lemma StepKept(w: World, net: Net, a: Action, net': Net)
    requires Inv(w, net) && AllKept(net) && w.putsHold && w.workHolds && Step(w, net, a) == Some(net')
    ensures AllKept(net')
  {
    match a {
      case Join(n) =>
      case Send(_, _, _, _, _, _, _) => SendKept(w, net, a, net');
      case Put(n, id, accepted) => PutKept(w, net, n, id, net');
      case Live(n, topic, bytes) =>
        assert OnAir(net.sent, (topic, bytes).0, (topic, bytes).1);
        var id :| id in net.sent && net.sent[id].record.roomTopic == topic && net.sent[id].payload == Some(bytes);
        DeliveredKept(w, net, n, net.nodes[n], id);
      case Heal(n, peer, key, frame) => HealKept(w, net, n, peer, key, frame, net');
      case Work(n, accepted) => WorkKept(w, net, n, net');
      case Scan(n, topic, ms) => ScanKept(w, net, n, topic, ms, net');
    }
  }

  lemma {:induction false} RunKept(w: World, acts: seq<Action>, net: Net)
    requires WorldLawful(w) && w.putsHold && w.workHolds && Run(w, acts) == Some(net)
    ensures AllKept(net)
  {
    if acts != [] {
      var front := acts[..|acts| - 1];
      RunKept(w, front, Run(w, front).value);
      RunInv(w, front, Run(w, front).value);
      StepKept(w, Run(w, front).value, acts[|acts| - 1], net);
    }
  }

  /** The worker has caught up and no send is half-way. */
  predicate Settled(nd: Node) {
    nd.inbox.queue == [] && nd.owed == {}
  }

  /** A settled node's archive is what it published and what it was ever delivered, by either route, in
      any order, however often: nothing was lost to the dedupe set or its clears. */
  lemma ArchiveIsWhatWasGot(w: World, net: Net, n: nat, id: string)
    requires WorldLawful(w) && w.putsHold && w.workHolds && Reachable(w, net) && n in net.nodes && id in net.sent
    ensures Settled(net.nodes[n]) ==>
              (BuildKey(net.sent[id].record.roomTopic, id) in net.nodes[n].archive <==> id in net.nodes[n].got)
  {
    var acts :| Run(w, acts) == Some(net);
    RunKept(w, acts, net);
    RunInv(w, acts, net);
    var nd := net.nodes[n];
    assert Kept(net.sent, nd) && NodeOk(net.sent, nd);
    if BuildKey(net.sent[id].record.roomTopic, id) in nd.archive {
      var key := BuildKey(net.sent[id].record.roomTopic, id);
      var a :| IsCopy(net.sent, a, key, nd.archive[key]);
      KeyOf(w, net, a, id);
      assert Holds(net.sent, nd, id);
    }
  }

  /** Settled nodes that were delivered the same messages of a room, in whatever way, show the same
      history of it. */
  lemma DeliveryDecidesHistory(w: World, net: Net, m: nat, n: nat, topic: string, hm: seq<Message>, hn: seq<Message>)
    requires WorldLawful(w) && Reachable(w, net) && m in net.nodes && n in net.nodes && ValidTopic(topic)
    requires IsHistory(EnvOf(w, m), topic, net.nodes[m].archive, hm)
    requires IsHistory(EnvOf(w, n), topic, net.nodes[n].archive, hn)
    ensures w.putsHold && w.workHolds && Settled(net.nodes[m]) && Settled(net.nodes[n]) ==>
              (Alike(hm, hn, w.address(m)) <==>
                 forall id | id in net.sent && net.sent[id].record.roomTopic == topic ::
                   id in net.nodes[m].got <==> id in net.nodes[n].got)
  {
    Convergence(w, net, m, n, topic, hm, hn);
    if w.putsHold && w.workHolds && Settled(net.nodes[m]) && Settled(net.nodes[n]) {
      forall id | id in net.sent && net.sent[id].record.roomTopic == topic
        ensures BuildKey(topic, id) in net.nodes[m].archive <==> id in net.nodes[m].got
        ensures BuildKey(topic, id) in net.nodes[n].archive <==> id in net.nodes[n].got
      {
        ArchiveIsWhatWasGot(w, net, m, id);
        ArchiveIsWhatWasGot(w, net, n, id);
      }
    }
  }

  // ---- a send whose archive write fails --------------------------------------------------------------

  ghost predicate HeldBy(net: Net, n: nat, id: string) {
    n in net.nodes && id in net.sent && BuildKey(net.sent[id].record.roomTopic, id) in net.nodes[n].archive
  }

  ghost predicate SentBy(net: Net, o: nat, id: string) {
    o in net.nodes && id in net.sent && net.sent[id].origin == o
  }

  /** What anyone archived of a sender's messages, the sender has archived too, once it is through with
      the send. */
  ghost predicate SenderHolds(net: Net) {
    forall n, id, o | HeldBy(net, n, id) && SentBy(net, o, id) && id !in net.nodes[o].owed :: HeldBy(net, o, id)
  }

  /** A send that went out is archived at its sender, or will be. */
  ghost predicate SendersKeep(net: Net) {
    forall id | id in net.sent && net.sent[id].payload.Some? ::
      && net.sent[id].origin in net.nodes
      && (id in net.nodes[net.sent[id].origin].owed || HeldBy(net, net.sent[id].origin, id))
  }

  lemma KeepsGrowing(w: World, net: Net, a: Action, net': Net, n: nat, id: string)
    requires w.putsHold && Step(w, net, a) == Some(net') && n in net.nodes && id in net.sent
    requires id in net.nodes[n].owed || HeldBy(net, n, id)
    ensures id in net'.sent && net'.sent[id] == net.sent[id]
    ensures n in net'.nodes && (id in net'.nodes[n].owed || HeldBy(net', n, id))
  {
    match a {
      case Join(_) =>
      case Send(_, _, _, _, _, _, _) =>
      case Put(_, _, _) =>
      case Live(_, _, _) =>
      case Heal(_, _, _, _) =>
      case Work(_, _) =>
      case Scan(_, _, _) =>
    }
  }

  lemma StepSendersKeep(w: World, net: Net, a: Action, net': Net)
    requires w.putsHold && SendersKeep(net) && Step(w, net, a) == Some(net')
    ensures SendersKeep(net')
  {
    forall id | id in net'.sent && net'.sent[id].payload.Some?
      ensures net'.sent[id].origin in net'.nodes
      ensures id in net'.nodes[net'.sent[id].origin].owed || HeldBy(net', net'.sent[id].origin, id)
    {
      if id in net.sent {
        SentStays(w, net, a, net', id);
        KeepsGrowing(w, net, a, net', net.sent[id].origin, id);
      } else {
        assert a.Send? && a.id == id;
      }
    }
  }

  lemma {:induction false} RunSendersKeep(w: World, acts: seq<Action>, net: Net)
    requires w.putsHold && Run(w, acts) == Some(net)
    ensures SendersKeep(net)
  {
    if acts != [] {
      var front := acts[..|acts| - 1];
      RunSendersKeep(w, front, Run(w, front).value);
      StepSendersKeep(w, Run(w, front).value, acts[|acts| - 1], net);
    }
  }

  /** Only what went out is archived anywhere. */
  lemma HeldWentOut(w: World, net: Net, n: nat, id: string)
    requires Inv(w, net) && HeldBy(net, n, id)
    ensures net.sent[id].payload.Some?
  {
    var key := BuildKey(net.sent[id].record.roomTopic, id);
    assert NodeOk(net.sent, net.nodes[n]);
    var a :| IsCopy(net.sent, a, key, net.nodes[n].archive[key]);
    KeyOf(w, net, a, id);
  }

  lemma Next(w: World, net: Net, a: Action, net': Net)
    requires Reachable(w, net) && Step(w, net, a) == Some(net')
    ensures Reachable(w, net')
  {
    var acts :| Run(w, acts) == Some(net);
    assert (acts + [a])[..|acts + [a]| - 1] == acts;
    assert Run(w, acts + [a]) == Some(net');
  }

  /** A send of node 0 that a fresh net takes and the network carries. */
  predicate FirstSend(w: World, a: Action) {
    && a.Send? && a.n == 0 && a.published && MessageId(a.id) && ValidTopic(a.topic)
    && Payload(EnvOf(w, 0), a.nonce, Record(w, a)).Some?
  }

  /** Published, then refused by the sender's own store, so the sender pushes ERROR. */
  lemma PublishedNotArchived(w: World, a: Action, m: Message, nodes: map<nat, Node>) returns (net: Net)
    requires !w.putsHold && FirstSend(w, a) && m == Record(w, a)
    requires nodes == map[0 := EMPTY, 1 := EMPTY]
    ensures Reachable(w, net) && 0 in net.nodes && 1 in net.nodes && Settled(net.nodes[0])
    ensures net.nodes[0].archive == map[] && net.nodes[1] == EMPTY
    ensures net.sent == map[m.id := Sending(0, m, Payload(EnvOf(w, 0), a.nonce, m))]
    ensures (m.roomTopic, Payload(EnvOf(w, 0), a.nonce, m).value) in net.air
  {
    assert Run(w, []) == Some(START);
    var n1 := START.(nodes := map[0 := EMPTY]);
    Next(w, START, Join(0), n1);
    var n2 := START.(nodes := nodes);
    assert n1.nodes[1 := EMPTY] == nodes;
    Next(w, n1, Join(1), n2);
    var n3 := SendStep(w, n2, a).value;
    Next(w, n2, a, n3);
    net := PutStep(w, n3, 0, m.id, false).value;
    Next(w, n3, Put(0, m.id, false), net);
  }

  /** The other node was delivered the publish, and archives it. */
  lemma ArchivedElsewhere(w: World, a: Action) returns (net: Net)
    requires WorldLawful(w) && !w.putsHold && FirstSend(w, a)
    ensures Reachable(w, net) && !SenderHolds(net)
  {
    var m := Record(w, a);
    var n4 := PublishedNotArchived(w, a, m, map[0 := EMPTY, 1 := EMPTY]);
    var bytes := Payload(EnvOf(w, 0), a.nonce, m).value;
    PayloadDecodes(EnvOf(w, 0), a.nonce, m);
    var nd := Delivered(w, 1, n4.nodes[1], m.roomTopic, bytes);
    var key := BuildKey(m.roomTopic, m.id);
    assert nd.inbox.queue == [(key, bytes)];
    var n5 := n4.(nodes := n4.nodes[1 := nd]);
    Next(w, n4, Live(1, m.roomTopic, bytes), n5);
    net := WorkStep(w, n5, 1, true).value;
    Next(w, n5, Work(1, true), net);
    assert HeldBy(net, 1, m.id) && SentBy(net, 0, m.id) && !HeldBy(net, 0, m.id);
  }

  /** A sender holds whatever others hold of its messages, whatever else fails, exactly when no store
      refuses a send's own Put: refused after the publish, it leaves the message with everyone but its
      sender, whose echo the dedupe set absorbs. */
  lemma SenderHoldsIffPutsHold(w: World, a: Action)
    requires WorldLawful(w) && FirstSend(w, a)
    ensures (forall net | Reachable(w, net) :: SenderHolds(net)) <==> w.putsHold
  {
    if w.putsHold {
      forall net | Reachable(w, net) ensures SenderHolds(net) {
        var acts :| Run(w, acts) == Some(net);
        RunSendersKeep(w, acts, net);
        RunInv(w, acts, net);
        forall n, id, o | HeldBy(net, n, id) && SentBy(net, o, id) && id !in net.nodes[o].owed
          ensures HeldBy(net, o, id)
        {
          HeldWentOut(w, net, n, id);
        }
      }
    } else {
      var net := ArchivedElsewhere(w, a);
    }
  }
}
