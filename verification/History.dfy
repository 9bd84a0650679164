/** Room history: decode what decodes, flip the role, sort by (timestamp, id). */
module History {
  import opened Basics
  import opened Records
  import opened GlobalDb
  import Order

  /** What a node's messaging component is built with. */
  datatype Env = Env(sender: string, wire: Wire<Message>, crypto: Crypto)

  ghost predicate EnvLawful(env: Env) {
    Lawful(env.wire) && CryptoLawful(env.crypto)
  }

  function RoleFor(msg: Message, sender: string): Role {
    if msg.sender == sender then UserSelf else UserPeer
  }

  /** Decrypt when the seam is on, then parse. */
  function Decode(env: Env, topic: string, value: Bytes): Option<Message> {
    match env.crypto
    case Plain => env.wire.decode(value)
    case Cipher(_, decrypt) =>
      match decrypt(topic, value)
      case None => None
      case Some(plain) => env.wire.decode(plain)
  }

  predicate Before(a: Message, b: Message) {
    a.timestamp < b.timestamp || (a.timestamp == b.timestamp && Order.Less(a.id, b.id))
  }

  /** What std::sort promises of its result. */
  predicate Sorted(ms: seq<Message>) {
    forall i, j | 0 <= i < j < |ms| :: !Before(ms[j], ms[i])
  }

  predicate DistinctIds(ms: seq<Message>) {
    forall i, j | 0 <= i < j < |ms| :: ms[i].id != ms[j].id
  }

  lemma BeforeTotal(a: Message, b: Message)
    requires a.id != b.id
    ensures Before(a, b) <==> !Before(b, a)
  {
    Order.Trichotomy(a.id, b.id);
    if Order.Less(a.id, b.id) && Order.Less(b.id, a.id) {
      Order.Transitive(a.id, b.id, a.id);
      Order.Irreflexive(a.id);
    }
  }

  lemma HasMember(s: seq<Message>)
    ensures s != [] ==> exists m :: m in s
  {
    if s != [] {
      assert s[0] in s;
    }
  }

  lemma SameHead(s: seq<Message>, t: seq<Message>)
    requires Sorted(s) && Sorted(t) && DistinctIds(s) && DistinctIds(t) && s != [] && t != []
    requires forall m :: m in s <==> m in t
    ensures s[0] == t[0]
  {
    assert t[0] in s && s[0] in t;
    var i :| 0 <= i < |s| && s[i] == t[0];
    var j :| 0 <= j < |t| && t[j] == s[0];
    if i > 0 && j > 0 {
      BeforeTotal(s[0], s[i]);
    }
  }

  lemma TailMember(s: seq<Message>, m: Message)
    requires DistinctIds(s) && s != []
    ensures m in s[1..] <==> m in s && m != s[0]
  {
    if m in s && m != s[0] {
      var i :| 0 <= i < |s| && s[i] == m;
      assert s[1..][i - 1] == m;
    }
  }

  /** The arrangement is unique: whatever std::sort does, distinct ids leave it one result. */
  lemma {:induction false} Canonical(s: seq<Message>, t: seq<Message>)
    requires Sorted(s) && Sorted(t) && DistinctIds(s) && DistinctIds(t)
    requires forall m :: m in s <==> m in t
    ensures s == t
    decreases |s|
  {
    HasMember(s);
    HasMember(t);
    if s != [] && t != [] {
      SameHead(s, t);
      forall m ensures m in s[1..] <==> m in t[1..] {
        TailMember(s, m);
        TailMember(t, m);
      }
      Canonical(s[1..], t[1..]);
      assert s == [s[0]] + s[1..] && t == [t[0]] + t[1..];
    }
  }

  // ---- a sort that meets std::sort's promise ---------------------------------------------------

  lemma BeforeAsymmetric(a: Message, b: Message)
    requires Before(a, b)
    ensures !Before(b, a)
  {
    if Order.Less(a.id, b.id) && Order.Less(b.id, a.id) {
      Order.Transitive(a.id, b.id, a.id);
    }
    Order.Irreflexive(a.id);
  }

  lemma InsertBack(m: Message, ms: seq<Message>, tail: seq<Message>)
    requires ms != [] && Sorted(ms) && Sorted(tail) && !Before(m, ms[0])
    requires forall x :: x in tail <==> x == m || x in ms[1..]
    ensures Sorted([ms[0]] + tail)
    ensures forall x :: x in [ms[0]] + tail <==> x == m || x in ms
  {
    assert ms == [ms[0]] + ms[1..];
    forall j | 0 <= j < |tail| ensures !Before(tail[j], ms[0]) {
      assert tail[j] in tail;
      assert forall k | 0 <= k < |ms| - 1 :: ms[1..][k] == ms[k + 1];
    }
  }

  lemma NotBeforeTransitive(a: Message, b: Message, c: Message)
    requires !Before(a, b) && !Before(b, c)
    ensures !Before(a, c)
  {
    if Before(a, c) && a.timestamp == b.timestamp == c.timestamp {
      Order.Trichotomy(a.id, b.id);
      Order.Trichotomy(b.id, c.id);
      if a.id != b.id && b.id != c.id {
        Order.Transitive(c.id, b.id, a.id);
        Order.Transitive(a.id, c.id, a.id);
      }
      if a.id == b.id || b.id == c.id {
        assert !Order.Less(a.id, c.id);
      }
      Order.Irreflexive(a.id);
    }
  }

  lemma InsertFront(m: Message, ms: seq<Message>)
    requires Sorted(ms) && ms != [] && !Before(ms[0], m)
    ensures Sorted([m] + ms)
  {
    forall j | 0 <= j < |ms| ensures !Before(ms[j], m) {
      if j > 0 && Before(ms[j], m) {
        assert !Before(ms[j], ms[0]);
        NotBeforeTransitive(ms[j], ms[0], m);
      }
    }
  }

  function Insert(m: Message, ms: seq<Message>): (r: seq<Message>)
    requires Sorted(ms)
    ensures Sorted(r) && |r| == |ms| + 1
    ensures forall x :: x in r <==> x == m || x in ms
  {
    if ms == [] then [m]
    else if !Before(ms[0], m) then
      InsertFront(m, ms);
      [m] + ms
    else
      BeforeAsymmetric(ms[0], m);
      InsertBack(m, ms, Insert(m, ms[1..]));
      [ms[0]] + Insert(m, ms[1..])
  }

  /** The comparator is the strict weak order std::sort demands: irreflexive, asymmetric, transitive, and
      so is standing on a level. */
  lemma StrictWeakOrder(a: Message, b: Message, c: Message)
    ensures !Before(a, a)
    ensures Before(a, b) ==> !Before(b, a)
    ensures Before(a, b) && Before(b, c) ==> Before(a, c)
    ensures !Before(a, b) && !Before(b, a) && !Before(b, c) && !Before(c, b) ==> !Before(a, c) && !Before(c, a)
  {
    Order.Irreflexive(a.id);
    if Before(a, b) {
      BeforeAsymmetric(a, b);
    }
    if Before(a, b) && Before(b, c) && a.timestamp == c.timestamp {
      Order.Transitive(a.id, b.id, c.id);
    }
    if !Before(a, b) && !Before(b, c) {
      NotBeforeTransitive(a, b, c);
    }
    if !Before(c, b) && !Before(b, a) {
      NotBeforeTransitive(c, b, a);
    }
  }

  /** By time, and within one stamp by id; the comparator does not appear. */
  lemma SortedIffChronological(ms: seq<Message>)
    ensures Sorted(ms) <==>
              forall i, j | 0 <= i < j < |ms| ::
                && ms[i].timestamp <= ms[j].timestamp
                && (ms[i].timestamp == ms[j].timestamp ==> ms[i].id == ms[j].id || Order.Less(ms[i].id, ms[j].id))
  {
    forall i, j | 0 <= i < j < |ms|
      ensures !Before(ms[j], ms[i]) <==>
                && ms[i].timestamp <= ms[j].timestamp
                && (ms[i].timestamp == ms[j].timestamp ==> ms[i].id == ms[j].id || Order.Less(ms[i].id, ms[j].id))
    {
      Order.Irreflexive(ms[i].id);
      if ms[i].id != ms[j].id {
        BeforeTotal(ms[i], ms[j]);
      }
    }
  }

  function Arrange(ms: seq<Message>): (r: seq<Message>)
    ensures Sorted(r) && |r| == |ms| && forall m :: m in r <==> m in ms
  {
    if ms == [] then []
    else
      assert ms == ms[..|ms| - 1] + [ms[|ms| - 1]];
      Insert(ms[|ms| - 1], Arrange(ms[..|ms| - 1]))
  }

  /** The record under one scanned value, with the role of this node. */
  function Shown(env: Env, topic: string, value: Bytes): Option<Message> {
    match Decode(env, topic, value)
    case None => None
    case Some(m) => Some(m.(role := RoleFor(m, env.sender)))
  }

  /** The decodable records of a scan, in scan order. */
  function Collect(env: Env, topic: string, entries: seq<Entry>): seq<Message> {
    if entries == [] then []
    else
      Collect(env, topic, entries[..|entries| - 1])
      + match Shown(env, topic, entries[|entries| - 1].1)
        case None => []
        case Some(m) => [m]
  }

  lemma {:induction false} CollectMembers(env: Env, topic: string, entries: seq<Entry>, m: Message)
    ensures m in Collect(env, topic, entries) <==> exists e :: e in entries && Shown(env, topic, e.1) == Some(m)
  {
    if entries != [] {
      var front, last := entries[..|entries| - 1], entries[|entries| - 1];
      CollectMembers(env, topic, front, m);
      assert entries == front + [last];
      assert last in entries;
    }
  }

  /** No two decodable records of the room carry the same id. */
  ghost predicate IdsDistinct(env: Env, topic: string, data: map<string, Bytes>, prefix: string) {
    forall k, l | k in data && l in data && prefix <= k && prefix <= l && k != l
      && Shown(env, topic, data[k]).Some? && Shown(env, topic, data[l]).Some? ::
      Shown(env, topic, data[k]).value.id != Shown(env, topic, data[l]).value.id
  }

  /** Entries taken from data under prefix, each key once. */
  ghost predicate Drawn(data: map<string, Bytes>, prefix: string, entries: seq<Entry>) {
    && (forall e | e in entries :: e.0 in data && prefix <= e.0 && e.1 == data[e.0])
    && (forall i, j | 0 <= i < j < |entries| :: entries[i].0 != entries[j].0)
  }

  lemma {:induction false} CollectDistinct(env: Env, topic: string, data: map<string, Bytes>, prefix: string,
                                           entries: seq<Entry>)
    requires Drawn(data, prefix, entries) && IdsDistinct(env, topic, data, prefix)
    ensures DistinctIds(Collect(env, topic, entries))
  {
    if entries != [] {
      var front, last := entries[..|entries| - 1], entries[|entries| - 1];
      assert last in entries && forall e | e in front :: e in entries;
      CollectDistinct(env, topic, data, prefix, front);
      forall m | m in Collect(env, topic, front) && Shown(env, topic, last.1).Some?
        ensures m.id != Shown(env, topic, last.1).value.id
      {
        CollectMembers(env, topic, front, m);
        var e :| e in front && Shown(env, topic, e.1) == Some(m);
        assert e.0 != last.0;
      }
    }
  }

  lemma ScanMembers(env: Env, topic: string, data: map<string, Bytes>, prefix: string, scan: seq<Entry>)
    requires IsScan(data, prefix, scan)
    ensures forall m :: m in Collect(env, topic, scan) <==>
              exists k :: k in data && prefix <= k && Shown(env, topic, data[k]) == Some(m)
  {
    forall m
      ensures m in Collect(env, topic, scan) <==>
                exists k :: k in data && prefix <= k && Shown(env, topic, data[k]) == Some(m)
    {
      CollectMembers(env, topic, scan, m);
      if k :| k in data && prefix <= k && Shown(env, topic, data[k]) == Some(m) {
        assert (k, data[k]) in scan;
      }
      if e :| e in scan && Shown(env, topic, e.1) == Some(m) {
        assert e.0 in data && prefix <= e.0 && Shown(env, topic, data[e.0]) == Some(m);
      }
    }
  }

  lemma {:induction false} InsertKeepsAll(m: Message, ms: seq<Message>)
    requires Sorted(ms)
    ensures multiset(Insert(m, ms)) == multiset(ms) + multiset{m}
  {
    if ms != [] && Before(ms[0], m) {
      InsertKeepsAll(m, ms[1..]);
      assert ms == [ms[0]] + ms[1..];
    }
  }

  lemma {:induction false} ArrangeKeepsAll(ms: seq<Message>)
    ensures multiset(Arrange(ms)) == multiset(ms)
  {
    if ms != [] {
      ArrangeKeepsAll(ms[..|ms| - 1]);
      InsertKeepsAll(ms[|ms| - 1], Arrange(ms[..|ms| - 1]));
      assert ms == ms[..|ms| - 1] + [ms[|ms| - 1]];
    }
  }

  lemma CountedTwice(t: seq<Message>, i: nat, j: nat)
    requires i < j < |t| && t[i] == t[j]
    ensures multiset(t)[t[i]] >= 2
  {
    assert t == t[..i] + [t[i]] + t[i + 1..j] + [t[j]] + t[j + 1..];
  }

  lemma {:induction false} OnlyOne(s: seq<Message>, m: Message)
    requires DistinctIds(s)
    ensures multiset(s)[m] <= 1
  {
    if s != [] {
      OnlyOne(s[1..], m);
      assert s == [s[0]] + s[1..];
      assert m == s[0] ==> m !in s[1..];
    }
  }

  /** Rearranging does not make two ids meet. */
  lemma DistinctByCount(s: seq<Message>, t: seq<Message>)
    requires DistinctIds(s) && multiset(s) == multiset(t)
    ensures DistinctIds(t)
  {
    forall i, j | 0 <= i < j < |t| ensures t[i].id != t[j].id {
      assert t[i] in multiset(s) && t[j] in multiset(s);
      OnlyOne(s, t[i]);
      if t[i] == t[j] {
        CountedTwice(t, i, j);
      }
    }
  }
}
