/** Archive keys: gcs/messages/<topic>/<id>, and the topic read back from one. */
module KeyGrammar {
  import opened Basics

  const MESSAGES_PREFIX := "gcs/messages/"
  const ROOM_NAMESPACE := "gcs/chat/"
  const MAX_TOPIC_LENGTH := 128

  /** The FFI's IsValidRoomTopicShape: the namespace and one more non-empty segment. */
  predicate ValidTopic(topic: string) {
    |topic| > |ROOM_NAMESPACE| && ROOM_NAMESPACE <= topic && '/' !in topic[|ROOM_NAMESPACE|..]
  }

  /** A room's topic is derived from its entity id. */
  function TopicOf(roomId: string): string {
    ROOM_NAMESPACE + roomId
  }

  function BuildKey(topic: string, id: string): string {
    MESSAGES_PREFIX + topic + "/" + id
  }

  function ScanPrefix(topic: string): string {
    MESSAGES_PREFIX + topic + "/"
  }

  // ---- std::string searches ---------------------------------------------------------------

  predicate OccursAt(s: string, pat: string, i: nat) {
    i + |pat| <= |s| && s[i..i + |pat|] == pat
  }

  function FindFrom(s: string, pat: string, from: nat): (r: Option<nat>)
    ensures r.Some? ==> from <= r.value && OccursAt(s, pat, r.value)
    ensures r.Some? ==> forall i | from <= i < r.value :: !OccursAt(s, pat, i)
    ensures r.None? ==> forall i | from <= i :: !OccursAt(s, pat, i)
    decreases |s| - from
  {
    if from + |pat| > |s| then None
    else if OccursAt(s, pat, from) then Some(from)
    else FindFrom(s, pat, from + 1)
  }

  /** std::string::find. */
  function Find(s: string, pat: string): (r: Option<nat>)
    ensures r.Some? ==> OccursAt(s, pat, r.value) && forall i | 0 <= i < r.value :: !OccursAt(s, pat, i)
    ensures r.None? ==> forall i: nat :: !OccursAt(s, pat, i)
  {
    FindFrom(s, pat, 0)
  }

  /** std::string::rfind of one character. */
  function RFind(s: string, ch: char): (r: Option<nat>)
    ensures r.Some? ==> r.value < |s| && s[r.value] == ch && ch !in s[r.value + 1..]
    ensures r.None? ==> ch !in s
  {
    if s == "" then None
    else if s[|s| - 1] == ch then Some(|s| - 1)
    else
      var r := RFind(s[..|s| - 1], ch);
      assert s == s[..|s| - 1] + [s[|s| - 1]];
      assert r.Some? ==> s[r.value + 1..] == s[..|s| - 1][r.value + 1..] + [s[|s| - 1]];
      r
  }

  predicate EndsWith(s: string, suffix: string) {
    |s| >= |suffix| && s[|s| - |suffix|..] == suffix
  }

  predicate RawSuffixed(s: string) {
    EndsWith(s, "/v") || EndsWith(s, "/p")
  }

  // ---- RoomTopicFromKey ----------------------------------------------------------------------

  /** The topic, the empty topic of a foreign key, or std::out_of_range from the substr that drops
      the prefix. */
  datatype Parsed = Topic(topic: string) | OutOfRange

  function RoomTopicFromKey(key: string): Parsed {
    match Find(key, MESSAGES_PREFIX)
    case None => Topic("")
    case Some(pos) =>
      var logical := key[pos..];
      var bare := if RawSuffixed(logical) then logical[..|logical| - 2] else logical;
      if |bare| < |MESSAGES_PREFIX| then OutOfRange
      else
        var rest := bare[|MESSAGES_PREFIX|..];
        match RFind(rest, '/')
        case None => Topic(rest)
        case Some(slash) => Topic(rest[..slash])
  }

  /** A key that holds the prefix nowhere parses to the empty topic, which the funnel does not take. */
  lemma ForeignKeyIsEmpty(key: string)
    ensures (forall i: nat :: !OccursAt(key, "gcs/messages/", i)) ==> RoomTopicFromKey(key) == Topic("")
  {}

  /** The shape check lets through exactly the namespace followed by one non-empty segment. */
  lemma ValidTopicMeans(topic: string)
    ensures ValidTopic(topic) <==>
              exists segment: string :: segment != "" && '/' !in segment && topic == "gcs/chat/" + segment
  {
    if ValidTopic(topic) {
      assert topic == "gcs/chat/" + topic[|ROOM_NAMESPACE|..];
    }
    if segment: string :| segment != "" && '/' !in segment && topic == "gcs/chat/" + segment {
      assert topic[|ROOM_NAMESPACE|..] == segment;
    }
  }

  /** Raw datastore framing: the prefix first occurs right behind it. */
  ghost predicate IsFrame(frame: string) {
    forall i | 0 <= i < |frame| :: !OccursAt(frame + MESSAGES_PREFIX, MESSAGES_PREFIX, i)
  }

  lemma FoundAtFrame(frame: string, tail: string)
    requires IsFrame(frame)
    ensures Find(frame + MESSAGES_PREFIX + tail, MESSAGES_PREFIX) == Some(|frame|)
  {
    var key := frame + MESSAGES_PREFIX + tail;
    var short := frame + MESSAGES_PREFIX;
    assert key[|frame|..|frame| + |MESSAGES_PREFIX|] == MESSAGES_PREFIX;
    forall i | 0 <= i < |frame| ensures !OccursAt(key, MESSAGES_PREFIX, i) {
      assert !OccursAt(short, MESSAGES_PREFIX, i);
      assert key[i..i + |MESSAGES_PREFIX|] == short[i..i + |MESSAGES_PREFIX|];
    }
    assert OccursAt(key, MESSAGES_PREFIX, |frame|);
  }

  function DropSegment(s: string): string {
    match RFind(s, '/')
    case None => s
    case Some(slash) => s[..slash]
  }

  /** The parse, seen from behind the framing and the prefix. */
  function ParseTail(tail: string): Parsed {
    if tail == "v" || tail == "p" then OutOfRange
    else Topic(DropSegment(if RawSuffixed(tail) then tail[..|tail| - 2] else tail))
  }

  lemma SuffixOfTail(tail: string)
    ensures RawSuffixed(MESSAGES_PREFIX + tail) <==> tail == "v" || tail == "p" || RawSuffixed(tail)
  {
    var logical := MESSAGES_PREFIX + tail;
    if |tail| >= 2 {
      assert logical[|logical| - 2..] == tail[|tail| - 2..];
    } else if |tail| == 1 {
      assert tail == [tail[0]] && logical[|logical| - 2..] == ['/', tail[0]];
    } else {
      assert logical[|logical| - 2..] == "s/";
    }
  }

  lemma FramedParse(frame: string, tail: string)
    requires IsFrame(frame)
    ensures RoomTopicFromKey(frame + MESSAGES_PREFIX + tail) == ParseTail(tail)
  {
    FoundAtFrame(frame, tail);
    SuffixOfTail(tail);
    var logical := (frame + MESSAGES_PREFIX + tail)[|frame|..];
    assert logical == MESSAGES_PREFIX + tail;
    if RawSuffixed(tail) {
      assert logical[..|logical| - 2][|MESSAGES_PREFIX|..] == tail[..|tail| - 2];
    } else {
      assert logical[|MESSAGES_PREFIX|..] == tail;
    }
  }

  /** The parse leaves the string's range exactly on a key whose part after the prefix is the bare
      letter of a raw suffix. */
  lemma OutOfRangeExactly(key: string)
    ensures RoomTopicFromKey(key).OutOfRange? <==>
            exists frame, tail ::
              IsFrame(frame) && key == frame + MESSAGES_PREFIX + tail && (tail == "v" || tail == "p")
  {
    if Find(key, MESSAGES_PREFIX).Some? {
      var pos := Find(key, MESSAGES_PREFIX).value;
      var frame, tail := key[..pos], key[pos + |MESSAGES_PREFIX|..];
      assert key == frame + MESSAGES_PREFIX + tail;
      forall i | 0 <= i < |frame| ensures !OccursAt(frame + MESSAGES_PREFIX, MESSAGES_PREFIX, i) {
        assert !OccursAt(key, MESSAGES_PREFIX, i);
        assert key[i..i + |MESSAGES_PREFIX|] == (frame + MESSAGES_PREFIX)[i..i + |MESSAGES_PREFIX|];
      }
      FramedParse(frame, tail);
    }
    if frame, tail :| IsFrame(frame) && key == frame + MESSAGES_PREFIX + tail && (tail == "v" || tail == "p") {
      FramedParse(frame, tail);
    }
  }

  lemma {:induction false} RFindUnique(s: string, ch: char, i: nat)
    requires i < |s| && s[i] == ch && ch !in s[i + 1..]
    ensures RFind(s, ch) == Some(i)
  {
    if i < |s| - 1 {
      assert s[i + 1..][|s| - i - 2] == s[|s| - 1];
      assert s[i + 1..] == s[..|s| - 1][i + 1..] + [s[|s| - 1]];
      RFindUnique(s[..|s| - 1], ch, i);
    }
  }

  lemma LastSlash(a: string, b: string)
    requires '/' !in b
    ensures RFind(a + "/" + b, '/') == Some(|a|)
  {
    assert (a + "/" + b)[|a| + 1..] == b;
    RFindUnique(a + "/" + b, '/', |a|);
  }

  lemma KeySuffix(topic: string, id: string, c: char)
    requires '/' !in id && c != '/'
    ensures EndsWith(topic + "/" + id, ['/', c]) <==> id == [c]
  {
    var s := topic + "/" + id;
    if |id| >= 2 {
      assert s[|s| - 2..][0] == id[|id| - 2];
    } else if |id| == 1 {
      assert id == [id[0]] && s[|s| - 2..] == ['/', id[0]];
    } else {
      assert s[|s| - 1] == '/';
    }
  }

  lemma DropsId(topic: string, id: string)
    requires '/' !in id
    ensures DropSegment(topic + "/" + id) == topic
  {
    LastSlash(topic, id);
    assert (topic + "/" + id)[..|topic|] == topic;
  }

  lemma DropsPart(topic: string)
    requires ValidTopic(topic)
    ensures DropSegment(topic) != topic
  {
    assert topic[3] == ROOM_NAMESPACE[3] == '/';
  }

  lemma Regroup(frame: string, topic: string, id: string, suffix: string)
    ensures frame + BuildKey(topic, id) + suffix == frame + MESSAGES_PREFIX + (topic + "/" + id + suffix)
  {}

  lemma TailParsed(topic: string, id: string)
    requires ValidTopic(topic) && '/' !in id
    ensures ParseTail(topic + "/" + id) == Topic(topic) <==> id != "v" && id != "p"
  {
    var tail := topic + "/" + id;
    KeySuffix(topic, id, 'v');
    KeySuffix(topic, id, 'p');
    if id == "v" || id == "p" {
      assert tail[..|tail| - 2] == topic;
      DropsPart(topic);
    } else {
      DropsId(topic, id);
    }
  }

  /** The topic is read back from a key without raw suffix, whatever precedes it, exactly when the id
      is not mistaken for such a suffix. */
  lemma TopicRecovered(frame: string, topic: string, id: string)
    requires IsFrame(frame) && ValidTopic(topic) && '/' !in id
    ensures RoomTopicFromKey(frame + BuildKey(topic, id)) == Topic(topic) <==> id != "v" && id != "p"
  {
    var tail := topic + "/" + id;
    assert RoomTopicFromKey(frame + BuildKey(topic, id)) == ParseTail(tail) by {
      Regroup(frame, topic, id, "");
      assert frame + BuildKey(topic, id) + "" == frame + BuildKey(topic, id) && tail + "" == tail;
      FramedParse(frame, tail);
    }
    TailParsed(topic, id);
  }

  lemma SuffixedTail(topic: string, id: string, suffix: string)
    requires '/' !in id && (suffix == "/v" || suffix == "/p")
    ensures ParseTail(topic + "/" + id + suffix) == Topic(topic)
  {
    var inner := topic + "/" + id;
    var tail := inner + suffix;
    assert tail[|tail| - 2..] == suffix && tail[..|tail| - 2] == inner;
    DropsId(topic, id);
  }

  /** A raw key carries the value or priority suffix, and any slash-free id is read past it. */
  lemma RawTopicRecovered(frame: string, topic: string, id: string, suffix: string)
    requires IsFrame(frame) && '/' !in id && (suffix == "/v" || suffix == "/p")
    ensures RoomTopicFromKey(frame + BuildKey(topic, id) + suffix) == Topic(topic)
  {
    Regroup(frame, topic, id, suffix);
    FramedParse(frame, topic + "/" + id + suffix);
    SuffixedTail(topic, id, suffix);
  }

  lemma Mismatch(s: string, pat: string, i: nat, j: nat)
    requires i + |pat| <= |s| && j < |pat| && s[i + j] != pat[j]
    ensures !OccursAt(s, pat, i)
  {
    assert s[i..i + |pat|][j] == s[i + j];
  }

  /** The forms keys arrive in: logical, with a leading slash, and under a datastore namespace. */
  lemma KnownFrames(ns: string)
    requires '/' !in ns
    ensures IsFrame("") && IsFrame("/") && IsFrame("/" + ns + "/k/")
  {
    var frame := "/" + ns + "/k/";
    var s := frame + MESSAGES_PREFIX;
    forall i | 0 <= i < |frame| ensures !OccursAt(s, MESSAGES_PREFIX, i) {
      if i == 0 || i > |ns| {
        Mismatch(s, MESSAGES_PREFIX, i, 0);
      } else if i == |ns| {
        Mismatch(s, MESSAGES_PREFIX, i, 1);
      } else if i + 3 == |ns| + 1 {
        Mismatch(s, MESSAGES_PREFIX, i, 4);
      } else {
        assert i + 3 <= |ns| ==> s[i + 3] == ns[i + 2];
        Mismatch(s, MESSAGES_PREFIX, i, 3);
      }
    }
    Mismatch("/" + MESSAGES_PREFIX, MESSAGES_PREFIX, 0, 0);
  }

  /** Distinct messages never share an archive key. */
  lemma BuildKeyInjective(topic: string, id: string, topic': string, id': string)
    requires '/' !in id && '/' !in id'
    ensures BuildKey(topic, id) == BuildKey(topic', id') <==> topic == topic' && id == id'
  {
    if BuildKey(topic, id) == BuildKey(topic', id') {
      var n := |MESSAGES_PREFIX|;
      assert BuildKey(topic, id)[n..] == topic + "/" + id;
      assert BuildKey(topic', id')[n..] == topic' + "/" + id';
      LastSlash(topic, id);
      LastSlash(topic', id');
      assert (topic + "/" + id)[..|topic|] == topic && (topic' + "/" + id')[..|topic'|] == topic';
      assert (topic + "/" + id)[|topic| + 1..] == id && (topic' + "/" + id')[|topic'| + 1..] == id';
    }
  }

  /** One room's scan prefix matches another room's key exactly when the topics nest. */
  lemma ScanLeaksIffNested(topic: string, other: string, id: string)
    requires '/' !in id
    ensures ScanPrefix(topic) <= BuildKey(other, id) <==> topic == other || topic + "/" <= other
  {
    var n := |MESSAGES_PREFIX|;
    var a, b := topic + "/", other + "/" + id;
    assert ScanPrefix(topic) == MESSAGES_PREFIX + a && BuildKey(other, id) == MESSAGES_PREFIX + b;
    if ScanPrefix(topic) <= BuildKey(other, id) {
      assert a == ScanPrefix(topic)[n..] && b == BuildKey(other, id)[n..];
    }
    assert ScanPrefix(topic) <= BuildKey(other, id) <==> a <= b;
    if |other| < |topic| < |b| {
      assert b[|topic|] == id[|topic| - |other| - 1] != '/';
      assert a[|topic|] == '/';
    } else if |topic| <= |other| {
      assert b[..|topic|] == other[..|topic|] && a[..|topic|] == topic;
      assert b[|topic|] == (other + "/")[|topic|];
      if other[..|topic|] == topic && (other + "/")[|topic|] == '/' {
        assert a == b[..|a|];
      }
    }
  }

  /** Topics the shape check accepts never nest, so no room's scan returns another room's record. */
  lemma NoCrossRoomLeak(topic: string, other: string, id: string)
    requires ValidTopic(topic) && ValidTopic(other) && '/' !in id
    ensures ScanPrefix(topic) <= BuildKey(other, id) <==> topic == other
  {
    ScanLeaksIffNested(topic, other, id);
    if |topic| < |other| {
      assert other[|topic|] == other[|ROOM_NAMESPACE|..][|topic| - |ROOM_NAMESPACE|] != '/';
    }
  }
}
