/** Entity and message ids: prefix, per-process seed, and a 64-bit counter printed in decimal. */
module MintedIds {
  import opened KeyGrammar

  const COUNTER_RANGE: nat := 0x1_0000_0000_0000_0000

  function Digit(d: nat): char
    requires d < 10
  {
    "0123456789"[d]
  }

  /** std::to_string of an unsigned value. */
  function Decimal(n: nat): string {
    if n < 10 then [Digit(n)] else Decimal(n / 10) + [Digit(n % 10)]
  }

  /** std::to_string of a signed value. */
  function SignedDecimal(n: int): string {
    if n < 0 then "-" + Decimal(-n) else Decimal(n)
  }

  /** NextEntityId's and NextMessageId's per-process seed: a wall clock in milliseconds and a random token. */
  function Seed(nowMs: int, token: nat): string {
    SignedDecimal(nowMs) + "-" + Decimal(token)
  }

  /** The id minted by call number call; std::atomic<uint64_t>::fetch_add wraps. */
  function Minted(prefix: string, seed: string, call: nat): string {
    prefix + seed + "-" + Decimal(call % COUNTER_RANGE)
  }

  lemma DigitInjective(c: nat, d: nat)
    requires c < 10 && d < 10 && Digit(c) == Digit(d)
    ensures c == d
  {}

  lemma DecimalNonEmpty(n: nat)
    ensures Decimal(n) != ""
  {}

  lemma {:induction false} DecimalInjective(m: nat, n: nat)
    requires Decimal(m) == Decimal(n)
    ensures m == n
  {
    if m >= 10 && n >= 10 {
      var a, b := Decimal(m / 10), Decimal(n / 10);
      assert a == Decimal(m)[..|Decimal(m)| - 1] && b == Decimal(n)[..|Decimal(n)| - 1];
      DecimalInjective(m / 10, n / 10);
      assert Decimal(m)[|a|] == Digit(m % 10) && Decimal(n)[|b|] == Digit(n % 10);
      DigitInjective(m % 10, n % 10);
    } else {
      DecimalNonEmpty(m / 10);
      DecimalNonEmpty(n / 10);
      if m < 10 && n < 10 {
        DigitInjective(m, n);
      }
    }
  }

  /** Two calls in one process mint the same id exactly when the counter has wrapped between them. */
  lemma MintedRepeatsIffWrapped(prefix: string, seed: string, i: nat, j: nat)
    ensures Minted(prefix, seed, i) == Minted(prefix, seed, j) <==> i % COUNTER_RANGE == j % COUNTER_RANGE
  {
    var lead := prefix + seed + "-";
    if Minted(prefix, seed, i) == Minted(prefix, seed, j) {
      assert Minted(prefix, seed, i)[|lead|..] == Decimal(i % COUNTER_RANGE);
      assert Minted(prefix, seed, j)[|lead|..] == Decimal(j % COUNTER_RANGE);
      DecimalInjective(i % COUNTER_RANGE, j % COUNTER_RANGE);
    }
  }

  function Power10(k: nat): nat {
    if k == 0 then 1 else 10 * Power10(k - 1)
  }

  lemma {:induction false} DecimalLength(n: nat, k: nat)
    requires k > 0 && n < Power10(k)
    ensures |Decimal(n)| <= k && '/' !in Decimal(n)
    decreases k
  {
    if n >= 10 {
      DecimalLength(n / 10, k - 1);
    }
  }

  lemma {:induction false} PowerAdds(a: nat, b: nat)
    ensures Power10(a + b) == Power10(a) * Power10(b)
  {
    if a > 0 {
      PowerAdds(a - 1, b);
    }
  }

  /** A room id minted by NextEntityId makes a topic that passes the shape check and fits the length cap. */
  lemma MintedTopicAccepted(nowMs: int, token: nat, call: nat)
    requires -0x8000_0000_0000_0000 <= nowMs < 0x8000_0000_0000_0000 && token < 0x1_0000_0000
    ensures ValidTopic(TopicOf(Minted("room-", Seed(nowMs, token), call)))
    ensures |TopicOf(Minted("room-", Seed(nowMs, token), call))| <= MAX_TOPIC_LENGTH
  {
    assert Power10(10) == 10000000000;
    assert Power10(20) == 10000000000 * Power10(10) by { PowerAdds(10, 10); }
    DecimalLength(if nowMs < 0 then -nowMs else nowMs, 20);
    DecimalLength(token, 10);
    DecimalLength(call % COUNTER_RANGE, 20);
    var topic := TopicOf(Minted("room-", Seed(nowMs, token), call));
    assert topic[|ROOM_NAMESPACE|..] == Minted("room-", Seed(nowMs, token), call);
  }
}
