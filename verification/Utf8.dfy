/** The code-point count behind the entity name cap. */
module Utf8 {

  /** One byte of a std::string. */
  type Byte = c: char | c < 256 as char witness 'a'

  type Text = seq<Byte>

  /** The two top bits are not 10. */
  predicate StartsCodePoint(b: Byte) {
    b as int / 64 != 2
  }

  function CodePointCount(text: Text): nat {
    if text == [] then 0
    else (if StartsCodePoint(text[0]) then 1 else 0) + CodePointCount(text[1..])
  }

  /** Unicode scalar values: no surrogates. */
  predicate Scalar(c: nat) {
    c < 0xD800 || 0xE000 <= c < 0x11_0000
  }

  function Continuation(bits: nat): Byte {
    (0x80 + bits % 64) as char
  }

  /** Section 3 of RFC 3629. */
  function Encode(c: nat): Text
    requires Scalar(c)
  {
    if c < 0x80 then [c as char]
    else if c < 0x800 then [(0xC0 + c / 64) as char, Continuation(c)]
    else if c < 0x1_0000 then [(0xE0 + c / 4096) as char, Continuation(c / 64), Continuation(c)]
    else [(0xF0 + c / 262144) as char, Continuation(c / 4096), Continuation(c / 64), Continuation(c)]
  }

  function EncodeAll(cs: seq<nat>): Text
    requires forall c | c in cs :: Scalar(c)
  {
    if cs == [] then [] else Encode(cs[0]) + EncodeAll(cs[1..])
  }

  /** Counting distributes over concatenation, wherever the cut falls. */
  lemma {:induction false} CountAdds(a: Text, b: Text)
    ensures CodePointCount(a + b) == CodePointCount(a) + CodePointCount(b)
  {
    if a == [] {
      assert a + b == b;
    } else {
      assert (a + b)[1..] == a[1..] + b;
      CountAdds(a[1..], b);
    }
  }

  lemma {:induction false} NoneStart(text: Text)
    requires forall i | 0 <= i < |text| :: !StartsCodePoint(text[i])
    ensures CodePointCount(text) == 0
  {
    if text != [] {
      NoneStart(text[1..]);
    }
  }

  lemma OneCodePoint(c: nat)
    requires Scalar(c)
    ensures CodePointCount(Encode(c)) == 1
  {
    var e := Encode(c);
    assert forall i | 1 <= i < |e| :: !StartsCodePoint(e[i]);
    NoneStart(e[1..]);
  }

  /** The cap counts code points, not bytes. */
  lemma {:induction false} CountsCodePoints(cs: seq<nat>)
    requires forall c | c in cs :: Scalar(c)
    ensures CodePointCount(EncodeAll(cs)) == |cs|
  {
    if cs != [] {
      OneCodePoint(cs[0]);
      CountsCodePoints(cs[1..]);
      CountAdds(Encode(cs[0]), EncodeAll(cs[1..]));
    }
  }
}
