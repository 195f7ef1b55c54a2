/** UTF-8 (section 3 of RFC 3629) on well-formed strings: what `TextEncoder` and a fatal `TextDecoder` do. */
module Utf8 {
  import opened Bytes

  /** A Unicode scalar value. */
  type Scalar = c: nat | c < 0xD800 || 0xE000 <= c < 0x110000
  type Text = seq<Scalar>

  const LINE_FEED: Scalar := 10

  /** A continuation byte carries six bits. */
  function Continuation(sextet: nat): Byte
    requires sextet < 0x40
  {
    0x80 + sextet
  }

  function EncodeScalar(c: Scalar): (bytes: seq<Byte>)
    ensures |bytes| == if c < 0x80 then 1 else if c < 0x800 then 2 else if c < 0x10000 then 3 else 4
  {
    var high, low := c / 0x40, Continuation(c % 0x40);
    if c < 0x80 then [c]
    else if c < 0x800 then [0xC0 + high, low]
    else if c < 0x10000 then [0xE0 + high / 0x40, Continuation(high % 0x40), low]
    else [0xF0 + high / 0x40 / 0x40, Continuation(high / 0x40 % 0x40), Continuation(high % 0x40), low]
  }

  /** The six bits of byte `i`, or `None` when there is no continuation byte there. */
  function Sextet(bytes: seq<Byte>, i: nat): (r: Option<nat>)
    ensures r.Some? ==> i < |bytes| && r.value < 0x40 && bytes[i] == Continuation(r.value)
  {
    if i < |bytes| && 0x80 <= bytes[i] < 0xC0 then
      var b: int := bytes[i];
      Some(b - 0x80)
    else None
  }

  /** The first scalar of `bytes` and its length; `None` when they start with no well-formed sequence (a stray
      continuation, one cut short, an overlong form, a surrogate, or past the last code point). */
  function DecodeScalar(bytes: seq<Byte>): (r: Option<(Scalar, nat)>)
    requires bytes != []
    ensures r.Some? ==> 1 <= r.value.1 <= |bytes|
  {
    var b: int := bytes[0];
    if b < 0x80 then Some((b, 1))
    else if 0xC2 <= b < 0xE0 then
      match Sextet(bytes, 1)
      case None => None
      case Some(x) => Some(((b - 0xC0) * 0x40 + x, 2))
    else if 0xE0 <= b < 0xF0 then
      match (Sextet(bytes, 1), Sextet(bytes, 2))
      case (Some(x), Some(y)) =>
        var c := ((b - 0xE0) * 0x40 + x) * 0x40 + y;
        if c < 0x800 || 0xD800 <= c < 0xE000 then None else Some((c, 3))
      case _ => None
    else if 0xF0 <= b < 0xF5 then
      match (Sextet(bytes, 1), Sextet(bytes, 2), Sextet(bytes, 3))
      case (Some(x), Some(y), Some(z)) =>
        var c := (((b - 0xF0) * 0x40 + x) * 0x40 + y) * 0x40 + z;
        if c < 0x10000 || c >= 0x110000 then None else Some((c, 4))
      case _ => None
    else None
  }

  function Encode(text: Text): seq<Byte> {
    if text == [] then [] else EncodeScalar(text[0]) + Encode(text[1..])
  }

  function Decode(bytes: seq<Byte>): Option<Text>
    decreases |bytes|
  {
    if bytes == [] then Some([])
    else
      match DecodeScalar(bytes)
      case None => None
      case Some((c, n)) =>
        match Decode(bytes[n..])
        case None => None
        case Some(rest) => Some([c] + rest)
  }

  lemma SplitSextet(q: nat, r: nat)
    requires r < 0x40
    ensures (q * 0x40 + r) / 0x40 == q && (q * 0x40 + r) % 0x40 == r
  {
  }

  lemma DecodeEncodedScalar(c: Scalar, rest: seq<Byte>)
    ensures DecodeScalar(EncodeScalar(c) + rest) == Some((c, |EncodeScalar(c)|))
  {
    var encoded := EncodeScalar(c);
    var bytes := encoded + rest;
    assert bytes[0] == encoded[0];
    assert |encoded| > 1 ==> bytes[1] == encoded[1];
    assert |encoded| > 2 ==> bytes[2] == encoded[2];
    assert |encoded| > 3 ==> bytes[3] == encoded[3];
  }

  lemma EncodeDecodedScalar(bytes: seq<Byte>)
    requires bytes != [] && DecodeScalar(bytes).Some?
    ensures var (c, n) := DecodeScalar(bytes).value; bytes[..n] == EncodeScalar(c)
  {
    var (c, n) := DecodeScalar(bytes).value;
    var b: int := bytes[0];
    match n
    case 1 =>
    case 2 =>
      SplitSextet(b - 0xC0, Sextet(bytes, 1).value);
      assert bytes[..2] == [bytes[0], bytes[1]];
    case 3 =>
      var x, y := Sextet(bytes, 1).value, Sextet(bytes, 2).value;
      SplitSextet((b - 0xE0) * 0x40 + x, y);
      SplitSextet(b - 0xE0, x);
      assert bytes[..3] == [bytes[0], bytes[1], bytes[2]];
    case _ =>
      var x, y, z := Sextet(bytes, 1).value, Sextet(bytes, 2).value, Sextet(bytes, 3).value;
      SplitSextet(((b - 0xF0) * 0x40 + x) * 0x40 + y, z);
      SplitSextet((b - 0xF0) * 0x40 + x, y);
      SplitSextet(b - 0xF0, x);
      assert bytes[..4] == [bytes[0], bytes[1], bytes[2], bytes[3]];
  }

  /** Decoding undoes encoding. */
  lemma {:induction false} DecodeEncode(text: Text)
    ensures Decode(Encode(text)) == Some(text)
  {
    if text != [] {
      DecodeEncode(text[1..]);
      DecodeEncodedScalar(text[0], Encode(text[1..]));
      var bytes := Encode(text);
      assert bytes[|EncodeScalar(text[0])|..] == Encode(text[1..]);
      assert Decode(bytes) == Some([text[0]] + text[1..]);
      assert [text[0]] + text[1..] == text;
    }
  }

  /** Only the encoding of a text decodes to it: the decoder accepts no other form. */
  lemma {:induction false} EncodeDecode(bytes: seq<Byte>)
    requires Decode(bytes).Some?
    ensures Encode(Decode(bytes).value) == bytes
    decreases |bytes|
  {
    hide DecodeScalar, EncodeScalar;
    if bytes != [] {
      var (c, n) := DecodeScalar(bytes).value;
      EncodeDecodedScalar(bytes);
      EncodeDecode(bytes[n..]);
      assert bytes == bytes[..n] + bytes[n..];
      assert Decode(bytes).value[1..] == Decode(bytes[n..]).value;
    }
  }

  /** The newline byte occurs only for a line feed: never inside a longer sequence. */
  lemma {:induction false} NewlineIsLineFeed(text: Text)
    ensures NEWLINE in Encode(text) <==> LINE_FEED in text
  {
    if text != [] {
      NewlineIsLineFeed(text[1..]);
      NewlineInScalar(text[0]);
      InConcatenation(NEWLINE, EncodeScalar(text[0]), Encode(text[1..]));
      InConcatenation(LINE_FEED, [text[0]], text[1..]);
      assert text == [text[0]] + text[1..];
    }
  }

  lemma InConcatenation(x: nat, a: seq<nat>, b: seq<nat>)
    ensures x in a + b <==> x in a || x in b
  {
    if x in a {
      var i :| 0 <= i < |a| && a[i] == x;
      assert (a + b)[i] == x;
    } else if x in b {
      var i :| 0 <= i < |b| && b[i] == x;
      assert (a + b)[|a| + i] == x;
    }
  }

  lemma NewlineInScalar(c: Scalar)
    ensures NEWLINE in EncodeScalar(c) <==> c == LINE_FEED
  {
    var bytes := EncodeScalar(c);
    assert bytes[0] == NEWLINE <==> c == LINE_FEED;
    assert forall i :: 1 <= i < |bytes| ==> bytes[i] >= 0x80;
  }
}
