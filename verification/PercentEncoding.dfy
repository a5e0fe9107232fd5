/**
 The `grpc-message` header of an error response (server/src/proxy.rs).
 Messages are byte strings. The decoder is that of the "Responses" section of the gRPC
 PROTOCOL-HTTP2 specification; an escape is `%XX` as in section 2.1 of RFC 3986.
 */
module PercentEncoding {

  type Byte = b: int | 0 <= b < 256

  const PERCENT: Byte := 0x25

  // ----- Encoder -----

  /** The bytes ' ' to '~' other than '%' are written as they are. */
  predicate Plain(b: Byte) {
    0x20 <= b <= 0x7E && b != PERCENT
  }

  function HexDigit(n: int): Byte
    requires 0 <= n < 16
  {
    if n < 10 then 0x30 + n else 0x41 + (n - 10)
  }

  function EncodeByte(b: Byte): seq<Byte> {
    if Plain(b) then [b] else [PERCENT, HexDigit(b / 16), HexDigit(b % 16)]
  }

  function Encode(message: seq<Byte>): seq<Byte> {
    if message == [] then [] else EncodeByte(message[0]) + Encode(message[1..])
  }

  /** The loop of `percent_encode_grpc_message`. */
  method PercentEncodeGrpcMessage(message: seq<Byte>) returns (encoded: seq<Byte>)
    ensures encoded == Encode(message)
  {
    encoded := [];
    for i := 0 to |message|
      invariant encoded == Encode(message[..i])
    {
      var b := message[i];
      EncodeConcat(message[..i], [b]);
      assert message[..i + 1] == message[..i] + [b];
      if 0x20 <= b <= 0x7E && b != PERCENT {
        encoded := encoded + [b];
      } else {
        encoded := encoded + [PERCENT, HexDigit(b / 16), HexDigit(b % 16)];
      }
    }
    assert message[..|message|] == message;
  }

  /** What the `http` crate accepts in a header value. */
  predicate HeaderAccepts(value: seq<Byte>) {
    forall b | b in value :: b == 0x09 || (0x20 <= b && b != 0x7F)
  }

  /** The header value of `proxy_error_response`; the fallback is never taken. */
  method GrpcMessageHeader(message: seq<Byte>, fallback: seq<Byte>) returns (value: seq<Byte>)
    ensures value == Encode(message)
    ensures HeaderAccepts(value)
  {
    value := PercentEncodeGrpcMessage(message);
    HeaderSafe(message);
    if !HeaderAccepts(value) {
      value := fallback;
    }
  }

  // ----- Decoder of the specification -----

  /** A hexadecimal digit of either case, or -1. */
  function HexValue(b: Byte): (v: int)
    ensures -1 <= v < 16
  {
    if 0x30 <= b <= 0x39 then b - 0x30
    else if 0x41 <= b <= 0x46 then b - 0x41 + 10
    else if 0x61 <= b <= 0x66 then b - 0x61 + 10
    else -1
  }

  predicate StartsWithEscape(s: seq<Byte>) {
    |s| >= 3 && s[0] == PERCENT && HexValue(s[1]) >= 0 && HexValue(s[2]) >= 0
  }

  /** Decodes the valid escapes and leaves broken ones as they are. */
  function Decode(s: seq<Byte>): seq<Byte> {
    if s == [] then []
    else if StartsWithEscape(s) then [HexValue(s[1]) * 16 + HexValue(s[2])] + Decode(s[3..])
    else [s[0]] + Decode(s[1..])
  }

  // ----- Properties -----

  lemma {:induction false} EncodeConcat(a: seq<Byte>, b: seq<Byte>)
    ensures Encode(a + b) == Encode(a) + Encode(b)
  {
    if a == [] {
      assert a + b == b;
    } else {
      var first, rest := [a[0]], a[1..];
      assert a == first + rest;
      Regroup(first, rest, b);
      EncodeCons(a[0], rest + b);
      EncodeCons(a[0], rest);
      EncodeConcat(rest, b);
      Regroup(EncodeByte(a[0]), Encode(rest), Encode(b));
    }
  }

  lemma {:induction false} EncodeCons(b: Byte, rest: seq<Byte>)
    ensures Encode([b] + rest) == EncodeByte(b) + Encode(rest)
  {
    assert ([b] + rest)[1..] == rest;
  }

  lemma {:induction false} Regroup(a: seq<Byte>, b: seq<Byte>, c: seq<Byte>)
    ensures a + b + c == a + (b + c)
  {
  }

  lemma {:induction false} DecodeEncodedByte(b: Byte, rest: seq<Byte>)
    ensures Decode(EncodeByte(b) + rest) == [b] + Decode(rest)
  {
    var s := EncodeByte(b) + rest;
    if Plain(b) {
      assert s[1..] == rest;
    } else {
      assert s[0] == PERCENT && s[1] == HexDigit(b / 16) && s[2] == HexDigit(b % 16);
      assert s[3..] == rest;
    }
  }

  /** Every message, whatever its bytes, is recovered by the decoder. */
  lemma {:induction false} RoundTrip(message: seq<Byte>)
    ensures Decode(Encode(message)) == message
  {
    if message != [] {
      DecodeEncodedByte(message[0], Encode(message[1..]));
      RoundTrip(message[1..]);
    }
  }

  /** Only the bytes 0x20 to 0x7E are produced, so any header accepts the result. */
  lemma {:induction false} HeaderSafe(message: seq<Byte>)
    ensures forall b | b in Encode(message) :: 0x20 <= b <= 0x7E
    ensures HeaderAccepts(Encode(message))
  {
    if message != [] {
      HeaderSafe(message[1..]);
      assert forall b | b in EncodeByte(message[0]) :: 0x20 <= b <= 0x7E;
    }
  }

  function EscapedCount(message: seq<Byte>): nat {
    if message == [] then 0
    else (if Plain(message[0]) then 0 else 1) + EscapedCount(message[1..])
  }

  lemma {:induction false} EncodedLength(message: seq<Byte>)
    ensures |Encode(message)| == |message| + 2 * EscapedCount(message)
  {
    if message != [] {
      EncodedLength(message[1..]);
    }
  }

  predicate UpperHex(b: Byte) {
    0x30 <= b <= 0x39 || 0x41 <= b <= 0x46
  }

  /** The grammar of an encoded message in which nothing is escaped without need. */
  predicate Canonical(s: seq<Byte>) {
    s == []
    || (Plain(s[0]) && Canonical(s[1..]))
    || (&& |s| >= 3 && s[0] == PERCENT && UpperHex(s[1]) && UpperHex(s[2])
        && !Plain(HexValue(s[1]) * 16 + HexValue(s[2]))
        && Canonical(s[3..]))
  }

  lemma {:induction false} EncodeIsCanonical(message: seq<Byte>)
    ensures Canonical(Encode(message))
  {
    if message != [] {
      var b, rest := message[0], Encode(message[1..]);
      EncodeIsCanonical(message[1..]);
      if Plain(b) {
        assert Encode(message)[1..] == rest;
      } else {
        assert Encode(message)[3..] == rest;
      }
    }
  }

  /** An upper-case escape that is needed is what the encoder writes for its byte. */
  lemma {:induction false} EscapeOf(high: Byte, low: Byte)
    requires UpperHex(high) && UpperHex(low) && !Plain(HexValue(high) * 16 + HexValue(low))
    ensures EncodeByte(HexValue(high) * 16 + HexValue(low)) == [PERCENT, high, low]
  {
    var b := HexValue(high) * 16 + HexValue(low);
    assert b / 16 == HexValue(high) && b % 16 == HexValue(low);
  }

  lemma {:induction false} CanonicalIsEncoded(s: seq<Byte>)
    requires Canonical(s)
    ensures Encode(Decode(s)) == s
  {
    if s == [] {
    } else if Plain(s[0]) {
      CanonicalIsEncoded(s[1..]);
      EncodeCons(s[0], Decode(s[1..]));
      assert s == [s[0]] + s[1..];
    } else {
      CanonicalIsEncoded(s[3..]);
      EscapeOf(s[1], s[2]);
      EncodeCons(HexValue(s[1]) * 16 + HexValue(s[2]), Decode(s[3..]));
      assert s == [PERCENT, s[1], s[2]] + s[3..];
    }
  }

  /** The encoder's image is exactly the canonical strings, on which it inverts the decoder. */
  lemma {:induction false} ImageIsCanonical(s: seq<Byte>)
    ensures Canonical(s) <==> Encode(Decode(s)) == s
  {
    if Canonical(s) {
      CanonicalIsEncoded(s);
    } else {
      EncodeIsCanonical(Decode(s));
    }
  }
}
