/**
 * UTF-8 as used by `Buffer.byteLength(body, "utf8")` for the `content-length`
 * header: the serialized body is a sequence of code points, each written as
 * one to four bytes. A surrogate pair of the JavaScript string is one code
 * point here (four bytes). `JSON.stringify` escapes lone surrogates, so a
 * serialized body holds none; were one present, it is written as U+FFFD
 * (three bytes).
 * The encoder is paired with a strict decoder, and the two are proved to be
 * inverse to each other, so `ByteLength` is the length of a real encoding.
 */
module Utf8 {
  import opened Wrappers

  type CodePoint = c: nat | c < 0x11_0000
  type Byte = b: nat | b < 0x100

  predicate IsSurrogate(c: CodePoint) {
    0xD800 <= c <= 0xDFFF
  }

  /** A Unicode scalar value: every code point except the surrogates. */
  predicate IsScalar(c: CodePoint) {
    !IsSurrogate(c)
  }

  predicate AllScalar(s: seq<CodePoint>) {
    forall i :: 0 <= i < |s| ==> IsScalar(s[i])
  }

  predicate IsContinuation(b: Byte) {
    0x80 <= b < 0xC0
  }

  /** Number of bytes UTF-8 spends on one code point. */
  function Width(c: CodePoint): (w: nat)
    ensures 1 <= w <= 4
    ensures w == 1 <==> c < 0x80
  {
    if c < 0x80 then 1
    else if c < 0x800 then 2
    else if c < 0x1_0000 then 3
    else 4
  }

  /** Width announced by a leading byte; 0 when `b` cannot start a sequence. */
  function LeadWidth(b: Byte): nat {
    if b < 0x80 then 1
    else if 0xC0 <= b < 0xE0 then 2
    else if 0xE0 <= b < 0xF0 then 3
    else if 0xF0 <= b < 0xF8 then 4
    else 0
  }

  /** UTF-8 byte length of a whole body, summed code point by code point. */
  function ByteLength(s: seq<CodePoint>): (n: nat)
    ensures |s| <= n <= 4 * |s|
    ensures (forall i :: 0 <= i < |s| ==> s[i] < 0x80) ==> n == |s|
  {
    if s == [] then 0 else Width(s[0]) + ByteLength(s[1..])
  }

  /** The bytes of one code point: a leading byte followed by continuation bytes. */
  function EncodePoint(c: CodePoint): (bs: seq<Byte>)
    ensures |bs| == Width(c)
    ensures LeadWidth(bs[0]) == |bs|
    ensures forall i :: 1 <= i < |bs| ==> IsContinuation(bs[i])
  {
    if IsSurrogate(c) then [0xEF, 0xBF, 0xBD]
    else if c < 0x80 then [c]
    else if c < 0x800 then [0xC0 + c / 0x40, 0x80 + c % 0x40]
    else if c < 0x1_0000 then [0xE0 + c / 0x1000, 0x80 + c / 0x40 % 0x40, 0x80 + c % 0x40]
    else [0xF0 + c / 0x4_0000, 0x80 + c / 0x1000 % 0x40, 0x80 + c / 0x40 % 0x40, 0x80 + c % 0x40]
  }

  /** The bytes of a whole body. */
  function Encode(s: seq<CodePoint>): (bs: seq<Byte>)
    ensures |bs| == ByteLength(s)
  {
    if s == [] then [] else EncodePoint(s[0]) + Encode(s[1..])
  }

  /**
   * Decodes one complete sequence whose length the leading byte announced.
   * Rejects bad continuation bytes, overlong forms, surrogates and values
   * above U+10FFFF.
   */
  function DecodePoint(bs: seq<Byte>): Option<CodePoint>
    requires 1 <= |bs| <= 4 && LeadWidth(bs[0]) == |bs|
  {
    if |bs| == 1 then Some(bs[0])
    else if !(forall i :: 1 <= i < |bs| ==> IsContinuation(bs[i])) then None
    else
      var c := Payload(bs);
      if |bs| == 2 then (if 0x80 <= c then Some(c) else None)
      else if |bs| == 3 then (if 0x800 <= c && !(0xD800 <= c <= 0xDFFF) then Some(c) else None)
      else if 0x1_0000 <= c < 0x11_0000 then Some(c) else None
  }

  /** The value bits carried by a multi-byte sequence. */
  function Payload(bs: seq<Byte>): int
    requires 2 <= |bs| <= 4 && LeadWidth(bs[0]) == |bs|
  {
    var b0: int, b1: int := bs[0], bs[1];
    if |bs| == 2 then (b0 - 0xC0) * 0x40 + (b1 - 0x80)
    else if |bs| == 3 then
      var b2: int := bs[2];
      (b0 - 0xE0) * 0x1000 + (b1 - 0x80) * 0x40 + (b2 - 0x80)
    else
      var b2: int, b3: int := bs[2], bs[3];
      (b0 - 0xF0) * 0x4_0000 + (b1 - 0x80) * 0x1000 + (b2 - 0x80) * 0x40 + (b3 - 0x80)
  }

  /** Decodes a whole byte string, or `None` when it is not well-formed UTF-8. */
  function Decode(bs: seq<Byte>): Option<seq<CodePoint>>
    decreases |bs|
  {
    if bs == [] then Some([])
    else
      var w := LeadWidth(bs[0]);
      if w == 0 || |bs| < w then None
      else match DecodePoint(bs[..w])
        case None => None
        case Some(c) =>
          match Decode(bs[w..])
          case None => None
          case Some(rest) => Some([c] + rest)
  }

  lemma DivMod64(c: nat)
    ensures c / 0x1000 == c / 0x40 / 0x40
    ensures c / 0x4_0000 == c / 0x1000 / 0x40
  {
  }

  /** Quotient and remainder by 64 are unique. */
  lemma Split64(c: int, q: int, r: int)
    requires 0 <= r < 0x40 && c == q * 0x40 + r
    ensures c / 0x40 == q && c % 0x40 == r
  {
  }

  /** Decoding the bytes of one scalar value gives it back. */
  lemma PointRoundTrip(c: CodePoint)
    requires IsScalar(c)
    ensures DecodePoint(EncodePoint(c)) == Some(c)
  {
    DivMod64(c);
  }

  lemma PointInverse2(bs: seq<Byte>, c: CodePoint)
    requires |bs| == 2 && LeadWidth(bs[0]) == 2 && IsContinuation(bs[1])
    requires c == Payload(bs) && 0x80 <= c
    ensures EncodePoint(c) == bs
  {
  }

  lemma PointInverse3(bs: seq<Byte>, c: CodePoint)
    requires |bs| == 3 && LeadWidth(bs[0]) == 3 && IsContinuation(bs[1]) && IsContinuation(bs[2])
    requires c == Payload(bs) && 0x800 <= c && IsScalar(c)
    ensures EncodePoint(c) == bs
  {
    var x0: int, x1: int, x2: int := bs[0] - 0xE0, bs[1] - 0x80, bs[2] - 0x80;
    Split64(c, x0 * 0x40 + x1, x2);
    Split64(c / 0x40, x0, x1);
    DivMod64(c);
  }

  lemma PointInverse4(bs: seq<Byte>, c: CodePoint)
    requires |bs| == 4 && LeadWidth(bs[0]) == 4
    requires IsContinuation(bs[1]) && IsContinuation(bs[2]) && IsContinuation(bs[3])
    requires c == Payload(bs) && 0x1_0000 <= c
    ensures EncodePoint(c) == bs
  {
    var x0: int, x1: int, x2: int, x3: int := bs[0] - 0xF0, bs[1] - 0x80, bs[2] - 0x80, bs[3] - 0x80;
    Split64(c, (x0 * 0x40 + x1) * 0x40 + x2, x3);
    Split64(c / 0x40, x0 * 0x40 + x1, x2);
    Split64(c / 0x40 / 0x40, x0, x1);
    DivMod64(c);
  }

  /** Re-encoding a decoded sequence gives back the same bytes. */
  lemma PointInverse(bs: seq<Byte>, c: CodePoint)
    requires 1 <= |bs| <= 4 && LeadWidth(bs[0]) == |bs|
    requires DecodePoint(bs) == Some(c)
    ensures IsScalar(c) && EncodePoint(c) == bs
  {
    if |bs| == 1 {
    } else if |bs| == 2 {
      PointInverse2(bs, c);
    } else if |bs| == 3 {
      PointInverse3(bs, c);
    } else {
      PointInverse4(bs, c);
    }
  }

  /** Decoding one encoded scalar value followed by decodable bytes. */
  lemma DecodeJoin(c: CodePoint, tail: seq<Byte>, rest: seq<CodePoint>)
    requires IsScalar(c) && Decode(tail) == Some(rest)
    ensures Decode(EncodePoint(c) + tail) == Some([c] + rest)
  {
    var head := EncodePoint(c);
    var bs := head + tail;
    assert bs[0] == head[0];
    assert bs[..|head|] == head;
    assert bs[|head|..] == tail;
    PointRoundTrip(c);
  }

  /** Decoding the encoding of a body of scalar values gives the body back. */
  lemma {:induction false} DecodeEncode(s: seq<CodePoint>)
    requires AllScalar(s)
    ensures Decode(Encode(s)) == Some(s)
  {
    if s != [] {
      DecodeEncode(s[1..]);
      DecodeJoin(s[0], Encode(s[1..]), s[1..]);
      assert [s[0]] + s[1..] == s;
    }
  }

  lemma EncodeCons(c: CodePoint, rest: seq<CodePoint>)
    ensures Encode([c] + rest) == EncodePoint(c) + Encode(rest)
  {
    assert ([c] + rest)[1..] == rest;
  }

  /** One step of a successful decode: a leading sequence, then the rest. */
  lemma DecodeStep(bs: seq<Byte>, s: seq<CodePoint>) returns (w: nat, c: CodePoint, rest: seq<CodePoint>)
    requires bs != [] && Decode(bs) == Some(s)
    ensures 1 <= w <= 4 && w <= |bs| && LeadWidth(bs[0]) == w
    ensures DecodePoint(bs[..w]) == Some(c) && Decode(bs[w..]) == Some(rest)
    ensures s == [c] + rest
  {
    w := LeadWidth(bs[0]);
    c := DecodePoint(bs[..w]).value;
    rest := Decode(bs[w..]).value;
  }

  lemma AllScalarCons(c: CodePoint, rest: seq<CodePoint>)
    requires IsScalar(c) && AllScalar(rest)
    ensures AllScalar([c] + rest)
  {
    assert forall i :: 1 <= i < |[c] + rest| ==> ([c] + rest)[i] == rest[i - 1];
  }

  /** Gluing the encodings of a first code point and the rest. */
  lemma EncodeJoin(bs: seq<Byte>, w: nat, c: CodePoint, rest: seq<CodePoint>)
    requires w <= |bs| && EncodePoint(c) == bs[..w] && Encode(rest) == bs[w..]
    ensures Encode([c] + rest) == bs
  {
    EncodeCons(c, rest);
    assert bs == bs[..w] + bs[w..];
  }

  /** Every byte string the decoder accepts is the encoding of what it decodes to. */
  lemma {:induction false} EncodeDecode(bs: seq<Byte>, s: seq<CodePoint>)
    requires Decode(bs) == Some(s)
    ensures AllScalar(s) && Encode(s) == bs
    decreases |bs|
  {
    if bs != [] {
      var w, c, rest := DecodeStep(bs, s);
      PointInverse(bs[..w], c);
      EncodeDecode(bs[w..], rest);
      AllScalarCons(c, rest);
      EncodeJoin(bs, w, c, rest);
    }
  }
}
