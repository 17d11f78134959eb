/** Trace and span identifiers as the consumers read them from a message's
    metadata, and as the producer writes them. A trace-id is 16 bytes and a
    span-id 8 bytes; both travel as lower-case hex. A traceparent header is
    "<version>-<trace-id>-<parent-id>-<flags>" as in section 3.2 of the W3C
    Trace Context recommendation. */
module TraceIds {
  import opened Text

  type Byte = x: int | 0 <= x < 256

  const HexDigits: string := "0123456789abcdef"

  /** The digit's value, or -1 for a character that is not a lower-case hex
      digit (the decoder accepts lower case only). */
  function HexValue(c: char): (v: int)
    ensures -1 <= v < 16
  {
    if '0' <= c <= '9' then c as int - '0' as int
    else if 'a' <= c <= 'f' then c as int - 'a' as int + 10
    else -1
  }

  predicate IsHex(h: string)
  {
    forall i | 0 <= i < |h| :: HexValue(h[i]) >= 0
  }

  /** A digit is the digit of its value. */
  lemma DigitOfHexValue(c: char)
    requires HexValue(c) >= 0
    ensures HexDigits[HexValue(c)] == c
  {
  }

  lemma HexValueOfDigit(n: int)
    requires 0 <= n < 16
    ensures HexValue(HexDigits[n]) == n
  {
  }

  /** The byte two hex digits spell, high digit first. */
  function DecodeByte(hi: char, lo: char): (x: Byte)
    requires HexValue(hi) >= 0 && HexValue(lo) >= 0
  {
    16 * HexValue(hi) + HexValue(lo)
  }

  /** A byte as two lower-case hex digits, high digit first. */
  function EncodeByte(x: Byte): (s: string)
    ensures |s| == 2 && HexValue(s[0]) >= 0 && HexValue(s[1]) >= 0
    ensures DecodeByte(s[0], s[1]) == x
  {
    HexValueOfDigit(x / 16);
    HexValueOfDigit(x % 16);
    [HexDigits[x / 16], HexDigits[x % 16]]
  }

  /** Two hex digits are the encoding of the byte they spell. */
  lemma EncodeDecodeByte(hi: char, lo: char)
    requires HexValue(hi) >= 0 && HexValue(lo) >= 0
    ensures EncodeByte(DecodeByte(hi, lo)) == [hi, lo]
  {
    var x := DecodeByte(hi, lo);
    assert x / 16 == HexValue(hi) && x % 16 == HexValue(lo);
    DigitOfHexValue(hi);
    DigitOfHexValue(lo);
  }

  /** Hex text to bytes, two digits per byte, high digit first. */
  function DecodeHex(h: string): (b: seq<Byte>)
    requires |h| % 2 == 0 && IsHex(h)
    ensures |b| == |h| / 2
  {
    if |h| == 0 then []
    else [DecodeByte(h[0], h[1])] + DecodeHex(h[2..])
  }

  /** `hex.EncodeToString`: bytes to lower-case hex. */
  function EncodeHex(b: seq<Byte>): (h: string)
    ensures |h| == 2 * |b| && IsHex(h)
  {
    if |b| == 0 then ""
    else EncodeByte(b[0]) + EncodeHex(b[1..])
  }

  /** Decoding two digits in front of well-formed hex. */
  lemma DecodeHexCons(e: string, rest: string)
    requires |e| == 2 && HexValue(e[0]) >= 0 && HexValue(e[1]) >= 0
    requires |rest| % 2 == 0 && IsHex(rest)
    ensures IsHex(e + rest)
    ensures DecodeHex(e + rest) == [DecodeByte(e[0], e[1])] + DecodeHex(rest)
  {
    var h := e + rest;
    forall i | 0 <= i < |h| ensures HexValue(h[i]) >= 0 {
      if i >= 2 {
        assert h[i] == rest[i - 2];
      }
    }
    assert h[2..] == rest;
  }

  /** Decoding undoes encoding ... */
  lemma {:induction false} DecodeEncodeHex(b: seq<Byte>)
    ensures DecodeHex(EncodeHex(b)) == b
  {
    if |b| > 0 {
      var e := EncodeByte(b[0]);
      var rest := EncodeHex(b[1..]);
      assert EncodeHex(b) == e + rest;
      DecodeHexCons(e, rest);
      DecodeEncodeHex(b[1..]);
      assert [b[0]] + b[1..] == b;
    }
  }

  /** ... and encoding undoes decoding, so hex text and bytes correspond
      one to one. */
  lemma {:induction false} EncodeDecodeHex(h: string)
    requires |h| % 2 == 0 && IsHex(h)
    ensures EncodeHex(DecodeHex(h)) == h
  {
    if |h| > 0 {
      var b := DecodeHex(h);
      assert HexValue(h[0]) >= 0 && HexValue(h[1]) >= 0;
      assert b[0] == DecodeByte(h[0], h[1]);
      EncodeDecodeByte(h[0], h[1]);
      assert b[1..] == DecodeHex(h[2..]);
      EncodeDecodeHex(h[2..]);
      assert EncodeHex(b) == EncodeByte(b[0]) + EncodeHex(b[1..]);
      assert h == [h[0], h[1]] + h[2..];
    }
  }

  function Zeros(n: nat): (z: seq<Byte>)
    ensures |z| == n && forall i | 0 <= i < n :: z[i] == 0
  {
    seq(n, i => 0)
  }

  /** `trace.TraceIDFromHex` with its error dropped: 32 lower-case hex
      digits give their 16 bytes, anything else gives the zero id. */
  function TraceIdFromHex(h: string): (t: seq<Byte>)
    ensures |t| == 16
  {
    if |h| == 32 && IsHex(h) then DecodeHex(h) else Zeros(16)
  }

  /** `trace.SpanIDFromHex` with its error dropped: 16 digits, 8 bytes. */
  function SpanIdFromHex(h: string): (s: seq<Byte>)
    ensures |s| == 8
  {
    if |h| == 16 && IsHex(h) then DecodeHex(h) else Zeros(8)
  }

  /** `parseTraceID`: the second '-'-separated field of the traceparent,
      decoded; the zero id when there is no second field. */
  function ParseTraceId(traceparent: string): (t: seq<Byte>)
    ensures |t| == 16
  {
    var parts := Split(traceparent, '-');
    if |parts| >= 2 then TraceIdFromHex(parts[1]) else Zeros(16)
  }

  /** `parseSpanID`. */
  function ParseSpanId(spanId: string): (s: seq<Byte>)
    ensures |s| == 8
  {
    SpanIdFromHex(spanId)
  }

  /** A traceparent header as a W3C propagator writes it. */
  function FormatTraceparent(version: string, traceId: seq<Byte>, parentId: seq<Byte>, flags: string): string
  {
    version + "-" + EncodeHex(traceId) + "-" + EncodeHex(parentId) + "-" + flags
  }

  /** A text before the first separator is the first part. */
  lemma {:induction false} SplitAtFirst(a: string, b: string, sep: char)
    requires sep !in a
    ensures Split(a + [sep] + b, sep) == [a] + Split(b, sep)
    decreases |a|
  {
    var s := a + [sep] + b;
    if |a| == 0 {
      assert s[0] == sep && s[1..] == b;
    } else {
      assert s[0] == a[0] && s[1..] == a[1..] + [sep] + b;
      SplitAtFirst(a[1..], b, sep);
      assert [a[0]] + a[1..] == a;
    }
  }

  /** Hex text holds no '-'. */
  lemma HexHasNoDash(h: string)
    requires IsHex(h)
    ensures '-' !in h
  {
    forall i | 0 <= i < |h| ensures h[i] != '-' {
      assert HexValue(h[i]) >= 0;
    }
  }

  /** The second field of a traceparent whose version is free of '-' is
      the hex of its trace-id. */
  lemma SecondFieldIsTraceId(version: string, traceId: seq<Byte>, parentId: seq<Byte>, flags: string)
    requires '-' !in version
    ensures var parts := Split(FormatTraceparent(version, traceId, parentId, flags), '-');
      |parts| >= 2 && parts[1] == EncodeHex(traceId)
  {
    var tid := EncodeHex(traceId);
    var rest := EncodeHex(parentId) + "-" + flags;
    assert FormatTraceparent(version, traceId, parentId, flags) == version + ['-'] + (tid + ['-'] + rest);
    HexHasNoDash(tid);
    SplitAtFirst(version, tid + ['-'] + rest, '-');
    SplitAtFirst(tid, rest, '-');
  }

  /** A traceparent with a version free of '-' yields its trace-id. */
  lemma ParseTraceIdOfTraceparent(version: string, traceId: seq<Byte>, parentId: seq<Byte>, flags: string)
    requires '-' !in version && |traceId| == 16
    ensures ParseTraceId(FormatTraceparent(version, traceId, parentId, flags)) == traceId
  {
    SecondFieldIsTraceId(version, traceId, parentId, flags);
    var tid := EncodeHex(traceId);
    assert TraceIdFromHex(tid) == DecodeHex(tid);
    DecodeEncodeHex(traceId);
  }

  /** Without any '-' there is no second field and the trace-id is zero. */
  lemma ParseTraceIdWithoutSeparator(traceparent: string)
    requires '-' !in traceparent
    ensures ParseTraceId(traceparent) == Zeros(16)
  {
    SplitWithoutSeparator(traceparent, '-');
  }

  /** An empty traceparent (a message published outside any trace) yields
      the zero trace-id. */
  lemma ParseTraceIdOfEmpty()
    ensures ParseTraceId("") == Zeros(16)
  {
  }

  /** The span-id text the producer writes is read back unchanged. */
  lemma SpanIdRoundTrip(spanId: seq<Byte>)
    requires |spanId| == 8
    ensures ParseSpanId(EncodeHex(spanId)) == spanId
  {
    DecodeEncodeHex(spanId);
  }

  /** Upper-case hex is not accepted and gives the zero span-id. */
  lemma UpperCaseSpanIdIsZero()
    ensures ParseSpanId("ABCDEF0123456789") == Zeros(8)
  {
    assert HexValue("ABCDEF0123456789"[0]) == -1;
  }
}
