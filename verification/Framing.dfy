/** The wire formats of crates/transport/src/lib.rs: tag/length frames and proxied UDP datagrams. */
module Framing {
  import opened Base

  type Byte = x: int | 0 <= x < 256
  type Bytes = seq<Byte>

  const MAX_FRAME: nat := 16 * 1024 * 1024
  const MAX_UDP_PAYLOAD: nat := 65507
  const HEADER: nat := 5

  datatype FrameTag = Start | Stdout | Stderr | Exit | Outcome | Data

  datatype Frame = Frame(tag: FrameTag, payload: Bytes)

  datatype FrameError = UnknownTag | TooLarge | Truncated

  function TagByte(tag: FrameTag): Byte {
    match tag
    case Start => 0
    case Stdout => 1
    case Stderr => 2
    case Exit => 3
    case Outcome => 4
    case Data => 5
  }

  function TagOf(b: Byte): Result<FrameTag, FrameError> {
    match b
    case 0 => Ok(Start)
    case 1 => Ok(Stdout)
    case 2 => Ok(Stderr)
    case 3 => Ok(Exit)
    case 4 => Ok(Outcome)
    case 5 => Ok(Data)
    case _ => Err(UnknownTag)
  }

  function LittleEndian(n: nat, width: nat): (r: Bytes)
    ensures |r| == width
  {
    if width == 0 then [] else [n % 256] + LittleEndian(n / 256, width - 1)
  }

  function FromLittleEndian(b: Bytes): nat {
    if b == [] then 0 else b[0] as int + 256 * FromLittleEndian(b[1..])
  }

  /** One more than the largest number of that many bytes. */
  function Span(width: nat): nat { if width == 0 then 1 else 256 * Span(width - 1) }

  lemma {:induction false} NumberSurvives(n: nat, width: nat)
    requires n < Span(width)
    ensures FromLittleEndian(LittleEndian(n, width)) == n
  {
    if width > 0 { NumberSurvives(n / 256, width - 1); }
  }

  lemma {:induction false} BytesSurvive(b: Bytes)
    ensures FromLittleEndian(b) < Span(|b|) && LittleEndian(FromLittleEndian(b), |b|) == b
  {
    if b != [] {
      BytesSurvive(b[1..]);
      var low: int, high := b[0], FromLittleEndian(b[1..]);
      assert (low + 256 * high) % 256 == low && (low + 256 * high) / 256 == high;
    }
  }

  lemma FrameLengthsFit()
    ensures Span(4) == 0x1_0000_0000 > MAX_FRAME
  {
    assert Span(2) == 0x1_0000 && Span(3) == 0x100_0000;
  }

  function Header(tag: FrameTag, len: nat): Result<Bytes, FrameError> {
    if len > MAX_FRAME then Err(TooLarge) else Ok([TagByte(tag)] + LittleEndian(len, 4))
  }

  function SplitHeader(header: Bytes): Result<(FrameTag, nat), FrameError>
    requires |header| == HEADER
  {
    var tag := TagOf(header[0]);
    if tag.Err? then Err(tag.error)
    else
      var len := FromLittleEndian(header[1..]);
      if len > MAX_FRAME then Err(TooLarge) else Ok((tag.value, len))
  }

  /** The header is a canonical encoding: splitting and building undo each other on everything accepted. */
  lemma HeaderRoundTrip(tag: FrameTag, len: nat, h: Bytes)
    requires |h| == HEADER
    ensures len <= MAX_FRAME ==> Header(tag, len).Ok? && |Header(tag, len).value| == HEADER
    ensures len <= MAX_FRAME ==> SplitHeader(Header(tag, len).value) == Ok((tag, len))
    ensures SplitHeader(h) == Ok((tag, len)) ==> Header(tag, len) == Ok(h)
  {
    FrameLengthsFit();
    if len <= MAX_FRAME { NumberSurvives(len, 4); }
    BytesSurvive(h[1..]);
    assert h == [h[0]] + h[1..];
  }

  predicate Legal(f: Frame) { |f.payload| <= MAX_FRAME }

  function Encode(f: Frame): (r: Bytes)
    requires Legal(f)
    ensures |r| == HEADER + |f.payload|
  {
    Header(f.tag, |f.payload|).value + f.payload
  }

  /** On the wire a frame is its tag's number, the payload's length with the low byte first, and the payload. */
  lemma FrameLayout(f: Frame)
    requires Legal(f)
    ensures var w := Encode(f);
            && (w[0] == 0 <==> f.tag == Start) && (w[0] == 1 <==> f.tag == Stdout) && (w[0] == 2 <==> f.tag == Stderr)
            && (w[0] == 3 <==> f.tag == Exit) && (w[0] == 4 <==> f.tag == Outcome) && (w[0] == 5 <==> f.tag == Data)
            && (w[1] as int) + 256 * (w[2] as int) + 0x1_0000 * (w[3] as int) + 0x100_0000 * (w[4] as int)
                 == |f.payload|
            && w[5..] == f.payload
  {
    var n, w := |f.payload|, Encode(f);
    assert LittleEndian(n, 4) == [n % 256] + LittleEndian(n / 256, 3);
    assert LittleEndian(n / 256, 3) == [n / 256 % 256] + LittleEndian(n / 256 / 256, 2);
    assert LittleEndian(n / 256 / 256, 2) == [n / 256 / 256 % 256] + LittleEndian(n / 256 / 256 / 256, 1);
    assert LittleEndian(n / 256 / 256 / 256, 1) == [n / 256 / 256 / 256 % 256] + [];
    assert w[1] == n % 256 && w[2] == n / 256 % 256 && w[3] == n / 256 / 256 % 256 && w[4] == n / 256 / 256 / 256 % 256;
  }

  /** What one read takes from the bytes still to come, under the caller's payload limit: a frame, or the clean end. */
  function Decode(bytes: Bytes, limit: nat): Result<Option<Frame>, FrameError> {
    if bytes == [] then Ok(None)
    else if |bytes| < HEADER then Err(Truncated)
    else
      var h := SplitHeader(bytes[..HEADER]);
      if h.Err? then Err(h.error)
      else if h.value.1 > limit then Err(TooLarge)
      else if |bytes| < HEADER + h.value.1 then Err(Truncated)
      else Ok(Some(Frame(h.value.0, bytes[HEADER..HEADER + h.value.1])))
  }

  /** A byte stream with its reader; `unread` is what the peer has sent and this side has not taken. */
  class ByteStream {
    var unread: Bytes

    method ReadExact(n: nat) returns (r: Result<Bytes, FrameError>)
      modifies this
      ensures if |old(unread)| < n then r == Err(Truncated) && unread == []
              else r == Ok(old(unread)[..n]) && unread == old(unread)[n..]
    {
      if |unread| < n {
        unread := [];
        return Err(Truncated);
      }
      r := Ok(unread[..n]);
      unread := unread[n..];
    }

    method ReadFrame(limit: nat) returns (r: Result<Option<Frame>, FrameError>)
      modifies this
      ensures r == Decode(old(unread), limit)
      ensures r == Ok(None) <==> old(unread) == []
      ensures r.Ok? && r.value.Some? ==>
                Legal(r.value.value) && |r.value.value.payload| <= limit
                    && old(unread) == Encode(r.value.value) + unread
    {
      if unread == [] { return Ok(None); }
      var first := unread[0];
      unread := unread[1..];
      assert old(unread) == [first] + unread;
      var rest := ReadExact(HEADER - 1);
      if rest.Err? { return Err(rest.error); }
      var header := [first] + rest.value;
      assert header == old(unread)[..HEADER] && unread == old(unread)[HEADER..];
      var split := SplitHeader(header);
      if split.Err? { return Err(split.error); }
      if split.value.1 > limit { return Err(TooLarge); }
      var payload := ReadExact(split.value.1);
      if payload.Err? { return Err(payload.error); }
      HeaderRoundTrip(split.value.0, split.value.1, header);
      assert payload.value == old(unread)[HEADER..HEADER + split.value.1];
      return Ok(Some(Frame(split.value.0, payload.value)));
    }

    method WriteFrame(f: Frame) returns (r: Result<(), FrameError>)
      modifies this
      ensures r == if Legal(f) then Ok(()) else Err(TooLarge)
      ensures unread == if Legal(f) then old(unread) + Encode(f) else old(unread)
    {
      var header := Header(f.tag, |f.payload|);
      if header.Err? { return Err(header.error); }
      unread := unread + header.value;
      unread := unread + f.payload;
      return Ok(());
    }
  }

  // ---------- whole streams ----------

  lemma DecodeEncoded(f: Frame, rest: Bytes, limit: nat)
    requires Legal(f) && |f.payload| <= limit
    ensures Decode(Encode(f) + rest, limit) == Ok(Some(f))
  {
    var bytes := Encode(f) + rest;
    HeaderRoundTrip(f.tag, |f.payload|, bytes[..HEADER]);
    assert bytes[..HEADER] == Header(f.tag, |f.payload|).value;
    assert bytes[HEADER..HEADER + |f.payload|] == f.payload;
  }

  lemma DecodedWasEncoded(bytes: Bytes, limit: nat)
    requires Decode(bytes, limit).Ok? && Decode(bytes, limit).value.Some?
    ensures var f := Decode(bytes, limit).value.value;
            Legal(f) && |Encode(f)| <= |bytes| && bytes == Encode(f) + bytes[|Encode(f)|..]
  {
    var h := SplitHeader(bytes[..HEADER]).value;
    HeaderRoundTrip(h.0, h.1, bytes[..HEADER]);
    assert bytes == bytes[..HEADER] + bytes[HEADER..HEADER + h.1] + bytes[HEADER + h.1..];
  }

  /** A frame cut anywhere inside is an error, never a clean end of stream. */
  lemma CutFrameIsAnError(f: Frame, k: nat, limit: nat)
    requires Legal(f) && 0 < k < |Encode(f)|
    ensures Decode(Encode(f)[..k], limit).Err?
  {
    if k >= HEADER {
      HeaderRoundTrip(f.tag, |f.payload|, Encode(f)[..HEADER]);
      assert Encode(f)[..k][..HEADER] == Header(f.tag, |f.payload|).value;
    }
  }

  predicate AllLegal(frames: seq<Frame>) { forall f | f in frames :: Legal(f) }

  function EncodeAll(frames: seq<Frame>): Bytes
    requires AllLegal(frames)
  {
    if frames == [] then [] else Encode(frames[0]) + EncodeAll(frames[1..])
  }

  /** Reading until the clean end: the frames, or the first error. */
  function DecodeAll(bytes: Bytes): Result<seq<Frame>, FrameError>
    decreases |bytes|
  {
    var r := Decode(bytes, MAX_FRAME);
    if r.Err? then Err(r.error)
    else if r.value.None? then Ok([])
    else
      DecodedWasEncoded(bytes, MAX_FRAME);
      var rest := DecodeAll(bytes[|Encode(r.value.value)|..]);
      if rest.Err? then rest else Ok([r.value.value] + rest.value)
  }

  function After(frames: seq<Frame>, rest: Result<seq<Frame>, FrameError>): Result<seq<Frame>, FrameError> {
    if rest.Err? then rest else Ok(frames + rest.value)
  }

  lemma DecodeAllStep(f: Frame, rest: Bytes)
    requires Legal(f)
    ensures DecodeAll(Encode(f) + rest) == After([f], DecodeAll(rest))
  {
    DecodeEncoded(f, rest, MAX_FRAME);
    assert (Encode(f) + rest)[|Encode(f)|..] == rest;
  }

  lemma AfterJoins(a: seq<Frame>, b: seq<Frame>, rest: Result<seq<Frame>, FrameError>)
    ensures After(a, After(b, rest)) == After(a + b, rest)
  {
    if rest.Ok? { assert a + (b + rest.value) == a + b + rest.value; }
  }

  method ReadAll(stream: ByteStream) returns (r: Result<seq<Frame>, FrameError>)
    modifies stream
    ensures r == DecodeAll(old(stream.unread))
  {
    var frames: seq<Frame> := [];
    ghost var all := DecodeAll(stream.unread);
    assert all.Ok? ==> [] + all.value == all.value;
    while true
      invariant all == DecodeAll(old(stream.unread)) == After(frames, DecodeAll(stream.unread))
      decreases |stream.unread|
    {
      var next := stream.ReadFrame(MAX_FRAME);
      if next.Err? { return Err(next.error); }
      if next.value.None? {
        assert frames + [] == frames;
        return Ok(frames);
      }
      DecodeAllStep(next.value.value, stream.unread);
      AfterJoins(frames, [next.value.value], DecodeAll(stream.unread));
      frames := frames + [next.value.value];
    }
  }

  /** Reading the concatenated encodings of any legal frames gives those frames and then a clean end. */
  lemma {:induction false} FramesRoundTrip(frames: seq<Frame>)
    requires AllLegal(frames)
    ensures DecodeAll(EncodeAll(frames)) == Ok(frames)
  {
    if frames != [] {
      var rest := EncodeAll(frames[1..]);
      FramesRoundTrip(frames[1..]);
      DecodeEncoded(frames[0], rest, MAX_FRAME);
      assert (Encode(frames[0]) + rest)[|Encode(frames[0])|..] == rest;
      assert frames == [frames[0]] + frames[1..];
    }
  }

  /** Every stream that reads cleanly is the encoding of what was read, and of nothing else. */
  lemma {:induction false} CleanStreamsAreEncodings(bytes: Bytes)
    requires DecodeAll(bytes).Ok?
    ensures AllLegal(DecodeAll(bytes).value) && EncodeAll(DecodeAll(bytes).value) == bytes
    decreases |bytes|
  {
    if bytes != [] {
      var f := Decode(bytes, MAX_FRAME).value.value;
      DecodedWasEncoded(bytes, MAX_FRAME);
      CleanStreamsAreEncodings(bytes[|Encode(f)|..]);
      var all := DecodeAll(bytes).value;
      assert all[1..] == DecodeAll(bytes[|Encode(f)|..]).value;
    }
  }

  /** Stopping after `n` bytes stops between two frames. */
  ghost predicate AtBoundary(frames: seq<Frame>, n: nat)
    requires AllLegal(frames)
  {
    exists j :: 0 <= j <= |frames| && n == |EncodeAll(frames[..j])|
  }

  lemma CutFirstFrame(f: Frame, rest: Bytes, n: nat)
    requires Legal(f) && 0 < n <= |Encode(f)| + |rest|
    ensures var d := DecodeAll((Encode(f) + rest)[..n]);
            if n < |Encode(f)| then d.Err? else d == After([f], DecodeAll(rest[..n - |Encode(f)|]))
  {
    if n < |Encode(f)| {
      assert (Encode(f) + rest)[..n] == Encode(f)[..n];
      CutFrameIsAnError(f, n, MAX_FRAME);
    } else {
      assert (Encode(f) + rest)[..n] == Encode(f) + rest[..n - |Encode(f)|];
      DecodeAllStep(f, rest[..n - |Encode(f)|]);
    }
  }

  /**
   * A stream that stops early reads cleanly exactly when it stops between frames, and then yields those before
   * the cut.
   */
  lemma {:induction false} TruncationIsDetected(frames: seq<Frame>, n: nat)
    requires AllLegal(frames) && n <= |EncodeAll(frames)|
    ensures DecodeAll(EncodeAll(frames)[..n]).Ok? <==> AtBoundary(frames, n)
    ensures DecodeAll(EncodeAll(frames)[..n]).Ok? ==> DecodeAll(EncodeAll(frames)[..n]).value <= frames
    decreases |frames|
  {
    if n == 0 {
      NothingRead(frames);
    } else {
      var f, rest := frames[0], EncodeAll(frames[1..]);
      BoundariesShift(frames, n);
      CutFirstFrame(f, rest, n);
      if n >= |Encode(f)| {
        TruncationIsDetected(frames[1..], n - |Encode(f)|);
        PrefixGrows(frames, DecodeAll(rest[..n - |Encode(f)|]));
      }
    }
  }

  lemma NothingRead(frames: seq<Frame>)
    requires AllLegal(frames)
    ensures AtBoundary(frames, 0) && DecodeAll(EncodeAll(frames)[..0]) == Ok([])
  {
    assert frames[..0] == [] && |EncodeAll(frames[..0])| == 0;
  }

  lemma PrefixGrows(frames: seq<Frame>, rest: Result<seq<Frame>, FrameError>)
    requires frames != [] && (rest.Ok? ==> rest.value <= frames[1..])
    ensures rest.Ok? ==> After([frames[0]], rest).value <= frames
  {
    assert frames == [frames[0]] + frames[1..];
  }

  lemma BoundariesShift(frames: seq<Frame>, n: nat)
    requires AllLegal(frames) && frames != [] && n > 0
    ensures AtBoundary(frames, n) <==> n >= |Encode(frames[0])| && AtBoundary(frames[1..], n - |Encode(frames[0])|)
  {
    forall j | 1 <= j <= |frames|
        ensures |EncodeAll(frames[..j])| == |Encode(frames[0])| + |EncodeAll(frames[1..][..j - 1])| {
      assert frames[..j][1..] == frames[1..][..j - 1];
    }
    if j :| 0 <= j <= |frames| && n == |EncodeAll(frames[..j])| {
      assert j > 0 && n - |Encode(frames[0])| == |EncodeAll(frames[1..][..j - 1])|;
    }
    if j :| 0 <= j <= |frames[1..]| && n - |Encode(frames[0])| == |EncodeAll(frames[1..][..j])| {
      assert n == |EncodeAll(frames[..j + 1])|;
    }
  }

  // ---------- proxied datagrams ----------

  datatype Datagram = Datagram(host: Bytes, port: nat, payload: Bytes)

  datatype DatagramError = EmptyHost | LongHost | ZeroPort | LargePayload | ShortDatagram | ShortHost | NotUtf8

  predicate Continuation(b: Byte) { 0x80 <= b <= 0xBF }

  /** The length of the well-formed UTF-8 sequence the bytes start with (table 3-7 of the Unicode standard), or 0. */
  function SequenceLength(s: Bytes): (n: nat)
    requires s != []
    ensures n <= |s|
  {
    var b := s[0];
    if b <= 0x7F then 1
    else if 0xC2 <= b <= 0xDF && |s| >= 2 && Continuation(s[1]) then 2
    else if 0xE0 <= b <= 0xEF && |s| >= 3 && Continuation(s[1]) && Continuation(s[2])
            && (b == 0xE0 ==> s[1] >= 0xA0) && (b == 0xED ==> s[1] <= 0x9F) then 3
    else if 0xF0 <= b <= 0xF4 && |s| >= 4 && Continuation(s[1]) && Continuation(s[2]) && Continuation(s[3])
            && (b == 0xF0 ==> s[1] >= 0x90) && (b == 0xF4 ==> s[1] <= 0x8F) then 4
    else 0
  }

  predicate Utf8(s: Bytes) {
    s == [] || (SequenceLength(s) > 0 && Utf8(s[SequenceLength(s)..]))
  }

  // Unicode scalar values and their encodings, as section 3 of RFC 3629 gives them.

  predicate IsScalar(v: int) { 0 <= v < 0xD800 || 0xE000 <= v < 0x11_0000 }

  function EncodeScalar(v: int): Bytes
    requires IsScalar(v)
  {
    if v < 0x80 then [v]
    else if v < 0x800 then [0xC0 + v / 64, 0x80 + v % 64]
    else if v < 0x1_0000 then [0xE0 + v / 64 / 64, 0x80 + v / 64 % 64, 0x80 + v % 64]
    else [0xF0 + v / 64 / 64 / 64, 0x80 + v / 64 / 64 % 64, 0x80 + v / 64 % 64, 0x80 + v % 64]
  }

  function EncodeScalars(vs: seq<int>): Bytes
    requires forall v | v in vs :: IsScalar(v)
  {
    if vs == [] then [] else EncodeScalar(vs[0]) + EncodeScalars(vs[1..])
  }

  lemma ScalarIsSequence(v: int, rest: Bytes)
    requires IsScalar(v)
    ensures SequenceLength(EncodeScalar(v) + rest) == |EncodeScalar(v)|
  {}

  lemma LastDigit(high: int, low: int)
    requires 0 <= low < 64
    ensures (64 * high + low) / 64 == high && (64 * high + low) % 64 == low
  {}

  lemma SequenceIsScalar(s: Bytes) returns (v: int)
    requires s != [] && SequenceLength(s) > 0
    ensures IsScalar(v) && EncodeScalar(v) == s[..SequenceLength(s)]
  {
    var n := SequenceLength(s);
    if n == 1 { return s[0]; }
    if n == 2 {
      v := TwoBytes(s[0], s[1]);
    } else if n == 3 {
      v := ThreeBytes(s[0], s[1], s[2]);
    } else {
      v := FourBytes(s[0], s[1], s[2], s[3]);
    }
  }

  lemma TwoBytes(b: int, c: int) returns (v: int)
    requires 0xC2 <= b <= 0xDF && 0x80 <= c <= 0xBF
    ensures IsScalar(v) && EncodeScalar(v) == [b, c]
  {
    v := 64 * (b - 0xC0) + (c - 0x80);
    LastDigit(b - 0xC0, c - 0x80);
  }

  lemma ThreeBytes(b: int, c: int, d: int) returns (v: int)
    requires 0xE0 <= b <= 0xEF && 0x80 <= c <= 0xBF && 0x80 <= d <= 0xBF
    requires (b == 0xE0 ==> c >= 0xA0) && (b == 0xED ==> c <= 0x9F)
    ensures IsScalar(v) && EncodeScalar(v) == [b, c, d]
  {
    var high := 64 * (b - 0xE0) + (c - 0x80);
    v := 64 * high + (d - 0x80);
    LastDigit(b - 0xE0, c - 0x80);
    LastDigit(high, d - 0x80);
  }

  lemma FourBytes(b: int, c: int, d: int, e: int) returns (v: int)
    requires 0xF0 <= b <= 0xF4 && 0x80 <= c <= 0xBF && 0x80 <= d <= 0xBF && 0x80 <= e <= 0xBF
    requires (b == 0xF0 ==> c >= 0x90) && (b == 0xF4 ==> c <= 0x8F)
    ensures IsScalar(v) && EncodeScalar(v) == [b, c, d, e]
  {
    var high := 64 * (b - 0xF0) + (c - 0x80);
    var middle := 64 * high + (d - 0x80);
    v := 64 * middle + (e - 0x80);
    LastDigit(b - 0xF0, c - 0x80);
    LastDigit(high, d - 0x80);
    LastDigit(middle, e - 0x80);
  }

  lemma {:induction false} EncodedIsUtf8(vs: seq<int>)
    requires forall v | v in vs :: IsScalar(v)
    ensures Utf8(EncodeScalars(vs))
  {
    if vs != [] {
      var s := EncodeScalars(vs);
      ScalarIsSequence(vs[0], EncodeScalars(vs[1..]));
      EncodedIsUtf8(vs[1..]);
      assert s[SequenceLength(s)..] == EncodeScalars(vs[1..]);
    }
  }

  /** Text is exactly what some Unicode scalar values encode to. */
  lemma {:induction false} Utf8IsEncoded(s: Bytes) returns (vs: seq<int>)
    requires Utf8(s)
    ensures (forall v | v in vs :: IsScalar(v)) && EncodeScalars(vs) == s
    decreases |s|
  {
    if s == [] { return []; }
    var v := SequenceIsScalar(s);
    var rest := Utf8IsEncoded(s[SequenceLength(s)..]);
    vs := [v] + rest;
    assert vs[1..] == rest && s == s[..SequenceLength(s)] + s[SequenceLength(s)..];
  }

  /** The values the source's types hold: a `String` host and a `u16` port. */
  predicate Typed(d: Datagram) { Utf8(d.host) && d.port < 0x1_0000 }

  function EncodeDatagram(d: Datagram): Result<Bytes, DatagramError>
    requires Typed(d)
  {
    if d.host == [] then Err(EmptyHost)
    else if |d.host| > 255 then Err(LongHost)
    else if d.port == 0 then Err(ZeroPort)
    else if |d.payload| > MAX_UDP_PAYLOAD then Err(LargePayload)
    else Ok([|d.host|] + [d.port / 256, d.port % 256] + d.host + d.payload)
  }

  function DecodeDatagram(b: Bytes): Result<Datagram, DatagramError> {
    if |b| < 4 then Err(ShortDatagram)
    else
      var offset: nat := 3 + b[0] as int;
      if b[0] == 0 || offset > |b| then Err(ShortHost)
      else
        var port: nat := 256 * (b[1] as int) + b[2] as int;
        if port == 0 then Err(ZeroPort)
        else if !Utf8(b[3..offset]) then Err(NotUtf8)
        else if |b[offset..]| > MAX_UDP_PAYLOAD then Err(LargePayload)
        else Ok(Datagram(b[3..offset], port, b[offset..]))
  }

  /** What can be sent, and how: the host's length, the port with the high byte first, the host, the payload. */
  lemma DatagramLayout(d: Datagram)
    requires Typed(d)
    ensures EncodeDatagram(d).Ok? <==> 1 <= |d.host| <= 255 && d.port > 0 && |d.payload| <= 65507
    ensures EncodeDatagram(d).Ok? ==>
              var w := EncodeDatagram(d).value;
              && |w| == 3 + |d.host| + |d.payload| && w[0] == |d.host|
              && 256 * (w[1] as int) + (w[2] as int) == d.port
              && w[3..3 + |d.host|] == d.host && w[3 + |d.host|..] == d.payload
  {}

  /** Whatever encodes decodes to the same datagram. */
  lemma DatagramRoundTrip(d: Datagram)
    requires Typed(d) && EncodeDatagram(d).Ok?
    ensures DecodeDatagram(EncodeDatagram(d).value) == Ok(d)
  {
    var b := EncodeDatagram(d).value;
    assert b[3..3 + |d.host|] == d.host && b[3 + |d.host|..] == d.payload;
  }

  /** Whatever decodes is the one encoding of its datagram. */
  lemma DecodedDatagramsAreEncodings(b: Bytes)
    requires DecodeDatagram(b).Ok?
    ensures Typed(DecodeDatagram(b).value) && EncodeDatagram(DecodeDatagram(b).value) == Ok(b)
  {
    var offset: nat := 3 + b[0] as int;
    assert b == [b[0]] + [b[1], b[2]] + b[3..offset] + b[offset..];
  }
}
