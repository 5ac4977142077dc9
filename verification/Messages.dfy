/** Reassembly of newline-delimited messages from DATA frames (crates/as-edge/src/mcp_http.rs). */
module Messages {
  import opened Base
  import opened Framing

  const MAX_MESSAGE_BYTES: nat := 16 * 1024 * 1024
  const NEWLINE: Byte := 10
  const RETURN: Byte := 13

  datatype MessageError = TooLong | ReadFailed

  /**
   * What the stream still holds: frames, and possibly a read that fails. The end of the list is the end of the
   * stream.
   */
  datatype Input = Received(frame: Frame) | Failure

  // ---------- what a byte stream says ----------

  /** The index of the first newline, or the length. */
  function Position(bytes: Bytes): (n: nat)
    ensures n <= |bytes| && NEWLINE !in bytes[..n] && (n < |bytes| ==> bytes[n] == NEWLINE)
  {
    if bytes == [] || bytes[0] == NEWLINE then 0
    else
      assert forall k: nat | k < |bytes| :: bytes[..k + 1] == [bytes[0]] + bytes[1..][..k];
      1 + Position(bytes[1..])
  }

  function WithoutReturn(line: Bytes): Bytes {
    if line != [] && line[|line| - 1] == RETURN then line[..|line| - 1] else line
  }

  function Unless(empty: bool, line: Bytes): seq<Bytes> { if empty then [] else [line] }

  /**
   * The messages in a whole stream: each non-empty line without its carriage return, then an unterminated tail
   * as it is.
   */
  function Expected(bytes: Bytes): seq<Bytes>
    decreases |bytes|
  {
    var n := Position(bytes);
    if n == |bytes| then Unless(bytes == [], bytes)
    else
      var line := WithoutReturn(bytes[..n]);
      Unless(line == [], line) + Expected(bytes[n + 1..])
  }

  lemma {:induction false} PositionIs(bytes: Bytes, n: nat)
    requires n <= |bytes| && NEWLINE !in bytes[..n] && (n < |bytes| ==> bytes[n] == NEWLINE)
    ensures Position(bytes) == n
  {
    if n > 0 {
      assert bytes[0] == bytes[..n][0];
      assert forall b | b in bytes[1..][..n - 1] :: b in bytes[..n];
      PositionIs(bytes[1..], n - 1);
    }
  }

  /** The messages of the terminated lines. */
  function Lines(bytes: Bytes): seq<Bytes>
    decreases |bytes|
  {
    var n := Position(bytes);
    if n == |bytes| then []
    else
      var line := WithoutReturn(bytes[..n]);
      Unless(line == [], line) + Lines(bytes[n + 1..])
  }

  /** What follows the last newline. */
  function Tail(bytes: Bytes): (t: Bytes)
    ensures NEWLINE !in t && |t| <= |bytes|
    decreases |bytes|
  {
    var n := Position(bytes);
    if n == |bytes| then
      assert bytes[..n] == bytes;
      bytes
    else Tail(bytes[n + 1..])
  }

  lemma Regroup<T>(a: seq<T>, b: seq<T>, c: seq<T>)
    ensures a + b + c == a + (b + c)
  {}

  lemma {:induction false} LinesThenTail(bytes: Bytes)
    ensures Expected(bytes) == Lines(bytes) + Unless(Tail(bytes) == [], Tail(bytes))
    decreases |bytes|
  {
    var n := Position(bytes);
    if n < |bytes| {
      var line := WithoutReturn(bytes[..n]);
      LinesThenTail(bytes[n + 1..]);
      Regroup(Unless(line == [], line), Lines(bytes[n + 1..]), Unless(Tail(bytes) == [], Tail(bytes)));
    }
  }

  /** Bytes that arrive later do not change a line that is already complete. */
  lemma LineIsStable(buf: Bytes, more: Bytes)
    requires Position(buf) < |buf|
    ensures Position(buf + more) == Position(buf)
    ensures var n := Position(buf);
            var line := WithoutReturn(buf[..n]);
            && Expected(buf + more) == Unless(line == [], line) + Expected(buf[n + 1..] + more)
            && Tail(buf + more) == Tail(buf[n + 1..] + more)
  {
    var n := Position(buf);
    assert (buf + more)[..n] == buf[..n] && (buf + more)[n + 1..] == buf[n + 1..] + more;
    PositionIs(buf + more, n);
  }

  /** Complete lines do not reach into what follows them. */
  lemma {:induction false} TailIsLocal(buf: Bytes, more: Bytes)
    ensures Tail(buf + more) == Tail(Tail(buf) + more)
    decreases |buf|
  {
    if Position(buf) < |buf| {
      LineIsStable(buf, more);
      TailIsLocal(buf[Position(buf) + 1..], more);
    }
  }

  // ---------- the reader ----------

  predicate IsChunk(i: Input) { i.Received? && i.frame.tag == Data }

  /** The DATA frames up to the first end, other frame or failure. */
  function Chunks(incoming: seq<Input>): Bytes {
    if incoming == [] || !IsChunk(incoming[0]) then [] else incoming[0].frame.payload + Chunks(incoming[1..])
  }

  /** What follows those DATA frames. */
  function Stop(incoming: seq<Input>): (stop: seq<Input>)
    ensures |stop| <= |incoming|
  {
    if incoming == [] || !IsChunk(incoming[0]) then incoming else Stop(incoming[1..])
  }

  function AfterStop(incoming: seq<Input>): seq<Input> {
    if Stop(incoming) == [] then [] else Stop(incoming)[1..]
  }

  /** Some chunk arrives that, with the unterminated line it continues, passes the limit. */
  predicate Overflows(tail: Bytes, incoming: seq<Input>)
    decreases |incoming|
  {
    && incoming != [] && IsChunk(incoming[0])
    && var chunk := incoming[0].frame.payload;
       |tail| + |chunk| > MAX_MESSAGE_BYTES || Overflows(Tail(tail + chunk), incoming[1..])
  }

  /** The error the next call runs into, if any: only what comes before the next complete message counts. */
  function NextError(buf: Bytes, incoming: seq<Input>): Option<MessageError>
    decreases |incoming|
  {
    if Lines(buf) != [] || incoming == [] then None
    else if incoming[0].Failure? then Some(ReadFailed)
    else if !IsChunk(incoming[0]) then None
    else if |Tail(buf)| + |incoming[0].frame.payload| > MAX_MESSAGE_BYTES then Some(TooLong)
    else NextError(Tail(buf) + incoming[0].frame.payload, incoming[1..])
  }

  function Prepend(m: Bytes, rest: Result<seq<Bytes>, MessageError>): Result<seq<Bytes>, MessageError> {
    if rest.Err? then rest else Ok([m] + rest.value)
  }

  function Join(ms: seq<Bytes>, rest: Result<seq<Bytes>, MessageError>): Result<seq<Bytes>, MessageError> {
    if rest.Err? then rest else Ok(ms + rest.value)
  }

  /**
   * What a session reads until it is told that nothing is left, starting from `buf`. A frame that is not DATA
   * ends the session, unless it cuts off an unterminated line: that is delivered, and reading goes on.
   */
  function Session(buf: Bytes, incoming: seq<Input>): Result<seq<Bytes>, MessageError>
    decreases |incoming|, 1
  {
    var bytes := buf + Chunks(incoming);
    if Overflows(Tail(buf), incoming) then Err(TooLong)
    else Join(Expected(bytes), Later(Tail(bytes) != [], Stop(incoming)))
  }

  /** What the session reads after a segment; `open` says that the segment ended within a line. */
  function Later(open: bool, stop: seq<Input>): Result<seq<Bytes>, MessageError>
    decreases |stop|, 0
  {
    if stop == [] then Ok([])
    else if stop[0].Failure? then Err(ReadFailed)
    else if open then Session([], stop[1..])
    else Ok([])
  }

  // ---------- one turn of the loop ----------

  lemma JoinLine(line: Bytes, ms: seq<Bytes>, rest: Result<seq<Bytes>, MessageError>)
    ensures Join(Unless(line == [], line) + ms, rest) == if line == [] then Join(ms, rest)
            else Prepend(line, Join(ms, rest))
  {
    if line == [] {
      assert [] + ms == ms;
    } else if rest.Ok? {
      Regroup([line], ms, rest.value);
    }
  }

  /** A terminated line leaves the buffer; an empty one leaves no trace. */
  lemma LineLeaves(buf: Bytes, incoming: seq<Input>)
    requires Position(buf) < |buf|
    ensures var n := Position(buf);
            var line, rest := WithoutReturn(buf[..n]), buf[n + 1..];
            && Session(buf, incoming) ==
                 (if line == [] then Session(rest, incoming) else Prepend(line, Session(rest, incoming)))
            && (line == [] ==> NextError(buf, incoming) == NextError(rest, incoming))
            && (line != [] ==> NextError(buf, incoming) == None)
            && Expected(buf + Chunks(incoming)) == Unless(line == [], line) + Expected(rest + Chunks(incoming))
  {
    var n := Position(buf);
    var line, rest := WithoutReturn(buf[..n]), buf[n + 1..];
    LineIsStable(buf, Chunks(incoming));
    assert Tail(buf) == Tail(rest);
    assert line == [] ==> Lines(buf) == Lines(rest);
    JoinLine(line, Expected(rest + Chunks(incoming)), Later(Tail(rest + Chunks(incoming)) != [], Stop(incoming)));
  }

  lemma Unterminated(buf: Bytes)
    requires Position(buf) == |buf|
    ensures Lines(buf) == [] && Tail(buf) == buf && Expected(buf) == Unless(buf == [], buf)
  {}

  /** A chunk that fits joins the buffer. */
  lemma ChunkJoins(buf: Bytes, incoming: seq<Input>)
    requires Position(buf) == |buf| && incoming != [] && IsChunk(incoming[0])
    ensures var chunk := incoming[0].frame.payload;
            if |buf| + |chunk| > MAX_MESSAGE_BYTES
            then Session(buf, incoming) == Err(TooLong) && NextError(buf, incoming) == Some(TooLong)
            else && Session(buf, incoming) == Session(buf + chunk, incoming[1..])
                 && NextError(buf, incoming) == NextError(buf + chunk, incoming[1..])
                 && buf + Chunks(incoming) == buf + chunk + Chunks(incoming[1..])
  {
    Unterminated(buf);
    var chunk := incoming[0].frame.payload;
    Regroup(buf, chunk, Chunks(incoming[1..]));
  }

  /** What is left to read when a segment ends with `buf` unterminated. */
  function Flushed(buf: Bytes, incoming: seq<Input>): Result<seq<Bytes>, MessageError> {
    if buf == [] then Ok([]) else Prepend(buf, Session([], AfterStop(incoming)))
  }

  /** Anything else ends the segment: a failure is an error, and an unterminated line is delivered as it is. */
  lemma SegmentEnds(buf: Bytes, incoming: seq<Input>)
    requires Position(buf) == |buf| && (incoming == [] || !IsChunk(incoming[0]))
    ensures buf + Chunks(incoming) == buf && Stop(incoming) == incoming
    ensures if incoming != [] && incoming[0].Failure?
            then Session(buf, incoming) == Err(ReadFailed) && NextError(buf, incoming) == Some(ReadFailed)
            else NextError(buf, incoming) == None && Session(buf, incoming) == Flushed(buf, incoming)
  {
    Unterminated(buf);
    assert buf + Chunks(incoming) == buf && !Overflows(buf, incoming);
    NothingLeft();
    var later := Later(buf != [], incoming);
    assert Session(buf, incoming) == Join(Unless(buf == [], buf), later);
    JoinLine(buf, [], later);
    assert Unless(buf == [], buf) + [] == Unless(buf == [], buf);
    assert later.Ok? ==> [] + later.value == later.value;
  }

  lemma NothingLeft()
    ensures Session([], []) == Ok([])
  {
    assert [] + Chunks([]) == [] && Stop([]) == [];
  }

  /** Draining empty lines and taking in chunks changes nothing that matters. */
  ghost predicate Equivalent(buf0: Bytes, inc0: seq<Input>, buf: Bytes, inc: seq<Input>) {
    && Session(buf, inc) == Session(buf0, inc0) && NextError(buf, inc) == NextError(buf0, inc0)
    && Expected(buf + Chunks(inc)) == Expected(buf0 + Chunks(inc0)) && Stop(inc) == Stop(inc0)
    && (|inc| < |inc0| || (inc == inc0 && |buf| <= |buf0|))
  }

  /**
   * The call fails exactly on an error that comes before the next complete message; otherwise it is one step of
   * the session.
   */
  ghost predicate Steps(buf0: Bytes, inc0: seq<Input>, r: Result<Option<Bytes>, MessageError>, buf: Bytes,
      inc: seq<Input>) {
    && (match NextError(buf0, inc0) case Some(e) => r == Err(e) case None => r.Ok?)
    && match r
       case Err(e) => Session(buf0, inc0) == Err(e)
       case Ok(None) => Session(buf0, inc0) == Ok([]) && Expected(buf0 + Chunks(inc0)) == []
       case Ok(Some(m)) => Session(buf0, inc0) == Prepend(m, Session(buf, inc)) && Delivers(buf0, inc0, m, buf, inc)
  }

  /** The message is the first ahead; the others stay ahead, or it was the tail and the stop is consumed with it. */
  ghost predicate Delivers(buf0: Bytes, inc0: seq<Input>, m: Bytes, buf: Bytes, inc: seq<Input>) {
    && (|inc| < |inc0| || (inc == inc0 && |buf| < |buf0|))
    && (|| (Stop(inc) == Stop(inc0) && Expected(buf0 + Chunks(inc0)) == [m] + Expected(buf + Chunks(inc)))
        || (buf == [] && inc == AfterStop(inc0) && Expected(buf0 + Chunks(inc0)) == [m]))
  }

  lemma AfterLine(buf0: Bytes, inc0: seq<Input>, buf: Bytes, inc: seq<Input>)
    requires Equivalent(buf0, inc0, buf, inc) && Position(buf) < |buf|
    ensures var line, rest := WithoutReturn(buf[..Position(buf)]), buf[Position(buf) + 1..];
            if line == [] then Equivalent(buf0, inc0, rest, inc) else Steps(buf0, inc0, Ok(Some(line)), rest, inc)
  {
    LineLeaves(buf, inc);
    var rest := buf[Position(buf) + 1..];
    assert [] + Expected(rest + Chunks(inc)) == Expected(rest + Chunks(inc));
  }

  lemma AfterChunk(buf0: Bytes, inc0: seq<Input>, buf: Bytes, inc: seq<Input>)
    requires Equivalent(buf0, inc0, buf, inc) && Position(buf) == |buf| && inc != [] && IsChunk(inc[0])
    ensures var chunk := inc[0].frame.payload;
            if |buf| + |chunk| > MAX_MESSAGE_BYTES then Steps(buf0, inc0, Err(TooLong), buf, inc)
            else Equivalent(buf0, inc0, buf + chunk, inc[1..])
  {
    ChunkJoins(buf, inc);
  }

  lemma AfterSegment(buf0: Bytes, inc0: seq<Input>, buf: Bytes, inc: seq<Input>)
    requires Equivalent(buf0, inc0, buf, inc) && Position(buf) == |buf| && (inc == [] || !IsChunk(inc[0]))
    ensures if inc != [] && inc[0].Failure? then Steps(buf0, inc0, Err(ReadFailed), buf, inc)
            else if buf == [] then Steps(buf0, inc0, Ok(None), buf, AfterStop(inc))
            else Steps(buf0, inc0, Ok(Some(buf)), [], AfterStop(inc))
  {
    SegmentEnds(buf, inc);
    Unterminated(buf);
  }

  class Reader {
    var buf: Bytes
    var incoming: seq<Input>

    method Find() returns (n: nat)
      ensures n == Position(buf)
    {
      n := 0;
      while n < |buf| && buf[n] != NEWLINE
        invariant n <= |buf| && NEWLINE !in buf[..n]
      {
        assert buf[..n + 1] == buf[..n] + [buf[n]];
        n := n + 1;
      }
      PositionIs(buf, n);
    }

    method ReadMessage() returns (r: Result<Option<Bytes>, MessageError>)
      requires |buf| <= MAX_MESSAGE_BYTES
      modifies this
      ensures |buf| <= MAX_MESSAGE_BYTES
      ensures Steps(old(buf), old(incoming), r, buf, incoming)
    {
      while true
        invariant |buf| <= MAX_MESSAGE_BYTES && Equivalent(old(buf), old(incoming), buf, incoming)
        decreases |incoming|, |buf|
      {
        var n := Find();
        if n < |buf| {
          AfterLine(old(buf), old(incoming), buf, incoming);
          var line := WithoutReturn(buf[..n]);
          buf := buf[n + 1..];
          if line == [] { continue; }
          return Ok(Some(line));
        }
        if incoming != [] && IsChunk(incoming[0]) {
          AfterChunk(old(buf), old(incoming), buf, incoming);
          var chunk := incoming[0].frame.payload;
          if |buf| + |chunk| > MAX_MESSAGE_BYTES { return Err(TooLong); }
          buf := buf + chunk;
          incoming := incoming[1..];
        } else {
          AfterSegment(old(buf), old(incoming), buf, incoming);
          if incoming != [] && incoming[0].Failure? { return Err(ReadFailed); }
          if incoming != [] { incoming := incoming[1..]; }
          if buf == [] { return Ok(None); }
          var tail := buf;
          buf := [];
          return Ok(Some(tail));
        }
      }
    }
  }

  lemma JoinStep(ms: seq<Bytes>, m: Bytes, rest: Result<seq<Bytes>, MessageError>)
    ensures Join(ms, Prepend(m, rest)) == Join(ms + [m], rest)
  {
    if rest.Ok? { Regroup(ms, [m], rest.value); }
  }

  /** The bridge's own loop: reads until it is told that nothing is left. */
  method ReadSession(reader: Reader) returns (r: Result<seq<Bytes>, MessageError>)
    requires reader.buf == []
    modifies reader
    ensures r == Session([], old(reader.incoming))
  {
    ghost var all := Session([], reader.incoming);
    var messages: seq<Bytes> := [];
    assert all.Ok? ==> [] + all.value == all.value;
    while true
      invariant |reader.buf| <= MAX_MESSAGE_BYTES
      invariant all == Join(messages, Session(reader.buf, reader.incoming))
      decreases |reader.incoming|, |reader.buf|
    {
      var next := reader.ReadMessage();
      if next.Err? { return Err(next.error); }
      if next.value.None? {
        assert messages + [] == messages;
        return Ok(messages);
      }
      JoinStep(messages, next.value.value, Session(reader.buf, reader.incoming));
      messages := messages + [next.value.value];
    }
  }

  // ---------- how the bytes are cut ----------

  ghost predicate AllChunks(incoming: seq<Input>) { forall k | 0 <= k < |incoming| :: IsChunk(incoming[k]) }

  lemma {:induction false} OnlyChunks(incoming: seq<Input>)
    requires AllChunks(incoming)
    ensures Stop(incoming) == []
  {
    if incoming != [] { OnlyChunks(incoming[1..]); }
  }

  /** The unterminated line before chunk `k`, with that chunk, passes the limit. */
  ghost predicate OverflowsAt(tail: Bytes, incoming: seq<Input>, k: nat)
    requires AllChunks(incoming) && k < |incoming|
  {
    |Tail(tail + Chunks(incoming[..k]))| + |incoming[k].frame.payload| > MAX_MESSAGE_BYTES
  }

  lemma OverflowShifts(tail: Bytes, incoming: seq<Input>, k: nat)
    requires AllChunks(incoming) && 0 < k < |incoming|
    ensures OverflowsAt(tail, incoming, k) <==>
            OverflowsAt(Tail(tail + incoming[0].frame.payload), incoming[1..], k - 1)
  {
    var chunk, rest := incoming[0].frame.payload, incoming[1..];
    assert incoming[..k][1..] == rest[..k - 1] && incoming[..k][0] == incoming[0];
    Regroup(tail, chunk, Chunks(rest[..k - 1]));
    TailIsLocal(tail + chunk, Chunks(rest[..k - 1]));
  }

  lemma {:induction false} OverflowsExactly(tail: Bytes, incoming: seq<Input>)
    requires AllChunks(incoming) && Tail(tail) == tail
    ensures Overflows(tail, incoming) <==> exists k :: 0 <= k < |incoming| && OverflowsAt(tail, incoming, k)
    decreases |incoming|
  {
    if incoming != [] {
      var chunk, rest := incoming[0].frame.payload, incoming[1..];
      assert incoming[..0] == [] && tail + Chunks(incoming[..0]) == tail;
      assert OverflowsAt(tail, incoming, 0) <==> |tail| + |chunk| > MAX_MESSAGE_BYTES;
      TailIsLocal(tail + chunk, []);
      assert tail + chunk + [] == tail + chunk && Tail(tail + chunk) + [] == Tail(tail + chunk);
      OverflowsExactly(Tail(tail + chunk), rest);
      forall k | 0 < k < |incoming|
        ensures OverflowsAt(tail, incoming, k) <==> OverflowsAt(Tail(tail + chunk), rest, k - 1)
      {
        OverflowShifts(tail, incoming, k);
      }
      if k :| 0 <= k < |rest| && OverflowsAt(Tail(tail + chunk), rest, k) { assert OverflowsAt(tail, incoming, k + 1); }
    }
  }

  /**
   * A session of DATA frames fails exactly when some frame, with the unterminated line before it, passes 16 MiB;
   * otherwise its messages are those of the concatenated bytes.
   */
  lemma SessionIsItsBytes(incoming: seq<Input>)
    requires AllChunks(incoming)
    ensures Session([], incoming) ==
            if exists k :: 0 <= k < |incoming| && OverflowsAt([], incoming, k) then Err(TooLong)
            else Ok(Expected(Chunks(incoming)))
  {
    OnlyChunks(incoming);
    OverflowsExactly([], incoming);
    assert [] + Chunks(incoming) == Chunks(incoming);
    assert Expected(Chunks(incoming)) + [] == Expected(Chunks(incoming));
  }

  /** Two ways of cutting the same bytes that both stay within the limit give the same messages. */
  lemma CutsDoNotMatter(a: seq<Input>, b: seq<Input>)
    requires AllChunks(a) && AllChunks(b) && Chunks(a) == Chunks(b)
    requires Session([], a).Ok? && Session([], b).Ok?
    ensures Session([], a) == Session([], b)
  {
    SessionIsItsBytes(a);
    SessionIsItsBytes(b);
  }

  // ---------- the messages are the lines ----------

  /** A line as a peer sends it: with or without a carriage return. */
  datatype Line = Line(text: Bytes, crlf: bool)

  predicate Plain(line: Line) {
    NEWLINE !in line.text && line.text != [] && line.text[|line.text| - 1] != RETURN
  }

  function Ending(line: Line): Bytes { if line.crlf then [RETURN, NEWLINE] else [NEWLINE] }

  function Rendered(lines: seq<Line>): Bytes {
    if lines == [] then []
    else lines[0].text + Ending(lines[0]) + Rendered(lines[1..])
  }

  function Texts(lines: seq<Line>): seq<Bytes> { if lines == [] then [] else [lines[0].text] + Texts(lines[1..]) }

  /** The first line of a stream is its first message, whatever follows. */
  lemma FirstLine(l: Line, more: Bytes)
    requires Plain(l)
    ensures Expected(l.text + Ending(l) + more) == [l.text] + Expected(more)
  {
    var body := if l.crlf then l.text + [RETURN] else l.text;
    var bytes := l.text + Ending(l);
    assert bytes == body + [NEWLINE];
    assert bytes[..|body|] == body && bytes[|body| + 1..] + more == more;
    PositionIs(bytes, |body|);
    assert WithoutReturn(body) == l.text;
    LineIsStable(bytes, more);
  }

  /** Sent lines come back one for one, and an unterminated tail comes back as it is. */
  lemma {:induction false} LinesRoundTrip(lines: seq<Line>, tail: Bytes)
    requires (forall l | l in lines :: Plain(l)) && NEWLINE !in tail
    ensures Expected(Rendered(lines) + tail) == Texts(lines) + Unless(tail == [], tail)
  {
    if lines == [] {
      assert Rendered(lines) + tail == tail && Texts(lines) + Unless(tail == [], tail) == Unless(tail == [], tail);
      PositionIs(tail, |tail|);
    } else {
      var l, more := lines[0], Rendered(lines[1..]) + tail;
      calc {
        Expected(Rendered(lines) + tail);
        { Regroup(l.text + Ending(l), Rendered(lines[1..]), tail); }
        Expected(l.text + Ending(l) + more);
        { FirstLine(l, more); }
        [l.text] + Expected(more);
        { LinesRoundTrip(lines[1..], tail); }
        [l.text] + (Texts(lines[1..]) + Unless(tail == [], tail));
        { Regroup([l.text], Texts(lines[1..]), Unless(tail == [], tail)); }
        Texts(lines) + Unless(tail == [], tail);
      }
    }
  }
}
