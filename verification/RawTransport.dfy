/** The response reader over a connection, and the writer that copes with short writes. */
module RawTransport {
  import opened Options
  import opened Hex
  import opened ChunkedBody
  import opened RawMessage

  /** A signed 64-bit sum of two non-negative numbers. */
  function Sum64(a: nat, b: nat): int
    requires a <= MAX_INT64 && b <= MAX_INT64
  {
    if a + b > MAX_INT64 then a + b - 0x1_0000_0000_0000_0000 else a + b
  }

  class Connection {
    var data: seq<Byte>
    const ending: Ending

    constructor (data: seq<Byte>, ending: Ending)
      ensures this.data == data && this.ending == ending
    {
      this.data, this.ending := data, ending;
    }

    /** Reads up to the next line feed; at the end of the connection everything is consumed. */
    method ReadLine() returns (line: Option<seq<Byte>>)
      modifies this
      ensures LineLength(old(data)) == 0 ==> line.None? && data == []
      ensures LineLength(old(data)) > 0 ==>
                line == Some(old(data)[..LineLength(old(data))]) && data == old(data)[LineLength(old(data))..]
    {
      var n := LineLength(data);
      if n == 0 {
        data := [];
        return None;
      }
      line := Some(data[..n]);
      data := data[n..];
    }

    /** Reads exactly `n` bytes, or everything when there are fewer. */
    method ReadFull(n: nat) returns (bytes: Option<seq<Byte>>)
      modifies this
      ensures |old(data)| < n ==> bytes.None? && data == []
      ensures |old(data)| >= n ==> bytes == Some(old(data)[..n]) && data == old(data)[n..]
    {
      if |data| < n {
        data := [];
        return None;
      }
      bytes := Some(data[..n]);
      data := data[n..];
    }
  }

  /** The result of a read on a connection with this outcome: nothing is returned after a panic. */
  ghost predicate Yields(outcome: Outcome, observation: Option<Observation>, rest: seq<Byte>) {
    if outcome.Panic? then observation.None? else observation == Some(outcome.observation) && rest == outcome.rest
  }

  method ReadTrailer(c: Connection, body: seq<Byte>) returns (observation: Observation)
    modifies c
    ensures Done(observation, c.data) == Trailer(old(c.data), body, c.ending) && |c.data| <= |old(c.data)|
  {
    while true
      invariant Trailer(c.data, body, c.ending) == Trailer(old(c.data), body, c.ending) && |c.data| <= |old(c.data)|
      decreases |c.data|
    {
      var line := c.ReadLine();
      if line.None? {
        return AtEnd(c.ending);
      }
      if BlankLine(line.value) {
        return Observation(body, true, None, false, false);
      }
    }
  }

  /** The reader computes `Read`: the same observation, and the same bytes left unread. */
  method ReadChunkedBody(c: Connection, maxBody: nat) returns (observation: Option<Observation>)
    requires maxBody <= MAX_INT64
    modifies c
    ensures Yields(Read(Size, old(c.data), maxBody, [], c.ending), observation, c.data)
  {
    SizesInRange();
    observation := ReadChunks(c, maxBody, Size);
  }

  lemma SizesInRange()
    ensures InRange(Size)
  {
  }

  ghost predicate InRange(sizer: Sizer) {
    forall line | sizer(line).Some? :: sizer(line).value <= MAX_INT64
  }

  predicate Fitting(size: nat, rest: seq<Byte>, maxBody: nat, body: seq<Byte>) {
    && 0 < size <= Capacity(maxBody) - |body| && size + 2 <= MAX_ALLOCATION
    && |rest| >= size + 2 && rest[size..size + 2] == CRLF
  }

  /** `Read` in the order of the reader's own checks. */
  lemma ReadUnfolds(sizer: Sizer, input: seq<Byte>, maxBody: nat, body: seq<Byte>, ending: Ending)
    requires maxBody <= MAX_INT64 && |body| <= Capacity(maxBody)
    ensures var n := LineLength(input);
            var r := Read(sizer, input, maxBody, body, ending);
            && (n == 0 ==> r == Done(AtEnd(ending), []))
            && (n > 0 ==>
                  var size, rest := sizer(input[..n]), input[n..];
                  && (size.None? ==> r == Done(Failed(BadSize, []), rest))
                  && (size.Some? ==> r == Continued(sizer, AfterSize(size.value, rest, maxBody, body, ending), maxBody, body, ending)))
  {
    var n := LineLength(input);
    if n > 0 && sizer(input[..n]).Some? {
      var size, rest := sizer(input[..n]).value, input[n..];
      if Fitting(size, rest, maxBody, body) {
        assert Front(sizer, input, Capacity(maxBody) - |body|) == Some(Split(Chunk(input[..n], rest[..size]), rest[size + 2..]));
        assert AfterSize(size, rest, maxBody, body, ending) == Go(rest[..size], rest[size + 2..]);
      } else {
        NoFront(sizer, input, maxBody, body, ending);
      }
    } else {
      ReadStops(sizer, input, maxBody, body, ending);
    }
  }

  lemma NoFront(sizer: Sizer, input: seq<Byte>, maxBody: nat, body: seq<Byte>, ending: Ending)
    requires maxBody <= MAX_INT64 && |body| <= Capacity(maxBody) && LineLength(input) > 0 && sizer(input[..LineLength(input)]).Some?
    requires var size, rest := sizer(input[..LineLength(input)]).value, input[LineLength(input)..];
             !Fitting(size, rest, maxBody, body)
    ensures var size, rest := sizer(input[..LineLength(input)]).value, input[LineLength(input)..];
            AfterSize(size, rest, maxBody, body, ending) == Stop(Read(sizer, input, maxBody, body, ending))
  {
    ReadStops(sizer, input, maxBody, body, ending);
  }

  datatype Next = Stop(outcome: Outcome) | Go(data: seq<Byte>, left: seq<Byte>)

  function AfterSize(size: nat, rest: seq<Byte>, maxBody: nat, body: seq<Byte>, ending: Ending): Next {
    if size == 0 then Stop(Trailer(rest, body, ending))
    else if maxBody < |body| + size <= MAX_INT64 then Stop(Done(Failed(TooLarge, body), rest))
    else if size + 2 > MAX_ALLOCATION then Stop(Panic)
    else if |rest| < size + 2 then Stop(Done(AtEnd(ending), []))
    else if rest[size..size + 2] != CRLF then Stop(Done(Failed(NoDelimiter, []), rest[size + 2..]))
    else if |body| + size > MAX_ALLOCATION then Stop(Panic)
    else Go(rest[..size], rest[size + 2..])
  }

  function Continued(sizer: Sizer, next: Next, maxBody: nat, body: seq<Byte>, ending: Ending): Outcome {
    match next
    case Stop(outcome) => outcome
    case Go(data, left) => Read(sizer, left, maxBody, body + data, ending)
  }

  ghost predicate DataRead(next: Next, data: Option<seq<Byte>>, observation: Option<Observation>, rest: seq<Byte>) {
    match next
    case Stop(outcome) => data.None? && Yields(outcome, observation, rest)
    case Go(bytes, left) => data == Some(bytes) && rest == left
  }

  method ReadChunks(c: Connection, maxBody: nat, sizer: Sizer) returns (observation: Option<Observation>)
    requires maxBody <= MAX_INT64 && InRange(sizer)
    modifies c
    ensures Yields(Read(sizer, old(c.data), maxBody, [], c.ending), observation, c.data)
  {
    var body: seq<Byte> := [];
    while true
      invariant |body| <= Capacity(maxBody)
      invariant Read(sizer, c.data, maxBody, body, c.ending) == Read(sizer, old(c.data), maxBody, [], c.ending)
      decreases |c.data|
    {
      ReadUnfolds(sizer, c.data, maxBody, body, c.ending);
      var line := c.ReadLine();
      if line.None? {
        return Some(AtEnd(c.ending));
      }
      var size := sizer(line.value);
      if size.None? {
        return Some(Failed(BadSize, []));
      }
      var data;
      data, observation := ReadData(c, maxBody, body, size.value);
      if data.None? {
        return;
      }
      body := body + data.value;
    }
  }

  /** What follows the size line: the data of one chunk, or the end of the reading. */
  method ReadData(c: Connection, maxBody: nat, body: seq<Byte>, size: nat)
    returns (data: Option<seq<Byte>>, observation: Option<Observation>)
    requires maxBody <= MAX_INT64 && |body| <= Capacity(maxBody) && size <= MAX_INT64
    modifies c
    ensures data.Some? ==> |body| + |data.value| <= Capacity(maxBody) && |c.data| <= |old(c.data)|
    ensures DataRead(AfterSize(size, old(c.data), maxBody, body, c.ending), data, observation, c.data)
  {
    if size == 0 {
      var seen := ReadTrailer(c, body);
      return None, Some(seen);
    }
    if Sum64(|body|, size) > maxBody {
      return None, Some(Failed(TooLarge, body));
    }
    if size + 2 > MAX_ALLOCATION {
      return None, None;
    }
    var chunk := c.ReadFull(size + 2);
    if chunk.None? {
      return None, Some(AtEnd(c.ending));
    }
    assert chunk.value[size..] == old(c.data)[size..size + 2] && chunk.value[..size] == old(c.data)[..size];
    if chunk.value[size..] != CRLF {
      return None, Some(Failed(NoDelimiter, []));
    }
    if |body| + size > MAX_ALLOCATION {
      return None, None;
    }
    return Some(chunk.value[..size]), None;
  }

  /** The header block: its fields, or the observation that ends the reading. */
  method ReadHeaders(c: Connection, parse: FieldParser) returns (fields: Option<seq<Field>>, observation: Observation)
    modifies c
    ensures match ReadFields(parse, old(c.data), 0, [], c.ending)
            case Headers(all, rest) => fields == Some(all) && c.data == rest
            case Stopped(outcome) => fields.None? && outcome == Done(observation, c.data)
  {
    var known: seq<Field> := [];
    var count: nat := 0;
    observation := AtEnd(c.ending);
    while true
      invariant ReadFields(parse, c.data, count, known, c.ending) == ReadFields(parse, old(c.data), 0, [], c.ending)
      decreases |c.data|
    {
      var line := c.ReadLine();
      if line.None? {
        return None, AtEnd(c.ending);
      }
      count := count + |line.value|;
      if count > MAX_HEADER_BYTES {
        return None, Failed(HeadersTooLong, []);
      }
      if BlankLine(line.value) {
        return Some(known), observation;
      }
      var field := parse(line.value);
      if field.None? {
        return None, Failed(BadHeader, []);
      }
      known := known + [field.value];
    }
  }

  method ReadFixedBody(c: Connection, length: Option<int>, maxBody: nat) returns (observation: Option<Observation>)
    modifies c
    ensures Yields(FixedBody(length, old(c.data), maxBody, c.ending), observation, c.data)
  {
    if length.None? || length.value < 0 {
      return Some(Failed(BadLength, []));
    }
    if length.value > maxBody {
      return Some(Failed(TooLarge, []));
    }
    if length.value > MAX_ALLOCATION {
      return None;
    }
    var whole := c.data;
    var body := c.ReadFull(length.value);
    if body.None? {
      return Some(Partial(c.ending, whole));
    }
    observation := Some(Observation(body.value, true, None, false, false));
  }

  /** A body without framing: everything up to the end of the connection, or one byte past the limit. The
      largest limit wraps to a negative one, and nothing is read. */
  method ReadOpenBody(c: Connection, maxBody: nat) returns (observation: Option<Observation>)
    requires maxBody <= MAX_INT64
    modifies c
    ensures Yields(OpenBody(old(c.data), maxBody, c.ending), observation, c.data)
  {
    var allowed := Sum64(maxBody, 1);
    if allowed < 0 {
      return Some(Observation([], true, None, false, false));
    }
    if allowed > MAX_ALLOCATION && |c.data| > MAX_ALLOCATION {
      return None;
    }
    if |c.data| > maxBody {
      var body := c.ReadFull(maxBody + 1);
      assert old(c.data)[..maxBody + 1][..maxBody] == old(c.data)[..maxBody];
      return Some(Failed(TooLarge, body.value[..maxBody]));
    }
    var body := c.data;
    var _ := c.ReadFull(|c.data|);
    if c.ending.Eof? {
      return Some(Observation(body, true, None, false, false));
    }
    observation := Some(Partial(c.ending, body));
  }

  method ReadFramedBody(c: Connection, syntax: Syntax, code: int, fields: seq<Field>, maxBody: nat) returns (observation: Option<Observation>)
    requires maxBody <= MAX_INT64
    modifies c
    ensures Yields(ReadBody(syntax, Size, code, fields, old(c.data), maxBody, c.ending), observation, c.data)
  {
    if NoBody(code) {
      return Some(Observation([], true, None, false, false));
    }
    if IsChunked(syntax, fields) {
      observation := ReadChunkedBody(c, maxBody);
      return;
    }
    if First(fields, syntax.length) != [] {
      observation := ReadFixedBody(c, syntax.decimal(First(fields, syntax.length)), maxBody);
    } else {
      observation := ReadOpenBody(c, maxBody);
    }
  }

  /** The reader of responses computes `ReadMessage`: the same observation, and the same bytes left unread. */
  method ReadRawHTTPObservation(c: Connection, syntax: Syntax, maxBody: nat) returns (observation: Option<Observation>)
    requires maxBody <= MAX_INT64
    modifies c
    ensures Yields(ReadMessage(syntax, Size, old(c.data), maxBody, c.ending), observation, c.data)
  {
    var line := c.ReadLine();
    if line.None? {
      return Some(AtEnd(c.ending));
    }
    var status := syntax.status(line.value);
    match status
    case Malformed => return Some(Failed(BadStatusLine, []));
    case BadCode => return Some(Failed(BadStatus, []));
    case Code(code) =>
      var fields, seen := ReadHeaders(c, Parser(syntax));
      if fields.None? {
        return Some(seen);
      }
      observation := ReadFramedBody(c, syntax, code, fields.value, maxBody);
  }

  datatype WriteCall = WriteCall(written: nat, ok: bool)

  class Writer {
    var sent: seq<Byte>
    ghost var calls: seq<WriteCall>

    /** May take part of the payload, also when it fails. */
    method Write(payload: seq<Byte>) returns (written: nat, ok: bool)
      modifies this
      ensures written <= |payload| && sent == old(sent) + payload[..written]
      ensures calls == old(calls) + [WriteCall(written, ok)]
    {
      ok := *;
      assert 0 <= 0 <= |payload|;
      written :| 0 <= written <= |payload|;
      sent := sent + payload[..written];
      calls := calls + [WriteCall(written, ok)];
    }
  }

  /** A write that failed or took nothing. */
  predicate SomeStalled(calls: seq<WriteCall>) {
    exists c :: c in calls && (!c.ok || c.written == 0)
  }

  lemma StalledFurther(calls: seq<WriteCall>, c: WriteCall)
    ensures SomeStalled(calls + [c]) <==> SomeStalled(calls) || !c.ok || c.written == 0
  {
    if x :| x in calls && (!x.ok || x.written == 0) {
      assert x in calls + [c];
    }
    assert c in calls + [c];
  }

  /** Short writes or not: it succeeds exactly if no write failed or took nothing, and then every byte was sent once
      and in order; otherwise a first part of them was. */
  method WriteAll(writer: Writer, payload: seq<Byte>) returns (ok: bool, ghost calls: seq<WriteCall>)
    modifies writer
    ensures writer.calls == old(writer.calls) + calls && ok == !SomeStalled(calls)
    ensures ok ==> writer.sent == old(writer.sent) + payload
    ensures exists n | 0 <= n <= |payload| :: writer.sent == old(writer.sent) + payload[..n]
  {
    calls := [];
    var rest := payload;
    ghost var done := 0;
    while |rest| > 0
      invariant done <= |payload| && rest == payload[done..]
      invariant writer.sent == old(writer.sent) + payload[..done]
      invariant writer.calls == old(writer.calls) + calls && !SomeStalled(calls)
      decreases |rest|
    {
      ghost var before := writer.sent;
      var written, good := writer.Write(rest);
      StalledFurther(calls, WriteCall(written, good));
      calls := calls + [WriteCall(written, good)];
      assert payload[..done] + payload[done..][..written] == payload[..done + written];
      assert writer.sent == old(writer.sent) + payload[..done + written];
      if !good || written == 0 {
        return false, calls;
      }
      rest := rest[written..];
      done := done + written;
    }
    assert payload[..done] == payload;
    ok := true;
  }
}
