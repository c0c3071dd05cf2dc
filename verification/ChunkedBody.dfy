/** Reading and writing bodies in chunked transfer coding (section 7.1 of RFC 9112). The reader takes bytes
    from a connection that ends somewhere; the results say exactly on which inputs it completes. */
module ChunkedBody {
  import opened Sequences
  import opened Options
  import opened Hex

  /** More bytes than this no slice can have (64-bit address space): making or growing one beyond it panics. */
  const MAX_ALLOCATION := 0x1_0000_0000_0000

  /** How the connection ends once its bytes are used up. */
  datatype Ending = Eof | Timeout | Broken

  datatype Problem = Ended | BadSize | TooLarge | NoDelimiter | BadStatusLine | BadStatus | HeadersTooLong | BadHeader | BadLength

  datatype Observation = Observation(body: seq<Byte>, complete: bool, parseError: Option<Problem>, timedOut: bool, transportError: bool)

  /** `Panic` is the run-time failure of an allocation of impossible size; `rest` is what is left unread. */
  datatype Outcome = Panic | Done(observation: Observation, rest: seq<Byte>)

  function Failed(problem: Problem, body: seq<Byte>): Observation {
    Observation(body, false, Some(problem), false, false)
  }

  /** A read that meets the end of the connection. */
  function AtEnd(ending: Ending): Observation {
    match ending
    case Eof => Failed(Ended, [])
    case Timeout => Observation([], false, None, true, true)
    case Broken => Observation([], false, None, false, true)
  }

  // ---------------------------------------------------------------- lines

  predicate IsLine(s: seq<Byte>) {
    s != [] && s[|s| - 1] == LF && forall i | 0 <= i < |s| - 1 :: s[i] != LF
  }

  predicate BlankLine(s: seq<Byte>) {
    s == CRLF || s == [LF]
  }

  /** How many bytes the first line takes, or 0 without one. */
  function LineLength(s: seq<Byte>): (n: nat)
    ensures n <= |s|
    ensures n > 0 ==> IsLine(s[..n])
    ensures n == 0 ==> LF !in s
  {
    if s == [] then 0
    else if s[0] == LF then 1
    else
      var n := LineLength(s[1..]);
      if n == 0 then 0
      else
        assert s[..n + 1] == [s[0]] + s[1..][..n];
        n + 1
  }

  lemma {:induction false} FirstLine(line: seq<Byte>, rest: seq<Byte>)
    requires IsLine(line)
    ensures LineLength(line + rest) == |line|
  {
    if |line| > 1 {
      assert (line + rest)[1..] == line[1..] + rest;
      FirstLine(line[1..], rest);
    }
  }

  /** The size a chunk line announces: the numeral before any extension. */
  function Size(line: seq<Byte>): Option<nat> {
    match Parse(TrimRight(TrimLeft(Before(line, SEMICOLON))))
    case None => None
    case Some(n) => if n < 0 then None else Some(n)
  }

  // ---------------------------------------------------------------- the reader

  /** How the size in a chunk line is read. The reader uses `Size`. */
  type Sizer = seq<Byte> -> Option<nat>

  function Success(body: seq<Byte>, rest: seq<Byte>): Outcome {
    Done(Observation(body, true, None, false, false), rest)
  }

  function Trailer(input: seq<Byte>, body: seq<Byte>, ending: Ending): (r: Outcome)
    ensures r.Done? && |r.observation.body| <= |body|
    ensures r.observation.complete ==> r == Success(body, r.rest)
    decreases |input|
  {
    var n := LineLength(input);
    if n == 0 then Done(AtEnd(ending), [])
    else if BlankLine(input[..n]) then Success(body, input[n..])
    else Trailer(input[n..], body, ending)
  }

  /** A chunk with the line that announces it. */
  datatype Chunk = Chunk(line: seq<Byte>, data: seq<Byte>)

  datatype Split = Split(chunk: Chunk, rest: seq<Byte>)

  /** A chunk the reader has room for, with its delimiter. */
  predicate IsChunk(sizer: Sizer, c: Chunk) {
    IsLine(c.line) && c.data != [] && sizer(c.line) == Some(|c.data|) && |c.data| + 2 <= MAX_ALLOCATION
  }

  /** How long a body can get: within the limit, and within what a slice holds. */
  function Capacity(maxBody: nat): nat {
    if maxBody <= MAX_ALLOCATION then maxBody else MAX_ALLOCATION
  }

  /** The chunk at the front of the input, if there is one with at most `room` bytes of data. */
  function Front(sizer: Sizer, input: seq<Byte>, room: int): (r: Option<Split>)
    ensures r.Some? ==>
              && IsChunk(sizer, r.value.chunk) && |r.value.chunk.data| <= room
              && input == r.value.chunk.line + (r.value.chunk.data + (CRLF + r.value.rest))
  {
    var n := LineLength(input);
    if n == 0 || sizer(input[..n]).None? then None
    else
      var size, rest := sizer(input[..n]).value, input[n..];
      if 0 < size <= room && size + 2 <= MAX_ALLOCATION && |rest| >= size + 2 && rest[size..size + 2] == CRLF then
        assert rest == rest[..size] + (rest[size..size + 2] + rest[size + 2..]);
        Some(Split(Chunk(input[..n], rest[..size]), rest[size + 2..]))
      else None
  }

  /** What the reader makes of an input with no fitting chunk at the front. The announced size is added in
      signed 64-bit arithmetic, so a sum past the range passes the limit check. */
  function Finish(sizer: Sizer, input: seq<Byte>, maxBody: nat, body: seq<Byte>, ending: Ending): Outcome {
    var n := LineLength(input);
    if n == 0 then Done(AtEnd(ending), [])
    else
      var rest := input[n..];
      match sizer(input[..n])
      case None => Done(Failed(BadSize, []), rest)
      case Some(size) =>
        if size == 0 then Trailer(rest, body, ending)
        else if maxBody < |body| + size <= MAX_INT64 then Done(Failed(TooLarge, body), rest)
        else if size + 2 > MAX_ALLOCATION then Panic
        else if |rest| < size + 2 then Done(AtEnd(ending), [])
        else if rest[size..size + 2] != CRLF then Done(Failed(NoDelimiter, []), rest[size + 2..])
        else Panic
  }

  function Read(sizer: Sizer, input: seq<Byte>, maxBody: nat, body: seq<Byte>, ending: Ending): Outcome
    decreases |input|
  {
    match Front(sizer, input, Capacity(maxBody) - |body|)
    case None => Finish(sizer, input, maxBody, body, ending)
    case Some(split) => Read(sizer, split.rest, maxBody, body + split.chunk.data, ending)
  }

  // ---------------------------------------------------------------- the grammar

  predicate WellFormed(sizer: Sizer, chunks: seq<Chunk>) {
    forall c | c in chunks :: IsChunk(sizer, c)
  }

  function Text(chunks: seq<Chunk>): seq<Byte> {
    if chunks == [] then [] else chunks[0].line + (chunks[0].data + (CRLF + Text(chunks[1..])))
  }

  function Data(chunks: seq<Chunk>): seq<Byte> {
    if chunks == [] then [] else chunks[0].data + Data(chunks[1..])
  }

  function Lines(lines: seq<seq<Byte>>): seq<Byte> {
    if lines == [] then [] else lines[0] + Lines(lines[1..])
  }

  /** A trailer section: lines that are not blank, and a blank one. */
  predicate IsTrailer(lines: seq<seq<Byte>>) {
    && lines != [] && BlankLine(lines[|lines| - 1])
    && forall i | 0 <= i < |lines| :: IsLine(lines[i]) && (i < |lines| - 1 ==> !BlankLine(lines[i]))
  }

  /** A complete message: chunks, a line of size zero, and a trailer section. */
  datatype Message = Message(chunks: seq<Chunk>, last: seq<Byte>, trailer: seq<seq<Byte>>)

  predicate Complete(sizer: Sizer, m: Message) {
    WellFormed(sizer, m.chunks) && IsLine(m.last) && sizer(m.last) == Some(0) && IsTrailer(m.trailer)
  }

  function MessageText(m: Message): seq<Byte> {
    Text(m.chunks) + (m.last + Lines(m.trailer))
  }

  lemma {:induction false} TrailerReads(lines: seq<seq<Byte>>, rest: seq<Byte>, body: seq<Byte>, ending: Ending)
    requires IsTrailer(lines)
    ensures Trailer(Lines(lines) + rest, body, ending) == Success(body, rest)
  {
    var input := Lines(lines) + rest;
    assert input == lines[0] + (Lines(lines[1..]) + rest);
    FirstLine(lines[0], Lines(lines[1..]) + rest);
    assert input[..|lines[0]|] == lines[0] && input[|lines[0]|..] == Lines(lines[1..]) + rest;
    if |lines| > 1 {
      TrailerReads(lines[1..], rest, body, ending);
    }
  }

  lemma TrailerCons(line: seq<Byte>, lines: seq<seq<Byte>>)
    requires IsLine(line) && !BlankLine(line) && IsTrailer(lines)
    ensures IsTrailer([line] + lines) && Lines([line] + lines) == line + Lines(lines)
  {
    assert ([line] + lines)[1..] == lines;
  }

  lemma {:induction false} TrailerSplits(input: seq<Byte>, body: seq<Byte>, ending: Ending) returns (lines: seq<seq<Byte>>)
    requires Trailer(input, body, ending).observation.complete
    ensures IsTrailer(lines) && input == Lines(lines) + Trailer(input, body, ending).rest
    decreases |input|
  {
    var n := LineLength(input);
    assert input == input[..n] + input[n..];
    if BlankLine(input[..n]) {
      lines := [input[..n]];
      assert lines[1..] == [] && Lines(lines) == input[..n] + [];
    } else {
      lines := TrailerSplits(input[n..], body, ending);
      TrailerCons(input[..n], lines);
      Regroup(input[..n], Lines(lines), Trailer(input, body, ending).rest);
      lines := [input[..n]] + lines;
    }
  }

  lemma Halves<T>(a: seq<T>, b: seq<T>)
    ensures (a + b)[..|a|] == a && (a + b)[|a|..] == b
  {
  }

  lemma Delimited(data: seq<Byte>, more: seq<Byte>)
    ensures var rest := data + (CRLF + more);
            && rest[..|data|] == data && rest[|data|..|data| + 2] == CRLF && rest[|data| + 2..] == more
  {
    Halves(data, CRLF + more);
  }

  lemma FrontOf(sizer: Sizer, c: Chunk, more: seq<Byte>, room: int)
    requires IsChunk(sizer, c) && |c.data| <= room
    ensures Front(sizer, c.line + (c.data + (CRLF + more)), room) == Some(Split(c, more))
  {
    var rest := c.data + (CRLF + more);
    FirstLine(c.line, rest);
    Halves(c.line, rest);
    Delimited(c.data, more);
  }

  lemma TextCons(c: Chunk, more: seq<Chunk>, tail: seq<Byte>)
    ensures Text([c] + more) + tail == c.line + (c.data + (CRLF + (Text(more) + tail)))
    ensures Data([c] + more) == c.data + Data(more)
  {
    assert ([c] + more)[1..] == more;
  }

  lemma {:induction false} ChunksRead(sizer: Sizer, chunks: seq<Chunk>, tail: seq<Byte>, maxBody: nat, body: seq<Byte>, ending: Ending)
    requires WellFormed(sizer, chunks) && |body| + |Data(chunks)| <= Capacity(maxBody)
    ensures Read(sizer, Text(chunks) + tail, maxBody, body, ending) == Read(sizer, tail, maxBody, body + Data(chunks), ending)
    decreases |chunks|
  {
    if chunks == [] {
      assert Text(chunks) + tail == tail && body + Data(chunks) == body;
    } else {
      var c, more := chunks[0], chunks[1..];
      assert chunks == [c] + more && c in chunks;
      TextCons(c, more, tail);
      FrontOf(sizer, c, Text(more) + tail, Capacity(maxBody) - |body|);
      ChunksRead(sizer, more, tail, maxBody, body + c.data, ending);
      Regroup(body, c.data, Data(more));
    }
  }

  /** Every input is a run of chunks that fit and a tail that does not begin with one; the reader takes the
      chunks into the body and finishes at the tail. */
  lemma {:induction false} ReadTakes(sizer: Sizer, input: seq<Byte>, maxBody: nat, body: seq<Byte>, ending: Ending)
    returns (chunks: seq<Chunk>, tail: seq<Byte>, all: seq<Byte>)
    requires |body| <= Capacity(maxBody)
    ensures WellFormed(sizer, chunks) && input == Text(chunks) + tail
    ensures all == body + Data(chunks) && |all| <= Capacity(maxBody)
    ensures Front(sizer, tail, Capacity(maxBody) - |all|).None?
    ensures Read(sizer, input, maxBody, body, ending) == Finish(sizer, tail, maxBody, all, ending)
    decreases |input|
  {
    var front := Front(sizer, input, Capacity(maxBody) - |body|);
    if front.None? {
      chunks, tail, all := [], input, body;
    } else {
      var c := front.value.chunk;
      chunks, tail, all := ReadTakes(sizer, front.value.rest, maxBody, body + c.data, ending);
      chunks := OneMoreChunk(sizer, input, c, front.value.rest, chunks, tail, body, all);
    }
  }

  lemma OneMoreChunk(sizer: Sizer, input: seq<Byte>, c: Chunk, rest: seq<Byte>, more: seq<Chunk>, tail: seq<Byte>,
                     body: seq<Byte>, all: seq<Byte>) returns (chunks: seq<Chunk>)
    requires IsChunk(sizer, c) && WellFormed(sizer, more) && all == body + c.data + Data(more)
    requires input == c.line + (c.data + (CRLF + rest)) && rest == Text(more) + tail
    ensures WellFormed(sizer, chunks) && input == Text(chunks) + tail && all == body + Data(chunks)
  {
    chunks := [c] + more;
    TextCons(c, more, tail);
    Regroup(body, c.data, Data(more));
  }

  /** The same from an empty body; `all` is the data of the chunks. */
  lemma ReadFinishes(sizer: Sizer, input: seq<Byte>, maxBody: nat, ending: Ending)
    returns (chunks: seq<Chunk>, tail: seq<Byte>, all: seq<Byte>)
    ensures WellFormed(sizer, chunks) && input == Text(chunks) + tail && all == Data(chunks) && |all| <= Capacity(maxBody)
    ensures Front(sizer, tail, Capacity(maxBody) - |all|).None?
    ensures Read(sizer, input, maxBody, [], ending) == Finish(sizer, tail, maxBody, all, ending)
  {
    chunks, tail, all := ReadTakes(sizer, input, maxBody, [], ending);
    NothingBefore(Data(chunks));
  }

  lemma NothingBefore<T>(s: seq<T>)
    ensures [] + s == s
  {
  }

  lemma ChunksReadFirst(sizer: Sizer, chunks: seq<Chunk>, tail: seq<Byte>, maxBody: nat, ending: Ending)
    requires WellFormed(sizer, chunks) && |Data(chunks)| <= Capacity(maxBody)
    ensures Read(sizer, Text(chunks) + tail, maxBody, [], ending) == Read(sizer, tail, maxBody, Data(chunks), ending)
  {
    ChunksRead(sizer, chunks, tail, maxBody, [], ending);
    assert [] + Data(chunks) == Data(chunks);
  }

  lemma ReadStops(sizer: Sizer, tail: seq<Byte>, maxBody: nat, body: seq<Byte>, ending: Ending)
    requires Front(sizer, tail, Capacity(maxBody) - |body|).None?
    ensures Read(sizer, tail, maxBody, body, ending) == Finish(sizer, tail, maxBody, body, ending)
  {
  }

  lemma FinishIsSafe(sizer: Sizer, tail: seq<Byte>, maxBody: nat, body: seq<Byte>, ending: Ending)
    requires |body| <= maxBody
    ensures Safe(Finish(sizer, tail, maxBody, body, ending), maxBody)
  {
  }

  /** The body is within the limit, and a complete observation reports no error. */
  predicate Safe(r: Outcome, maxBody: nat) {
    r.Done? ==> |r.observation.body| <= maxBody && (r.observation.complete ==> r == Success(r.observation.body, r.rest))
  }

  // ---------------------------------------------------------------- what the reader accepts

  lemma MessageReads(sizer: Sizer, m: Message, rest: seq<Byte>, maxBody: nat, ending: Ending)
    requires Complete(sizer, m) && |Data(m.chunks)| <= Capacity(maxBody)
    ensures Read(sizer, MessageText(m) + rest, maxBody, [], ending) == Success(Data(m.chunks), rest)
  {
    var end := Lines(m.trailer) + rest;
    Regroup(Text(m.chunks), m.last + Lines(m.trailer), rest);
    Regroup(m.last, Lines(m.trailer), rest);
    ChunksReadFirst(sizer, m.chunks, m.last + end, maxBody, ending);
    FirstLine(m.last, end);
    assert (m.last + end)[..|m.last|] == m.last && (m.last + end)[|m.last|..] == end;
    TrailerReads(m.trailer, rest, Data(m.chunks), ending);
  }

  /** The reader finishes well only on the line of size zero and a trailer section. */
  lemma FinishSucceeds(sizer: Sizer, tail: seq<Byte>, maxBody: nat, all: seq<Byte>, ending: Ending, body: seq<Byte>, rest: seq<Byte>)
    returns (last: seq<Byte>, end: seq<Byte>)
    requires Finish(sizer, tail, maxBody, all, ending) == Success(body, rest)
    ensures IsLine(last) && sizer(last) == Some(0) && tail == last + end && body == all
    ensures Trailer(end, body, ending) == Success(body, rest)
  {
    var n := LineLength(tail);
    last, end := tail[..n], tail[n..];
  }

  lemma TrailerParts(end: seq<Byte>, body: seq<Byte>, ending: Ending, rest: seq<Byte>) returns (lines: seq<seq<Byte>>)
    requires Trailer(end, body, ending) == Success(body, rest)
    ensures IsTrailer(lines) && end == Lines(lines) + rest
  {
    lines := TrailerSplits(end, body, ending);
  }

  lemma FinishParts(sizer: Sizer, tail: seq<Byte>, maxBody: nat, all: seq<Byte>, ending: Ending, body: seq<Byte>, rest: seq<Byte>)
    returns (last: seq<Byte>, end: seq<Byte>, lines: seq<seq<Byte>>)
    requires Finish(sizer, tail, maxBody, all, ending) == Success(body, rest)
    ensures IsLine(last) && sizer(last) == Some(0) && tail == last + end && body == all
    ensures IsTrailer(lines) && end == Lines(lines) + rest
  {
    last, end := FinishSucceeds(sizer, tail, maxBody, all, ending, body, rest);
    lines := TrailerParts(end, body, ending, rest);
  }

  lemma MessageParts(m: Message, input: seq<Byte>, tail: seq<Byte>, end: seq<Byte>, rest: seq<Byte>)
    requires input == Text(m.chunks) + tail && tail == m.last + end && end == Lines(m.trailer) + rest
    ensures input == MessageText(m) + rest
  {
    Regroup(m.last, Lines(m.trailer), rest);
    Regroup(Text(m.chunks), m.last + Lines(m.trailer), rest);
  }

  lemma SuccessIsMessage(sizer: Sizer, input: seq<Byte>, maxBody: nat, ending: Ending, body: seq<Byte>, rest: seq<Byte>)
    returns (m: Message)
    requires Read(sizer, input, maxBody, [], ending) == Success(body, rest)
    ensures Complete(sizer, m) && Data(m.chunks) == body && |body| <= Capacity(maxBody) && input == MessageText(m) + rest
  {
    var chunks, tail, all := ReadFinishes(sizer, input, maxBody, ending);
    var last, end, lines := FinishParts(sizer, tail, maxBody, all, ending, body, rest);
    m := Message(chunks, last, lines);
    MessageParts(m, input, tail, end, rest);
  }

  /** The reader completes with a body and a rest exactly when the input is a complete message with that body,
      within the limit, followed by that rest. */
  lemma ReadsExactlyMessages(sizer: Sizer, input: seq<Byte>, maxBody: nat, ending: Ending, body: seq<Byte>, rest: seq<Byte>)
    ensures Read(sizer, input, maxBody, [], ending) == Success(body, rest) <==>
            |body| <= Capacity(maxBody) && exists m :: Complete(sizer, m) && Data(m.chunks) == body && input == MessageText(m) + rest
  {
    if Read(sizer, input, maxBody, [], ending) == Success(body, rest) {
      var m := SuccessIsMessage(sizer, input, maxBody, ending, body, rest);
    }
    if |body| <= Capacity(maxBody) && exists m :: Complete(sizer, m) && Data(m.chunks) == body && input == MessageText(m) + rest {
      var m :| Complete(sizer, m) && Data(m.chunks) == body && input == MessageText(m) + rest;
      MessageReads(sizer, m, rest, maxBody, ending);
    }
  }

  /** A size that passes the limit check although the chunk cannot be made, or not be added to the body. */
  predicate Impossible(have: nat, size: nat, rest: seq<Byte>, maxBody: nat) {
    && (have + size <= maxBody || have + size > MAX_INT64)
    && (|| size + 2 > MAX_ALLOCATION
        || (have + size > MAX_ALLOCATION && size > 0 && |rest| >= size + 2 && rest[size..size + 2] == CRLF))
  }

  /** Chunks that fit, then a line whose size is impossible. */
  ghost predicate Exhausts(sizer: Sizer, input: seq<Byte>, maxBody: nat, chunks: seq<Chunk>, line: seq<Byte>, rest: seq<Byte>) {
    && WellFormed(sizer, chunks) && |Data(chunks)| <= Capacity(maxBody)
    && IsLine(line) && sizer(line).Some? && Impossible(|Data(chunks)|, sizer(line).value, rest, maxBody)
    && input == Text(chunks) + (line + rest)
  }

  /** The allocation fails exactly on such inputs. */
  lemma PanicsExactly(sizer: Sizer, input: seq<Byte>, maxBody: nat, ending: Ending)
    ensures Read(sizer, input, maxBody, [], ending).Panic? <==>
            exists chunks, line, rest :: Exhausts(sizer, input, maxBody, chunks, line, rest)
  {
    if Read(sizer, input, maxBody, [], ending).Panic? {
      var chunks, tail, all := ReadFinishes(sizer, input, maxBody, ending);
      var n := LineLength(tail);
      assert tail == tail[..n] + tail[n..];
      PanicIsImpossible(sizer, tail, maxBody, all, ending);
      assert Exhausts(sizer, input, maxBody, chunks, tail[..n], tail[n..]);
    }
    if exists chunks, line, rest :: Exhausts(sizer, input, maxBody, chunks, line, rest) {
      var chunks, line, rest :| Exhausts(sizer, input, maxBody, chunks, line, rest);
      ChunksReadFirst(sizer, chunks, line + rest, maxBody, ending);
      FirstLine(line, rest);
      assert (line + rest)[..|line|] == line && (line + rest)[|line|..] == rest;
      ImpossiblePanics(sizer, line + rest, maxBody, Data(chunks), ending);
    }
  }

  lemma PanicIsImpossible(sizer: Sizer, tail: seq<Byte>, maxBody: nat, body: seq<Byte>, ending: Ending)
    requires |body| <= Capacity(maxBody) && Front(sizer, tail, Capacity(maxBody) - |body|).None?
    requires Finish(sizer, tail, maxBody, body, ending).Panic?
    ensures var n := LineLength(tail);
            n > 0 && sizer(tail[..n]).Some? && Impossible(|body|, sizer(tail[..n]).value, tail[n..], maxBody)
  {
  }

  lemma ImpossiblePanics(sizer: Sizer, tail: seq<Byte>, maxBody: nat, body: seq<Byte>, ending: Ending)
    requires |body| <= Capacity(maxBody) && LineLength(tail) > 0
    requires sizer(tail[..LineLength(tail)]).Some?
    requires Impossible(|body|, sizer(tail[..LineLength(tail)]).value, tail[LineLength(tail)..], maxBody)
    ensures Read(sizer, tail, maxBody, body, ending).Panic?
  {
    ReadStops(sizer, tail, maxBody, body, ending);
  }

  lemma OverflowIsToBlame(have: nat, size: nat, rest: seq<Byte>, maxBody: nat)
    requires have <= maxBody && maxBody + 2 <= MAX_ALLOCATION
    ensures Impossible(have, size, rest, maxBody) <==> have + size > MAX_INT64
  {
  }

  /** Chunks that fit, then a line whose size takes the signed 64-bit sum past its range. */
  ghost predicate Overflows(sizer: Sizer, input: seq<Byte>, maxBody: nat, chunks: seq<Chunk>, line: seq<Byte>, rest: seq<Byte>) {
    && WellFormed(sizer, chunks) && |Data(chunks)| <= maxBody
    && IsLine(line) && sizer(line).Some? && |Data(chunks)| + sizer(line).value > MAX_INT64
    && input == Text(chunks) + (line + rest)
  }

  /** Under a limit that memory could hold, such as the default of one MiB, only the sum is to blame. */
  lemma PanicsByOverflow(sizer: Sizer, input: seq<Byte>, maxBody: nat, ending: Ending)
    requires maxBody + 2 <= MAX_ALLOCATION
    ensures Read(sizer, input, maxBody, [], ending).Panic? <==>
            exists chunks, line, rest :: Overflows(sizer, input, maxBody, chunks, line, rest)
  {
    PanicsExactly(sizer, input, maxBody, ending);
    forall chunks, line, rest
      ensures Overflows(sizer, input, maxBody, chunks, line, rest) <==> Exhausts(sizer, input, maxBody, chunks, line, rest)
    {
      if |Data(chunks)| <= maxBody && sizer(line).Some? {
        OverflowIsToBlame(|Data(chunks)|, sizer(line).value, rest, maxBody);
      }
    }
  }

  /** Whatever arrives: the body stays within the limit and a complete observation reports no error. */
  lemma ReadIsSafe(sizer: Sizer, input: seq<Byte>, maxBody: nat, ending: Ending)
    ensures Safe(Read(sizer, input, maxBody, [], ending), maxBody)
  {
    var _, tail, all := ReadFinishes(sizer, input, maxBody, ending);
    FinishIsSafe(sizer, tail, maxBody, all, ending);
  }

  // ---------------------------------------------------------------- the printer

  function SizeLine(n: nat): seq<Byte> {
    Print(n) + CRLF
  }

  /** The body as the chunks given. */
  function Encoded(pieces: seq<seq<Byte>>): Message {
    Message(Framed(pieces), SizeLine(0), [CRLF])
  }

  function Framed(pieces: seq<seq<Byte>>): seq<Chunk> {
    if pieces == [] then [] else [Chunk(SizeLine(|pieces[0]|), pieces[0])] + Framed(pieces[1..])
  }

  function Joined(pieces: seq<seq<Byte>>): seq<Byte> {
    if pieces == [] then [] else pieces[0] + Joined(pieces[1..])
  }

  /** What the probes send: the body as one chunk, or none when it is empty. */
  function EncodeChunkedBody(data: seq<Byte>): seq<Byte> {
    if data == [] then Print(0) + CRLF + CRLF
    else Print(|data|) + CRLF + data + CRLF + Print(0) + CRLF + CRLF
  }

  lemma SizeLineReads(n: nat)
    requires n <= MAX_INT64
    ensures IsLine(SizeLine(n)) && Size(SizeLine(n)) == Some(n)
  {
    var digits := Print(n);
    var line := SizeLine(n);
    assert SEMICOLON !in line && LF !in digits;
    BeforeNone(line, SEMICOLON);
    TrimDigits(digits);
    PrintParses(n);
    forall i | 0 <= i < |line| - 1 ensures line[i] != LF {
      if i < |digits| {
        assert line[i] == digits[i] && digits[i] in digits;
      }
    }
  }

  /** Pieces that can be sent and read as chunks. */
  predicate ChunkSized(pieces: seq<seq<Byte>>) {
    forall piece | piece in pieces :: 0 < |piece| <= MAX_ALLOCATION - 2
  }

  lemma {:induction false} FramedIsWellFormed(pieces: seq<seq<Byte>>)
    requires ChunkSized(pieces)
    ensures WellFormed(Size, Framed(pieces)) && Data(Framed(pieces)) == Joined(pieces)
  {
    if pieces != [] {
      var first, rest := pieces[0], pieces[1..];
      assert first in pieces && forall piece | piece in rest :: piece in pieces;
      SizeLineReads(|first|);
      FramedIsWellFormed(rest);
      TextCons(Chunk(SizeLine(|first|), first), Framed(rest), []);
    }
  }

  /** Reading undoes writing: for every split of a body within the limit into non-empty chunks, and whatever
      follows on the connection, which stays unread. */
  lemma RoundTrip(pieces: seq<seq<Byte>>, rest: seq<Byte>, maxBody: nat, ending: Ending)
    requires ChunkSized(pieces) && |Joined(pieces)| <= Capacity(maxBody)
    ensures Read(Size, MessageText(Encoded(pieces)) + rest, maxBody, [], ending) == Success(Joined(pieces), rest)
  {
    FramedIsWellFormed(pieces);
    SizeLineReads(0);
    MessageReads(Size, Encoded(pieces), rest, maxBody, ending);
  }

  lemma OneChunk(data: seq<Byte>, end: seq<Byte>)
    ensures Text([Chunk(SizeLine(|data|), data)]) + end == SizeLine(|data|) + (data + (CRLF + end))
    ensures data != [] ==> Framed([data]) == [Chunk(SizeLine(|data|), data)]
  {
    var c := Chunk(SizeLine(|data|), data);
    TextCons(c, [], end);
    assert [c] + [] == [c] && Text([]) + end == end;
    assert [data][1..] == [];
  }

  lemma ProbeText(data: seq<Byte>)
    ensures EncodeChunkedBody(data) == MessageText(Encoded(if data == [] then [] else [data]))
  {
    var end := SizeLine(0) + Lines([CRLF]);
    assert Lines([CRLF]) == CRLF + Lines([CRLF][1..]);
    assert end == Print(0) + CRLF + CRLF;
    if data == [] {
      assert Text([]) + end == end;
    } else {
      OneChunk(data, end);
      Flat(Print(|data|), data, Print(0));
    }
  }

  lemma Flat(size: seq<Byte>, data: seq<Byte>, zero: seq<Byte>)
    ensures size + CRLF + data + CRLF + zero + CRLF + CRLF == (size + CRLF) + (data + (CRLF + (zero + CRLF + CRLF)))
  {
  }

  /** The encoding the probes send reads back as the body it encodes. */
  lemma ProbeRoundTrip(data: seq<Byte>, rest: seq<Byte>, maxBody: nat, ending: Ending)
    requires |data| <= maxBody && |data| + 2 <= MAX_ALLOCATION
    ensures Read(Size, EncodeChunkedBody(data) + rest, maxBody, [], ending) == Success(data, rest)
  {
    var pieces := if data == [] then [] else [data];
    ProbeText(data);
    assert data != [] ==> [data][1..] == [] && Joined([data]) == data;
    RoundTrip(pieces, rest, maxBody, ending);
  }

  lemma OneChunkThen(sizer: Sizer, c: Chunk, line: seq<Byte>, rest: seq<Byte>, maxBody: nat, ending: Ending)
    requires IsChunk(sizer, c) && |c.data| <= Capacity(maxBody) && IsLine(line) && sizer(line).Some?
    requires Impossible(|c.data|, sizer(line).value, rest, maxBody)
    ensures Read(sizer, Text([c]) + (line + rest), maxBody, [], ending).Panic?
  {
    TextCons(c, [], []);
    assert [c] + [] == [c] && c.data + [] == c.data;
    assert Exhausts(sizer, Text([c]) + (line + rest), maxBody, [c], line, rest);
    PanicsExactly(sizer, Text([c]) + (line + rest), maxBody, ending);
  }

  lemma OneByteThen(sizer: Sizer, one: seq<Byte>, most: seq<Byte>, maxBody: nat, rest: seq<Byte>, ending: Ending)
    requires maxBody >= 1 && IsLine(one) && IsLine(most) && sizer(one) == Some(1) && sizer(most) == Some(MAX_INT64)
    ensures Read(sizer, Text([Chunk(one, [90])]) + (most + rest), maxBody, [], ending).Panic?
  {
    OneChunkThen(sizer, Chunk(one, [90]), most, rest, maxBody, ending);
  }

  /** Under every limit that admits a byte: a chunk of one byte, and then the largest size there is. */
  lemma ReaderPanics(maxBody: nat, rest: seq<Byte>, ending: Ending)
    requires maxBody >= 1
    ensures Read(Size, Text([Chunk(SizeLine(1), [90])]) + (SizeLine(MAX_INT64) + rest), maxBody, [], ending).Panic?
  {
    SizeLineReads(1);
    SizeLineReads(MAX_INT64);
    OneByteThen(Size, SizeLine(1), SizeLine(MAX_INT64), maxBody, rest, ending);
  }
}
