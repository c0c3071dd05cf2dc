/** Whole messages around the chunked body: the request writer's header block, the reader of responses, and
    how the reader finds the end of a body. */
module RawMessage {
  import opened Sequences
  import opened Options
  import opened Hex
  import opened ChunkedBody

  const COLON: Byte := 58
  const SPACE: Byte := 32
  const MAX_HEADER_BYTES := 65536

  datatype Field = Field(name: seq<Byte>, value: seq<Byte>)

  datatype Status = Malformed | BadCode | Code(value: int)

  /** Text parsing the reader delegates: the status line, the canonical spelling of a header name, whether a
      Transfer-Encoding value lists "chunked", and decimal numbers; `encoding` and `length` are canonical names. */
  datatype Syntax = Syntax(
    status: seq<Byte> -> Status,
    canonical: seq<Byte> -> seq<Byte>,
    chunked: seq<Byte> -> bool,
    decimal: seq<Byte> -> Option<int>,
    encoding: seq<Byte>,
    length: seq<Byte>)

  // ---------------------------------------------------------------- the writer

  predicate Writable(f: Field) {
    f.name != [] && COLON !in f.name && CR !in f.name && LF !in f.name && CR !in f.value && LF !in f.value
  }

  function FieldLine(f: Field): seq<Byte> {
    f.name + ([COLON] + (f.value + CRLF))
  }

  function FieldLines(fields: seq<Field>): (lines: seq<seq<Byte>>)
    ensures |lines| == |fields| && forall i | 0 <= i < |lines| :: lines[i] == FieldLine(fields[i])
  {
    seq(|fields|, i requires 0 <= i < |fields| => FieldLine(fields[i]))
  }

  function Block(fields: seq<Field>): seq<Byte> {
    Lines(FieldLines(fields))
  }

  function RequestLine(verb: seq<Byte>, target: seq<Byte>): seq<Byte> {
    verb + [SPACE] + target + [SPACE, 72, 84, 84, 80, 47, 49, 46, 49] + CRLF
  }

  lemma {:induction false} LinesAppend(lines: seq<seq<Byte>>, line: seq<Byte>)
    ensures Lines(lines + [line]) == Lines(lines) + line
  {
    if lines == [] {
      assert [line][1..] == [] && [] + [line] == [line];
    } else {
      assert (lines + [line])[1..] == lines[1..] + [line];
      LinesAppend(lines[1..], line);
      Regroup(lines[0], Lines(lines[1..]), line);
    }
  }

  lemma BlockAppend(fields: seq<Field>, f: Field)
    ensures Block(fields + [f]) == Block(fields) + FieldLine(f)
  {
    assert FieldLines(fields + [f]) == FieldLines(fields) + [FieldLine(f)];
    LinesAppend(FieldLines(fields), FieldLine(f));
  }

  /** A request is written only from a verb, a target and headers that stay on their lines. */
  method BuildRawRequest(verb: seq<Byte>, target: seq<Byte>, headers: seq<Field>, body: seq<Byte>)
    returns (request: Option<seq<Byte>>)
    ensures request.Some? <==> verb != [] && target != [] && headers != [] && forall f | f in headers :: Writable(f)
    ensures request.Some? ==> request.value == RequestLine(verb, target) + (Block(headers) + (CRLF + body))
  {
    if verb == [] || target == [] || headers == [] {
      return None;
    }
    var buffer: seq<Byte> := [];
    var i := 0;
    while i < |headers|
      invariant i <= |headers| && buffer == Block(headers[..i])
      invariant forall f | f in headers[..i] :: Writable(f)
    {
      assert headers[..i + 1] == headers[..i] + [headers[i]];
      if !Writable(headers[i]) {
        return None;
      }
      BlockAppend(headers[..i], headers[i]);
      buffer := buffer + FieldLine(headers[i]);
      i := i + 1;
    }
    assert headers[..i] == headers;
    request := Some(RequestLine(verb, target) + (buffer + (CRLF + body)));
  }

  // ---------------------------------------------------------------- the header reader

  function Trim(s: seq<Byte>): seq<Byte> {
    TrimRight(TrimLeft(s))
  }

  function DropEol(s: seq<Byte>): seq<Byte>
    decreases |s|
  {
    if s != [] && (s[|s| - 1] == CR || s[|s| - 1] == LF) then DropEol(s[..|s| - 1]) else s
  }

  /** The field a header line holds: a name that is not blank, a colon, a value. */
  function FieldOf(syntax: Syntax, line: seq<Byte>): Option<Field> {
    var text := DropEol(line);
    var name := Before(text, COLON);
    if COLON !in text || |name| >= |text| || Trim(name) == [] then None
    else Some(Field(syntax.canonical(Trim(name)), Trim(text[|name| + 1..])))
  }

  datatype Headers = Headers(fields: seq<Field>, rest: seq<Byte>) | Stopped(outcome: Outcome)

  function ReadFields(parse: seq<Byte> -> Option<Field>, input: seq<Byte>, count: nat, fields: seq<Field>, ending: Ending): Headers
    decreases |input|
  {
    var n := LineLength(input);
    if n == 0 then Stopped(Done(AtEnd(ending), []))
    else if count + n > MAX_HEADER_BYTES then Stopped(Done(Failed(HeadersTooLong, []), input[n..]))
    else if BlankLine(input[..n]) then Headers(fields, input[n..])
    else match parse(input[..n])
      case None => Stopped(Done(Failed(BadHeader, []), input[n..]))
      case Some(f) => ReadFields(parse, input[n..], count + n, fields + [f], ending)
  }

  function Parser(syntax: Syntax): seq<Byte> -> Option<Field> {
    line => FieldOf(syntax, line)
  }

  predicate Named(f: Field) {
    Trim(f.name) != []
  }

  type FieldParser = seq<Byte> -> Option<Field>

  /** The fields of lines that parse. */
  function Parsed(parse: FieldParser, lines: seq<seq<Byte>>): seq<Field> {
    if lines == [] then []
    else (if parse(lines[0]).Some? then [parse(lines[0]).value] else []) + Parsed(parse, lines[1..])
  }

  predicate HeaderLines(lines: seq<seq<Byte>>) {
    forall i | 0 <= i < |lines| :: IsLine(lines[i]) && !BlankLine(lines[i])
  }

  predicate Parse(parse: FieldParser, lines: seq<seq<Byte>>) {
    forall i | 0 <= i < |lines| :: parse(lines[i]).Some?
  }

  /** What written headers read back as. */
  function ReadBack(syntax: Syntax, fields: seq<Field>): (r: seq<Field>)
    ensures |r| == |fields|
    ensures forall i | 0 <= i < |r| :: r[i] == Field(syntax.canonical(Trim(fields[i].name)), Trim(fields[i].value))
  {
    seq(|fields|, i requires 0 <= i < |fields| => Field(syntax.canonical(Trim(fields[i].name)), Trim(fields[i].value)))
  }

  lemma {:induction false} BeforeFirst(a: seq<Byte>, stop: Byte, b: seq<Byte>)
    requires stop !in a
    ensures Before(a + ([stop] + b), stop) == a
  {
    if a == [] {
      assert a + ([stop] + b) == [stop] + b;
    } else {
      assert (a + ([stop] + b))[1..] == a[1..] + ([stop] + b);
      BeforeFirst(a[1..], stop, b);
    }
  }

  lemma EolDropped(text: seq<Byte>)
    requires text != [] && CR !in text && LF !in text
    ensures DropEol(text + CRLF) == text
  {
    assert text[|text| - 1] in text;
    var line := text + CRLF;
    assert line[..|line| - 1] == text + [CR];
    assert (text + [CR])[..|text|] == text;
    assert DropEol(text + [CR]) == DropEol(text);
  }

  lemma LineText(f: Field)
    requires Writable(f)
    ensures IsLine(FieldLine(f)) && !BlankLine(FieldLine(f))
    ensures DropEol(FieldLine(f)) == f.name + ([COLON] + f.value)
  {
    var text := f.name + ([COLON] + f.value);
    assert FieldLine(f) == text + CRLF;
    assert f.name[0] in f.name;
    EolDropped(text);
    assert FieldLine(f)[0] == f.name[0];
    forall i | 0 <= i < |FieldLine(f)| - 1 ensures FieldLine(f)[i] != LF {
      if i < |text| {
        assert FieldLine(f)[i] == text[i] && text[i] in text;
      }
    }
  }

  /** A written header line reads back, unless its name is blank. */
  lemma FieldReads(syntax: Syntax, f: Field)
    requires Writable(f)
    ensures FieldOf(syntax, FieldLine(f)) ==
            if Named(f) then Some(Field(syntax.canonical(Trim(f.name)), Trim(f.value))) else None
  {
    LineText(f);
    var text := f.name + ([COLON] + f.value);
    BeforeFirst(f.name, COLON, f.value);
    assert text[|f.name|] == COLON && text[|f.name| + 1..] == f.value;
  }

  predicate AllNamed(fields: seq<Field>) {
    forall f | f in fields :: Named(f)
  }

  predicate AllWritable(fields: seq<Field>) {
    forall f | f in fields :: Writable(f)
  }

  lemma BlankFirst(rest: seq<Byte>)
    ensures LineLength(CRLF + rest) == 2 && (CRLF + rest)[..2] == CRLF && (CRLF + rest)[2..] == rest
  {
    FirstLine(CRLF, rest);
  }

  /** One line in front of more input. */
  lemma LineStep(parse: FieldParser, input: seq<Byte>, line: seq<Byte>, more: seq<Byte>, count: nat, known: seq<Field>, ending: Ending)
    requires input == line + more && IsLine(line) && !BlankLine(line)
    ensures var h := ReadFields(parse, input, count, known, ending);
            if count + |line| <= MAX_HEADER_BYTES && parse(line).Some? then
              h == ReadFields(parse, more, count + |line|, known + [parse(line).value], ending)
            else h.Stopped?
  {
    FirstLine(line, more);
    assert input[..|line|] == line && input[|line|..] == more;
  }

  lemma LinesTail(input: seq<Byte>, lines: seq<seq<Byte>>, tail: seq<Byte>) returns (more: seq<Byte>)
    requires lines != [] && input == Lines(lines) + tail
    ensures input == lines[0] + more && more == Lines(lines[1..]) + tail
  {
    more := Lines(lines[1..]) + tail;
    Regroup(lines[0], Lines(lines[1..]), tail);
  }

  lemma NoLines(parse: FieldParser, input: seq<Byte>, rest: seq<Byte>, count: nat, known: seq<Field>, ending: Ending)
    requires input == CRLF + rest
    ensures var h := ReadFields(parse, input, count, known, ending);
            if count + 2 <= MAX_HEADER_BYTES then h == Headers(known, rest) else h.Stopped?
  {
    BlankFirst(rest);
  }

  /** The lines are accepted one by one. */
  predicate Accepted(parse: FieldParser, lines: seq<seq<Byte>>, count: nat) {
    if lines == [] then count + 2 <= MAX_HEADER_BYTES
    else count + |lines[0]| <= MAX_HEADER_BYTES && parse(lines[0]).Some? && Accepted(parse, lines[1..], count + |lines[0]|)
  }

  lemma {:induction false} AcceptedMeans(parse: FieldParser, lines: seq<seq<Byte>>, count: nat)
    ensures Accepted(parse, lines, count) <==> Parse(parse, lines) && count + |Lines(lines)| + 2 <= MAX_HEADER_BYTES
    decreases |lines|
  {
    if lines != [] {
      AcceptedMeans(parse, lines[1..], count + |lines[0]|);
      ParseCons(parse, lines);
    }
  }

  lemma ParseCons(parse: FieldParser, lines: seq<seq<Byte>>)
    requires lines != []
    ensures Parse(parse, lines) <==> parse(lines[0]).Some? && Parse(parse, lines[1..])
  {
    if parse(lines[0]).Some? && Parse(parse, lines[1..]) {
      assert forall i | 0 < i < |lines| :: lines[i] == lines[1..][i - 1];
    }
  }

  /** What reading these lines and a blank one yields. */
  predicate ReadsAs(h: Headers, parse: FieldParser, lines: seq<seq<Byte>>, rest: seq<Byte>, count: nat, known: seq<Field>) {
    if Accepted(parse, lines, count) then h == Headers(known + Parsed(parse, lines), rest) else h.Stopped?
  }

  lemma ReadsAsStep(h: Headers, parse: FieldParser, lines: seq<seq<Byte>>, rest: seq<Byte>, count: nat, known: seq<Field>)
    requires lines != [] && count + |lines[0]| <= MAX_HEADER_BYTES && parse(lines[0]).Some?
    requires ReadsAs(h, parse, lines[1..], rest, count + |lines[0]|, known + [parse(lines[0]).value])
    ensures ReadsAs(h, parse, lines, rest, count, known)
  {
    Regroup(known, [parse(lines[0]).value], Parsed(parse, lines[1..]));
  }

  lemma ReadsAsRefused(h: Headers, parse: FieldParser, lines: seq<seq<Byte>>, rest: seq<Byte>, count: nat, known: seq<Field>)
    requires lines != [] && !(count + |lines[0]| <= MAX_HEADER_BYTES && parse(lines[0]).Some?) && h.Stopped?
    ensures ReadsAs(h, parse, lines, rest, count, known)
  {
  }

  lemma ReadsAsNone(h: Headers, parse: FieldParser, rest: seq<Byte>, count: nat, known: seq<Field>)
    requires if count + 2 <= MAX_HEADER_BYTES then h == Headers(known, rest) else h.Stopped?
    ensures ReadsAs(h, parse, [], rest, count, known)
  {
    assert known + Parsed(parse, []) == known;
  }

  predicate Fits(parse: FieldParser, line: seq<Byte>, count: nat) {
    count + |line| <= MAX_HEADER_BYTES && parse(line).Some?
  }

  lemma OneLineRead(parse: FieldParser, input: seq<Byte>, lines: seq<seq<Byte>>, more: seq<Byte>, rest: seq<Byte>, count: nat,
                    known: seq<Field>, ending: Ending)
    requires lines != [] && input == lines[0] + more && IsLine(lines[0]) && !BlankLine(lines[0])
    requires Fits(parse, lines[0], count) ==>
               var h := ReadFields(parse, more, count + |lines[0]|, known + [parse(lines[0]).value], ending);
               ReadsAs(h, parse, lines[1..], rest, count + |lines[0]|, known + [parse(lines[0]).value])
    ensures ReadsAs(ReadFields(parse, input, count, known, ending), parse, lines, rest, count, known)
  {
    var h := ReadFields(parse, input, count, known, ending);
    LineStep(parse, input, lines[0], more, count, known, ending);
    if Fits(parse, lines[0], count) {
      ReadsAsStep(h, parse, lines, rest, count, known);
    } else {
      ReadsAsRefused(h, parse, lines, rest, count, known);
    }
  }

  lemma NoLinesRead(parse: FieldParser, input: seq<Byte>, rest: seq<Byte>, count: nat, known: seq<Field>, ending: Ending)
    requires input == Lines([]) + (CRLF + rest)
    ensures ReadsAs(ReadFields(parse, input, count, known, ending), parse, [], rest, count, known)
  {
    NoLines(parse, input, rest, count, known, ending);
    ReadsAsNone(ReadFields(parse, input, count, known, ending), parse, rest, count, known);
  }

  lemma {:induction false} LinesRead(parse: FieldParser, input: seq<Byte>, lines: seq<seq<Byte>>, rest: seq<Byte>, count: nat,
                                     known: seq<Field>, ending: Ending)
    requires HeaderLines(lines) && input == Lines(lines) + (CRLF + rest)
    ensures ReadsAs(ReadFields(parse, input, count, known, ending), parse, lines, rest, count, known)
    decreases |lines|
  {
    if lines == [] {
      NoLinesRead(parse, input, rest, count, known, ending);
    } else {
      var more := LinesTail(input, lines, CRLF + rest);
      if Fits(parse, lines[0], count) {
        LinesRead(parse, more, lines[1..], rest, count + |lines[0]|, known + [parse(lines[0]).value], ending);
      }
      OneLineRead(parse, input, lines, more, rest, count, known, ending);
    }
  }

  lemma WrittenLines(syntax: Syntax, fields: seq<Field>)
    requires AllWritable(fields)
    ensures HeaderLines(FieldLines(fields)) && (Parse(Parser(syntax), FieldLines(fields)) <==> AllNamed(fields))
    ensures forall i | 0 <= i < |fields| ::
              Parser(syntax)(FieldLines(fields)[i]) == if Named(fields[i]) then Some(ReadBack(syntax, fields)[i]) else None
  {
    var lines := FieldLines(fields);
    forall i | 0 <= i < |fields|
      ensures IsLine(lines[i]) && !BlankLine(lines[i])
      ensures Parser(syntax)(lines[i]) == if Named(fields[i]) then Some(ReadBack(syntax, fields)[i]) else None
    {
      assert fields[i] in fields;
      LineText(fields[i]);
      FieldReads(syntax, fields[i]);
    }
    if Parse(Parser(syntax), lines) {
      forall f | f in fields ensures Named(f) {
        var i :| 0 <= i < |fields| && fields[i] == f;
        assert Parser(syntax)(lines[i]).Some?;
      }
    }
  }

  lemma {:induction false} ParsedAre(parse: FieldParser, lines: seq<seq<Byte>>, fields: seq<Field>)
    requires |lines| == |fields| && forall i | 0 <= i < |lines| :: parse(lines[i]) == Some(fields[i])
    ensures Parsed(parse, lines) == fields
  {
    if lines != [] {
      ParsedAre(parse, lines[1..], fields[1..]);
      assert fields == [fields[0]] + fields[1..];
    }
  }

  /** The header block the request writer produces reads back, trimmed, in order and with the rest unread,
      exactly when no name is blank and the block fits the limit. */
  lemma HeadersReadBack(syntax: Syntax, fields: seq<Field>, rest: seq<Byte>, ending: Ending)
    requires AllWritable(fields)
    ensures ReadFields(Parser(syntax), Block(fields) + (CRLF + rest), 0, [], ending) == Headers(ReadBack(syntax, fields), rest)
            <==> AllNamed(fields) && |Block(fields)| + 2 <= MAX_HEADER_BYTES
  {
    WrittenLines(syntax, fields);
    var lines := FieldLines(fields);
    LinesRead(Parser(syntax), Block(fields) + (CRLF + rest), lines, rest, 0, [], ending);
    AcceptedMeans(Parser(syntax), lines, 0);
    if AllNamed(fields) {
      assert forall i | 0 <= i < |fields| :: fields[i] in fields;
      ParsedAre(Parser(syntax), lines, ReadBack(syntax, fields));
      assert [] + ReadBack(syntax, fields) == ReadBack(syntax, fields);
    }
  }

  /** A name of one blank is written and refused when it is read back. */
  lemma BlankNameIsRefused(syntax: Syntax, rest: seq<Byte>, ending: Ending)
    ensures Writable(Field([SPACE], []))
    ensures ReadFields(Parser(syntax), Block([Field([SPACE], [])]) + (CRLF + rest), 0, [], ending).Stopped?
  {
    var blank := Field([SPACE], []);
    assert [SPACE][1..] == [];
    assert TrimLeft([SPACE]) == [] && Trim(blank.name) == [];
    var lines := FieldLines([blank]);
    WrittenLines(syntax, [blank]);
    assert blank in [blank];
    LinesRead(Parser(syntax), Block([blank]) + (CRLF + rest), lines, rest, 0, [], ending);
    AcceptedMeans(Parser(syntax), lines, 0);
  }

  // ---------------------------------------------------------------- the body

  predicate NoBody(code: int) {
    100 <= code < 200 || code == 204 || code == 304
  }

  function First(fields: seq<Field>, name: seq<Byte>): seq<Byte> {
    if fields == [] then [] else if fields[0].name == name then fields[0].value else First(fields[1..], name)
  }

  predicate IsChunked(syntax: Syntax, fields: seq<Field>) {
    exists f | f in fields :: f.name == syntax.encoding && syntax.chunked(f.value)
  }

  function Partial(ending: Ending, body: seq<Byte>): Observation {
    AtEnd(ending).(body := body)
  }

  function FixedBody(length: Option<int>, input: seq<Byte>, maxBody: nat, ending: Ending): Outcome {
    if length.None? || length.value < 0 then Done(Failed(BadLength, []), input)
    else if length.value > maxBody then Done(Failed(TooLarge, []), input)
    else if length.value > MAX_ALLOCATION then Panic
    else if |input| < length.value then Done(Partial(ending, input), [])
    else Success(input[..length.value], input[length.value..])
  }

  /** Without framing the body is everything up to one byte past the limit; that bound is a signed 64-bit sum. */
  function OpenBody(input: seq<Byte>, maxBody: nat, ending: Ending): Outcome {
    if maxBody >= MAX_INT64 then Success([], input)
    else if maxBody >= MAX_ALLOCATION && |input| > MAX_ALLOCATION then Panic
    else if |input| > maxBody then Done(Failed(TooLarge, input[..maxBody]), input[maxBody + 1..])
    else if ending.Eof? then Success(input, [])
    else Done(Partial(ending, input), [])
  }

  function ReadBody(syntax: Syntax, sizer: Sizer, code: int, fields: seq<Field>, input: seq<Byte>, maxBody: nat, ending: Ending): Outcome {
    if NoBody(code) then Success([], input)
    else if IsChunked(syntax, fields) then Read(sizer, input, maxBody, [], ending)
    else if First(fields, syntax.length) != [] then FixedBody(syntax.decimal(First(fields, syntax.length)), input, maxBody, ending)
    else OpenBody(input, maxBody, ending)
  }

  /** The observation of one response. */
  function ReadMessage(syntax: Syntax, sizer: Sizer, input: seq<Byte>, maxBody: nat, ending: Ending): Outcome {
    var n := LineLength(input);
    if n == 0 then Done(AtEnd(ending), [])
    else match syntax.status(input[..n])
      case Malformed => Done(Failed(BadStatusLine, []), input[n..])
      case BadCode => Done(Failed(BadStatus, []), input[n..])
      case Code(code) =>
        match ReadFields(Parser(syntax), input[n..], 0, [], ending)
        case Stopped(outcome) => outcome
        case Headers(fields, rest) => ReadBody(syntax, sizer, code, fields, rest, maxBody, ending)
  }

  lemma {:induction false} StoppedIsSafe(parse: seq<Byte> -> Option<Field>, input: seq<Byte>, count: nat, fields: seq<Field>,
                                         ending: Ending, maxBody: nat)
    ensures var h := ReadFields(parse, input, count, fields, ending);
            h.Stopped? ==> Safe(h.outcome, maxBody) && h.outcome.Done? && !h.outcome.observation.complete
    decreases |input|
  {
    var n := LineLength(input);
    if n > 0 && count + n <= MAX_HEADER_BYTES && !BlankLine(input[..n]) && parse(input[..n]).Some? {
      StoppedIsSafe(parse, input[n..], count + n, fields + [parse(input[..n]).value], ending, maxBody);
    }
  }

  /** Whatever a server sends and however it frames the body: the body stays within the limit and a complete
      observation reports no error. */
  lemma MessageIsSafe(syntax: Syntax, sizer: Sizer, input: seq<Byte>, maxBody: nat, ending: Ending)
    ensures Safe(ReadMessage(syntax, sizer, input, maxBody, ending), maxBody)
  {
    var rest := input[LineLength(input)..];
    StoppedIsSafe(Parser(syntax), rest, 0, [], ending, maxBody);
    match ReadFields(Parser(syntax), rest, 0, [], ending)
    case Stopped(_) =>
    case Headers(fields, left) =>
      forall code: int ensures Safe(ReadBody(syntax, sizer, code, fields, left, maxBody, ending), maxBody) {
        BodyIsSafe(syntax, sizer, code, fields, left, maxBody, ending);
      }
  }

  /** Under a limit that memory can hold, only a chunked body can meet the impossible allocation. */
  lemma BodyIsSafe(syntax: Syntax, sizer: Sizer, code: int, fields: seq<Field>, input: seq<Byte>, maxBody: nat, ending: Ending)
    ensures Safe(ReadBody(syntax, sizer, code, fields, input, maxBody, ending), maxBody)
    ensures ReadBody(syntax, sizer, code, fields, input, maxBody, ending).Panic? && maxBody < MAX_ALLOCATION ==>
              !NoBody(code) && IsChunked(syntax, fields) && Read(sizer, input, maxBody, [], ending).Panic?
  {
    if NoBody(code) {
    } else if IsChunked(syntax, fields) {
      ReadIsSafe(sizer, input, maxBody, ending);
    } else {
      OtherBodiesSafe(syntax.decimal(First(fields, syntax.length)), input, maxBody, ending);
    }
  }

  lemma OtherBodiesSafe(length: Option<int>, input: seq<Byte>, maxBody: nat, ending: Ending)
    ensures Safe(FixedBody(length, input, maxBody, ending), maxBody) && Safe(OpenBody(input, maxBody, ending), maxBody)
    ensures maxBody < MAX_ALLOCATION ==> FixedBody(length, input, maxBody, ending).Done? && OpenBody(input, maxBody, ending).Done?
  {
  }
}
