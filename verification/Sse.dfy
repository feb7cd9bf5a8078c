/** Server-sent events: the gateway prints them, the engine adapter parses them by line, and the
    browser parses them from reads that may split the text anywhere. The wire format is that of
    sections 9.2.5 and 9.2.6 of the WHATWG HTML Living Standard; only the data field is used. */
module Sse {
  import opened Common

  const DONE := "[DONE]"

  // ---------- The printer ----------

  function Event(payload: string): string {
    "data: " + payload + "\n\n"
  }

  function Events(payloads: seq<string>): string {
    if payloads == [] then "" else Event(payloads[0]) + Events(payloads[1..])
  }

  function Printed(payloads: seq<string>): string {
    Events(payloads) + Event(DONE)
  }

  lemma {:induction false} EventsAppend(payloads: seq<string>, p: string)
    ensures Events(payloads + [p]) == Events(payloads) + Event(p)
  {
    if payloads == [] {
      assert [p][1..] == [] && ([] + [p])[0] == p;
    } else {
      assert (payloads + [p])[1..] == payloads[1..] + [p];
      EventsAppend(payloads[1..], p);
    }
  }

  /** The response body of one streamed chat; the engine calls `Chunk` for every piece. */
  class ChatStream {
    var out: string
    ghost var payloads: seq<string>

    ghost predicate Valid()
      reads this
    {
      out == Events(payloads)
    }

    constructor ()
      ensures Valid() && payloads == []
    {
      out, payloads := "", [];
    }

    method Chunk(payload: string)
      requires Valid()
      modifies this
      ensures Valid() && payloads == old(payloads) + [payload]
    {
      EventsAppend(payloads, payload);
      out := out + "data: " + payload + "\n\n";
      payloads := payloads + [payload];
      assert out == old(out) + Event(payload);
    }

    method Finish()
      requires Valid()
      modifies this
      ensures out == Printed(payloads) && payloads == old(payloads)
    {
      out := out + "data: [DONE]\n\n";
    }
  }

  // ---------- The adapter's line parser ----------

  predicate IsSpace(c: char) {
    c in "\t\n\r " || c in "\U{b}\U{c}\U{85}\U{a0}\U{1680}\U{2028}\U{2029}\U{202f}\U{205f}\U{3000}"
      || '\U{2000}' <= c <= '\U{200a}'
  }

  function TrimLeft(s: string): string {
    if s != "" && IsSpace(s[0]) then TrimLeft(s[1..]) else s
  }

  function TrimRight(s: string): string {
    if s != "" && IsSpace(s[|s| - 1]) then TrimRight(s[..|s| - 1]) else s
  }

  /** strings.TrimSpace */
  function Trim(s: string): string {
    TrimRight(TrimLeft(s))
  }

  function Utf8Len(c: char): nat {
    if c < '\U{80}' then 1 else if c < '\U{800}' then 2 else if c < '\U{10000}' then 3 else 4
  }

  function ByteLen(s: string): nat {
    if s == "" then 0 else ByteLen(s[..|s| - 1]) + Utf8Len(s[|s| - 1])
  }

  /** The scanner's buffer: a line that does not fit with its newline is an error. */
  const MAX_TOKEN := 1024 * 1024

  datatype ChatChunk = ChatChunk(id: string, model: string, content: string, done: bool)

  datatype ParseError = TooLong | CallbackFailed

  /** The chunks handed to the callback, in order, and how parsing ended. */
  datatype Parse = Parse(chunks: seq<ChatChunk>, error: Option<ParseError>)

  /** What is outside the parser: JSON decoding, and whether the callback fails on a chunk. */
  datatype Outside = Outside(decode: string -> Option<ChatChunk>, fails: ChatChunk -> bool)

  function After(chunks: seq<ChatChunk>, p: Parse): Parse {
    Parse(chunks + p.chunks, p.error)
  }

  function Last(chunks: seq<ChatChunk>): Option<ChatChunk> {
    if chunks == [] then None else Some(chunks[|chunks| - 1])
  }

  /** The text after the field name, if the line has the field. */
  function DataField(line: string): Option<string> {
    var l := Trim(line);
    if HasPrefix(l, "data:") then Some(Trim(l[5..])) else None
  }

  function Tail(s: string, i: nat): string {
    if i < |s| then s[i + 1..] else ""
  }

  function ParseText(input: string, x: Outside): Parse
    decreases |input|, 0
  {
    if input == "" then Parse([], None)
    else
      var i := IndexOf(input, '\n');
      if ByteLen(input[..i]) >= MAX_TOKEN then Parse([], Some(TooLong))
      else ParseLine(DataField(input[..i]), Tail(input, i), x)
  }

  /** One line, then the rest of the stream. */
  function ParseLine(data: Option<string>, rest: string, x: Outside): Parse
    decreases |rest|, 1
  {
    if data == Some(DONE) then Parse([], None)
    else
      match (if data.None? then None else x.decode(data.value))
      case None => ParseText(rest, x)
      case Some(chunk) =>
        if x.fails(chunk) then Parse([chunk], Some(CallbackFailed)) else After([chunk], ParseText(rest, x))
  }

  lemma AfterAfter(a: seq<ChatChunk>, b: seq<ChatChunk>, p: Parse)
    ensures After(a, After(b, p)) == After(a + b, p)
  {
    AppendAssociates(a, b, p.chunks);
  }

  lemma ParseNext(input: string, x: Outside)
    requires input != "" && ByteLen(input[..IndexOf(input, '\n')]) < MAX_TOKEN
    ensures var i := IndexOf(input, '\n'); ParseText(input, x) == ParseLine(DataField(input[..i]), Tail(input, i), x)
  {
  }

  /** `last` is the chunk the caller gets back; an oversized line yields none. */
  method ParseStream(input: string, x: Outside) returns (p: Parse, last: Option<ChatChunk>)
    ensures p == ParseText(input, x)
    ensures last == if p.error == Some(TooLong) then None else Last(p.chunks)
  {
    var chunks, rest := [], input;
    last := None;
    while rest != ""
      invariant ParseText(input, x) == After(chunks, ParseText(rest, x)) && last == Last(chunks)
      decreases |rest|
    {
      var i := IndexOf(rest, '\n');
      var line := rest[..i];
      if ByteLen(line) >= MAX_TOKEN {
        return Parse(chunks, Some(TooLong)), None;
      }
      ParseNext(rest, x);
      rest := Tail(rest, i);
      match DataField(line) {
        case None =>
        case Some(data) =>
          if data == DONE {
            return Parse(chunks, None), last;
          }
          match x.decode(data) {
            case None =>
            case Some(chunk) =>
              AfterAfter(chunks, [chunk], ParseText(rest, x));
              chunks, last := chunks + [chunk], Some(chunk);
              if x.fails(chunk) {
                return Parse(chunks, Some(CallbackFailed)), last;
              }
          }
      }
    }
    p := Parse(chunks, None);
  }

  /** A payload the printer may be given: one line, no surrounding space, not the end marker. */
  predicate Plain(p: string) {
    '\n' !in p && Trim(p) == p && p != DONE
  }

  predicate FitsScanner(p: string) {
    ByteLen("data: " + p) < MAX_TOKEN
  }

  /** What the callback sees of a payload list. */
  function Delivered(payloads: seq<string>, x: Outside): Parse {
    if payloads == [] then Parse([], None)
    else if !FitsScanner(payloads[0]) then Parse([], Some(TooLong))
    else
      match x.decode(payloads[0])
      case None => Delivered(payloads[1..], x)
      case Some(chunk) =>
        if x.fails(chunk) then Parse([chunk], Some(CallbackFailed)) else After([chunk], Delivered(payloads[1..], x))
  }

  lemma {:induction false} TrimmedEnds(p: string)
    requires Trim(p) == p && p != ""
    ensures !IsSpace(p[0]) && !IsSpace(p[|p| - 1])
  {
    TrimRightShrinks(TrimLeft(p));
    TrimLeftShrinks(p);
  }

  lemma TrimLeftShrinks(s: string)
    ensures |TrimLeft(s)| <= |s| && (|TrimLeft(s)| == |s| && s != "" ==> !IsSpace(s[0]))
  {
  }

  lemma TrimRightShrinks(s: string)
    ensures |TrimRight(s)| <= |s| && (|TrimRight(s)| == |s| && s != "" ==> !IsSpace(s[|s| - 1]))
  {
  }

  /** A printed line, trimmed, cut after the colon and trimmed again, is the payload. */
  lemma LineReadsBack(p: string)
    requires Trim(p) == p
    ensures var l := Trim("data: " + p);
            HasPrefix(l, "data:") && Trim(l[5..]) == p
  {
    var line := "data: " + p;
    assert TrimLeft(line) == line;
    if p == "" {
      assert line == "data: " && line[..|line| - 1] == "data:";
      assert TrimRight("data:") == "data:";
      assert Trim(line) == "data:" && Trim(line)[5..] == "";
    } else {
      TrimmedEnds(p);
      assert line[|line| - 1] == p[|p| - 1];
      assert Trim(line) == line;
      assert line[5..] == " " + p && (" " + p)[1..] == p;
      assert TrimLeft(line[5..]) == p;
    }
  }

  /** The adapter on one printed event. */
  lemma ParseEvent(p: string, rest: string, x: Outside)
    requires '\n' !in p && Trim(p) == p
    ensures ParseText(Event(p) + rest, x)
            == if FitsScanner(p) then ParseLine(Some(p), rest, x) else Parse([], Some(TooLong))
  {
    var line, input := "data: " + p, Event(p) + rest;
    IndexOfIs(input, '\n', |line|);
    assert input[..|line|] == line && Tail(input, |line|) == "\n" + rest;
    LineReadsBack(p);
    BlankLine(rest, x);
  }

  lemma BlankLine(rest: string, x: Outside)
    ensures ParseText("\n" + rest, x) == ParseText(rest, x)
  {
    var blank := "\n" + rest;
    IndexOfIs(blank, '\n', 0);
    assert blank[..0] == "" && blank[1..] == rest && Trim("") == "";
  }

  /** Print, then parse: the callback sees exactly the payloads that decode, in order, up to the end
      marker, the first line too long for the scanner, or its own first failure. */
  lemma {:induction false} PrintThenParse(payloads: seq<string>, x: Outside)
    requires forall p :: p in payloads ==> Plain(p)
    ensures ParseText(Printed(payloads), x) == Delivered(payloads, x)
    decreases |payloads|
  {
    if payloads == [] {
      assert Printed([]) == Event(DONE) + "";
      DoneIsShort();
      ParseEvent(DONE, "", x);
    } else {
      FirstEvent(payloads, Event(DONE));
      assert Plain(payloads[0]);
      ParseEvent(payloads[0], Printed(payloads[1..]), x);
      PrintThenParse(payloads[1..], x);
    }
  }

  lemma {:induction false} AsciiLen(s: string)
    requires forall i :: 0 <= i < |s| ==> s[i] < '\U{80}'
    ensures ByteLen(s) == |s|
  {
    if s != "" {
      AsciiLen(s[..|s| - 1]);
    }
  }

  lemma DoneIsShort()
    ensures FitsScanner(DONE) && Trim(DONE) == DONE
  {
    AsciiLen("data: " + DONE);
  }

  // ---------- The scanner's limit, in characters ----------

  lemma {:induction false} ByteLenBounds(s: string)
    ensures |s| <= ByteLen(s) <= 4 * |s|
  {
    if s != "" {
      ByteLenBounds(s[..|s| - 1]);
    }
  }

  lemma {:induction false} ByteLenAppend(a: string, b: string)
    ensures ByteLen(a + b) == ByteLen(a) + ByteLen(b)
    decreases |b|
  {
    if b == "" {
      assert a + b == a;
    } else {
      assert (a + b)[..|a + b| - 1] == a + b[..|b| - 1];
      ByteLenAppend(a, b[..|b| - 1]);
    }
  }

  /** The width of a character in UTF-8, at the borders of the four ranges. */
  lemma Utf8Widths()
    ensures Utf8Len('\U{0}') == Utf8Len('\U{7f}') == 1 && Utf8Len('\U{80}') == Utf8Len('\U{7ff}') == 2
    ensures Utf8Len('\U{800}') == Utf8Len('\U{ffff}') == 3 && Utf8Len('\U{10000}') == Utf8Len('\U{10ffff}') == 4
  {
  }

  predicate IsAscii(s: string) {
    forall i :: 0 <= i < |s| ==> s[i] < '\U{80}'
  }

  /** A payload of at most 262142 characters always fits. */
  lemma ShortFits(p: string)
    requires |p| <= 262142
    ensures FitsScanner(p)
  {
    ByteLenAppend("data: ", p);
    AsciiLen("data: ");
    ByteLenBounds(p);
  }

  /** The line up to the first newline, and what follows. */
  lemma ParseFirstLine(line: string, rest: string, x: Outside)
    requires '\n' !in line
    ensures ParseText(line + "\n" + rest, x)
            == if ByteLen(line) >= MAX_TOKEN then Parse([], Some(TooLong)) else ParseLine(DataField(line), rest, x)
  {
    var input := line + "\n" + rest;
    assert input[..|line|] == line && input[|line| + 1..] == rest;
    IndexOfIs(input, '\n', |line|);
  }

  /** An ASCII line is too long from 1048576 characters on, and not before. */
  lemma AsciiLimit(line: string, rest: string, x: Outside)
    requires '\n' !in line && IsAscii(line)
    ensures ParseText(line + "\n" + rest, x)
            == if |line| >= 1048576 then Parse([], Some(TooLong)) else ParseLine(DataField(line), rest, x)
  {
    ParseFirstLine(line, rest, x);
    AsciiLen(line);
  }

  /** A line that, trimmed, does not start with the field name is skipped. */
  lemma OtherLinesAreSkipped(line: string, rest: string, x: Outside)
    requires '\n' !in line && |line| < 262144 && (|Trim(line)| < 5 || Trim(line)[..5] != "data:")
    ensures ParseText(line + "\n" + rest, x) == ParseText(rest, x)
  {
    ParseFirstLine(line, rest, x);
    ByteLenBounds(line);
  }

  /** What a data line of usual size does: the marker ends the stream, text that does not decode is
      skipped, a chunk goes to the callback, and parsing goes on unless that fails. */
  lemma DataLineEffect(p: string, rest: string, x: Outside)
    requires '\n' !in p && Trim(p) == p && |p| <= 262142
    ensures var r, more := ParseText("data: " + p + "\n" + rest, x), ParseText(rest, x);
            && (p == "[DONE]" ==> r.chunks == [] && r.error == None)
            && (p != "[DONE]" && x.decode(p) == None ==> r == more)
            && (p != "[DONE]" && x.decode(p).Some? ==>
                  var chunk := x.decode(p).value;
                  if x.fails(chunk) then r.chunks == [chunk] && r.error == Some(CallbackFailed)
                  else r.chunks == [chunk] + more.chunks && r.error == more.error)
  {
    ShortFits(p);
    LineReadsBack(p);
    ParseFirstLine("data: " + p, rest, x);
  }

  /** The callback's error is that of the last chunk, and no earlier one failed. */
  predicate EndsAtFailure(r: Parse, x: Outside) {
    && (r.error == Some(CallbackFailed) <==> r.chunks != [] && x.fails(r.chunks[|r.chunks| - 1]))
    && (forall i :: 0 <= i < |r.chunks| - 1 ==> !x.fails(r.chunks[i]))
  }

  lemma OneMoreChunk(chunk: ChatChunk, r: Parse, x: Outside)
    requires EndsAtFailure(r, x) && !x.fails(chunk)
    ensures EndsAtFailure(After([chunk], r), x)
  {
  }

  /** On any text: parsing ends with the callback's error if and only if the last chunk it was given made
      it fail, and no earlier one did. */
  lemma {:induction false} CallbackFailureStops(input: string, x: Outside)
    ensures EndsAtFailure(ParseText(input, x), x)
    decreases |input|
  {
    if input != "" && ByteLen(input[..IndexOf(input, '\n')]) < MAX_TOKEN {
      ParseNext(input, x);
      var i := IndexOf(input, '\n');
      var data, rest := DataField(input[..i]), Tail(input, i);
      CallbackFailureStops(rest, x);
      if data.Some? && x.decode(data.value).Some? && !x.fails(x.decode(data.value).value) {
        OneMoreChunk(x.decode(data.value).value, ParseText(rest, x), x);
      }
    }
  }

  /** For payloads of usual size that all decode, and a callback that never fails, the callback sees one
      chunk for every payload, in order, and parsing ends without an error. */
  lemma {:induction false} OneChunkEach(payloads: seq<string>, x: Outside)
    requires forall p :: p in payloads ==> Plain(p) && |p| <= 262142 && x.decode(p).Some?
    requires forall c: ChatChunk {:trigger x.fails(c)} :: !x.fails(c)
    ensures var r := ParseText(Printed(payloads), x);
            && r.error == None && |r.chunks| == |payloads|
            && forall i :: 0 <= i < |payloads| ==> x.decode(payloads[i]) == Some(r.chunks[i])
  {
    PrintThenParse(payloads, x);
    DeliveredEach(payloads, x);
  }

  lemma {:induction false} DeliveredEach(payloads: seq<string>, x: Outside)
    requires forall p :: p in payloads ==> |p| <= 262142 && x.decode(p).Some?
    requires forall c: ChatChunk {:trigger x.fails(c)} :: !x.fails(c)
    ensures var r := Delivered(payloads, x);
            && r.error == None && |r.chunks| == |payloads|
            && forall i :: 0 <= i < |payloads| ==> x.decode(payloads[i]) == Some(r.chunks[i])
    decreases |payloads|
  {
    if payloads != [] {
      assert payloads[0] in payloads;
      ShortFits(payloads[0]);
      DeliveredEach(payloads[1..], x);
      var r, chunk := Delivered(payloads, x), x.decode(payloads[0]).value;
      assert r.chunks == [chunk] + Delivered(payloads[1..], x).chunks;
      forall i | 0 <= i < |payloads| ensures x.decode(payloads[i]) == Some(r.chunks[i]) {
        assert i > 0 ==> payloads[i] == payloads[1..][i - 1];
      }
    }
  }

  // ---------- Blanks around a line ----------

  /** Blanks, tabs and the carriage return of a CRLF line end. */
  predicate Blanks(s: string) {
    forall i :: 0 <= i < |s| ==> s[i] == ' ' || s[i] == '\t' || s[i] == '\r'
  }

  lemma {:induction false} TrimLeftBlanks(b: string, s: string)
    requires Blanks(b)
    ensures TrimLeft(b + s) == TrimLeft(s)
    decreases |b|
  {
    if b == "" {
      assert b + s == s;
    } else {
      assert (b + s)[0] == b[0] && (b + s)[1..] == b[1..] + s;
      TrimLeftBlanks(b[1..], s);
    }
  }

  lemma {:induction false} TrimRightBlanks(s: string, b: string)
    requires Blanks(b)
    ensures TrimRight(s + b) == TrimRight(s)
    decreases |b|
  {
    if b == "" {
      assert s + b == s;
    } else {
      var c := b[..|b| - 1];
      assert (s + b)[..|s + b| - 1] == s + c && (s + b)[|s + b| - 1] == b[|b| - 1];
      TrimRightBlanks(s, c);
    }
  }

  /** The adapter takes a payload with any blanks around it, and needs none after the colon. */
  lemma BlanksDoNotMatter(a: string, b: string, p: string, c: string)
    requires Blanks(a) && Blanks(b) && Blanks(c) && Trim(p) == p
    ensures DataField(a + "data:" + b + p + c) == Some(p)
  {
    var core := "data:" + b + p;
    assert a + "data:" + b + p + c == a + (core + c);
    TrimLeftBlanks(a, core + c);
    assert TrimLeft(core + c) == core + c;
    TrimRightBlanks(core, c);
    CoreReadsBack(b, p);
  }

  lemma CoreReadsBack(b: string, p: string)
    requires Blanks(b) && Trim(p) == p
    ensures var l := TrimRight("data:" + b + p); HasPrefix(l, "data:") && Trim(l[5..]) == p
  {
    var core := "data:" + b + p;
    if p == "" {
      assert core == "data:" + b;
      TrimRightBlanks("data:", b);
      assert TrimRight("data:") == "data:" && "data:"[5..] == "" && Trim("") == "";
    } else {
      TrimmedEnds(p);
      assert core[|core| - 1] == p[|p| - 1] && TrimRight(core) == core;
      assert core[..5] == "data:" && core[5..] == b + p;
      TrimLeftBlanks(b, p);
      assert TrimLeft(p) == p;
    }
  }

  // ---------- The browser's incremental parser ----------

  /** Position of the first blank line, or |s|. */
  function IndexOfBlank(s: string): (i: nat)
    ensures i <= |s|
    ensures i < |s| ==> i + 1 < |s| && s[i] == '\n' && s[i + 1] == '\n'
    ensures forall k :: 0 <= k < i && k + 1 < |s| ==> !(s[k] == '\n' && s[k + 1] == '\n')
  {
    if |s| < 2 then |s|
    else if s[0] == '\n' && s[1] == '\n' then 0
    else 1 + IndexOfBlank(s[1..])
  }

  /** The first line of an event that starts with `data: `. */
  function DataLine(event: string): (line: Option<string>)
    ensures line.Some? ==> |line.value| >= 6
    decreases |event|
  {
    var i := IndexOf(event, '\n');
    if HasPrefix(event[..i], "data: ") then Some(event[..i])
    else if i < |event| then DataLine(event[i + 1..])
    else None
  }

  /** What the loop takes from one event: the text after `data: ` on that line. */
  function EventData(event: string): Option<string> {
    match DataLine(event)
    case None => None
    case Some(line) => Some(line[6..])
  }

  /** The buffer after the inner loop, the data handed to JSON.parse, and whether the marker came by. */
  datatype Drained = Drained(buf: string, got: seq<string>, done: bool)

  function Got(data: string, d: Drained): Drained {
    Drained(d.buf, [data] + d.got, d.done)
  }

  function Drain(buf: string): Drained
    decreases |buf|
  {
    var i := IndexOfBlank(buf);
    if i == |buf| then Drained(buf, [], false)
    else
      match EventData(buf[..i])
      case None => Drain(buf[i + 2..])
      case Some(data) => if data == DONE then Drained("", [], true) else Got(data, Drain(buf[i + 2..]))
  }

  /** The outer loop: every read is appended to the buffer, then the buffer is drained. */
  function Feed(buf: string, parts: seq<string>): seq<string>
    decreases |parts|
  {
    if parts == [] then [] else Drain(buf + parts[0]).got + Feed(Drain(buf + parts[0]).buf, parts[1..])
  }

  function Concat(parts: seq<string>): string {
    if parts == [] then "" else parts[0] + Concat(parts[1..])
  }

  lemma IndexOfBlankIs(s: string, i: nat)
    requires i + 1 < |s| && s[i] == '\n' && s[i + 1] == '\n'
    requires forall k :: 0 <= k < i ==> !(s[k] == '\n' && s[k + 1] == '\n')
    ensures IndexOfBlank(s) == i
  {
  }

  /** Text appended later does not move the first blank line. */
  lemma FirstEventStays(b: string, x: string, i: nat)
    requires i == IndexOfBlank(b) < |b|
    ensures IndexOfBlank(b + x) == i < |b + x| && (b + x)[..i] == b[..i] && (b + x)[i + 2..] == b[i + 2..] + x
  {
    assert (b + x)[..i] == b[..i];
    assert (b + x)[i + 2..] == b[i + 2..] + x;
    assert forall k :: 0 <= k < i + 2 ==> (b + x)[k] == b[k];
    IndexOfBlankIs(b + x, i);
  }

  function Prepend(got: seq<string>, d: Drained): Drained {
    Drained(d.buf, got + d.got, d.done)
  }

  lemma GotPrepend(data: string, got: seq<string>, d: Drained)
    ensures Got(data, Prepend(got, d)) == Prepend([data] + got, d)
  {
    AppendAssociates([data], got, d.got);
  }

  /** Of the lines of an event the first one that starts with `data: ` counts; others are passed over. */
  lemma FirstDataLine(line: string, more: string)
    requires '\n' !in line
    ensures DataLine(line + "\n" + more) == if HasPrefix(line, "data: ") then Some(line) else DataLine(more)
    ensures DataLine(line) == if HasPrefix(line, "data: ") then Some(line) else None
  {
    var event := line + "\n" + more;
    assert event[..|line|] == line && event[|line| + 1..] == more;
    IndexOfIs(event, '\n', |line|);
    assert IndexOf(line, '\n') == |line| && line[..|line|] == line;
  }

  /** What one event contributes in front of the rest of the buffer. */
  function Take(data: Option<string>, d: Drained): Drained {
    match data
    case None => d
    case Some(text) => if text == DONE then Drained("", [], true) else Got(text, d)
  }

  /** One event off the front of the buffer. */
  lemma DrainOne(b: string, i: nat)
    requires i == IndexOfBlank(b) < |b|
    ensures Drain(b) == Take(EventData(b[..i]), Drain(b[i + 2..]))
  {
  }

  lemma DrainOneThenMore(b: string, x: string, i: nat)
    requires i == IndexOfBlank(b) < |b|
    ensures Drain(b + x) == Take(EventData(b[..i]), Drain(b[i + 2..] + x))
  {
    FirstEventStays(b, x, i);
    DrainOne(b + x, i);
  }

  lemma TakeAppend(data: Option<string>, d: Drained, more: Drained)
    requires !Take(data, d).done
    ensures !d.done && Take(data, d).buf == d.buf
    ensures Take(data, Prepend(d.got, more)) == Prepend(Take(data, d).got, more)
  {
    if data.Some? {
      GotPrepend(data.value, d.got, more);
    }
  }

  /** Draining can be interrupted anywhere, as long as the marker has not come by. */
  lemma {:induction false} DrainAppend(b: string, x: string)
    requires !Drain(b).done
    ensures Drain(b + x) == Prepend(Drain(b).got, Drain(Drain(b).buf + x))
    decreases |b|
  {
    var i := IndexOfBlank(b);
    if i < |b| {
      var rest, data := b[i + 2..], EventData(b[..i]);
      DrainOne(b, i);
      DrainOneThenMore(b, x, i);
      TakeAppend(data, Drain(rest), Drain(Drain(rest).buf + x));
      DrainAppend(rest, x);
    } else {
      assert [] + Drain(b + x).got == Drain(b + x).got;
    }
  }

  /** Once the marker has come by, more text in the same read changes nothing. */
  lemma {:induction false} DoneStays(b: string, x: string)
    requires Drain(b).done
    ensures Drain(b + x) == Drain(b)
    decreases |b|
  {
    var i := IndexOfBlank(b);
    DrainOne(b, i);
    DrainOneThenMore(b, x, i);
    if Drain(b[i + 2..]).done {
      DoneStays(b[i + 2..], x);
    }
  }

  lemma PrependGot(got: seq<string>, data: string, d: Drained)
    ensures Prepend(got, Got(data, d)) == Prepend(got + [data], d)
  {
    AppendAssociates(got, [data], d.got);
  }

  lemma PrependNothing(got: seq<string>)
    ensures Prepend(got, Drained("", [], true)) == Drained("", got, true)
  {
    assert got + [] == got;
  }

  /** One turn of the inner loop: what was got before an event and what is taken from it. */
  lemma PrependTake(got: seq<string>, data: Option<string>, d: Drained)
    ensures Prepend(got, Take(data, d)) ==
            if data == Some(DONE) then Drained("", got, true)
            else Prepend(if data.None? then got else got + [data.value], d)
  {
    match data
    case None =>
    case Some(text) => if text == DONE { PrependNothing(got); } else { PrependGot(got, text, d); }
  }

  lemma FeedUnfold(buf: string, parts: seq<string>)
    requires parts != []
    ensures Feed(buf, parts) == Drain(buf + parts[0]).got + Feed(Drain(buf + parts[0]).buf, parts[1..])
  {
  }

  /** One turn of the outer loop: append the read, then take events off the buffer. */
  method Receive(buffered: string, part: string) returns (buf: string, got: seq<string>)
    ensures buf == Drain(buffered + part).buf && got == Drain(buffered + part).got
  {
    buf, got := buffered + part, [];
    ghost var all := Drain(buf);
    var i := IndexOfBlank(buf);
    while i < |buf|
      invariant i == IndexOfBlank(buf) && all == Prepend(got, Drain(buf))
      decreases |buf|
    {
      DrainOne(buf, i);
      PrependTake(got, EventData(buf[..i]), Drain(buf[i + 2..]));
      var event := buf[..i];
      buf := buf[i + 2..];
      i := IndexOfBlank(buf);
      match DataLine(event) {
        case None =>
        case Some(line) =>
          if line[6..] == DONE {
            buf := "";
            break;
          }
          got := got + [line[6..]];
      }
    }
  }

  method ReceiveAll(parts: seq<string>) returns (got: seq<string>)
    ensures got == Feed("", parts)
  {
    var buf := "";
    got := [];
    for n := 0 to |parts|
      invariant Feed("", parts) == got + Feed(buf, parts[n..])
    {
      assert parts[n..][0] == parts[n] && parts[n..][1..] == parts[n + 1..];
      FeedUnfold(buf, parts[n..]);
      var more;
      buf, more := Receive(buf, parts[n]);
      AppendAssociates(got, more, Feed(buf, parts[n + 1..]));
      got := got + more;
    }
  }

  /** The browser on one printed event. */
  lemma DrainEvent(p: string, rest: string)
    requires '\n' !in p
    ensures Drain(Event(p) + rest) ==
            if p == DONE then Drained("", [], true) else Got(p, Drain(rest))
  {
    var line, text := "data: " + p, Event(p) + rest;
    IndexOfBlankIs(text, |line|);
    assert text[..|line|] == line && text[|line| + 2..] == rest;
    assert IndexOf(line, '\n') == |line| && line[..|line|] == line && line[6..] == p;
  }

  lemma FirstEvent(payloads: seq<string>, rest: string)
    requires payloads != []
    ensures Events(payloads) + rest == Event(payloads[0]) + (Events(payloads[1..]) + rest)
  {
    AppendAssociates(Event(payloads[0]), Events(payloads[1..]), rest);
  }

  lemma {:induction false} DrainEvents(payloads: seq<string>, rest: string)
    requires forall p :: p in payloads ==> '\n' !in p && p != DONE
    ensures Drain(Events(payloads) + rest) == Prepend(payloads, Drain(rest))
    decreases |payloads|
  {
    if payloads == [] {
      assert Events([]) + rest == rest && [] + Drain(rest).got == Drain(rest).got;
    } else {
      FirstEvent(payloads, rest);
      DrainEvent(payloads[0], Events(payloads[1..]) + rest);
      DrainEvents(payloads[1..], rest);
      assert payloads == [payloads[0]] + payloads[1..];
      GotPrepend(payloads[0], payloads[1..], Drain(rest));
    }
  }

  /** The stream without its last newline still lacks the marker event. */
  lemma NotDoneYet(payloads: seq<string>)
    requires forall p :: p in payloads ==> '\n' !in p && p != DONE
    ensures !Drain(Events(payloads) + ("data: " + DONE + "\n")).done
  {
    var tail := "data: " + DONE + "\n";
    assert IndexOfBlank(tail) == |tail|;
    DrainEvents(payloads, tail);
  }

  /** No proper prefix of a printed stream holds the complete end marker. */
  lemma MarkerOnlyAtTheEnd(payloads: seq<string>, a: string, x: string)
    requires forall p :: p in payloads ==> '\n' !in p && p != DONE
    requires a + x == Printed(payloads) && x != ""
    ensures !Drain(a).done
  {
    var y := x[..|x| - 1];
    assert a + y == Printed(payloads)[..|Printed(payloads)| - 1] == Events(payloads) + ("data: " + DONE + "\n");
    NotDoneYet(payloads);
    if Drain(a).done {
      DoneStays(a, y);
    }
  }

  lemma FeedOne(a: string, part: string, rest: seq<string>)
    requires !Drain(a).done
    ensures Drain(a).got + Feed(Drain(a).buf, [part] + rest) == Drain(a + part).got + Feed(Drain(a + part).buf, rest)
  {
    DrainAppend(a, part);
    FeedUnfold(Drain(a).buf, [part] + rest);
    var d, e := Drain(a), Drain(Drain(a).buf + part);
    assert ([part] + rest)[0] == part && ([part] + rest)[1..] == rest;
    AppendAssociates(d.got, e.got, Feed(e.buf, rest));
  }

  /** A drained buffer holds no complete event. */
  lemma DrainedHoldsNothing(b: string)
    ensures Drain(Drain(b).buf) == Drained(Drain(b).buf, [], false) || Drain(b).done
    ensures Drain(b).done ==> Drain(b).buf == "" && Drain("") == Drained("", [], false)
    decreases |b|
  {
    var i := IndexOfBlank(b);
    if i < |b| {
      DrainOne(b, i);
      DrainedHoldsNothing(b[i + 2..]);
    }
  }

  // ---------- When the split into reads does not matter ----------

  ghost predicate IsCut(t: string, a: string, x: string) {
    t == a + x
  }

  /** Wherever the text is cut after its marker, what is left yields nothing. */
  ghost predicate SilentAfterMarker(t: string) {
    forall a, x :: IsCut(t, a, x) && Drain(a).done ==> Drain(x).got == []
  }

  /** No end piece of the text yields anything. */
  ghost predicate Silent(t: string) {
    forall a, x :: IsCut(t, a, x) ==> Drain(x).got == []
  }

  lemma SilentTail(t: string, a: string, x: string)
    requires Silent(t) && IsCut(t, a, x)
    ensures Silent(x)
  {
    forall b, y | IsCut(x, b, y) ensures Drain(y).got == [] {
      AppendAssociates(a, b, y);
      assert IsCut(t, a + b, y);
    }
  }

  /** What a buffer yields, a longer one yields first. */
  lemma SilentHead(b: string, x: string)
    requires Drain(b + x).got == []
    ensures Drain(b).got == []
  {
    if Drain(b).done {
      DoneStays(b, x);
    } else {
      DrainAppend(b, x);
    }
  }

  lemma CutFurther(b: string, i: nat, x: string)
    requires i <= |b| && exists a :: IsCut(b[i..], a, x)
    ensures exists a :: IsCut(b, a, x)
  {
    var a :| IsCut(b[i..], a, x);
    AppendAssociates(b[..i], a, x);
    assert b == b[..i] + b[i..];
    assert IsCut(b, b[..i] + a, x);
  }

  /** What is left in the buffer is an end piece of it. */
  lemma {:induction false} BufferIsTail(b: string)
    ensures exists a :: IsCut(b, a, Drain(b).buf)
    decreases |b|
  {
    var i := IndexOfBlank(b);
    if Drain(b).done {
      DrainedHoldsNothing(b);
      assert IsCut(b, b, "");
    } else if i < |b| {
      DrainOne(b, i);
      BufferIsTail(b[i + 2..]);
      CutFurther(b, i + 2, Drain(b).buf);
    } else {
      assert IsCut(b, "", b);
    }
  }

  /** After one read of a silent text: nothing was got, and buffer and rest are silent too. */
  lemma SilentRead(b: string, rest: string)
    requires Silent(b + rest)
    ensures Drain(b).got == [] && Silent(Drain(b).buf + rest)
  {
    assert IsCut(b + rest, "", b + rest);
    SilentHead(b, rest);
    BufferIsTail(b);
    var a :| IsCut(b, a, Drain(b).buf);
    AppendAssociates(a, Drain(b).buf, rest);
    SilentTail(b + rest, a, Drain(b).buf + rest);
  }

  /** However a silent text is split, nothing comes of it. */
  lemma {:induction false} SilentReads(buf: string, parts: seq<string>)
    requires Silent(buf + Concat(parts))
    ensures Feed(buf, parts) == []
    decreases |parts|
  {
    if parts != [] {
      AppendAssociates(buf, parts[0], Concat(parts[1..]));
      SilentRead(buf + parts[0], Concat(parts[1..]));
      SilentReads(Drain(buf + parts[0]).buf, parts[1..]);
      FeedUnfold(buf, parts);
    }
  }

  /** What is left after the marker is silent as a whole. */
  lemma RestIsSilent(t: string, a: string, x: string)
    requires SilentAfterMarker(t) && t == a + x && Drain(a).done
    ensures Silent(x)
  {
    forall b, y | IsCut(x, b, y) ensures Drain(y).got == [] {
      AppendAssociates(a, b, y);
      DoneStays(a, b);
      assert IsCut(t, a + b, y);
    }
  }

  lemma AppendNothing<T>(a: seq<T>)
    ensures a + [] == a && [] + a == a
  {
  }

  /** The read that brings the marker is the last one that counts. */
  lemma FeedAtMarker(t: string, a: string, rest: seq<string>)
    requires SilentAfterMarker(t) && t == a + Concat(rest) && Drain(a).done
    ensures Drain(a).got + Feed(Drain(a).buf, rest) == Drain(t).got
  {
    RestIsSilent(t, a, Concat(rest));
    DoneStays(a, Concat(rest));
    DrainedHoldsNothing(a);
    AppendNothing(Concat(rest));
    SilentReads("", rest);
    AppendNothing(Drain(t).got);
  }

  /** From any point before the marker on: what was got so far and what is still to come are what the
      whole text gives at once. */
  lemma {:induction false} FeedRest(t: string, a: string, parts: seq<string>)
    requires SilentAfterMarker(t) && t == a + Concat(parts) && !Drain(a).done
    ensures Drain(a).got + Feed(Drain(a).buf, parts) == Drain(t).got
    decreases |parts|
  {
    if parts == [] {
      AppendNothing(a);
      AppendNothing(Drain(a).got);
    } else {
      var part, rest := parts[0], parts[1..];
      AppendAssociates(a, part, Concat(rest));
      FeedOne(a, part, rest);
      assert parts == [part] + rest;
      if Drain(a + part).done {
        FeedAtMarker(t, a + part, rest);
      } else {
        FeedRest(t, a + part, rest);
      }
    }
  }

  lemma FeedWhole(t: string, parts: seq<string>)
    requires SilentAfterMarker(t) && Concat(parts) == t
    ensures Feed("", parts) == Drain(t).got
  {
    assert Drain("") == Drained("", [], false);
    AppendNothing(t);
    FeedRest(t, "", parts);
    AppendNothing(Feed("", parts));
  }

  lemma ConcatTwo(a: string, x: string)
    ensures Concat([a, x]) == a + x
  {
    assert [a, x][1..] == [x] && [x][1..] == [] && Concat([x]) == x + "";
  }

  lemma FeedOneRead(x: string)
    ensures Feed("", [x]) == Drain(x).got
  {
    FeedUnfold("", [x]);
    AppendNothing(x);
    AppendNothing(Drain(x).got);
  }

  /** A split right after the marker lets the rest have its say. */
  lemma SplitTells(a: string, x: string)
    requires Drain(a).done
    ensures Feed("", [a, x]) == Drain(a + x).got + Drain(x).got
  {
    DoneStays(a, x);
    DrainedHoldsNothing(a);
    FeedUnfold("", [a, x]);
    AppendNothing(a);
    assert [a, x][1..] == [x];
    FeedOneRead(x);
  }

  ghost predicate SplitsAgree(t: string) {
    forall parts :: Concat(parts) == t ==> Feed("", parts) == Drain(t).got
  }

  lemma AgreeingIsSilent(t: string, a: string, x: string)
    requires SplitsAgree(t) && IsCut(t, a, x) && Drain(a).done
    ensures Drain(x).got == []
  {
    ConcatTwo(a, x);
    SplitTells(a, x);
    assert |Drain(t).got + Drain(x).got| == |Drain(t).got|;
  }

  /** For any text at all: every split into reads gives what one read gives, if and only if what is left
      after the marker, from any point on, yields nothing. */
  lemma SplitsAgreeIffSilentAfterMarker(t: string)
    ensures SplitsAgree(t) <==> SilentAfterMarker(t)
  {
    if SilentAfterMarker(t) {
      forall parts | Concat(parts) == t ensures Feed("", parts) == Drain(t).got {
        FeedWhole(t, parts);
      }
    }
    if SplitsAgree(t) {
      forall a, x | IsCut(t, a, x) && Drain(a).done ensures Drain(x).got == [] {
        AgreeingIsSilent(t, a, x);
      }
    }
  }

  /** The marker event is complete at the very end of the text, or not at all. */
  ghost predicate NothingAfterMarker(t: string) {
    t == "" || !Drain(t[..|t| - 1]).done
  }

  lemma NothingIsSilent(t: string)
    requires NothingAfterMarker(t)
    ensures SilentAfterMarker(t)
  {
    forall a, x | IsCut(t, a, x) && Drain(a).done ensures Drain(x).got == [] {
      if x != "" {
        assert t[..|t| - 1] == a + x[..|x| - 1];
        DoneStays(a, x[..|x| - 1]);
      }
    }
  }

  /** Any text with nothing after its marker, however it is split into reads, gives what it gives in
      one read. */
  lemma AnyChunkingIsOneRead(t: string, parts: seq<string>)
    requires NothingAfterMarker(t) && Concat(parts) == t
    ensures Feed("", parts) == Drain(t).got
  {
    NothingIsSilent(t);
    FeedWhole(t, parts);
  }

  lemma DrainWhole(payloads: seq<string>)
    requires forall p :: p in payloads ==> '\n' !in p && p != DONE
    ensures Drain(Printed(payloads)) == Drained("", payloads, true)
  {
    assert Event(DONE) + "" == Event(DONE) && payloads + [] == payloads;
    DrainEvent(DONE, "");
    DrainEvents(payloads, Event(DONE));
  }

  /** However a printed stream is split into reads, the browser recovers exactly its payloads. */
  lemma AnyChunkingRecoversPayloads(payloads: seq<string>, parts: seq<string>)
    requires forall p :: p in payloads ==> '\n' !in p && p != DONE
    requires Concat(parts) == Printed(payloads)
    ensures Feed("", parts) == payloads
  {
    var t := Printed(payloads);
    MarkerOnlyAtTheEnd(payloads, t[..|t| - 1], t[|t| - 1..]);
    DrainWhole(payloads);
    AnyChunkingIsOneRead(t, parts);
  }

  /** Both readers of a printed stream see the same payloads. */
  lemma ReadersAgree(payloads: seq<string>, parts: seq<string>, x: Outside)
    requires forall p :: p in payloads ==> Plain(p)
    requires Concat(parts) == Printed(payloads)
    ensures ParseText(Concat(parts), x) == Delivered(Feed("", parts), x)
  {
    AnyChunkingRecoversPayloads(payloads, parts);
    PrintThenParse(payloads, x);
  }

  lemma NoBlankNoField(p: string)
    requires p == "" || p[0] != ' '
    ensures !HasPrefix("data:" + p, "data: ")
  {
    if p != "" {
      assert ("data:" + p)[5] == p[0] && "data: "[5] == ' ';
      assert ("data:" + p)[..6][5] == p[0];
    }
  }

  /** An event of one other line is passed over by the browser. */
  lemma OtherEventIsSkipped(line: string, rest: string)
    requires '\n' !in line && line != "" && !HasPrefix(line, "data: ")
    ensures Drain(line + "\n\n" + rest) == Drain(rest)
  {
    var text := line + "\n\n" + rest;
    IndexOfBlankIs(text, |line|);
    assert text[..|line|] == line && text[|line| + 2..] == rest;
    FirstDataLine(line, "");
    DrainOne(text, |line|);
  }

  /** The readers differ on a line without the blank after the colon: the adapter takes its payload, the
      browser passes it over. */
  lemma ReadersDifferWithoutBlank(p: string, rest: string)
    requires '\n' !in p && Trim(p) == p && (p == "" || p[0] != ' ')
    ensures DataField("data:" + p) == Some(p)
    ensures Drain("data:" + p + "\n\n" + rest) == Drain(rest)
  {
    assert "" + "data:" + "" + p + "" == "data:" + p;
    BlanksDoNotMatter("", "", p, "");
    NoBlankNoField(p);
    OtherEventIsSkipped("data:" + p, rest);
  }

  /** The claim needs the marker to be last: text after it is dropped if it arrives in the same read
      and processed if it arrives later. */
  lemma AfterTheMarkerChunkingMatters(p: string)
    requires '\n' !in p && p != DONE
    ensures var one, two := [Event(DONE) + Event(p)], [Event(DONE), Event(p)];
            Concat(one) == Concat(two) && Feed("", one) == [] && Feed("", two) == [p]
  {
    var one, two := [Event(DONE) + Event(p)], [Event(DONE), Event(p)];
    assert two[1..] == [Event(p)] && two[1..][1..] == [] && one[1..] == [];
    assert "" + one[0] == Event(DONE) + Event(p) && "" + two[0] == Event(DONE) + "" && "" + two[1] == Event(p) + "";
    DrainEvent(DONE, Event(p));
    DrainEvent(DONE, "");
    DrainEvent(p, "");
    assert Drain("") == Drained("", [], false);
    assert Feed("", two[1..]) == [p] + [] + Feed("", []);
  }
}
