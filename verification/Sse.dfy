/**
  The client's incremental parser of event streams. A character stands for one byte of UTF-8 text;
  line feeds, carriage returns and colons are single bytes and never part of another character.
*/
module Sse {
  import opened Prelude

  datatype SseMessage = SseMessage(data: string, event: Option<string>, id: Option<string>)

  datatype Failure = EventTooLong | LineTooLong

  /** The event being assembled. */
  datatype Pending = Pending(data: seq<string>, event: Option<string>, id: Option<string>, bytes: nat)

  /** `buffer` is the unfinished line. */
  datatype State = State(pending: Pending, buffer: string, out: seq<SseMessage>, failure: Option<Failure>)

  const NOTHING := Pending([], None, None, 0)
  const START := State(NOTHING, "", [], None)

  // ----- one line -----

  /** The position of the first `c`, or the length. */
  function Index(s: string, c: char): (i: nat)
    ensures i <= |s|
    ensures c !in s[..i]
    ensures i < |s| ==> s[i] == c
  {
    if s == "" || s[0] == c then 0
    else
      assert s[..1 + Index(s[1..], c)] == [s[0]] + s[1..][..Index(s[1..], c)];
      1 + Index(s[1..], c)
  }

  function NameOf(line: string): string {
    line[..Index(line, ':')]
  }

  function ValueOf(line: string): string {
    var i := Index(line, ':');
    var value := if i == |line| then "" else line[i + 1..];
    if value != "" && value[0] == ' ' then value[1..] else value
  }

  function Field(p: Pending, name: string, value: string): Pending {
    if name == "data" then p.(data := p.data + [value])
    else if name == "event" then p.(event := Some(value))
    else if name == "id" && '\0' !in value then p.(id := Some(value))
    else p
  }

  function Join(lines: seq<string>): string {
    if lines == [] then ""
    else if |lines| == 1 then lines[0]
    else Join(lines[..|lines| - 1]) + "\n" + lines[|lines| - 1]
  }

  function Dispatched(p: Pending): seq<SseMessage> {
    if p.data == [] then [] else [SseMessage(Join(p.data), p.event, p.id)]
  }

  function Consume(s: State, line: string, max: nat): State {
    if s.failure.Some? then s
    else if line == "" then s.(pending := NOTHING, out := s.out + Dispatched(s.pending))
    else if line[0] == ':' then s
    else
      var bytes := s.pending.bytes + |line| + 1;
      if bytes > max then s.(failure := Some(EventTooLong))
      else s.(pending := Field(s.pending.(bytes := bytes), NameOf(line), ValueOf(line)))
  }

  function Chomp(raw: string): string {
    if raw != "" && raw[|raw| - 1] == '\r' then raw[..|raw| - 1] else raw
  }

  // ----- a text, independent of its chunks -----

  function Read(s: State, c: char, max: nat): State {
    if s.failure.Some? then s
    else if c == '\n' then Consume(s, Chomp(s.buffer), max).(buffer := "")
    else s.(buffer := s.buffer + [c])
  }

  function Scan(s: State, text: string, max: nat): State {
    if text == "" then s else Read(Scan(s, text[..|text| - 1], max), text[|text| - 1], max)
  }

  /** The end of the stream completes the last line and dispatches what is pending. */
  function Finish(s: State, max: nat): State {
    Consume(Consume(s, Chomp(s.buffer), max), "", max)
  }

  /** The reference: the whole text at once. */
  function Parse(text: string, max: nat): State {
    Finish(Scan(START, text, max), max)
  }

  // ----- chunks -----

  /** After every chunk the unfinished line is measured. */
  function Fed(s: State, chunk: string, max: nat): State {
    var t := Scan(s, chunk, max);
    if t.failure.None? && |t.buffer| > max then t.(failure := Some(LineTooLong)) else t
  }

  function FedAll(s: State, chunks: seq<string>, max: nat): State {
    if chunks == [] then s else Fed(FedAll(s, chunks[..|chunks| - 1], max), chunks[|chunks| - 1], max)
  }

  function ParseChunks(chunks: seq<string>, max: nat): State {
    Finish(FedAll(START, chunks, max), max)
  }

  function Positive(n: int): int {
    if n < 0 then 0 else n
  }

  class Parser {
    const max: nat
    var buffer: string
    var bufferBytes: int
    var dataLines: seq<string>
    var eventType: Option<string>
    var eventId: Option<string>
    var eventBytes: nat
    var out: seq<SseMessage>
    var failure: Option<Failure>

    function Current(): State
      reads this
    {
      State(Pending(dataLines, eventType, eventId, eventBytes), buffer, out, failure)
    }

    predicate Valid()
      reads this
    {
      bufferBytes == |buffer| && '\n' !in buffer
    }

    constructor (max: nat)
      ensures this.max == max && Valid() && Current() == START
    {
      this.max := max;
      buffer, bufferBytes, dataLines, eventType, eventId, eventBytes := "", 0, [], None, None, 0;
      out, failure := [], None;
    }

    method ConsumeLine(line: string)
      requires failure.None?
      modifies this
      ensures Current() == Consume(old(Current()), line, max)
      ensures buffer == old(buffer) && bufferBytes == old(bufferBytes)
    {
      if line == "" {
        if dataLines != [] { out := out + [SseMessage(Join(dataLines), eventType, eventId)]; }
        dataLines, eventType, eventId, eventBytes := [], None, None, 0;
        return;
      }
      if line[0] == ':' { return; }
      if eventBytes + |line| + 1 > max {
        failure := Some(EventTooLong);
        return;
      }
      eventBytes := eventBytes + |line| + 1;
      var separator := Index(line, ':');
      var field := line[..separator];
      var value := if separator == |line| then "" else line[separator + 1..];
      if value != "" && value[0] == ' ' { value := value[1..]; }
      if field == "data" {
        dataLines := dataLines + [value];
      } else if field == "event" {
        eventType := Some(value);
      } else if field == "id" && '\0' !in value {
        eventId := Some(value);
      }
    }

    /** What the parser will have become once it has read its own buffer. */
    function Ahead(): State
      reads this
    {
      Scan(Current().(buffer := ""), buffer, max)
    }

    method TakeLine(newline: nat)
      requires failure.None? && bufferBytes == |buffer|
      requires newline < |buffer| && buffer[newline] == '\n' && '\n' !in buffer[..newline]
      modifies this
      ensures failure.None? ==> bufferBytes == |buffer| < old(|buffer|) && Ahead() == old(Ahead())
      ensures failure.Some? ==> Current().(buffer := "") == old(Ahead())
    {
      var raw := buffer[..newline];
      assert buffer == raw + ['\n'] + buffer[newline + 1..];
      FirstLine(Current().(buffer := ""), raw, buffer[newline + 1..], max);
      ConsumeIgnoresBuffer(Current(), "", Chomp(raw), max);
      ConsumeIgnoresBuffer(Current(), buffer[newline + 1..], Chomp(raw), max);
      buffer := buffer[newline + 1..];
      bufferBytes := Positive(bufferBytes - |raw| - 1);
      ConsumeLine(Chomp(raw));
      if failure.Some? { FailureStays(Current().(buffer := ""), buffer, max); }
    }

    method Feed(chunk: string)
      requires Valid() && failure.None?
      modifies this
      ensures Current() == Fed(old(Current()), chunk, max)
      ensures failure.None? ==> Valid()
    {
      Unread(Current(), chunk, max);
      ghost var read := Scan(Current(), chunk, max);
      buffer := buffer + chunk;
      bufferBytes := bufferBytes + |chunk|;
      while true
        invariant failure.None? && bufferBytes == |buffer| && Ahead() == read
        decreases |buffer|
      {
        var newline := Index(buffer, '\n');
        if newline == |buffer| { break; }
        TakeLine(newline);
        if failure.Some? {
          buffer := "";
          return;
        }
      }
      NoLine(Current().(buffer := ""), buffer, max);
      if bufferBytes > max { failure := Some(LineTooLong); }
    }

    method End()
      requires Valid() && failure.None?
      modifies this
      ensures Current() == Finish(old(Current()), max)
    {
      var line := Chomp(buffer);
      ConsumeLine(line);
      if failure.None? { ConsumeLine(""); }
    }
  }

  // ----- scanning -----

  lemma {:induction false} ScanAppend(s: State, a: string, b: string, max: nat)
    ensures Scan(s, a + b, max) == Scan(Scan(s, a, max), b, max)
  {
    if b == "" {
      assert a + b == a;
    } else {
      ScanAppend(s, a, b[..|b| - 1], max);
      assert (a + b)[..|a + b| - 1] == a + b[..|b| - 1];
    }
  }

  lemma {:induction false} NoLine(s: State, text: string, max: nat)
    requires '\n' !in text && s.failure.None?
    ensures Scan(s, text, max) == s.(buffer := s.buffer + text)
  {
    if text == "" {
      assert s.buffer + text == s.buffer;
    } else {
      NoLine(s, text[..|text| - 1], max);
      assert s.buffer + text == s.buffer + text[..|text| - 1] + [text[|text| - 1]];
    }
  }

  lemma {:induction false} FailureStays(s: State, text: string, max: nat)
    requires s.failure.Some?
    ensures Scan(s, text, max) == s
  {
    if text != "" { FailureStays(s, text[..|text| - 1], max); }
  }

  lemma Unread(s: State, chunk: string, max: nat)
    requires '\n' !in s.buffer && s.failure.None?
    ensures Scan(s.(buffer := ""), s.buffer + chunk, max) == Scan(s, chunk, max)
  {
    NoLine(s.(buffer := ""), s.buffer, max);
    ScanAppend(s.(buffer := ""), s.buffer, chunk, max);
    assert "" + s.buffer == s.buffer;
  }

  lemma ConsumeIgnoresBuffer(s: State, buffer: string, line: string, max: nat)
    ensures Consume(s.(buffer := buffer), line, max) == Consume(s, line, max).(buffer := buffer)
  {
  }

  lemma OneLine(s: State, raw: string, max: nat)
    requires s.failure.None? && s.buffer == "" && '\n' !in raw
    ensures Scan(s, raw + ['\n'], max) == Consume(s, Chomp(raw), max)
  {
    NoLine(s, raw, max);
    assert s.buffer + raw == raw;
    assert (raw + ['\n'])[..|raw|] == raw;
    ConsumeIgnoresBuffer(s, raw, Chomp(raw), max);
    ConsumeKeepsBuffer(s, Chomp(raw), max);
  }

  lemma ConsumeKeepsBuffer(s: State, line: string, max: nat)
    ensures Consume(s, line, max).buffer == s.buffer
  {
  }

  lemma FirstLine(s: State, raw: string, rest: string, max: nat)
    requires s.failure.None? && s.buffer == "" && '\n' !in raw
    ensures Scan(s, raw + ['\n'] + rest, max) == Scan(Consume(s, Chomp(raw), max), rest, max)
  {
    OneLine(s, raw, max);
    ScanAppend(s, raw + ['\n'], rest, max);
  }

  // ----- chunking does not matter -----

  /** The unfinished line at the end of a text. */
  function Tail(text: string): string {
    if text == "" || text[|text| - 1] == '\n' then "" else Tail(text[..|text| - 1]) + [text[|text| - 1]]
  }

  /** No line, finished or not, is longer than the limit. */
  ghost predicate ShortLines(text: string, max: nat) {
    forall n {:trigger text[..n]} :: 0 <= n <= |text| ==> |Tail(text[..n])| <= max
  }

  lemma {:induction false} ScanBuffersTail(s: State, text: string, max: nat)
    requires s.buffer == "" && Scan(s, text, max).failure.None?
    ensures Scan(s, text, max).buffer == Tail(text)
  {
    if text != "" {
      ScanBuffersTail(s, text[..|text| - 1], max);
    }
  }

  /** Wherever the text is cut before its first oversized event, the unfinished line is within the limit. */
  ghost predicate CutsAnywhere(text: string, max: nat) {
    forall n {:trigger text[..n]} :: 0 <= n <= |text| && Scan(START, text[..n], max).failure.None? ==>
          |Tail(text[..n])| <= max
  }

  /** Feeding chunks is scanning their concatenation, unless a chunk ends in a line that is already too long. */
  lemma {:induction false} FeedingIsScanning(chunks: seq<string>, max: nat)
    requires CutsAnywhere(Concat(chunks), max)
    ensures FedAll(START, chunks, max) == Scan(START, Concat(chunks), max)
  {
    if chunks != [] {
      var init, chunk := chunks[..|chunks| - 1], chunks[|chunks| - 1];
      var text := Concat(chunks);
      assert text[..|Concat(init)|] == Concat(init);
      forall n | 0 <= n <= |Concat(init)| && Scan(START, Concat(init)[..n], max).failure.None?
        ensures |Tail(Concat(init)[..n])| <= max
      {
        assert Concat(init)[..n] == text[..n];
      }
      FeedingIsScanning(init, max);
      ScanAppend(START, Concat(init), chunk, max);
      if Scan(START, text, max).failure.None? {
        ScanBuffersTail(START, text, max);
        assert text[..|text|] == text;
      }
    }
  }

  /** Chunk independence: when no line exceeds the limit, only the concatenated text matters. */
  lemma ChunkingDoesNotMatter(chunks: seq<string>, max: nat)
    requires ShortLines(Concat(chunks), max)
    ensures ParseChunks(chunks, max) == Parse(Concat(chunks), max)
  {
    FeedingIsScanning(chunks, max);
  }

  lemma {:induction false} ScanNeverMeasuresLines(s: State, text: string, max: nat)
    requires s.failure != Some(LineTooLong)
    ensures Scan(s, text, max).failure != Some(LineTooLong)
  {
    if text != "" { ScanNeverMeasuresLines(s, text[..|text| - 1], max); }
  }

  lemma ParseNeverMeasuresLines(text: string, max: nat)
    ensures Parse(text, max).failure != Some(LineTooLong)
  {
    ScanNeverMeasuresLines(START, text, max);
  }

  lemma LongTailFails(text: string, max: nat)
    requires Scan(START, text, max).failure.None? && |Tail(text)| > max
    ensures Fed(START, text, max).failure == Some(LineTooLong)
  {
    ScanBuffersTail(START, text, max);
  }

  lemma FailureIsFinal(s: State, chunk: string, max: nat)
    requires s.failure.Some?
    ensures Finish(Fed(s, chunk, max), max) == s
  {
    FailureStays(s, chunk, max);
  }

  lemma CutInLongLineFails(first: string, second: string, max: nat)
    requires Scan(START, first, max).failure.None? && |Tail(first)| > max
    ensures Concat([first, second]) == first + second
    ensures ParseChunks([first, second], max) != Parse(first + second, max)
  {
    TwoChunks(first, second, max);
    LongTailFails(first, max);
    FailureIsFinal(Fed(START, first, max), second, max);
    ParseNeverMeasuresLines(first + second, max);
  }

  lemma TwoChunks(first: string, second: string, max: nat)
    ensures Concat([first, second]) == first + second
    ensures FedAll(START, [first, second], max) == Fed(Fed(START, first, max), second, max)
  {
    var none: seq<string> := [];
    assert [first, second][..1] == [first] && [first][..0] == none;
    assert Concat([first]) == "" + first == first;
    assert FedAll(START, [first], max) == Fed(FedAll(START, none, max), first, max);
  }

  lemma UncutTextParses(text: string, max: nat)
    requires CutsAnywhere(text, max)
    ensures forall chunks :: Concat(chunks) == text ==> ParseChunks(chunks, max) == Parse(text, max)
  {
    forall chunks | Concat(chunks) == text ensures ParseChunks(chunks, max) == Parse(text, max) {
      FeedingIsScanning(chunks, max);
    }
  }

  lemma SomeCutFails(text: string, max: nat)
    requires !CutsAnywhere(text, max)
    ensures exists chunks :: Concat(chunks) == text && ParseChunks(chunks, max) != Parse(text, max)
  {
    var n :| 0 <= n <= |text| && Scan(START, text[..n], max).failure.None? && |Tail(text[..n])| > max;
    CutInLongLineFails(text[..n], text[n..], max);
    assert text[..n] + text[n..] == text;
  }

  /** Exactly when chunking cannot matter: comments, which the event limit ignores, are what makes the difference. */
  lemma ChunkingCannotMatterIff(text: string, max: nat)
    ensures CutsAnywhere(text, max) <==> forall chunks :: Concat(chunks) == text ==>
              ParseChunks(chunks, max) == Parse(text, max)
  {
    if CutsAnywhere(text, max) { UncutTextParses(text, max); } else { SomeCutFails(text, max); }
  }

  /**
    The limit is needed: a keepalive comment longer than it passes in one chunk, and fails the stream
    when the chunk ends inside it.
  */
  lemma LongCommentDependsOnChunks()
    ensures Concat([":ab\n"]) == Concat([":ab", "\n"])
    ensures ParseChunks([":ab\n"], 2).failure.None?
    ensures ParseChunks([":ab", "\n"], 2).failure == Some(LineTooLong)
  {
    var comment, line := ":ab", ":ab\n";
    var one, two := [line], [comment, "\n"];
    assert one[..0] == [] && two[..1] == [comment] && two[..1][..0] == [];
    assert comment + "\n" == line && "" + comment == comment && "" + line == line;
    assert Concat(two[..1]) == comment;
    NoLine(START, comment, 2);
    assert '\n' !in comment;
    OneLine(START, comment, 2);
    assert comment + ['\n'] == line;
    assert FedAll(START, two[..1], 2).failure == Some(LineTooLong);
    FailureStays(FedAll(START, two[..1], 2), "\n", 2);
  }

  // ----- parsing undoes printing -----

  /** What a server prints: an event with its fields, or a comment, perhaps followed by a blank line. */
  datatype Printed = Event(id: string, event: string, data: seq<string>) | Comment(text: string, blank: bool)

  function FieldLine(name: string, value: string): string {
    name + [':', ' '] + value
  }

  function DataLines(data: seq<string>): seq<string> {
    if data == [] then [] else DataLines(data[..|data| - 1]) + [FieldLine("data", data[|data| - 1])]
  }

  function LinesOf(p: Printed): seq<string> {
    match p
    case Event(id, event, data) => [FieldLine("id", id), FieldLine("event", event)] + DataLines(data) + [""]
    case Comment(text, blank) => [[':'] + text] + (if blank then [""] else [])
  }

  function Printout(items: seq<Printed>): seq<string> {
    if items == [] then [] else Printout(items[..|items| - 1]) + LinesOf(items[|items| - 1])
  }

  function MessagesOf(items: seq<Printed>): seq<SseMessage> {
    if items == [] then []
    else
      var last := items[|items| - 1];
      MessagesOf(items[..|items| - 1])
      + (if last.Event? then [SseMessage(Join(last.data), Some(last.event), Some(last.id))] else [])
  }

  function DataSize(data: seq<string>): nat {
    if data == [] then 0 else DataSize(data[..|data| - 1]) + |data[|data| - 1]| + 7
  }

  /** The bytes the parser counts against the limit. */
  function Size(p: Printed): nat {
    if p.Event? then |p.id| + 5 + |p.event| + 8 + DataSize(p.data) else 0
  }

  /** An event has data, fits the limit, and its identifier contains no NUL, which the parser would ignore. */
  predicate Printable(p: Printed, max: nat) {
    p.Event? ==> p.data != [] && '\0' !in p.id && Size(p) <= max
  }

  predicate Plain(s: string) {
    '\n' !in s && '\r' !in s
  }

  function Ending(crlf: bool): string {
    if crlf then ['\r', '\n'] else ['\n']
  }

  /** Every line ends in LF or CRLF, as it pleases. */
  function Text(lines: seq<string>, crlf: seq<bool>): string
    requires |crlf| == |lines|
  {
    if lines == [] then ""
    else Text(lines[..|lines| - 1], crlf[..|lines| - 1]) + (lines[|lines| - 1] + Ending(crlf[|lines| - 1]))
  }

  function ConsumeAll(s: State, lines: seq<string>, max: nat): State {
    if lines == [] then s else Consume(ConsumeAll(s, lines[..|lines| - 1], max), lines[|lines| - 1], max)
  }

  lemma ScanLine(s: State, line: string, crlf: bool, max: nat)
    requires s.buffer == "" && Plain(line)
    ensures Scan(s, line + Ending(crlf), max) == Consume(s, line, max)
    ensures Consume(s, line, max).buffer == ""
  {
    ConsumeKeepsBuffer(s, line, max);
    if s.failure.Some? {
      FailureStays(s, line + Ending(crlf), max);
    } else {
      var raw := if crlf then line + ['\r'] else line;
      assert Chomp(raw) == line;
      assert line + Ending(crlf) == raw + ['\n'];
      OneLine(s, raw, max);
    }
  }

  lemma {:induction false} ScanText(s: State, lines: seq<string>, crlf: seq<bool>, max: nat)
    requires |crlf| == |lines| && s.buffer == "" && forall i :: 0 <= i < |lines| ==> Plain(lines[i])
    ensures Scan(s, Text(lines, crlf), max) == ConsumeAll(s, lines, max)
    ensures ConsumeAll(s, lines, max).buffer == ""
  {
    if lines != [] {
      var n := |lines| - 1;
      ScanText(s, lines[..n], crlf[..n], max);
      ScanAppend(s, Text(lines[..n], crlf[..n]), lines[n] + Ending(crlf[n]), max);
      ScanLine(ConsumeAll(s, lines[..n], max), lines[n], crlf[n], max);
    }
  }

  lemma {:induction false} ConsumeAppend(s: State, a: seq<string>, b: seq<string>, max: nat)
    ensures ConsumeAll(s, a + b, max) == ConsumeAll(ConsumeAll(s, a, max), b, max)
  {
    if b == [] {
      assert a + b == a;
    } else {
      ConsumeAppend(s, a, b[..|b| - 1], max);
      assert (a + b)[..|a + b| - 1] == a + b[..|b| - 1];
    }
  }

  lemma {:induction false} IndexIs(s: string, c: char, i: nat)
    requires i < |s| && s[i] == c && c !in s[..i]
    ensures Index(s, c) == i
  {
    if i > 0 {
      assert s[0] == s[..i][0] && s[1..][..i - 1] == s[..i][1..];
      IndexIs(s[1..], c, i - 1);
    }
  }

  lemma FieldLineReadsBack(name: string, value: string)
    requires ':' !in name
    ensures NameOf(FieldLine(name, value)) == name && ValueOf(FieldLine(name, value)) == value
  {
    var line := FieldLine(name, value);
    assert line[..|name|] == name;
    IndexIs(line, ':', |name|);
    assert line[|name| + 1..] == [' '] + value;
  }

  lemma ConsumeField(s: State, name: string, value: string, max: nat)
    requires s.failure.None? && ':' !in name && name != "" && s.pending.bytes + |name| + |value| + 3 <= max
    ensures Consume(s, FieldLine(name, value), max)
            == s.(pending := Field(s.pending.(bytes := s.pending.bytes + |name| + |value| + 3), name, value))
  {
    var line := FieldLine(name, value);
    FieldLineReadsBack(name, value);
    assert line[0] == name[0];
  }

  lemma ConsumeDataLine(s: State, value: string, max: nat)
    requires s.failure.None? && s.pending.bytes + |value| + 7 <= max
    ensures Consume(s, FieldLine("data", value), max)
            == s.(pending := s.pending.(data := s.pending.data + [value], bytes := s.pending.bytes + |value| + 7))
  {
    ConsumeField(s, "data", value, max);
  }

  lemma {:induction false} ConsumeData(s: State, data: seq<string>, max: nat)
    requires s.failure.None? && s.pending.bytes + DataSize(data) <= max
    ensures ConsumeAll(s, DataLines(data), max)
            == s.(pending := s.pending.(data := s.pending.data + data, bytes := s.pending.bytes + DataSize(data)))
  {
    if data == [] {
      assert s.pending.data + data == s.pending.data;
    } else {
      var n := |data| - 1;
      ConsumeData(s, data[..n], max);
      ConsumeDataLine(ConsumeAll(s, DataLines(data[..n]), max), data[n], max);
      OneMoreLine(s, DataLines(data[..n]), FieldLine("data", data[n]), max);
      SplitLast(s.pending.data, data);
    }
  }

  lemma OneMoreLine(s: State, lines: seq<string>, line: string, max: nat)
    ensures ConsumeAll(s, lines + [line], max) == Consume(ConsumeAll(s, lines, max), line, max)
  {
    assert (lines + [line])[..|lines|] == lines;
  }

  /** A printed item leaves nothing pending behind it. */
  lemma ConsumeItem(s: State, p: Printed, max: nat)
    requires s.failure.None? && s.pending == NOTHING && Printable(p, max)
    ensures ConsumeAll(s, LinesOf(p), max) == s.(out := s.out + MessagesOf([p]))
  {
    match p
    case Comment(text, blank) =>
      var comment := [':'] + text;
      OneMoreLine(s, [], comment, max);
      assert [] + [comment] == [comment];
      if blank { OneMoreLine(s, [comment], "", max); }
      assert LinesOf(p) == [comment] + (if blank then [""] else []);
      assert s.out + MessagesOf([p]) == s.out;
    case Event(id, event, data) => ConsumeEvent(s, id, event, data, max);
  }

  lemma ConsumeIdLine(s: State, id: string, max: nat)
    requires s.failure.None? && '\0' !in id && s.pending.bytes + |id| + 5 <= max
    ensures Consume(s, FieldLine("id", id), max)
            == s.(pending := s.pending.(id := Some(id), bytes := s.pending.bytes + |id| + 5))
  {
    ConsumeField(s, "id", id, max);
  }

  lemma ConsumeEventLine(s: State, event: string, max: nat)
    requires s.failure.None? && s.pending.bytes + |event| + 8 <= max
    ensures Consume(s, FieldLine("event", event), max)
            == s.(pending := s.pending.(event := Some(event), bytes := s.pending.bytes + |event| + 8))
  {
    ConsumeField(s, "event", event, max);
  }

  lemma TwoLines(s: State, first: string, second: string, max: nat)
    ensures ConsumeAll(s, [first, second], max) == Consume(Consume(s, first, max), second, max)
  {
    OneMoreLine(s, [], first, max);
    OneMoreLine(s, [first], second, max);
    assert [] + [first] == [first] && [first] + [second] == [first, second];
  }

  lemma ConsumeHead(s: State, id: string, event: string, max: nat)
    requires s.failure.None? && s.pending == NOTHING && '\0' !in id && |id| + 5 + |event| + 8 <= max
    ensures ConsumeAll(s, [FieldLine("id", id), FieldLine("event", event)], max)
            == s.(pending := Pending([], Some(event), Some(id), |id| + 5 + |event| + 8))
  {
    ConsumeIdLine(s, id, max);
    ConsumeEventLine(Consume(s, FieldLine("id", id), max), event, max);
    TwoLines(s, FieldLine("id", id), FieldLine("event", event), max);
  }

  lemma ConsumeEvent(s: State, id: string, event: string, data: seq<string>, max: nat)
    requires s.failure.None? && s.pending == NOTHING && Printable(Event(id, event, data), max)
    ensures ConsumeAll(s, LinesOf(Event(id, event, data)), max)
            == s.(out := s.out + MessagesOf([Event(id, event, data)]))
  {
    var head, body := [FieldLine("id", id), FieldLine("event", event)], DataLines(data);
    ConsumeHead(s, id, event, max);
    ConsumeData(ConsumeAll(s, head, max), data, max);
    ConsumeAppend(s, head, body, max);
    OneMoreLine(s, head + body, "", max);
    ConsumeBlank(s, ConsumeAll(s, head + body, max), id, event, data, max);
    OneMessage(Event(id, event, data));
  }

  lemma ConsumeBlank(s: State, t: State, id: string, event: string, data: seq<string>, max: nat)
    requires s.failure.None? && s.pending == NOTHING && data != []
    requires t == s.(pending := t.pending) && t.pending.event == Some(event) && t.pending.id == Some(id)
             && t.pending.data == [] + data
    ensures Consume(t, "", max) == s.(out := s.out + [SseMessage(Join(data), Some(event), Some(id))])
  {
    assert [] + data == data;
  }

  lemma {:induction false} ConsumePrintout(s: State, items: seq<Printed>, max: nat)
    requires s.failure.None? && s.pending == NOTHING
    requires forall i :: 0 <= i < |items| ==> Printable(items[i], max)
    ensures ConsumeAll(s, Printout(items), max) == s.(out := s.out + MessagesOf(items))
  {
    if items == [] {
      assert s.out + MessagesOf(items) == s.out;
    } else {
      var n := |items| - 1;
      ConsumePrintout(s, items[..n], max);
      ConsumeAppend(s, Printout(items[..n]), LinesOf(items[n]), max);
      var t := s.(out := s.out + MessagesOf(items[..n]));
      ConsumeItem(t, items[n], max);
      OneMoreItem(items);
      Regroup(s.out, MessagesOf(items[..n]), MessagesOf([items[n]]));
    }
  }

  lemma OneMoreItem(items: seq<Printed>)
    requires items != []
    ensures Printout(items) == Printout(items[..|items| - 1]) + LinesOf(items[|items| - 1])
    ensures MessagesOf(items) == MessagesOf(items[..|items| - 1]) + MessagesOf([items[|items| - 1]])
  {
    OneMessage(items[|items| - 1]);
  }

  lemma OneMessage(p: Printed)
    ensures MessagesOf([p]) == if p.Event? then [SseMessage(Join(p.data), Some(p.event), Some(p.id))] else []
  {
    assert [p][..0] == [];
  }

  // ----- no line of a printout is too long -----

  lemma {:induction false} TailAppend(a: string, b: string)
    ensures Tail(a + b) == if '\n' in b then Tail(b) else Tail(a) + b
  {
    if b == "" {
      assert a + b == a && Tail(a) + b == Tail(a);
    } else {
      var n := |b| - 1;
      TailAppend(a, b[..n]);
      assert (a + b)[..|a + b| - 1] == a + b[..n];
      assert b == b[..n] + [b[n]];
      if '\n' !in b { assert Tail(a) + b[..n] + [b[n]] == Tail(a) + b; }
    }
  }

  predicate Fits(lines: seq<string>, crlf: seq<bool>, max: nat)
    requires |crlf| == |lines|
  {
    forall i :: 0 <= i < |lines| ==> Plain(lines[i]) && |lines[i]| + (if crlf[i] then 1 else 0) <= max
  }

  lemma {:induction false} PlainTail(text: string)
    requires '\n' !in text
    ensures Tail(text) == text
  {
    if text != "" { PlainTail(text[..|text| - 1]); }
  }

  lemma TailOfLine(line: string, crlf: bool, n: nat)
    requires Plain(line) && n <= |line + Ending(crlf)|
    ensures |Tail((line + Ending(crlf))[..n])| <= |line| + (if crlf then 1 else 0)
    ensures n == |line + Ending(crlf)| ==> Tail((line + Ending(crlf))[..n]) == ""
  {
    var text := (line + Ending(crlf))[..n];
    if n < |line + Ending(crlf)| {
      assert '\n' !in text;
      PlainTail(text);
    }
  }

  lemma {:induction false} TextIsShort(lines: seq<string>, crlf: seq<bool>, max: nat)
    requires |crlf| == |lines| && Fits(lines, crlf, max)
    ensures ShortLines(Text(lines, crlf), max) && Tail(Text(lines, crlf)) == ""
  {
    var text := Text(lines, crlf);
    if lines != [] {
      var k := |lines| - 1;
      var init, line := Text(lines[..k], crlf[..k]), lines[k] + Ending(crlf[k]);
      TextIsShort(lines[..k], crlf[..k], max);
      assert text == init + line;
      MoreTextIsShort(init, lines[k], crlf[k], max);
    }
  }

  lemma MoreTextIsShort(init: string, line: string, crlf: bool, max: nat)
    requires ShortLines(init, max) && Tail(init) == "" && Plain(line) && |line| + (if crlf then 1 else 0) <= max
    ensures ShortLines(init + (line + Ending(crlf)), max) && Tail(init + (line + Ending(crlf))) == ""
  {
    var raw := line + Ending(crlf);
    var text := init + raw;
    forall n | 0 <= n <= |text| ensures |Tail(text[..n])| <= max {
      if n <= |init| {
        assert text[..n] == init[..n];
      } else {
        assert text[..n] == init + raw[..n - |init|];
        FreshTail(init, raw[..n - |init|]);
        TailOfLine(line, crlf, n - |init|);
      }
    }
    FreshTail(init, raw);
    TailOfLine(line, crlf, |raw|);
    assert raw[..|raw|] == raw;
  }

  lemma FreshTail(a: string, b: string)
    requires Tail(a) == ""
    ensures Tail(a + b) == Tail(b)
  {
    TailAppend(a, b);
    if '\n' !in b {
      PlainTail(b);
      assert "" + b == b;
    }
  }

  /**
    Parsing undoes printing. However the events and comments of a server are mixed, whichever lines end
    in LF or CRLF and wherever the text is cut into chunks, the parser returns exactly the printed
    events, in order.
  */
  lemma ParsingUndoesPrinting(items: seq<Printed>, crlf: seq<bool>, chunks: seq<string>, max: nat)
    requires forall i :: 0 <= i < |items| ==> Printable(items[i], max)
    requires |crlf| == |Printout(items)| && Fits(Printout(items), crlf, max)
    requires Concat(chunks) == Text(Printout(items), crlf)
    ensures ParseChunks(chunks, max) == State(NOTHING, "", MessagesOf(items), None)
  {
    TextIsShort(Printout(items), crlf, max);
    ChunkingDoesNotMatter(chunks, max);
    ScanText(START, Printout(items), crlf, max);
    ConsumePrintout(START, items, max);
    assert [] + MessagesOf(items) == MessagesOf(items);
    assert MessagesOf(items) + [] == MessagesOf(items);
  }

  lemma {:induction false} ScanGrows(s: State, text: string, max: nat)
    ensures s.out <= Scan(s, text, max).out
  {
    if text != "" { ScanGrows(s, text[..|text| - 1], max); }
  }

  /** A printout of events that fit is read without a failure to exactly their messages. */
  lemma PrintoutScans(items: seq<Printed>, crlf: seq<bool>, max: nat)
    requires forall i :: 0 <= i < |items| ==> Printable(items[i], max)
    requires |crlf| == |Printout(items)| && Fits(Printout(items), crlf, max)
    ensures Scan(START, Text(Printout(items), crlf), max) == START.(out := MessagesOf(items))
  {
    ScanText(START, Printout(items), crlf, max);
    ConsumePrintout(START, items, max);
    assert [] + MessagesOf(items) == MessagesOf(items);
  }

  /** A prefix of a text has no longer lines, and fails no earlier. */
  lemma CutIsShort(text: string, n: nat, max: nat)
    requires n <= |text| && ShortLines(text, max)
    ensures ShortLines(text[..n], max)
  {
    forall k | 0 <= k <= n ensures |Tail(text[..n][..k])| <= max { assert text[..n][..k] == text[..k]; }
  }

  lemma CutScans(text: string, n: nat, max: nat)
    requires n <= |text| && Scan(START, text, max).failure.None?
    ensures Scan(START, text[..n], max).failure.None? && Scan(START, text[..n], max).out <= Scan(START, text, max).out
  {
    var here := Scan(START, text[..n], max);
    assert text == text[..n] + text[n..];
    ScanAppend(START, text[..n], text[n..], max);
    ScanGrows(here, text[n..], max);
    if here.failure.Some? { FailureStays(here, text[n..], max); }
  }

  /**
    A connection that breaks after any number of bytes, in whatever chunks these came, has delivered a
    prefix of the printed events; nothing of the event it broke off in, and no failure.
  */
  lemma BrokenStreamYieldsAPrefix(items: seq<Printed>, crlf: seq<bool>, chunks: seq<string>, n: nat, max: nat)
    requires forall i :: 0 <= i < |items| ==> Printable(items[i], max)
    requires |crlf| == |Printout(items)| && Fits(Printout(items), crlf, max)
    requires n <= |Text(Printout(items), crlf)| && Concat(chunks) == Text(Printout(items), crlf)[..n]
    ensures var read := FedAll(START, chunks, max); read.failure.None? && read.out <= MessagesOf(items)
  {
    var text := Text(Printout(items), crlf);
    TextIsShort(Printout(items), crlf, max);
    CutIsShort(text, n, max);
    FeedingIsScanning(chunks, max);
    PrintoutScans(items, crlf, max);
    CutScans(text, n, max);
  }

  /** Beyond the standard: an event the stream broke off before its blank line is dispatched all the same. */
  lemma UnfinishedEventIsDispatched(items: seq<Printed>, cut: seq<string>, crlf: seq<bool>, max: nat)
    requires forall i :: 0 <= i < |items| ==> Printable(items[i], max)
    requires Printout(items) == cut + [""]
    requires |crlf| == |cut| && Fits(cut, crlf, max)
    ensures Parse(Text(cut, crlf), max).out == MessagesOf(items)
  {
    ParsedLines(cut, crlf, max);
    CutPrintout(items, cut, max);
  }

  lemma ParsedLines(lines: seq<string>, crlf: seq<bool>, max: nat)
    requires |crlf| == |lines| && Fits(lines, crlf, max)
    ensures Parse(Text(lines, crlf), max).out == Consume(ConsumeAll(START, lines, max), "", max).out
  {
    ScanText(START, lines, crlf, max);
    FinishIsBlankLine(ConsumeAll(START, lines, max), max);
  }

  lemma CutPrintout(items: seq<Printed>, cut: seq<string>, max: nat)
    requires forall i :: 0 <= i < |items| ==> Printable(items[i], max)
    requires cut + [""] == Printout(items)
    ensures Consume(ConsumeAll(START, cut, max), "", max).out == MessagesOf(items)
  {
    ConsumePrintout(START, items, max);
    OneMoreLine(START, cut, "", max);
    assert [] + MessagesOf(items) == MessagesOf(items);
  }

  lemma FinishIsBlankLine(t: State, max: nat)
    requires t.buffer == ""
    ensures Finish(t, max).out == Consume(t, "", max).out
  {
    var r := Consume(t, "", max);
    assert r.out + [] == r.out;
  }
}
