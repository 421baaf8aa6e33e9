/** From a persisted entry to the bytes of the stream and back: `event_to_sse`, then `parseSse` and `parseEvent`. */
module Wire {
  import opened Prelude
  import opened Protocol
  import S = Sse

  const MAX_SAFE_INTEGER := 0x1F_FFFF_FFFF_FFFF

  function Digit(n: nat): char
    requires n < 10
  {
    '0' + n as char
  }

  function Decimal(n: nat): string {
    if n < 10 then [Digit(n)] else Decimal(n / 10) + [Digit(n % 10)]
  }

  function TypeOf(body: EventBody): string {
    match body
    case Created => "submission.created"
    case AttemptCreated => "attempt.created"
    case AttemptStateChanged(_, _) => "attempt.state_changed"
    case StateChanged(_, _, _) => "submission.state_changed"
    case QueueBlocked(_) => "queue.blocked"
    case CancellationRequested => "cancellation.requested"
    case SchedulingChanged(_) => "submission.scheduling_changed"
    case AgentReport(kind, _) => kind
  }

  /** `json` stands for the serialiser of the envelope. */
  function EventToSse(e: Event, json: Event -> string): S.Printed {
    S.Printed.Event(Decimal(e.sequence), TypeOf(e.body), [json(e)])
  }

  datatype WireError = InvalidJson | InvalidEnvelope | IdMismatch | TypeMismatch

  /** `decode` stands for the JSON parser. */
  function ParseEvent(m: S.SseMessage, id: SubmissionId, decode: string -> Option<Event>): Result<Event, WireError> {
    match decode(m.data)
    case None => Err(InvalidJson)
    case Some(e) =>
      if e.submission != id || e.sequence == 0 || e.sequence > MAX_SAFE_INTEGER then Err(InvalidEnvelope)
      else if m.id != Some(Decimal(e.sequence)) then Err(IdMismatch)
      else if m.event != Some(TypeOf(e.body)) then Err(TypeMismatch)
      else Ok(e)
  }

  /** What the serialiser owes: one line of text that decodes to the entry again, and fits the limit. */
  ghost predicate Serialised(e: Event, json: Event -> string, decode: string -> Option<Event>, max: nat) {
    && S.Plain(json(e)) && decode(json(e)) == Some(e)
    && S.Plain(TypeOf(e.body))
    && S.Size(EventToSse(e, json)) <= max
    && 0 < e.sequence <= MAX_SAFE_INTEGER
  }

  /** The printed stream holds these entries, with comments anywhere between them. */
  predicate Carries(items: seq<S.Printed>, events: seq<Event>, json: Event -> string) {
    if items == [] then events == []
    else if items[|items| - 1].Comment? then Carries(items[..|items| - 1], events, json)
    else events != [] && items[|items| - 1] == EventToSse(events[|events| - 1], json)
         && Carries(items[..|items| - 1], events[..|events| - 1], json)
  }

  predicate ShortComments(items: seq<S.Printed>, max: nat) {
    forall i :: 0 <= i < |items| && items[i].Comment? ==> S.Plain(items[i].text) && |items[i].text| + 2 <= max
  }

  /** The number some decimal digits stand for. */
  function Value(digits: string): int {
    if digits == "" then 0 else 10 * Value(digits[..|digits| - 1]) + (digits[|digits| - 1] as int - '0' as int)
  }

  /** A printed number consists of digits, has no leading zero, and reads back as itself. */
  predicate Reads(digits: string, n: nat) {
    && digits != "" && (forall i :: 0 <= i < |digits| ==> '0' <= digits[i] <= '9')
    && Value(digits) == n
    && (digits[0] == '0' ==> digits == "0")
  }

  lemma {:induction false} DecimalReads(n: nat)
    ensures Reads(Decimal(n), n)
  {
    if n < 10 {
      assert Decimal(n)[..0] == "";
    } else {
      DecimalReads(n / 10);
      assert Decimal(n)[..|Decimal(n)| - 1] == Decimal(n / 10);
    }
  }

  /** So different entries of a stream carry different identifiers. */
  lemma DecimalIsInjective(m: nat, n: nat)
    requires Decimal(m) == Decimal(n)
    ensures m == n
  {
    DecimalReads(m);
    DecimalReads(n);
  }

  /** The type under which an entry is published. */
  predicate Published(body: EventBody, name: string) {
    match body
    case Created => name == "submission.created"
    case AttemptCreated => name == "attempt.created"
    case AttemptStateChanged(_, _) => name == "attempt.state_changed"
    case StateChanged(_, _, _) => name == "submission.state_changed"
    case QueueBlocked(_) => name == "queue.blocked"
    case CancellationRequested => name == "cancellation.requested"
    case SchedulingChanged(_) => name == "submission.scheduling_changed"
    case AgentReport(kind, _) => name == kind
  }

  /** The message is the frame of the entry: its number, its type and its text. */
  ghost predicate Frames(m: S.SseMessage, e: Event, json: Event -> string) {
    && m.id.Some? && Reads(m.id.value, e.sequence)
    && m.event.Some? && Published(e.body, m.event.value)
    && m.data == json(e)
  }

  lemma FrameMessageFrames(e: Event, json: Event -> string)
    ensures Frames(FrameMessage(e, json), e, json)
  {
    DecimalReads(e.sequence);
  }

  /** What `parseEvent` accepts, and the order of its checks. */
  lemma ParseEventChecks(m: S.SseMessage, id: SubmissionId, decode: string -> Option<Event>)
    ensures var r := ParseEvent(m, id, decode);
      if decode(m.data).None? then r == Err(InvalidJson)
      else
        var e := decode(m.data).value;
        if e.submission != id || e.sequence == 0 || e.sequence > 9_007_199_254_740_991 then r == Err(InvalidEnvelope)
        else if m.id.None? || !Reads(m.id.value, e.sequence) then r == Err(IdMismatch)
        else if m.event.None? || !Published(e.body, m.event.value) then r == Err(TypeMismatch)
        else r == Ok(e)
  {
    if decode(m.data).Some? {
      var e := decode(m.data).value;
      DecimalReads(e.sequence);
      if m.id.Some? && Reads(m.id.value, e.sequence) { SameDigits(m.id.value, Decimal(e.sequence), e.sequence); }
    }
  }

  /** Digits without a leading zero are determined by their number. */
  lemma {:induction false} SameDigits(x: string, y: string, n: nat)
    requires Reads(x, n) && Reads(y, n)
    ensures x == y
  {
    LeadingDigits(x, n);
    LeadingDigits(y, n);
    if n >= 10 {
      SameDigits(x[..|x| - 1], y[..|y| - 1], n / 10);
      assert x == x[..|x| - 1] + [x[|x| - 1]] && y == y[..|y| - 1] + [y[|y| - 1]];
    }
  }

  lemma {:induction false} LeadingDigits(x: string, n: nat)
    requires Reads(x, n)
    ensures n < 10 ==> |x| == 1 && x[0] as int == '0' as int + n
    ensures n >= 10 ==> |x| > 1 && Reads(x[..|x| - 1], n / 10) && x[|x| - 1] as int == '0' as int + n % 10
  {
    var front := x[..|x| - 1];
    assert n == 10 * Value(front) + (x[|x| - 1] as int - '0' as int);
    if front != "" {
      assert front[0] == x[0];
      ValueIsPositive(front);
    }
  }

  lemma {:induction false} ValueIsPositive(x: string)
    requires x != "" && x[0] != '0' && forall i :: 0 <= i < |x| ==> '0' <= x[i] <= '9'
    ensures Value(x) > 0
  {
    if |x| > 1 { ValueIsPositive(x[..|x| - 1]); } else { assert x[..0] == ""; }
  }

  lemma {:induction false} DecimalIsPlain(n: nat)
    ensures forall i :: 0 <= i < |Decimal(n)| ==> '0' <= Decimal(n)[i] <= '9'
  {
    if n >= 10 { DecimalIsPlain(n / 10); }
  }

  lemma PlainField(name: string, value: string)
    requires S.Plain(name) && S.Plain(value)
    ensures S.Plain(S.FieldLine(name, value))
  {
  }

  predicate LinesFit(lines: seq<string>, max: nat) {
    forall i :: 0 <= i < |lines| ==> S.Plain(lines[i]) && |lines[i]| < max
  }

  lemma FrameFits(e: Event, json: Event -> string, decode: string -> Option<Event>, max: nat)
    requires Serialised(e, json, decode, max)
    ensures S.Printable(EventToSse(e, json), max) && LinesFit(S.LinesOf(EventToSse(e, json)), max)
  {
    DecimalIsPlain(e.sequence);
    PlainField("id", Decimal(e.sequence));
    PlainField("event", TypeOf(e.body));
    PlainField("data", json(e));
    assert [json(e)][..0] == [];
    assert S.DataLines([json(e)]) == [S.FieldLine("data", json(e))];
    assert S.DataSize([json(e)]) == |json(e)| + 7;
  }

  ghost predicate AllSerialised(events: seq<Event>, json: Event -> string, decode: string -> Option<Event>, max: nat) {
    forall i {:trigger events[i]} :: 0 <= i < |events| ==> Serialised(events[i], json, decode, max)
  }

  predicate AllPrintable(items: seq<S.Printed>, max: nat) {
    forall i {:trigger items[i]} :: 0 <= i < |items| ==> S.Printable(items[i], max)
  }

  lemma {:induction false} StreamFits(items: seq<S.Printed>, events: seq<Event>, json: Event -> string,
                                      decode: string -> Option<Event>, max: nat)
    requires Carries(items, events, json) && ShortComments(items, max) && AllSerialised(events, json, decode, max)
    ensures AllPrintable(items, max) && LinesFit(S.Printout(items), max)
  {
    if items != [] {
      var n := |items| - 1;
      if items[n].Comment? {
        StreamFits(items[..n], events, json, decode, max);
        CommentFits(items[n], max);
      } else {
        StreamFits(items[..n], events[..|events| - 1], json, decode, max);
        FrameFits(events[|events| - 1], json, decode, max);
      }
      MoreFits(S.Printout(items[..n]), S.LinesOf(items[n]), max);
    }
  }

  lemma CommentFits(p: S.Printed, max: nat)
    requires p.Comment? && S.Plain(p.text) && |p.text| + 2 <= max
    ensures LinesFit(S.LinesOf(p), max)
  {
  }

  lemma MoreFits(a: seq<string>, b: seq<string>, max: nat)
    requires LinesFit(a, max) && LinesFit(b, max)
    ensures LinesFit(a + b, max)
  {
  }

  function FrameMessage(e: Event, json: Event -> string): S.SseMessage {
    S.SseMessage(json(e), Some(TypeOf(e.body)), Some(Decimal(e.sequence)))
  }

  lemma {:induction false} FramesReadBack(items: seq<S.Printed>, events: seq<Event>, json: Event -> string)
    requires Carries(items, events, json)
    ensures S.MessagesOf(items) == seq(|events|, i requires 0 <= i < |events| => FrameMessage(events[i], json))
  {
    if items != [] {
      var n := |items| - 1;
      if items[n].Comment? {
        FramesReadBack(items[..n], events, json);
      } else {
        FramesReadBack(items[..n], events[..|events| - 1], json);
      }
    }
  }

  lemma FrameDecodes(e: Event, json: Event -> string, decode: string -> Option<Event>, max: nat)
    requires Serialised(e, json, decode, max)
    ensures ParseEvent(FrameMessage(e, json), e.submission, decode) == Ok(e)
  {
  }

  /**
    The client receives exactly the entries the server yielded: for any keepalive comments, line endings
    and chunk boundaries, every message the parser returns passes every check of `parseEvent` and
    decodes to the entry that was printed, in order.
  */
  lemma ClientReceivesWhatWasYielded(events: seq<Event>, id: SubmissionId, items: seq<S.Printed>, crlf: seq<bool>,
                                     chunks: seq<string>, max: nat, json: Event -> string,
                                     decode: string -> Option<Event>)
    requires AllSerialised(events, json, decode, max) && forall i :: 0 <= i < |events| ==> events[i].submission == id
    requires Carries(items, events, json) && ShortComments(items, max) && max > 0
    requires |crlf| == |S.Printout(items)| && Concat(chunks) == S.Text(S.Printout(items), crlf)
    ensures var parsed := S.ParseChunks(chunks, max);
      && parsed.failure.None?
      && |parsed.out| == |events|
      && forall i :: 0 <= i < |events| ==>
           ParseEvent(parsed.out[i], id, decode) == Ok(events[i]) && Frames(parsed.out[i], events[i], json)
  {
    StreamParses(events, items, crlf, chunks, max, json, decode);
    FramesDecode(S.ParseChunks(chunks, max).out, events, id, max, json, decode);
  }

  /**
    A connection that breaks after any number of bytes: what the client has parsed by then is a prefix of
    what the server printed, and decodes to the entries themselves.
  */
  lemma BrokenConnectionDeliversAPrefix(events: seq<Event>, id: SubmissionId, items: seq<S.Printed>, crlf: seq<bool>,
                                        chunks: seq<string>, n: nat, max: nat, json: Event -> string,
                                        decode: string -> Option<Event>)
    requires AllSerialised(events, json, decode, max) && forall i :: 0 <= i < |events| ==> events[i].submission == id
    requires Carries(items, events, json) && ShortComments(items, max) && max > 0
    requires |crlf| == |S.Printout(items)| && n <= |S.Text(S.Printout(items), crlf)|
    requires Concat(chunks) == S.Text(S.Printout(items), crlf)[..n]
    ensures var read := S.FedAll(S.START, chunks, max);
      && read.failure.None?
      && |read.out| <= |events|
      && forall i :: 0 <= i < |read.out| ==>
           ParseEvent(read.out[i], id, decode) == Ok(events[i]) && Frames(read.out[i], events[i], json)
  {
    StreamFits(items, events, json, decode, max);
    LinesFitText(S.Printout(items), crlf, max);
    S.BrokenStreamYieldsAPrefix(items, crlf, chunks, n, max);
    FramesReadBack(items, events, json);
    FramesDecode(S.MessagesOf(items), events, id, max, json, decode);
  }

  lemma FramesDecode(out: seq<S.SseMessage>, events: seq<Event>, id: SubmissionId, max: nat,
                     json: Event -> string, decode: string -> Option<Event>)
    requires AllSerialised(events, json, decode, max) && forall i :: 0 <= i < |events| ==> events[i].submission == id
    requires out == seq(|events|, i requires 0 <= i < |events| => FrameMessage(events[i], json))
    ensures forall i :: 0 <= i < |events| ==>
              ParseEvent(out[i], id, decode) == Ok(events[i]) && Frames(out[i], events[i], json)
  {
    forall i | 0 <= i < |events|
      ensures ParseEvent(out[i], id, decode) == Ok(events[i]) && Frames(out[i], events[i], json)
    {
      FrameDecodes(events[i], json, decode, max);
      FrameMessageFrames(events[i], json);
    }
  }

  lemma StreamParses(events: seq<Event>, items: seq<S.Printed>, crlf: seq<bool>, chunks: seq<string>, max: nat,
                     json: Event -> string, decode: string -> Option<Event>)
    requires AllSerialised(events, json, decode, max)
    requires Carries(items, events, json) && ShortComments(items, max) && max > 0
    requires |crlf| == |S.Printout(items)| && Concat(chunks) == S.Text(S.Printout(items), crlf)
    ensures var parsed := S.ParseChunks(chunks, max);
      && parsed.failure.None?
      && parsed.out == seq(|events|, i requires 0 <= i < |events| => FrameMessage(events[i], json))
  {
    StreamFits(items, events, json, decode, max);
    LinesFitText(S.Printout(items), crlf, max);
    S.ParsingUndoesPrinting(items, crlf, chunks, max);
    FramesReadBack(items, events, json);
  }

  lemma LinesFitText(lines: seq<string>, crlf: seq<bool>, max: nat)
    requires |crlf| == |lines| && LinesFit(lines, max)
    ensures S.Fits(lines, crlf, max)
  {
  }
}
