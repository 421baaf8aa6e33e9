/**
  The runtime side of an attempt: one prompt driven to one completion, and the process around it.

  What the runtime observes is a script: the list of `select!` branches that became ready, in order.
  `Driven` says what a script leads to; `DrivePrompt` is the loop.
*/
module Runtime {
  import opened Prelude
  import opened Output

  datatype Note = Started(version: Option<string>) | Delta(text: string) | Activity(kind: string)

  datatype Report =
    | Progress(note: Note)
    | Completed(output: string)
    | Cancelled
    | Failed(code: string)
    | Uncertain(code: string)
  {
    predicate Terminal() {
      !Progress?
    }
  }

  /**
    One value from the agent: the answer to the prompt, or a message to handle on the way. A message is
    looked at three times, for a session update, for a permission request, whose automatic reply may
    fail to be delivered, and for a question.
  */
  datatype Value =
    | Response(failed: bool, stop: string)
    | Message(note: Option<Note>, permission: Option<bool>, question: bool)

  /**
    A wait for the answer of the agent: the values it read, whether its deadline struck while the report
    of the last of them waited for room in the event channel, and the values it did not get to read,
    because they came after the deadline or were lost with the stream.
  */
  datatype Wait = Wait(values: seq<Value>, unsent: bool, late: seq<Value>)

  datatype Signal =
    | CancelChanged(requested: bool, delivered: bool, wait: Wait)
    | RunDeadline(delivered: bool, wait: Wait)
    | IdleDeadline(delivered: bool, wait: Wait)
    | Arrived(value: Value)
    | StreamLost
    | PostFailed
    | PostEmpty
    | PostAnswered(value: Value, wait: Wait)

  datatype Drive = Drive(events: seq<Report>, completion: Option<Report>)

  const INTERACTION := Failed("interaction_required")
  const TIMED_OUT := Failed("timeout")
  const PROVIDER := Failed("provider_error")
  const CANCEL_UNCONFIRMED := Uncertain("cancellation_unconfirmed")
  const TIMEOUT_UNCONFIRMED := Uncertain("timeout_unconfirmed")
  const STREAM_LOST := Uncertain("runtime_stream_lost")

  predicate Success(v: Value) {
    v.Response? && !v.failed && (v.stop == "end_turn" || v.stop == "completed" || v.stop == "stop")
  }

  function CompletionFromResponse(v: Value, output: string): Report
    requires v.Response?
  {
    if Success(v) then Completed(output) else PROVIDER
  }

  // ----- handling messages on the way -----

  predicate Speaks(v: Value) {
    v.Message? && v.note.Some? && v.note.value.Delta?
  }

  function OutputAfter(v: Value, output: string, cap: nat): string {
    if Speaks(v) then Kept(output, v.note.value.text, cap) else output
  }

  function EventsOf(v: Value, output: string, cap: nat): seq<Report> {
    if Speaks(v) then
      var kept := OutputAfter(v, output, cap)[|output|..];
      if kept == "" then [] else [Progress(Delta(kept))]
    else if v.Message? && v.note.Some? then [Progress(v.note.value)]
    else []
  }

  /** The reply to a permission request fails; it is not even sent after a delta of which nothing was kept. */
  predicate Breaks(v: Value, output: string, cap: nat) {
    v.Message? && v.permission == Some(false) && !(Speaks(v) && EventsOf(v, output, cap) == [])
  }

  datatype Await = Await(output: string, events: seq<Report>, response: Option<Value>)

  /**
    The values a wait reads, until one is the response or cannot be handled. The text of a message is
    kept before its report is sent, so a report that finds no room in time is lost and its text is not.
  */
  function Awaited(values: seq<Value>, unsent: bool, output: string, cap: nat): (r: Await)
    ensures r.response.Some? ==> r.response.value.Response?
  {
    if values == [] then Await(output, [], None)
    else if values[0].Response? then Await(output, [], Some(values[0]))
    else
      var now, events := OutputAfter(values[0], output, cap), EventsOf(values[0], output, cap);
      if unsent && |values| == 1 then Await(now, [], None)
      else if Breaks(values[0], output, cap) then Await(now, events, None)
      else
        var r := Awaited(values[1..], unsent, now, cap);
        r.(events := events + r.events)
  }

  /** The agent answered the prompt in time, and everything before its answer could be handled. */
  predicate Confirmed(values: seq<Value>, output: string, cap: nat) {
    && values != []
    && (values[0].Response?
        || (!Breaks(values[0], output, cap) && Confirmed(values[1..], OutputAfter(values[0], output, cap), cap)))
  }

  // ----- the loop -----

  /** `posted` once the prompt request itself has returned without a body. `None` is the error path. */
  function Driven(signals: seq<Signal>, output: string, posted: bool, cap: nat): Drive {
    if signals == [] then Drive([], None)
    else
      var rest := signals[1..];
      match signals[0]
      case CancelChanged(requested, delivered, wait) =>
        if requested then Stopping(delivered, wait, output, cap, Cancelled, CANCEL_UNCONFIRMED)
        else Driven(rest, output, posted, cap)
      case RunDeadline(delivered, wait) => Stopping(delivered, wait, output, cap, TIMED_OUT, TIMEOUT_UNCONFIRMED)
      case IdleDeadline(delivered, wait) => Stopping(delivered, wait, output, cap, TIMED_OUT, TIMEOUT_UNCONFIRMED)
      case Arrived(v) =>
        if v.Response? then Drive([], Some(CompletionFromResponse(v, output)))
        else if Breaks(v, output, cap) then Drive(EventsOf(v, output, cap), None)
        else if v.question then Drive(EventsOf(v, output, cap), Some(INTERACTION))
        else
          var d := Driven(rest, OutputAfter(v, output, cap), posted, cap);
          d.(events := EventsOf(v, output, cap) + d.events)
      case StreamLost => Drive([], Some(STREAM_LOST))
      case PostFailed => if posted then Driven(rest, output, posted, cap) else Drive([], None)
      case PostEmpty => Driven(rest, output, true, cap)
      case PostAnswered(v, wait) =>
        if posted then Driven(rest, output, posted, cap)
        else if !v.Response? then Drive([], None)
        else
          var r := Awaited(wait.values, wait.unsent, output, cap);
          Drive(r.events, Some(CompletionFromResponse(if r.response.Some? then r.response.value else v, r.output)))
  }

  /** Asks the agent to stop and waits for its answer. */
  function Stopping(delivered: bool, wait: Wait, output: string, cap: nat, confirmed: Report,
                    otherwise: Report): Drive {
    if !delivered then Drive([], Some(otherwise))
    else
      var r := Awaited(wait.values, wait.unsent, output, cap);
      Drive(r.events, Some(if r.response.Some? then confirmed else otherwise))
  }

  /** Without `room` for its report in the event channel the caller's deadline strikes before it is sent. */
  method HandleInbound(v: Value, capture: Capture, room: bool) returns (events: seq<Report>, ok: bool)
    requires !v.Response?
    modifies capture
    ensures var due := EventsOf(v, old(capture.output), capture.cap);
      && events == (if room then due else [])
      && (ok <==> !Breaks(v, old(capture.output), capture.cap) && (room || due == []))
    ensures capture.output == OutputAfter(v, old(capture.output), capture.cap)
  {
    events := [];
    if v.note.Some? {
      var note := v.note.value;
      if note.Delta? {
        var kept := capture.Inbound(note.text);
        if kept.None? { return [], true; }
        note := Delta(kept.value);
      }
      if !room { return [], false; }
      events := [Progress(note)];
    }
    return events, v.permission != Some(false);
  }

  method WaitForPromptResponse(wait: Wait, capture: Capture) returns (events: seq<Report>, response: Option<Value>)
    modifies capture
    ensures var r := Awaited(wait.values, wait.unsent, old(capture.output), capture.cap);
            capture.output == r.output && events == r.events && response == r.response
    ensures response.Some? ==> response.value.Response?
  {
    var values := wait.values;
    ghost var whole := Awaited(values, wait.unsent, capture.output, capture.cap);
    events := [];
    for i := 0 to |values|
      invariant var r := Awaited(values[i..], wait.unsent, capture.output, capture.cap);
                whole == r.(events := events + r.events)
    {
      if values[i].Response? {
        assert events + [] == events;
        return events, Some(values[i]);
      }
      assert values[i..][1..] == values[i + 1..];
      var room := !wait.unsent || i < |values| - 1;
      var more, ok := HandleInbound(values[i], capture, room);
      if !ok { return events + more, None; }
      Regroup(events, more, Awaited(values[i + 1..], wait.unsent, capture.output, capture.cap).events);
      events := events + more;
    }
    assert events + [] == events;
    return events, None;
  }

  method Stop(delivered: bool, wait: Wait, capture: Capture, confirmed: Report, otherwise: Report)
    returns (events: seq<Report>, completion: Report)
    modifies capture
    ensures Drive(events, Some(completion))
            == Stopping(delivered, wait, old(capture.output), capture.cap, confirmed, otherwise)
  {
    if !delivered { return [], otherwise; }
    var seen, response := WaitForPromptResponse(wait, capture);
    return seen, if response.Some? then confirmed else otherwise;
  }

  method DrivePrompt(signals: seq<Signal>, cap: nat) returns (events: seq<Report>, completion: Option<Report>)
    ensures Drive(events, completion) == Driven(signals, "", false, cap)
  {
    var capture := new Capture(cap);
    var posted := false;
    events := [];
    ghost var whole := Driven(signals, "", false, cap);
    for i := 0 to |signals|
      invariant fresh(capture) && capture.cap == cap
      invariant var d := Driven(signals[i..], capture.output, posted, cap); whole == d.(events := events + d.events)
    {
      assert signals[i..][1..] == signals[i + 1..];
      match signals[i]
      case CancelChanged(requested, delivered, wait) =>
        if requested {
          var seen, verdict := Stop(delivered, wait, capture, Cancelled, CANCEL_UNCONFIRMED);
          return events + seen, Some(verdict);
        }
      case RunDeadline(delivered, wait) =>
        var seen, verdict := Stop(delivered, wait, capture, TIMED_OUT, TIMEOUT_UNCONFIRMED);
        return events + seen, Some(verdict);
      case IdleDeadline(delivered, wait) =>
        var seen, verdict := Stop(delivered, wait, capture, TIMED_OUT, TIMEOUT_UNCONFIRMED);
        return events + seen, Some(verdict);
      case Arrived(v) =>
        if v.Response? { return events + [], Some(CompletionFromResponse(v, capture.output)); }
        var more, ok := HandleInbound(v, capture, true);
        if !ok { return events + more, None; }
        if v.question { return events + more, Some(INTERACTION); }
        Regroup(events, more, Driven(signals[i + 1..], capture.output, posted, cap).events);
        events := events + more;
      case StreamLost =>
        return events + [], Some(STREAM_LOST);
      case PostFailed =>
        if !posted { return events + [], None; }
      case PostEmpty =>
        posted := true;
      case PostAnswered(v, wait) =>
        if !posted {
          if !v.Response? { return events + [], None; }
          var seen, response := WaitForPromptResponse(wait, capture);
          return events + seen,
              Some(CompletionFromResponse(if response.Some? then response.value else v, capture.output));
        }
    }
    return events + [], None;
  }

  // ----- what a completion means -----

  function TextOf(v: Value): seq<string> {
    if Speaks(v) then [v.note.value.text] else []
  }

  /** Everything the agent said before its answer. */
  function Said(values: seq<Value>): seq<string> {
    if values == [] || values[0].Response? then [] else TextOf(values[0]) + Said(values[1..])
  }

  /** The part of it that was handled: up to the answer or to the message whose handling failed. */
  function Heard(values: seq<Value>, output: string, cap: nat): seq<string> {
    if values == [] || values[0].Response? then []
    else TextOf(values[0])
         + (if Breaks(values[0], output, cap) then [] else Heard(values[1..], OutputAfter(values[0], output, cap), cap))
  }

  /** The part that was not: what came after that message, and, without an answer in time, what came late. */
  function Missed(values: seq<Value>, late: seq<Value>, output: string, cap: nat): seq<string> {
    if values == [] then Said(late)
    else if values[0].Response? then []
    else if Breaks(values[0], output, cap) then Said(values[1..] + late)
    else Missed(values[1..], late, OutputAfter(values[0], output, cap), cap)
  }

  lemma {:induction false} SaidIsHeardOrMissed(values: seq<Value>, late: seq<Value>, output: string, cap: nat)
    ensures Said(values + late) == Heard(values, output, cap) + Missed(values, late, output, cap)
    ensures Confirmed(values, output, cap) ==> Missed(values, late, output, cap) == []
  {
    if values == [] {
      assert values + late == late;
    } else {
      Unshift(values, late);
      if !values[0].Response? {
        var now := OutputAfter(values[0], output, cap);
        if Breaks(values[0], output, cap) {
          assert TextOf(values[0]) + [] == TextOf(values[0]);
        } else {
          SaidIsHeardOrMissed(values[1..], late, now, cap);
          Regroup(TextOf(values[0]), Heard(values[1..], now, cap), Missed(values[1..], late, now, cap));
        }
      }
    }
  }

  /** Every value that was read while the prompt was driven and its answer awaited. */
  function Received(signals: seq<Signal>, posted: bool): seq<Value> {
    if signals == [] then []
    else match signals[0]
      case Arrived(v) => [v] + Received(signals[1..], posted)
      case PostEmpty => Received(signals[1..], true)
      case PostAnswered(_, wait) => if posted then Received(signals[1..], posted) else wait.values
      case _ => Received(signals[1..], posted)
  }

  /** What the wait for the streamed answer did not get to read. */
  function Late(signals: seq<Signal>, posted: bool): seq<Value> {
    if signals == [] then []
    else match signals[0]
      case PostEmpty => Late(signals[1..], true)
      case PostAnswered(_, wait) => if posted then Late(signals[1..], posted) else wait.late
      case _ => Late(signals[1..], posted)
  }

  /** The wait for the streamed answer ended with the report of its last value unsent. */
  predicate Stuck(signals: seq<Signal>, posted: bool) {
    && signals != []
    && match signals[0]
       case PostEmpty => Stuck(signals[1..], true)
       case PostAnswered(_, wait) => if posted then Stuck(signals[1..], posted) else wait.unsent && wait.values != []
       case _ => Stuck(signals[1..], posted)
  }

  lemma {:induction false} StuckHasRead(signals: seq<Signal>, posted: bool)
    requires Stuck(signals, posted)
    ensures Received(signals, posted) != []
    decreases |signals|
  {
    match signals[0]
    case PostAnswered(_, _) => if posted { StuckHasRead(signals[1..], posted); }
    case _ => StuckHasRead(signals[1..], posted || signals[0].PostEmpty?);
  }

  lemma DrivenOn(signals: seq<Signal>, v: Value, output: string, posted: bool, cap: nat)
    requires signals != [] && signals[0] == Arrived(v) && !v.Response?
    requires var c := Driven(signals, output, posted, cap).completion; c.Some? && c.value.Completed?
    ensures !Breaks(v, output, cap) && !v.question
    ensures var now := OutputAfter(v, output, cap);
            var d := Driven(signals[1..], now, posted, cap);
            Driven(signals, output, posted, cap) == d.(events := EventsOf(v, output, cap) + d.events)
  {
  }

  lemma ReadOn(signals: seq<Signal>, v: Value, output: string, posted: bool, cap: nat)
    requires signals != [] && signals[0] == Arrived(v) && !v.Response? && !Breaks(v, output, cap)
    ensures var rest, now := signals[1..], OutputAfter(v, output, cap);
            var r := Awaited(Received(rest, posted), Stuck(rest, posted), now, cap);
            Awaited(Received(signals, posted), Stuck(signals, posted), output, cap)
            == r.(events := EventsOf(v, output, cap) + r.events)
  {
    assert ([v] + Received(signals[1..], posted))[1..] == Received(signals[1..], posted);
    if Stuck(signals[1..], posted) { StuckHasRead(signals[1..], posted); }
  }

  /** A completed prompt is one long wait: its output and its reports are those of everything that was read. */
  lemma {:induction false} CompletionIsOneWait(signals: seq<Signal>, output: string, posted: bool, cap: nat,
                                               result: string)
    requires Driven(signals, output, posted, cap).completion == Some(Completed(result))
    ensures var r := Awaited(Received(signals, posted), Stuck(signals, posted), output, cap);
            r.output == result && r.events == Driven(signals, output, posted, cap).events
    decreases |signals|
  {
    var rest := signals[1..];
    match signals[0]
    case Arrived(v) =>
      if !v.Response? {
        DrivenOn(signals, v, output, posted, cap);
        CompletionIsOneWait(rest, OutputAfter(v, output, cap), posted, cap, result);
        ReadOn(signals, v, output, posted, cap);
      }
    case PostAnswered(_, _) => if posted { CompletionIsOneWait(rest, output, posted, cap, result); }
    case PostEmpty => CompletionIsOneWait(rest, output, true, cap, result);
    case CancelChanged(_, _, _) => CompletionIsOneWait(rest, output, posted, cap, result);
    case PostFailed => CompletionIsOneWait(rest, output, posted, cap, result);
  }

  lemma OneMoreCaptured(v: Value, said: seq<string>, cap: nat)
    ensures OutputAfter(v, Captured(said, cap), cap) == Captured(said + TextOf(v), cap)
  {
    if Speaks(v) {
      assert (said + [v.note.value.text])[..|said|] == said;
    } else {
      assert said + TextOf(v) == said;
    }
  }

  lemma {:induction false} AwaitCaptures(values: seq<Value>, unsent: bool, said: seq<string>, cap: nat)
    ensures var output := Captured(said, cap);
            Awaited(values, unsent, output, cap).output == Captured(said + Heard(values, output, cap), cap)
  {
    if values == [] || values[0].Response? {
      assert said + [] == said;
    } else {
      OneMoreCaptured(values[0], said, cap);
      var now := said + TextOf(values[0]);
      if Breaks(values[0], Captured(said, cap), cap) || |values| == 1 {
        assert TextOf(values[0]) + [] == TextOf(values[0]);
        assert now + [] == now;
      } else {
        AwaitCaptures(values[1..], unsent, now, cap);
        Regroup(said, TextOf(values[0]), Heard(values[1..], Captured(now, cap), cap));
      }
    }
  }

  /** The output of a completed prompt is what the capture kept of everything that was heard before the answer. */
  lemma CompletionCaptures(signals: seq<Signal>, cap: nat, output: string)
    requires Driven(signals, "", false, cap).completion == Some(Completed(output))
    ensures output == Captured(Heard(Received(signals, false), "", cap), cap)
  {
    var none: seq<string> := [];
    var values := Received(signals, false);
    CompletionIsOneWait(signals, "", false, cap, output);
    AwaitCaptures(values, Stuck(signals, false), none, cap);
    assert none + Heard(values, "", cap) == Heard(values, "", cap);
  }

  /** The answer that completed the prompt, if any. */
  predicate Answers(signal: Signal) {
    || (signal.Arrived? && Success(signal.value))
    || (signal.PostAnswered? && signal.value.Response?
        && (Success(signal.value) || exists k :: 0 <= k < |signal.wait.values| && Success(signal.wait.values[k])))
  }

  /** The agent was told to stop, and answered. */
  predicate Stopped(delivered: bool, values: seq<Value>) {
    delivered && exists k :: 0 <= k < |values| && values[k].Response?
  }

  predicate CancelConfirmed(signal: Signal) {
    signal.CancelChanged? && signal.requested && Stopped(signal.delivered, signal.wait.values)
  }

  predicate TimeoutConfirmed(signal: Signal) {
    (signal.RunDeadline? || signal.IdleDeadline?) && Stopped(signal.delivered, signal.wait.values)
  }

  lemma {:induction false} AwaitedResponse(values: seq<Value>, unsent: bool, output: string, cap: nat)
    ensures var r := Awaited(values, unsent, output, cap).response;
      && (r.Some? <==> Confirmed(values, output, cap))
      && (r.Some? ==> exists k :: 0 <= k < |values| && values[k] == r.value)
  {
    if values != [] && !values[0].Response? && !Breaks(values[0], output, cap) {
      AwaitedResponse(values[1..], unsent, OutputAfter(values[0], output, cap), cap);
      var r := Awaited(values[1..], unsent, OutputAfter(values[0], output, cap), cap).response;
      if r.Some? {
        var k :| 0 <= k < |values[1..]| && values[1..][k] == r.value;
        assert values[k + 1] == r.value;
      }
    }
  }

  /**
    Verdicts are conservative. A prompt is only completed on a successful answer of the agent; it is only
    cancelled, or failed by a timeout, when the agent was told to stop and confirmed by answering.
  */
  lemma {:induction false} VerdictsAreConservative(signals: seq<Signal>, output: string, posted: bool, cap: nat)
    ensures var c := Driven(signals, output, posted, cap).completion;
      && (c.Some? && c.value.Completed? ==> exists i :: 0 <= i < |signals| && Answers(signals[i]))
      && (c == Some(Cancelled) ==> exists i :: 0 <= i < |signals| && CancelConfirmed(signals[i]))
      && (c == Some(TIMED_OUT) ==> exists i :: 0 <= i < |signals| && TimeoutConfirmed(signals[i]))
      && (c.Some? ==> c.value.Terminal())
    decreases |signals|
  {
    if signals != [] {
      var head, rest := signals[0], signals[1..];
      assert forall i :: 0 <= i < |rest| ==> signals[i + 1] == rest[i];
      if head.PostAnswered? || head.CancelChanged? || head.RunDeadline? || head.IdleDeadline? {
        AwaitedResponse(head.wait.values, head.wait.unsent, output, cap);
      }
      var now := if head.Arrived? then OutputAfter(head.value, output, cap) else output;
      VerdictsAreConservative(rest, now, posted || head.PostEmpty?, cap);
    }
  }

  /** A cancellation that is seen first decides: cancelled if the agent confirms, uncertain if it does not. */
  lemma CancellationDecides(delivered: bool, wait: Wait, rest: seq<Signal>, output: string, posted: bool,
                            cap: nat)
    ensures Driven([CancelChanged(true, delivered, wait)] + rest, output, posted, cap)
            == Drive(if delivered then Awaited(wait.values, wait.unsent, output, cap).events else [],
                 Some(if delivered && Confirmed(wait.values, output, cap) then Cancelled
                      else Uncertain("cancellation_unconfirmed")))
  {
    AwaitedResponse(wait.values, wait.unsent, output, cap);
  }

  /** A deadline that is seen first decides likewise: failed if the agent confirms, uncertain if it does not. */
  lemma DeadlineDecides(signal: Signal, rest: seq<Signal>, output: string, posted: bool, cap: nat)
    requires signal.RunDeadline? || signal.IdleDeadline?
    ensures var wait := signal.wait;
            Driven([signal] + rest, output, posted, cap)
            == Drive(if signal.delivered then Awaited(wait.values, wait.unsent, output, cap).events else [],
                 Some(if signal.delivered && Confirmed(wait.values, output, cap) then Failed("timeout")
                      else Uncertain("timeout_unconfirmed")))
  {
    AwaitedResponse(signal.wait.values, signal.wait.unsent, output, cap);
  }

  /** A stream that is lost first leaves the fate of the prompt unknown. */
  lemma StreamLossDecides(rest: seq<Signal>, output: string, posted: bool, cap: nat)
    ensures Driven([StreamLost] + rest, output, posted, cap) == Drive([], Some(Uncertain("runtime_stream_lost")))
  {
  }

  /**
    The automatic reply to the permission request in a message fails. It is not even sent if the message
    is also a delta of which nothing fits.
  */
  predicate FailsToReply(v: Value, output: string, cap: nat) {
    && v.Message? && v.permission == Some(false)
    && !(v.note.Some? && v.note.value.Delta? && OutputAfter(v, output, cap) == output)
  }

  lemma BreaksMeans(v: Value, output: string, cap: nat)
    ensures Breaks(v, output, cap) <==> FailsToReply(v, output, cap)
  {
    if Speaks(v) { MessagesAreReported(v.note.value, v.permission, v.question, output, cap); }
  }

  /** A question seen first fails the prompt, unless the reply to a permission request in it fails. */
  lemma QuestionDecides(v: Value, rest: seq<Signal>, output: string, posted: bool, cap: nat)
    requires v.Message? && v.question && !FailsToReply(v, output, cap)
    ensures Driven([Arrived(v)] + rest, output, posted, cap)
            == Drive(EventsOf(v, output, cap), Some(Failed("interaction_required")))
  {
    BreaksMeans(v, output, cap);
  }

  /** What an answer of the agent makes of the prompt. */
  predicate Answered(v: Value, output: string, completion: Option<Report>) {
    v.Response?
    && if !v.failed && v.stop in ["end_turn", "completed", "stop"] then completion == Some(Completed(output))
       else completion == Some(Failed("provider_error"))
  }

  /** An answer on the stream decides by itself. */
  lemma AnswerDecides(v: Value, rest: seq<Signal>, output: string, posted: bool, cap: nat)
    requires v.Response?
    ensures Answered(v, output, Driven([Arrived(v)] + rest, output, posted, cap).completion)
  {
  }

  /** The answer of the request decides, unless the stream brings one in time. */
  lemma PostAnswerDecides(v: Value, wait: Wait, rest: seq<Signal>, output: string, cap: nat)
    requires v.Response?
    ensures var d := Driven([PostAnswered(v, wait)] + rest, output, false, cap);
            var r := Awaited(wait.values, wait.unsent, output, cap);
      && d.events == r.events
      && (r.response.None? ==> Answered(v, r.output, d.completion))
      && (r.response.Some? ==> Answered(r.response.value, r.output, d.completion))
  {
  }

  /** An error of the request, or of the reply to a permission request, ends the drive without a verdict. */
  lemma ErrorsDecide(signal: Signal, rest: seq<Signal>, output: string, cap: nat)
    requires signal.PostFailed? || (signal.PostAnswered? && signal.value.Message?)
             || (signal.Arrived? && FailsToReply(signal.value, output, cap))
    ensures Driven([signal] + rest, output, false, cap)
            == Drive(if signal.Arrived? then EventsOf(signal.value, output, cap) else [], None)
    ensures Driven([], output, false, cap) == Drive([], None)
  {
    if signal.Arrived? { BreaksMeans(signal.value, output, cap); }
  }

  /** Everything else only leads on: a withdrawn cancellation, the request itself, a message without a question. */
  lemma OthersLeadOn(signal: Signal, rest: seq<Signal>, output: string, posted: bool, cap: nat)
    requires || (signal.CancelChanged? && !signal.requested) || signal.PostEmpty?
             || (posted && (signal.PostFailed? || signal.PostAnswered?))
             || (signal.Arrived? && signal.value.Message? && !FailsToReply(signal.value, output, cap)
                 && !signal.value.question)
    ensures var now := if signal.Arrived? then OutputAfter(signal.value, output, cap) else output;
            var events := if signal.Arrived? then EventsOf(signal.value, output, cap) else [];
            var d := Driven(rest, now, posted || signal.PostEmpty?, cap);
            Driven([signal] + rest, output, posted, cap) == Drive(events + d.events, d.completion)
  {
    assert ([signal] + rest)[1..] == rest;
    if signal.Arrived? {
      BreaksMeans(signal.value, output, cap);
    } else {
      var d := Driven(rest, output, posted || signal.PostEmpty?, cap);
      assert [] + d.events == d.events;
    }
  }

  /** The agent answered, and not with a success. */
  predicate Unsuccessful(signal: Signal) {
    || (signal.Arrived? && signal.value.Response? && !Success(signal.value))
    || (signal.PostAnswered? && signal.value.Response?
        && (!Success(signal.value)
            || exists k :: 0 <= k < |signal.wait.values|
                 && signal.wait.values[k].Response? && !Success(signal.wait.values[k])))
  }

  predicate Asks(signal: Signal) {
    signal.Arrived? && signal.value.Message? && signal.value.question
  }

  /** What may have led to a failure or to an unknown fate. */
  ghost predicate HasCause(signals: seq<Signal>, verdict: Report) {
    match verdict
    case Failed(code) =>
      || (code == "provider_error" && exists i :: 0 <= i < |signals| && Unsuccessful(signals[i]))
      || (code == "interaction_required" && exists i :: 0 <= i < |signals| && Asks(signals[i]))
      || (code == "timeout" && exists i :: 0 <= i < |signals| && TimeoutConfirmed(signals[i]))
    case Uncertain(code) =>
      || (code == "runtime_stream_lost" && StreamLost in signals)
      || (code == "cancellation_unconfirmed"
          && exists i :: 0 <= i < |signals| && signals[i].CancelChanged? && signals[i].requested)
      || (code == "timeout_unconfirmed"
          && exists i :: 0 <= i < |signals| && (signals[i].RunDeadline? || signals[i].IdleDeadline?))
    case _ => true
  }

  /**
    A prompt only fails if the agent answered without success, asked a question, or confirmed that it was
    stopped by a deadline; and it only has an unknown fate after a lost stream, a cancellation or a deadline.
  */
  lemma {:induction false} FailuresHaveCauses(signals: seq<Signal>, output: string, posted: bool, cap: nat)
    ensures var c := Driven(signals, output, posted, cap).completion; c.Some? ==> HasCause(signals, c.value)
    decreases |signals|
  {
    if signals != [] {
      var head, rest := signals[0], signals[1..];
      var now := if head.Arrived? then OutputAfter(head.value, output, cap) else output;
      var d := Driven(rest, now, posted || head.PostEmpty?, cap).completion;
      FailuresHaveCauses(rest, now, posted || head.PostEmpty?, cap);
      if d.Some? { LaterCauses(head, rest, d.value); }
      assert [head] + rest == signals;
      if head.PostAnswered? || head.CancelChanged? || head.RunDeadline? || head.IdleDeadline? {
        AwaitedResponse(head.wait.values, head.wait.unsent, output, cap);
      }
      assert signals[0] == head;
    }
  }

  lemma LaterCauses(head: Signal, rest: seq<Signal>, verdict: Report)
    requires HasCause(rest, verdict)
    ensures HasCause([head] + rest, verdict)
  {
    assert forall i :: 0 <= i < |rest| ==> ([head] + rest)[i + 1] == rest[i];
  }

  /** When no reply fails, an answer among the awaited values is found, and only then. */
  lemma {:induction false} AnswersAreFound(values: seq<Value>, output: string, cap: nat)
    requires forall k :: 0 <= k < |values| && values[k].Message? ==> values[k].permission != Some(false)
    ensures Confirmed(values, output, cap) <==> exists k :: 0 <= k < |values| && values[k].Response?
  {
    if values != [] && values[0].Message? {
      AnswersAreFound(values[1..], OutputAfter(values[0], output, cap), cap);
      assert forall k :: 1 <= k < |values| ==> values[k] == values[1..][k - 1];
    }
  }

  /** A reply that fails before the answer ends the wait. */
  lemma AFailedReplyEndsTheWait(v: Value, rest: seq<Value>, unsent: bool, output: string, cap: nat)
    requires FailsToReply(v, output, cap)
    ensures !Confirmed([v] + rest, output, cap)
    ensures Awaited([v] + rest, unsent, output, cap)
            == Await(OutputAfter(v, output, cap), if unsent && rest == [] then [] else EventsOf(v, output, cap), None)
  {
    BreaksMeans(v, output, cap);
  }

  /** Any other message only leads on. */
  lemma TheWaitGoesOn(v: Value, rest: seq<Value>, unsent: bool, output: string, cap: nat)
    requires v.Message? && !FailsToReply(v, output, cap) && rest != []
    ensures var now := OutputAfter(v, output, cap); var r := Awaited(rest, unsent, now, cap);
      && Awaited([v] + rest, unsent, output, cap) == r.(events := EventsOf(v, output, cap) + r.events)
      && (Confirmed([v] + rest, output, cap) <==> Confirmed(rest, now, cap))
  {
    BreaksMeans(v, output, cap);
    assert ([v] + rest)[1..] == rest;
  }

  /** A message is reported as it is, but of a delta only what was kept, and nothing if nothing was. */
  lemma MessagesAreReported(note: Note, permission: Option<bool>, question: bool, output: string, cap: nat)
    ensures var v := Message(Some(note), permission, question);
            var after, events := OutputAfter(v, output, cap), EventsOf(v, output, cap);
      && (!note.Delta? ==> after == output && events == [Progress(note)])
      && (note.Delta? ==>
            && after == output + Cut(note.text, if Len(output) < cap then cap - Len(output) else 0)
            && events == if after == output then [] else [Progress(Delta(after[|output|..]))])
  {
  }

  // ----- the reported deltas -----

  /** The text of the message deltas among the reported events. */
  function Spoken(events: seq<Report>): string {
    if events == [] then ""
    else (if events[0].Progress? && events[0].note.Delta? then events[0].note.text else "") + Spoken(events[1..])
  }

  lemma {:induction false} SpokenAppend(a: seq<Report>, b: seq<Report>)
    ensures Spoken(a + b) == Spoken(a) + Spoken(b)
  {
    if a == [] {
      assert a + b == b;
      assert "" + Spoken(b) == Spoken(b);
    } else {
      Unshift(a, b);
      SpokenAppend(a[1..], b);
      Regroup(if a[0].Progress? && a[0].note.Delta? then a[0].note.text else "", Spoken(a[1..]), Spoken(b));
    }
  }

  lemma EventsSpeak(v: Value, output: string, cap: nat, more: seq<Report>)
    ensures OutputAfter(v, output, cap) + Spoken(more) == output + Spoken(EventsOf(v, output, cap) + more)
  {
    SpokenAppend(EventsOf(v, output, cap), more);
    var events := EventsOf(v, output, cap);
    assert events != [] ==> events[1..] == [];
    assert OutputAfter(v, output, cap) == output + Spoken(events);
    Regroup(output, Spoken(events), Spoken(more));
  }

  /** The report that found no room before the deadline of the wait. */
  function Unsent(values: seq<Value>, unsent: bool, output: string, cap: nat): seq<Report> {
    if !unsent || values == [] || values[0].Response? then []
    else if |values| == 1 then EventsOf(values[0], output, cap)
    else if Breaks(values[0], output, cap) then []
    else Unsent(values[1..], unsent, OutputAfter(values[0], output, cap), cap)
  }

  lemma {:induction false} AwaitSpeaks(values: seq<Value>, unsent: bool, output: string, cap: nat)
    ensures var r := Awaited(values, unsent, output, cap);
            r.output == output + Spoken(r.events + Unsent(values, unsent, output, cap))
  {
    if values == [] || values[0].Response? {
      assert output + "" == output;
    } else {
      var now, events := OutputAfter(values[0], output, cap), EventsOf(values[0], output, cap);
      if |values| == 1 || Breaks(values[0], output, cap) {
        EventsSpeak(values[0], output, cap, []);
        assert [] + events == events && events + [] == events && now + "" == now;
      } else {
        AwaitSpeaks(values[1..], unsent, now, cap);
        var r, lost := Awaited(values[1..], unsent, now, cap), Unsent(values[1..], unsent, now, cap);
        EventsSpeak(values[0], output, cap, r.events + lost);
        Regroup(events, r.events, lost);
      }
    }
  }

  /**
    The deltas reported on the way and the one that found no room add up to the output of the completion.
    So clients of the stream miss nothing that is kept, exactly unless a text was lost in that way.
  */
  lemma DeltasAddUpIff(signals: seq<Signal>, cap: nat, result: string)
    requires Driven(signals, "", false, cap).completion == Some(Completed(result))
    ensures var events := Driven(signals, "", false, cap).events;
            var lost := Unsent(Received(signals, false), Stuck(signals, false), "", cap);
      && result == Spoken(events) + Spoken(lost)
      && (result == Spoken(events) <==> Spoken(lost) == "")
  {
    var values, stuck := Received(signals, false), Stuck(signals, false);
    CompletionIsOneWait(signals, "", false, cap, result);
    AwaitSpeaks(values, stuck, "", cap);
    SpokenAppend(Driven(signals, "", false, cap).events, Unsent(values, stuck, "", cap));
  }

  /** Such a loss: the text is in the output, but no delta was reported. */
  lemma AKeptTextCanGoUnreported(cap: nat)
    requires cap > 0
    ensures var wait := Wait([Message(Some(Delta("x")), None, false)], true, []);
            Driven([PostAnswered(Response(false, "end_turn"), wait)], "", false, cap) == Drive([], Some(Completed("x")))
  {
    var v := Message(Some(Delta("x")), None, false);
    assert Cut("x", cap) == "x" && "" + "x" == "x";
    assert OutputAfter(v, "", cap) == "x";
    assert Awaited([v], true, "", cap) == Await("x", [], None);
  }

  // ----- the process around the prompt -----

  datatype Preparation = Prepared(version: Option<string>) | Unprepared(started: Option<Option<string>>, code: string)

  /** Everything a runtime emits, and whether `run` returned without an error. */
  datatype Emission = Emission(events: seq<Report>, ok: bool)

  function Inner(preparation: Preparation, signals: seq<Signal>, cap: nat): Emission {
    match preparation
    case Unprepared(started, code) =>
      Emission((if started.Some? then [Progress(Started(started.value))] else []) + [Failed(code)], true)
    case Prepared(version) =>
      var d := Driven(signals, "", false, cap);
      var ending := if d.completion.Some? then [d.completion.value] else [];
      Emission([Progress(Started(version))] + d.events + ending, d.completion.Some?)
  }

  /** The agent server may exit after any number of events, even after the completion; `code` classifies the error. */
  function Emitted(inner: Emission, exit: Option<nat>, code: string): Emission {
    if exit.Some? && exit.value <= |inner.events| then Emission(inner.events[..exit.value] + [Uncertain(code)], false)
    else if !inner.ok then Emission(inner.events + [Uncertain(code)], false)
    else inner
  }

  /** All of `run`: without a port, a server process and a client it fails before it can emit anything. */
  function Ran(launched: bool, preparation: Preparation, signals: seq<Signal>, cap: nat, exit: Option<nat>,
               code: string): Emission {
    if launched then Emitted(Inner(preparation, signals, cap), exit, code) else Emission([], false)
  }

  method Run(launched: bool, preparation: Preparation, signals: seq<Signal>, cap: nat, exit: Option<nat>, code: string)
    returns (e: Emission)
    ensures e == Ran(launched, preparation, signals, cap, exit, code)
  {
    if !launched { return Emission([], false); }
    var events: seq<Report>, ok := [], true;
    match preparation {
      case Unprepared(started, why) =>
        if started.Some? { events := [Progress(Started(started.value))]; }
        events := events + [Failed(why)];
      case Prepared(version) =>
        var seen, completion := DrivePrompt(signals, cap);
        events := [Progress(Started(version))] + seen;
        if completion.Some? { events := events + [completion.value]; }
        ok := completion.Some?;
        assert events == Inner(preparation, signals, cap).events;
    }
    if exit.Some? && exit.value <= |events| { return Emission(events[..exit.value] + [Uncertain(code)], false); }
    if !ok { return Emission(events + [Uncertain(code)], false); }
    return Emission(events, true);
  }

  /** What surrounds the prompt: the start of the runtime before it, its verdict or the error of it after it. */
  lemma RunsEnclosePrompts(version: Option<string>, signals: seq<Signal>, cap: nat, code: string)
    ensures var d := Driven(signals, "", false, cap);
            var e := Ran(true, Prepared(version), signals, cap, None, code);
      && e.ok == d.completion.Some?
      && e.events == [Progress(Started(version))] + d.events
          + [if d.completion.Some? then d.completion.value else Uncertain(code)]
  {
    var d := Driven(signals, "", false, cap);
    assert [Progress(Started(version))] + d.events + [] == [Progress(Started(version))] + d.events;
  }

  /** A failed preparation is reported as a failure, and a failed launch not at all. */
  lemma FailuresToStart(started: Option<Option<string>>, why: string, signals: seq<Signal>, cap: nat, code: string,
                        exit: Option<nat>, preparation: Preparation)
    ensures var e := Ran(true, Unprepared(started, why), signals, cap, None, code);
      e.ok && e.events == (if started.Some? then [Progress(Started(started.value))] else []) + [Failed(why)]
    ensures Ran(false, preparation, signals, cap, exit, code) == Emission([], false)
  {
  }

  /** An early exit of the agent server cuts the events off and leaves the fate unknown. */
  lemma ExitsAreReported(preparation: Preparation, signals: seq<Signal>, cap: nat, exit: nat, code: string)
    requires exit <= |Inner(preparation, signals, cap).events|
    ensures Ran(true, preparation, signals, cap, Some(exit), code)
            == Emission(Inner(preparation, signals, cap).events[..exit] + [Uncertain(code)], false)
  {
  }

  /** The first terminal report, which the runner will act upon. */
  function First(events: seq<Report>): (r: Option<Report>)
    ensures r.Some? ==> r.value.Terminal() && r.value in events
  {
    if events == [] then None
    else if events[0].Terminal() then Some(events[0])
    else First(events[1..])
  }

  /** `events[k]` is the first ending among the events. */
  predicate EndsAt(events: seq<Report>, k: int) {
    0 <= k < |events| && !events[k].Progress? && forall j :: 0 <= j < k ==> events[j].Progress?
  }

  lemma {:induction false} FirstIs(events: seq<Report>, k: int)
    ensures EndsAt(events, k) ==> First(events) == Some(events[k])
    ensures First(events).None? <==> forall j :: 0 <= j < |events| ==> events[j].Progress?
  {
    if events != [] {
      FirstIs(events[1..], if k > 0 then k - 1 else 0);
      assert forall j :: 1 <= j < |events| ==> events[j] == events[1..][j - 1];
      if EndsAt(events, k) && k > 0 { assert EndsAt(events[1..], k - 1); }
    }
  }
}
