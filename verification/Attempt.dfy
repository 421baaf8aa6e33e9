/**
  The way of an attempt's events from the runtime to the database: worker, supervisor, `execute` and
  `run_attempt`. Each process follows a script of the `select!` branches it took; a script that ends
  early is a process that was killed.
*/
module AttemptPipeline {
  import opened Prelude
  import P = Protocol
  import M = StoreModel
  import StoreProofs
  import Evolution
  import Store
  import opened Output
  import opened Runtime

  /** A line of a pipe; a line that was cut short does not decode. */
  datatype Line = Valid(report: Report) | Garbage

  /** What a process wrote and whether it exited successfully. */
  datatype Process = Process(lines: seq<Line>, ok: bool)

  // ----- worker -----

  datatype WorkerStep =
    | WorkerControl(accepted: bool) // a control line was decoded and passed on, or was an error
    | NextEvent(written: bool)
    | RuntimeDone

  /** Copies what is left in the channel once the runtime has returned. */
  function Drained(emitted: seq<Report>): Process {
    if emitted == [] then Process([], false)
    else if emitted[0].Terminal() then Process([Valid(emitted[0])], true)
    else var p := Drained(emitted[1..]); Process([Valid(emitted[0])] + p.lines, p.ok)
  }

  function Worked(emitted: seq<Report>, runtimeOk: bool, steps: seq<WorkerStep>): Process {
    if steps == [] then Process([], false)
    else match steps[0]
      case WorkerControl(accepted) => if accepted then Worked(emitted, runtimeOk, steps[1..]) else Process([], false)
      case NextEvent(written) =>
        if emitted == [] then Worked(emitted, runtimeOk, steps[1..])
        else if !written then Process([Garbage], false)
        else if emitted[0].Terminal() then Process([Valid(emitted[0])], true)
        else var p := Worked(emitted[1..], runtimeOk, steps[1..]); Process([Valid(emitted[0])] + p.lines, p.ok)
      case RuntimeDone => if runtimeOk then Drained(emitted) else Process([], false)
  }

  method Drain(emitted: seq<Report>) returns (lines: seq<Line>, ok: bool)
    ensures Process(lines, ok) == Drained(emitted)
  {
    lines := [];
    ghost var whole := Drained(emitted);
    for i := 0 to |emitted|
      invariant var p := Drained(emitted[i..]); whole == Process(lines + p.lines, p.ok)
    {
      assert emitted[i..][1..] == emitted[i + 1..];
      Regroup(lines, [Valid(emitted[i])], Drained(emitted[i + 1..]).lines);
      lines := lines + [Valid(emitted[i])];
      if emitted[i].Terminal() { return lines, true; }
    }
    assert lines + [] == lines;
    return lines, false;
  }

  method Work(emitted: seq<Report>, runtimeOk: bool, steps: seq<WorkerStep>) returns (p: Process)
    ensures p == Worked(emitted, runtimeOk, steps)
  {
    var lines: seq<Line>, next := [], 0;
    ghost var whole := Worked(emitted, runtimeOk, steps);
    for i := 0 to |steps|
      invariant 0 <= next <= |emitted|
      invariant var p := Worked(emitted[next..], runtimeOk, steps[i..]); whole == Process(lines + p.lines, p.ok)
    {
      assert steps[i..][1..] == steps[i + 1..];
      match steps[i]
      case WorkerControl(accepted) =>
        if !accepted { assert lines + [] == lines; return Process(lines, false); }
      case NextEvent(written) =>
        if next < |emitted| {
          if !written { return Process(lines + [Garbage], false); }
          if emitted[next].Terminal() { return Process(lines + [Valid(emitted[next])], true); }
          assert emitted[next..][1..] == emitted[next + 1..];
          Regroup(lines, [Valid(emitted[next])], Worked(emitted[next + 1..], runtimeOk, steps[i + 1..]).lines);
          lines := lines + [Valid(emitted[next])];
          next := next + 1;
        }
      case RuntimeDone =>
        if !runtimeOk { assert lines + [] == lines; return Process(lines, false); }
        var more, ok := Drain(emitted[next..]);
        return Process(lines + more, ok);
    }
    assert lines + [] == lines;
    return Process(lines, false);
  }

  // ----- supervisor -----

  datatype SupervisorStep = SupervisorControl(accepted: bool) | NextWorkerLine(written: bool)

  function Supervised(worker: Process, steps: seq<SupervisorStep>): Process
    decreases |steps|
  {
    if steps == [] then Process([], false)
    else match steps[0]
      case SupervisorControl(accepted) => if accepted then Supervised(worker, steps[1..]) else Process([], false)
      case NextWorkerLine(written) =>
        if worker.lines == [] then Process([], worker.ok)
        else if !written then Process([Garbage], false)
        else
          var p := Supervised(worker.(lines := worker.lines[1..]), steps[1..]);
          Process([worker.lines[0]] + p.lines, p.ok)
  }

  method Supervise(worker: Process, steps: seq<SupervisorStep>) returns (p: Process)
    ensures p == Supervised(worker, steps)
  {
    var lines: seq<Line>, next := [], 0;
    ghost var whole := Supervised(worker, steps);
    for i := 0 to |steps|
      invariant 0 <= next <= |worker.lines|
      invariant var p := Supervised(worker.(lines := worker.lines[next..]), steps[i..]);
                whole == Process(lines + p.lines, p.ok)
    {
      assert steps[i..][1..] == steps[i + 1..];
      match steps[i]
      case SupervisorControl(accepted) =>
        if !accepted { assert lines + [] == lines; return Process(lines, false); }
      case NextWorkerLine(written) =>
        if next == |worker.lines| { assert lines + [] == lines; return Process(lines, worker.ok); }
        if !written { return Process(lines + [Garbage], false); }
        assert worker.lines[next..][1..] == worker.lines[next + 1..];
        Regroup(lines, [worker.lines[next]],
            Supervised(worker.(lines := worker.lines[next + 1..]), steps[i + 1..]).lines);
        lines := lines + [worker.lines[next]];
        next := next + 1;
    }
    assert lines + [] == lines;
    return Process(lines, false);
  }

  // ----- execute -----

  datatype ExecuteStep =
    | CancelChange(requested: bool, written: bool)
    | CancelDeadline
    | NextLine(exited: bool) // whether the supervisor exits within its deadline, should the line be terminal

  const LOST := Report.Uncertain("runner_lost")

  function Executed(supervisor: Process, cancelling: bool, steps: seq<ExecuteStep>): seq<Report>
    decreases |steps|
  {
    if steps == [] then []
    else match steps[0]
      case CancelChange(requested, written) =>
        if requested && !written then [] else Executed(supervisor, cancelling || requested, steps[1..])
      case CancelDeadline => if cancelling then [LOST] else Executed(supervisor, cancelling, steps[1..])
      case NextLine(exited) =>
        if supervisor.lines == [] || supervisor.lines[0].Garbage? then []
        else
          var report := supervisor.lines[0].report;
          if !report.Terminal() then
            [report] + Executed(supervisor.(lines := supervisor.lines[1..]), cancelling, steps[1..])
          else if !exited then []
          else if !supervisor.ok then [LOST]
          else [report]
  }

  method Execute(supervisor: Process, steps: seq<ExecuteStep>) returns (events: seq<Report>)
    ensures events == Executed(supervisor, false, steps)
  {
    var cancelling, next := false, 0;
    events := [];
    ghost var whole := Executed(supervisor, false, steps);
    for i := 0 to |steps|
      invariant 0 <= next <= |supervisor.lines|
      invariant whole == events + Executed(supervisor.(lines := supervisor.lines[next..]), cancelling, steps[i..])
    {
      assert steps[i..][1..] == steps[i + 1..];
      match steps[i]
      case CancelChange(requested, written) =>
        if requested {
          if !written { assert events + [] == events; return events; }
          cancelling := true;
        }
      case CancelDeadline =>
        if cancelling { return events + [LOST]; }
      case NextLine(exited) =>
        if next == |supervisor.lines| || supervisor.lines[next].Garbage? {
          assert events + [] == events;
          return events;
        }
        var report := supervisor.lines[next].report;
        if report.Terminal() {
          if !exited { assert events + [] == events; return events; }
          return events + [if supervisor.ok then report else LOST];
        }
        assert supervisor.lines[next..][1..] == supervisor.lines[next + 1..];
        Regroup(events, [report],
            Executed(supervisor.(lines := supervisor.lines[next + 1..]), cancelling, steps[i + 1..]));
        events := events + [report];
        next := next + 1;
    }
    assert events + [] == events;
  }

  // ----- run_attempt -----

  /** What is recorded about an ended attempt. */
  datatype Record = Record(
    state: P.SubmissionState,
    output: Option<string>,
    truncated: bool,
    error: Option<P.ErrorCode>)

  const UNKNOWN_FATE := Record(P.Uncertain, None, false, Some(P.RunnerLost))

  function RecordOf(report: Report, limit: nat): (r: Record)
    requires report.Terminal()
    ensures r.state.Outcome()
  {
    match report
    case Completed(output) =>
      var (text, truncated) := Truncated(output, limit);
      Record(P.Completed, Some(text), truncated, None)
    case Cancelled => Record(P.Cancelled, None, false, None)
    case Failed(code) => Record(P.Failed, None, false, Some(P.Reported(code)))
    case Uncertain(code) => Record(P.Uncertain, None, false, Some(P.Reported(code)))
  }

  /** Without a terminal report the attempt's fate is unknown. */
  function Recorded(events: seq<Report>, limit: nat): (r: Record)
    ensures r.state.Outcome()
  {
    var first := First(events);
    if first.None? then UNKNOWN_FATE else RecordOf(first.value, limit)
  }

  /** The type of the log entry about a report on the way. */
  function KindOf(note: Note): string {
    match note
    case Started(_) => "diagnostic.warning"
    case Delta(_) => "agent.message"
    case Activity(kind) => kind
  }

  function PayloadOf(note: Note): string {
    if note.Delta? then note.text else ""
  }

  /** The position of the first terminal report. */
  function Position(events: seq<Report>): (p: nat)
    requires First(events).Some?
    ensures EndsAt(events, p)
  {
    if events[0].Terminal() then 0 else 1 + Position(events[1..])
  }

  /** How many events are handled before the attempt is finished. */
  function ConcludedAt(events: seq<Report>): (n: nat)
    ensures n <= |events| && forall j :: 0 <= j < n ==> events[j].Progress?
    ensures n < |events| ==> EndsAt(events, n)
  {
    FirstIs(events, 0);
    if First(events).Some? then Position(events) else |events|
  }

  /** A store call fails while event `fault` is handled, or during the finish. */
  predicate Interrupted(events: seq<Report>, fault: nat) {
    fault <= ConcludedAt(events)
  }

  /** What an ended row must say about the text of a completion: the longest prefix that fits, and whether it is all. */
  predicate Keeps(text: string, truncated: bool, output: string, limit: nat) {
    && text <= output && Len(text) <= limit && (truncated <==> Len(output) > limit)
    && (!truncated ==> text == output)
    && forall k :: 0 <= k <= |output| && Len(output[..k]) <= limit ==> k <= |text|
  }

  /** The row of an ended submission says how its first ending was. */
  predicate RowShows(row: M.Submission, ending: Report, limit: nat) {
    match ending
    case Completed(output) =>
      && row.state.Completed? && row.error == None
      && row.output.Some? && Keeps(row.output.value, row.truncated, output, limit)
    case Cancelled => row.state.Cancelled? && row.error == None && row.output == None && !row.truncated
    case Failed(code) =>
      row.state.Failed? && row.error == Some(P.Reported(code)) && row.output == None && !row.truncated
    case Uncertain(code) =>
      row.state.Uncertain? && row.error == Some(P.Reported(code)) && row.output == None && !row.truncated
    case Progress(_) => true
  }

  predicate RowShowsLoss(row: M.Submission) {
    row.state.Uncertain? && row.error == Some(P.RunnerLost) && row.output == None && !row.truncated
  }

  /** The row and its attempt ended as the first ending among the events says, or as lost if there is none. */
  ghost predicate TablesShow(db: M.Db, id: P.SubmissionId, a: P.AttemptId, events: seq<Report>, limit: nat) {
    && id in db.subs && a in db.attempts && db.attempts[a].state == P.Ended(db.subs[id].state)
    && (forall k {:trigger EndsAt(events, k)} :: EndsAt(events, k) ==> RowShows(db.subs[id], events[k], limit))
    && ((forall j :: 0 <= j < |events| ==> events[j].Progress?) ==> RowShowsLoss(db.subs[id]))
  }

  lemma TruncatedKeeps(output: string, limit: nat)
    ensures var (text, truncated) := Truncated(output, limit); Keeps(text, truncated, output, limit)
  {
    forall k | 0 <= k <= |output| && Len(output[..k]) <= limit ensures k <= |Cut(output, limit)| {
      CutIsLongestPrefix(output, limit, k);
    }
    CutIsLongestPrefix(output, limit, 0);
  }

  /** What was recorded is what the tables show, in terms of the events alone. */
  lemma RecordIsShown(db: M.Db, id: P.SubmissionId, a: P.AttemptId, events: seq<Report>, limit: nat)
    requires EndedAs(db, id, a, Recorded(events, limit))
    ensures TablesShow(db, id, a, events, limit)
  {
    forall k | EndsAt(events, k) ensures RowShows(db.subs[id], events[k], limit) {
      FirstIs(events, k);
      if events[k].Completed? { TruncatedKeeps(events[k].output, limit); }
    }
    FirstIs(events, 0);
  }

  /**
    So the row is Cancelled exactly if the first ending is, Failed with a code exactly if that is the code
    of the failure, and so on; and it is uncertain as lost exactly if there is no ending.
  */
  lemma TablesShowIff(db: M.Db, id: P.SubmissionId, a: P.AttemptId, events: seq<Report>, limit: nat, code: string)
    requires TablesShow(db, id, a, events, limit)
    ensures var row := db.subs[id];
      && (row.state.Completed? <==> exists k :: EndsAt(events, k) && events[k].Completed?)
      && (row.state.Cancelled? <==> exists k :: EndsAt(events, k) && events[k].Cancelled?)
      && (row.state.Failed? && row.error == Some(P.Reported(code)) <==>
          exists k :: EndsAt(events, k) && events[k] == Failed(code))
      && (row.state.Uncertain? && row.error == Some(P.Reported(code)) <==>
          exists k :: EndsAt(events, k) && events[k] == Uncertain(code))
      && (row.state.Uncertain? && row.error == Some(P.RunnerLost) <==>
          forall j :: 0 <= j < |events| ==> events[j].Progress?)
  {
    if k :| EndsAt(events, k) {
      assert RowShows(db.subs[id], events[k], limit);
      forall l | EndsAt(events, l) ensures l == k {
        assert !(l < k) && !(k < l);
      }
    } else {
      NoEndingAt(events);
    }
  }

  lemma {:induction false} NoEndingAt(events: seq<Report>)
    requires forall k :: !EndsAt(events, k)
    ensures forall j :: 0 <= j < |events| ==> events[j].Progress?
  {
    if events != [] {
      var front := events[..|events| - 1];
      forall k ensures !EndsAt(front, k) {
        if EndsAt(front, k) { assert EndsAt(events, k); }
      }
      NoEndingAt(front);
      assert forall j :: 0 <= j < |front| ==> events[j] == front[j];
      assert !EndsAt(events, |events| - 1);
    }
  }

  /** The attempt is the live attempt of the submission. */
  predicate Owns(db: M.Db, id: P.SubmissionId, a: P.AttemptId) {
    M.Active(db, a) && db.attempts[a].submission == id
  }

  /** The attempt and its submission ended as recorded. */
  predicate EndedAs(db: M.Db, id: P.SubmissionId, a: P.AttemptId, r: Record) {
    && id in db.subs && a in db.attempts
    && db.subs[id].state == r.state && db.subs[id].output == r.output
    && db.subs[id].truncated == r.truncated && db.subs[id].error == r.error
    && db.attempts[a].state == P.Ended(r.state)
  }

  function FinishOf(id: P.SubmissionId, a: P.AttemptId, r: Record): M.FinishSpec {
    M.FinishSpec(id, a, r.state, r.output, r.truncated, r.error, None)
  }

  /** The entries of a log that report on the way. */
  function Reports(log: seq<P.Event>): seq<P.EventBody> {
    if log == [] then []
    else
      var body := log[|log| - 1].body;
      Reports(log[..|log| - 1]) + (if body.AgentReport? then [body] else [])
  }

  /** The entry is about the note: of the right type, and with the text of a delta. */
  predicate EntryTells(body: P.EventBody, note: Note) {
    match note
    case Started(_) => body.AgentReport? && body.kind == "diagnostic.warning"
    case Delta(text) => body == P.AgentReport("agent.message", text)
    case Activity(kind) => body.AgentReport? && body.kind == kind
  }

  /** Between two states of a log exactly these events were reported, each once and in order. */
  predicate Tells(before: seq<P.Event>, after: seq<P.Event>, events: seq<Report>) {
    var x, y := Reports(before), Reports(after);
    && |y| == |x| + |events| && y[..|x|] == x
    && forall j {:trigger events[j]} :: 0 <= j < |events| ==>
         events[j].Progress? && EntryTells(y[|x| + j], events[j].note)
  }

  lemma OneMoreEntry(log: seq<P.Event>, e: P.Event)
    ensures Reports(log + [e]) == Reports(log) + (if e.body.AgentReport? then [e.body] else [])
  {
    assert (log + [e])[..|log|] == log;
  }

  /** The entries about the state of an attempt are no reports. */
  lemma TwoMoreEntries(log: seq<P.Event>, first: P.Event, second: P.Event)
    requires !first.body.AgentReport? && !second.body.AgentReport?
    ensures Reports(log + [first, second]) == Reports(log)
  {
    OneMoreEntry(log, first);
    OneMoreEntry(log + [first], second);
    assert log + [first, second] == log + [first] + [second];
  }

  predicate TellsMore(here: seq<P.Event>, after: seq<P.Event>, note: Note) {
    var x, y := Reports(here), Reports(after);
    |y| == |x| + 1 && y[..|x|] == x && EntryTells(y[|x|], note)
  }

  lemma TellsOneMore(before: seq<P.Event>, here: seq<P.Event>, after: seq<P.Event>, events: seq<Report>, n: nat)
    requires n < |events| && events[n].Progress? && Tells(before, here, events[..n])
    requires TellsMore(here, after, events[n].note)
    ensures Tells(before, after, events[..n + 1])
  {
    var x, y, z := Reports(before), Reports(here), Reports(after);
    var earlier, later := events[..n], events[..n + 1];
    assert z[..|x|] == y[..|x|];
    forall j {:trigger later[j]} | 0 <= j < n + 1 ensures later[j].Progress? && EntryTells(z[|x| + j], later[j].note) {
      if j < n { assert earlier[j] == later[j] && z[|x| + j] == y[|x| + j]; }
    }
  }

  method Conclude(store: Store.Store, id: P.SubmissionId, a: P.AttemptId, r: Record, now: P.Time)
    requires store.Valid() && Owns(store.Tables(), id, a) && r.state.Outcome()
    modifies store
    ensures store.Valid() && EndedAs(store.Tables(), id, a, r)
    ensures Reports(M.Log(store.Tables(), id)) == Reports(M.Log(old(store.Tables()), id))
  {
    ghost var log := M.Log(store.Tables(), id);
    Evolution.OwnerFinishes(store.Tables(), FinishOf(id, a, r), now);
    var _ := store.Finish(FinishOf(id, a, r), now);
    TwoMoreEntries(log, M.Log(store.Tables(), id)[|log|], M.Log(store.Tables(), id)[|log| + 1]);
  }

  /** Logs a report on the way. */
  method Append(store: Store.Store, id: P.SubmissionId, a: P.AttemptId, note: Note)
    requires store.Valid() && Owns(store.Tables(), id, a)
    modifies store
    ensures store.Valid() && Owns(store.Tables(), id, a)
    ensures TellsMore(M.Log(old(store.Tables()), id), M.Log(store.Tables(), id), note)
  {
    ghost var log := M.Log(store.Tables(), id);
    StoreProofs.Coupled(store.Tables(), a);
    Evolution.AgentEventEvolves(store.Tables(), id, a, KindOf(note), PayloadOf(note));
    var _ := store.AppendAgentEvent(id, a, KindOf(note), PayloadOf(note));
    OneMoreEntry(log, M.Log(store.Tables(), id)[|log|]);
  }

  method Begin(store: Store.Store, id: P.SubmissionId, a: P.AttemptId, version: Option<string>)
    requires store.Valid() && Owns(store.Tables(), id, a)
    modifies store
    ensures store.Valid() && Owns(store.Tables(), id, a)
    ensures Reports(M.Log(store.Tables(), id)) == Reports(M.Log(old(store.Tables()), id))
    ensures old(store.Tables().attempts[a].state.Starting?) ==> store.Tables().attempts[a].agentVersion == version
  {
    ghost var log := M.Log(store.Tables(), id);
    StoreProofs.Coupled(store.Tables(), a);
    Evolution.MarkEvolves(store.Tables(), id, a, version);
    var _ := store.MarkAttemptRunning(id, a, version);
    if M.Log(store.Tables(), id) != log {
      assert M.Log(store.Tables(), id) == log + [M.Log(store.Tables(), id)[|log|]];
      OneMoreEntry(log, M.Log(store.Tables(), id)[|log|]);
    }
  }

  /** Handles a report on the way: the start of the runtime is marked first, and every report is logged. */
  method Note(store: Store.Store, id: P.SubmissionId, a: P.AttemptId, note: Note)
    requires store.Valid() && Owns(store.Tables(), id, a)
    modifies store
    ensures store.Valid() && Owns(store.Tables(), id, a)
    ensures TellsMore(M.Log(old(store.Tables()), id), M.Log(store.Tables(), id), note)
  {
    if note.Started? { Begin(store, id, a, note.version); }
    Append(store, id, a, note);
  }

  /** Handles an ending. */
  method End(store: Store.Store, id: P.SubmissionId, a: P.AttemptId, ending: Report, limit: nat, now: P.Time)
    requires store.Valid() && Owns(store.Tables(), id, a) && ending.Terminal()
    modifies store
    ensures store.Valid() && EndedAs(store.Tables(), id, a, RecordOf(ending, limit))
    ensures Reports(M.Log(store.Tables(), id)) == Reports(M.Log(old(store.Tables()), id))
  {
    match ending {
      case Completed(output) =>
        var text, truncated := TruncateOutput(output, limit);
        Conclude(store, id, a, Record(P.Completed, Some(text), truncated, None), now);
      case Cancelled =>
        Conclude(store, id, a, Record(P.Cancelled, None, false, None), now);
      case Failed(code) =>
        Conclude(store, id, a, Record(P.Failed, None, false, Some(P.Reported(code))), now);
      case Uncertain(code) =>
        Conclude(store, id, a, Record(P.Uncertain, None, false, Some(P.Reported(code))), now);
    }
  }

  /** The first `n` events have been handled, and each of them was reported in the log. */
  ghost predicate Underway(db: M.Db, id: P.SubmissionId, a: P.AttemptId, before: seq<P.Event>, events: seq<Report>,
                           n: nat) {
    && Owns(db, id, a)
    && n <= |events| && Tells(before, M.Log(db, id), events[..n])
  }

  /** All events before the ending have been reported in the log, and the ending was recorded. */
  ghost predicate IsOver(db: M.Db, id: P.SubmissionId, a: P.AttemptId, before: seq<P.Event>, events: seq<Report>,
                         limit: nat) {
    && EndedAs(db, id, a, Recorded(events, limit)) && TablesShow(db, id, a, events, limit)
    && Tells(before, M.Log(db, id), events[..ConcludedAt(events)])
  }

  lemma StillUnderway(here: M.Db, db: M.Db, id: P.SubmissionId, a: P.AttemptId, before: seq<P.Event>,
                      events: seq<Report>, n: nat)
    requires Underway(here, id, a, before, events, n) && n < ConcludedAt(events)
    requires Owns(db, id, a) && TellsMore(M.Log(here, id), M.Log(db, id), events[n].note)
    ensures Underway(db, id, a, before, events, n + 1)
  {
    TellsOneMore(before, M.Log(here, id), M.Log(db, id), events, n);
  }

  lemma NowOver(here: M.Db, db: M.Db, id: P.SubmissionId, a: P.AttemptId, before: seq<P.Event>, events: seq<Report>,
                n: nat, limit: nat)
    requires Underway(here, id, a, before, events, n) && n == ConcludedAt(events)
    requires EndedAs(db, id, a, if n < |events| then RecordOf(events[n], limit) else UNKNOWN_FATE)
    requires Reports(M.Log(db, id)) == Reports(M.Log(here, id))
    ensures IsOver(db, id, a, before, events, limit)
  {
    FirstIs(events, n);
    RecordIsShown(db, id, a, events, limit);
  }

  lemma NothingYet(db: M.Db, id: P.SubmissionId, a: P.AttemptId, events: seq<Report>)
    requires Owns(db, id, a)
    ensures Underway(db, id, a, M.Log(db, id), events, 0)
  {
  }

  lemma EndsHere(events: seq<Report>, i: nat)
    requires i <= ConcludedAt(events) && i < |events|
    ensures events[i].Progress? <==> i < ConcludedAt(events)
  {
  }

  /**
    Consumes the events `execute` sent. `fault` says where a store call fails, which ends the attempt
    with an error; `finishes` counts the successful calls of `finish`.
  */
  method RunAttempt(store: Store.Store, id: P.SubmissionId, a: P.AttemptId, events: seq<Report>, limit: nat, fault: nat,
                    now: P.Time)
    returns (ok: bool, finishes: nat)
    requires store.Valid() && Owns(store.Tables(), id, a)
    modifies store
    ensures store.Valid() && (ok <==> !Interrupted(events, fault))
    ensures ok ==> finishes == 1 && IsOver(store.Tables(), id, a, M.Log(old(store.Tables()), id), events, limit)
    ensures !ok ==> finishes == 0 && Underway(store.Tables(), id, a, M.Log(old(store.Tables()), id), events, fault)
  {
    finishes := 0;
    ghost var before := M.Log(store.Tables(), id);
    var terminalSeen, i := false, 0;
    NothingYet(store.Tables(), id, a, events);
    while i < |events| && !terminalSeen
      invariant 0 <= i <= |events| && store.Valid()
      invariant terminalSeen ==> finishes == 1 && !Interrupted(events, fault)
      invariant terminalSeen ==> IsOver(store.Tables(), id, a, before, events, limit)
      invariant !terminalSeen ==> finishes == 0 && i <= ConcludedAt(events) && i <= fault
      invariant !terminalSeen ==> Underway(store.Tables(), id, a, before, events, i)
      decreases |events| - i
    {
      if i == fault { return false, finishes; }
      ghost var here := store.Tables();
      EndsHere(events, i);
      if events[i].Progress? {
        Note(store, id, a, events[i].note);
        StillUnderway(here, store.Tables(), id, a, before, events, i);
      } else {
        End(store, id, a, events[i], limit, now);
        NowOver(here, store.Tables(), id, a, before, events, i, limit);
        finishes, terminalSeen := finishes + 1, true;
      }
      i := i + 1;
    }
    if !terminalSeen {
      if fault == i { return false, finishes; }
      ghost var here := store.Tables();
      Conclude(store, id, a, UNKNOWN_FATE, now);
      NowOver(here, store.Tables(), id, a, before, events, i, limit);
      finishes := finishes + 1;
    }
    ok := true;
  }

  /**
    The spawned task: an attempt whose agent binary is not configured, or whose own store calls failed,
    is finished once more from outside, as uncertain. `written` says whether that last `finish` succeeds;
    if it does not, its error is ignored and the attempt stays alive.
  */
  method RunTask(store: Store.Store, id: P.SubmissionId, a: P.AttemptId, configured: bool, events: seq<Report>,
                 limit: nat, fault: nat, written: bool, now: P.Time)
    returns (finishes: nat)
    requires store.Valid() && Owns(store.Tables(), id, a)
    modifies store
    ensures store.Valid()
    ensures var ran := configured && !Interrupted(events, fault);
      if ran then
        finishes == 1 && IsOver(store.Tables(), id, a, M.Log(old(store.Tables()), id), events, limit)
      else if written then
        finishes == 1 && EndedAs(store.Tables(), id, a, UNKNOWN_FATE) && RowShowsLoss(store.Tables().subs[id])
      else
        finishes == 0 && Owns(store.Tables(), id, a)
  {
    var ok := false;
    finishes := 0;
    if configured { ok, finishes := RunAttempt(store, id, a, events, limit, fault, now); }
    if !ok && written {
      Conclude(store, id, a, UNKNOWN_FATE, now);
      finishes := finishes + 1;
    }
  }

  // ----- one conservative outcome -----

  /** The terminal report a reader of the pipe will act upon; nothing is read past a broken line. */
  function Read(lines: seq<Line>): Option<Report> {
    if lines == [] || lines[0].Garbage? then None
    else if lines[0].report.Terminal() then Some(lines[0].report)
    else Read(lines[1..])
  }

  lemma {:induction false} DrainedReads(emitted: seq<Report>)
    ensures var p := Drained(emitted); Read(p.lines) == First(emitted) && (p.ok <==> First(emitted).Some?)
  {
    if emitted != [] && !emitted[0].Terminal() { DrainedReads(emitted[1..]); }
  }

  /** A worker forwards the runtime's first terminal report or none, and exits successfully only if it did. */
  lemma {:induction false} WorkerForwardsTheFirst(emitted: seq<Report>, runtimeOk: bool, steps: seq<WorkerStep>)
    ensures var p := Worked(emitted, runtimeOk, steps);
      && (Read(p.lines).Some? ==> Read(p.lines) == First(emitted))
      && (p.ok ==> Read(p.lines).Some?)
    decreases |steps|
  {
    if steps != [] {
      match steps[0]
      case WorkerControl(_) => WorkerForwardsTheFirst(emitted, runtimeOk, steps[1..]);
      case NextEvent(_) =>
        WorkerForwardsTheFirst(if emitted == [] then emitted else emitted[1..], runtimeOk, steps[1..]);
      case RuntimeDone => DrainedReads(emitted);
    }
  }

  lemma {:induction false} SupervisorForwards(worker: Process, steps: seq<SupervisorStep>)
    ensures var p := Supervised(worker, steps);
      && (Read(p.lines).Some? ==> Read(p.lines) == Read(worker.lines))
      && (p.ok ==> worker.ok && p.lines == worker.lines)
    decreases |steps|
  {
    if steps != [] {
      match steps[0]
      case SupervisorControl(_) => SupervisorForwards(worker, steps[1..]);
      case NextWorkerLine(_) =>
        if worker.lines != [] { SupervisorForwards(worker.(lines := worker.lines[1..]), steps[1..]); }
    }
  }

  /**
    `execute` reports at most one ending: the one it read from a runner that exited well, or that the runner
    was lost.
  */
  lemma {:induction false} ExecuteWithholds(supervisor: Process, cancelling: bool, steps: seq<ExecuteStep>)
    ensures var events := Executed(supervisor, cancelling, steps);
      && (First(events).Some? ==>
        First(events) == Some(Report.Uncertain("runner_lost"))
        || (First(events) == Read(supervisor.lines) && supervisor.ok))
      && (forall i :: 0 <= i < |events| && events[i].Terminal() ==> i == |events| - 1)
    decreases |steps|
  {
    if steps != [] {
      match steps[0]
      case CancelChange(requested, _) => ExecuteWithholds(supervisor, cancelling || requested, steps[1..]);
      case CancelDeadline => ExecuteWithholds(supervisor, cancelling, steps[1..]);
      case NextLine(_) =>
        if supervisor.lines != [] {
          ExecuteWithholds(supervisor.(lines := supervisor.lines[1..]), cancelling, steps[1..]);
        }
    }
  }

  // ----- what each process makes of its next step -----

  /** The worker copies event by event until the ending, and then exits well; anything else ends it as failed. */
  lemma WorkerSteps(emitted: seq<Report>, ok: bool, rest: seq<WorkerStep>)
    ensures Worked(emitted, ok, []) == Process([], false)
    ensures Worked(emitted, ok, [WorkerControl(false)] + rest) == Process([], false)
    ensures Worked(emitted, ok, [WorkerControl(true)] + rest) == Worked(emitted, ok, rest)
    ensures emitted == [] ==> forall written :: Worked(emitted, ok, [NextEvent(written)] + rest) == Worked([], ok, rest)
    ensures emitted != [] ==>
              && Worked(emitted, ok, [NextEvent(false)] + rest) == Process([Garbage], false)
              && Worked(emitted, ok, [NextEvent(true)] + rest)
                 == if emitted[0].Progress? then Prepended(Valid(emitted[0]), Worked(emitted[1..], ok, rest))
                    else Process([Valid(emitted[0])], true)
    ensures Worked(emitted, false, [RuntimeDone] + rest) == Process([], false)
    ensures Worked(emitted, true, [RuntimeDone] + rest).lines
            == LinesUpTo(emitted, if First(emitted).Some? then Position(emitted) + 1 else |emitted|)
    ensures Worked(emitted, true, [RuntimeDone] + rest).ok <==> First(emitted).Some?
  {
    assert forall step :: ([step] + rest)[1..] == rest;
    DrainedLines(emitted);
  }

  function Prepended(line: Line, p: Process): Process {
    Process([line] + p.lines, p.ok)
  }

  lemma {:induction false} DrainedLines(emitted: seq<Report>)
    ensures var p := Drained(emitted);
      && p.lines == LinesUpTo(emitted, if First(emitted).Some? then Position(emitted) + 1 else |emitted|)
      && (p.ok <==> First(emitted).Some?)
  {
    if emitted != [] && !emitted[0].Terminal() { DrainedLines(emitted[1..]); }
  }

  /** The supervisor copies line by line and exits as the worker did; an error ends it as failed. */
  lemma SupervisorSteps(worker: Process, rest: seq<SupervisorStep>)
    ensures Supervised(worker, []) == Process([], false)
    ensures Supervised(worker, [SupervisorControl(false)] + rest) == Process([], false)
    ensures Supervised(worker, [SupervisorControl(true)] + rest) == Supervised(worker, rest)
    ensures worker.lines == [] ==>
              forall written :: Supervised(worker, [NextWorkerLine(written)] + rest) == Process([], worker.ok)
    ensures worker.lines != [] ==>
              && Supervised(worker, [NextWorkerLine(false)] + rest) == Process([Garbage], false)
              && Supervised(worker, [NextWorkerLine(true)] + rest)
                 == Prepended(worker.lines[0], Supervised(Process(worker.lines[1..], worker.ok), rest))
  {
    assert ([SupervisorControl(true)] + rest)[1..] == rest && ([NextWorkerLine(true)] + rest)[1..] == rest;
  }

  /** A requested cancellation starts the deadline, which then reports the runner as lost. */
  lemma CancellationSteps(supervisor: Process, cancelling: bool, written: bool, rest: seq<ExecuteStep>)
    ensures Executed(supervisor, cancelling, []) == []
    ensures Executed(supervisor, cancelling, [CancelChange(false, written)] + rest)
            == Executed(supervisor, cancelling, rest)
    ensures Executed(supervisor, cancelling, [CancelChange(true, written)] + rest)
            == if written then Executed(supervisor, true, rest) else []
    ensures Executed(supervisor, cancelling, [CancelDeadline] + rest)
            == if cancelling then [Report.Uncertain("runner_lost")] else Executed(supervisor, false, rest)
  {
    assert forall step :: ([step] + rest)[1..] == rest;
  }

  /** A report on the way is passed on; an ending waits for the runner to exit, and is replaced if that failed. */
  lemma LineSteps(supervisor: Process, cancelling: bool, exited: bool, rest: seq<ExecuteStep>)
    ensures supervisor.lines == [] || supervisor.lines[0].Garbage? ==>
              Executed(supervisor, cancelling, [NextLine(exited)] + rest) == []
    ensures supervisor.lines != [] && supervisor.lines[0].Valid? ==>
              var report, more := supervisor.lines[0].report, Process(supervisor.lines[1..], supervisor.ok);
              Executed(supervisor, cancelling, [NextLine(exited)] + rest)
              == if report.Progress? then [report] + Executed(more, cancelling, rest)
                 else if !exited then []
                 else if supervisor.ok then [report]
                 else [Report.Uncertain("runner_lost")]
  {
    assert ([NextLine(exited)] + rest)[1..] == rest;
  }

  // ----- nothing is lost, repeated or reordered on the way -----

  /** The lines are a beginning of the events, perhaps followed by a broken one. */
  predicate InOrder(lines: seq<Line>, events: seq<Report>) {
    forall i :: 0 <= i < |lines| ==>
      if lines[i].Valid? then i < |events| && lines[i].report == events[i] else i == |lines| - 1
  }

  lemma InOrderMore(lines: seq<Line>, events: seq<Report>)
    requires events != [] && InOrder(lines, events[1..])
    ensures InOrder([Valid(events[0])] + lines, events)
  {
    var all := [Valid(events[0])] + lines;
    forall i | 0 <= i < |all|
      ensures if all[i].Valid? then i < |events| && all[i].report == events[i] else i == |all| - 1
    {
      if i > 0 { assert all[i] == lines[i - 1]; }
    }
  }

  lemma {:induction false} DrainedInOrder(emitted: seq<Report>)
    ensures InOrder(Drained(emitted).lines, emitted)
  {
    if emitted != [] && !emitted[0].Terminal() {
      DrainedInOrder(emitted[1..]);
      InOrderMore(Drained(emitted[1..]).lines, emitted);
    }
  }

  lemma {:induction false} WorkerCopies(emitted: seq<Report>, ok: bool, steps: seq<WorkerStep>)
    ensures InOrder(Worked(emitted, ok, steps).lines, emitted)
    decreases |steps|
  {
    if steps != [] {
      match steps[0]
      case WorkerControl(_) => WorkerCopies(emitted, ok, steps[1..]);
      case NextEvent(_) =>
        WorkerCopies(if emitted == [] then emitted else emitted[1..], ok, steps[1..]);
        if emitted != [] { InOrderMore(Worked(emitted[1..], ok, steps[1..]).lines, emitted); }
      case RuntimeDone => DrainedInOrder(emitted);
    }
  }

  /** `later` is a beginning of `earlier`, perhaps followed by `extra`. */
  predicate Continues<T(==)>(later: seq<T>, earlier: seq<T>, extra: T) {
    forall i :: 0 <= i < |later| ==>
      (i < |earlier| && later[i] == earlier[i]) || (i == |later| - 1 && later[i] == extra)
  }

  lemma ContinuesMore<T>(later: seq<T>, earlier: seq<T>, extra: T)
    requires earlier != [] && Continues(later, earlier[1..], extra)
    ensures Continues([earlier[0]] + later, earlier, extra)
  {
    var all := [earlier[0]] + later;
    forall i | 0 <= i < |all|
      ensures (i < |earlier| && all[i] == earlier[i]) || (i == |all| - 1 && all[i] == extra)
    {
      if i > 0 { assert all[i] == later[i - 1]; }
    }
  }

  lemma {:induction false} SupervisorCopies(worker: Process, steps: seq<SupervisorStep>)
    ensures Continues(Supervised(worker, steps).lines, worker.lines, Garbage)
    decreases |steps|
  {
    if steps != [] {
      match steps[0]
      case SupervisorControl(_) => SupervisorCopies(worker, steps[1..]);
      case NextWorkerLine(_) =>
        if worker.lines != [] {
          var rest := worker.(lines := worker.lines[1..]);
          SupervisorCopies(rest, steps[1..]);
          ContinuesMore(Supervised(rest, steps[1..]).lines, worker.lines, Garbage);
        }
    }
  }

  function Lines(events: seq<Report>): seq<Line> {
    seq(|events|, i requires 0 <= i < |events| => Valid(events[i]))
  }

  lemma {:induction false} ExecuteCopies(supervisor: Process, cancelling: bool, steps: seq<ExecuteStep>)
    ensures Continues(Lines(Executed(supervisor, cancelling, steps)), supervisor.lines,
                Valid(Report.Uncertain("runner_lost")))
    decreases |steps|
  {
    if steps != [] {
      match steps[0]
      case CancelChange(requested, _) => ExecuteCopies(supervisor, cancelling || requested, steps[1..]);
      case CancelDeadline => ExecuteCopies(supervisor, cancelling, steps[1..]);
      case NextLine(_) =>
        if supervisor.lines != [] {
          var rest := supervisor.(lines := supervisor.lines[1..]);
          var events := Executed(rest, cancelling, steps[1..]);
          ExecuteCopies(rest, cancelling, steps[1..]);
          ContinuesMore(Lines(events), supervisor.lines, Valid(Report.Uncertain("runner_lost")));
          if supervisor.lines[0].Valid? {
            assert Lines([supervisor.lines[0].report] + events) == [supervisor.lines[0]] + Lines(events);
          }
        }
    }
  }

  /** The scripts of one attempt; a killed process exits unsuccessfully whatever it wrote. */
  datatype Scripts = Scripts(
    worker: seq<WorkerStep>,
    workerKilled: bool,
    supervisor: seq<SupervisorStep>,
    supervisorKilled: bool,
    execute: seq<ExecuteStep>)

  function WorkerProcess(runtime: Emission, s: Scripts): Process {
    var p := Worked(runtime.events, runtime.ok, s.worker);
    p.(ok := p.ok && !s.workerKilled)
  }

  function SupervisorProcess(runtime: Emission, s: Scripts): Process {
    var p := Supervised(WorkerProcess(runtime, s), s.supervisor);
    p.(ok := p.ok && !s.supervisorKilled)
  }

  function EventsOfAttempt(runtime: Emission, s: Scripts): seq<Report> {
    Executed(SupervisorProcess(runtime, s), false, s.execute)
  }

  /**
    Whatever the processes and pipes do, the service receives a beginning of the runtime's events, none of
    them lost, repeated, changed or out of order, perhaps followed by the report that the runner was lost.
  */
  lemma EventsArriveInOrder(runtime: Emission, s: Scripts)
    ensures Continues(EventsOfAttempt(runtime, s), runtime.events, Report.Uncertain("runner_lost"))
  {
    var worker, supervisor := WorkerProcess(runtime, s), SupervisorProcess(runtime, s);
    var events := EventsOfAttempt(runtime, s);
    var lost := Report.Uncertain("runner_lost");
    WorkerCopies(runtime.events, runtime.ok, s.worker);
    SupervisorCopies(worker, s.supervisor);
    ExecuteCopies(supervisor, false, s.execute);
    OrderIsPassedOn(runtime.events, worker.lines, supervisor.lines, events, lost);
  }

  lemma OrderIsPassedOn(emitted: seq<Report>, written: seq<Line>, copied: seq<Line>, events: seq<Report>, lost: Report)
    requires InOrder(written, emitted) && Continues(copied, written, Garbage)
    requires Continues(Lines(events), copied, Valid(lost))
    ensures Continues(events, emitted, lost)
  {
    forall i | 0 <= i < |events|
      ensures (i < |emitted| && events[i] == emitted[i]) || (i == |events| - 1 && events[i] == lost)
    {
      assert Lines(events)[i] == Valid(events[i]);
    }
  }

  /** The runtime's own first ending, passed on by two processes that exited well, or an uncertain one. */
  predicate Conservative(record: Record, runtime: Emission, s: Scripts, limit: nat) {
    || record.state.Uncertain?
    || (&& First(runtime.events).Some? && record == RecordOf(First(runtime.events).value, limit)
        && WorkerProcess(runtime, s).ok && SupervisorProcess(runtime, s).ok)
  }

  /**
    Attempts end conservatively. Whatever the processes and pipes do, what is recorded is the runtime's
    own first terminal report, passed on by a worker and a supervisor that both exited successfully;
    otherwise the attempt is uncertain.
  */
  lemma OutcomeIsConservative(runtime: Emission, s: Scripts, limit: nat)
    ensures Conservative(Recorded(EventsOfAttempt(runtime, s), limit), runtime, s, limit)
  {
    WorkerForwardsTheFirst(runtime.events, runtime.ok, s.worker);
    SupervisorForwards(WorkerProcess(runtime, s), s.supervisor);
    ExecuteWithholds(SupervisorProcess(runtime, s), false, s.execute);
  }

  // ----- an undisturbed attempt -----

  function LinesUpTo(events: seq<Report>, n: nat): seq<Line>
    requires n <= |events|
  {
    if n == 0 then [] else [Valid(events[0])] + LinesUpTo(events[1..], n - 1)
  }

  lemma {:induction false} UndisturbedWorker(events: seq<Report>, ok: bool)
    requires First(events).Some?
    ensures Position(events) < |events|
    ensures Worked(events, ok, Copies(Position(events) + 1, NextEvent(true)))
            == Process(LinesUpTo(events, Position(events) + 1), true)
  {
    if !events[0].Terminal() { UndisturbedWorker(events[1..], ok); }
  }

  lemma {:induction false} UndisturbedSupervisor(lines: seq<Line>, ok: bool)
    ensures Supervised(Process(lines, ok), Copies(|lines| + 1, NextWorkerLine(true))) == Process(lines, ok)
  {
    if lines != [] { UndisturbedSupervisor(lines[1..], ok); }
  }

  lemma {:induction false} UndisturbedExecute(events: seq<Report>)
    requires First(events).Some? && Position(events) < |events|
    ensures Executed(Process(LinesUpTo(events, Position(events) + 1), true), false,
                Copies(Position(events) + 1, NextLine(true)))
            == events[..Position(events) + 1]
  {
    var steps := Copies(Position(events) + 1, NextLine(true));
    var lines := LinesUpTo(events, Position(events) + 1);
    assert steps[1..] == Copies(Position(events), NextLine(true)) && lines[0] == Valid(events[0]);
    if !events[0].Terminal() {
      UndisturbedExecute(events[1..]);
      assert lines[1..] == LinesUpTo(events[1..], Position(events[1..]) + 1);
    }
  }

  /**
    The outcome is not conservative by giving up: when nothing is disturbed, the runtime's first ending is
    recorded.
  */
  lemma UndisturbedAttemptRecordsItsEnding(runtime: Emission, limit: nat)
    requires First(runtime.events).Some?
    ensures var n := Position(runtime.events) + 1;
            var s := Scripts(Copies(n, NextEvent(true)), false, Copies(n + 1, NextWorkerLine(true)), false,
                Copies(n, NextLine(true)));
            EventsOfAttempt(runtime, s) == runtime.events[..n]
            && Recorded(EventsOfAttempt(runtime, s), limit) == RecordOf(First(runtime.events).value, limit)
  {
    var n := Position(runtime.events) + 1;
    UndisturbedWorker(runtime.events, runtime.ok);
    LinesLength(runtime.events, n);
    UndisturbedSupervisor(LinesUpTo(runtime.events, n), true);
    UndisturbedExecute(runtime.events);
    FirstIs(runtime.events, n - 1);
    FirstIs(runtime.events[..n], n - 1);
  }

  lemma {:induction false} LinesLength(events: seq<Report>, n: nat)
    requires n <= |events|
    ensures |LinesUpTo(events, n)| == n
  {
    if n > 0 { LinesLength(events[1..], n - 1); }
  }

  // ----- the recorded output -----

  lemma {:induction false} FirstAppend(a: seq<Report>, b: seq<Report>)
    ensures First(a + b) == if First(a).Some? then First(a) else First(b)
  {
    if a == [] {
      assert a + b == b;
    } else {
      assert (a + b)[1..] == a[1..] + b;
      FirstAppend(a[1..], b);
    }
  }

  predicate NoEnding(events: seq<Report>) {
    forall i :: 0 <= i < |events| ==> !events[i].Terminal()
  }

  lemma {:induction false} NoEndingNoFirst(events: seq<Report>)
    requires NoEnding(events)
    ensures First(events).None?
  {
    if events != [] { NoEndingNoFirst(events[1..]); }
  }

  lemma {:induction false} AwaitReportsProgress(values: seq<Value>, unsent: bool, output: string, cap: nat)
    ensures NoEnding(Awaited(values, unsent, output, cap).events)
  {
    if values != [] && !values[0].Response? && !Breaks(values[0], output, cap) {
      AwaitReportsProgress(values[1..], unsent, OutputAfter(values[0], output, cap), cap);
    }
  }

  lemma {:induction false} DriveReportsProgress(signals: seq<Signal>, output: string, posted: bool, cap: nat)
    ensures NoEnding(Driven(signals, output, posted, cap).events)
    decreases |signals|
  {
    if signals != [] {
      var head, rest := signals[0], signals[1..];
      if head.PostAnswered? || head.CancelChanged? || head.RunDeadline? || head.IdleDeadline? {
        AwaitReportsProgress(head.wait.values, head.wait.unsent, output, cap);
      }
      var now := if head.Arrived? then OutputAfter(head.value, output, cap) else output;
      DriveReportsProgress(rest, now, posted || head.PostEmpty?, cap);
    }
  }

  /** If the runtime's first ending is a completion, it is the verdict of the prompt. */
  lemma CompletionIsTheVerdict(launched: bool, preparation: Preparation, signals: seq<Signal>, cap: nat,
                               exit: Option<nat>, code: string, runtime: Emission, output: string)
    requires runtime == Ran(launched, preparation, signals, cap, exit, code)
    requires First(runtime.events) == Some(Completed(output))
    ensures preparation.Prepared? && Driven(signals, "", false, cap).completion == Some(Completed(output))
  {
    var inner := Inner(preparation, signals, cap).events;
    if exit.Some? && exit.value <= |inner| {
      FirstAppend(inner[..exit.value], [Report.Uncertain(code)]);
      FirstAppend(inner[..exit.value], inner[exit.value..]);
      assert inner[..exit.value] + inner[exit.value..] == inner;
    } else {
      FirstAppend(inner, [Report.Uncertain(code)]);
    }
    InnerVerdict(preparation, signals, cap);
  }

  lemma InnerVerdict(preparation: Preparation, signals: seq<Signal>, cap: nat)
    ensures First(Inner(preparation, signals, cap).events)
            == if preparation.Prepared? then Driven(signals, "", false, cap).completion
                else Some(Failed(preparation.code))
  {
    match preparation
    case Unprepared(started, why) =>
      var begun := if started.Some? then [Progress(Started(started.value))] else [];
      FirstAppend(begun, [Failed(why)]);
      NoEndingNoFirst(begun);
    case Prepared(version) =>
      var d := Driven(signals, "", false, cap);
      DriveReportsProgress(signals, "", false, cap);
      VerdictsAreConservative(signals, "", false, cap);
      NoEndingNoFirst([Progress(Started(version))] + d.events);
      FirstAppend([Progress(Started(version))] + d.events, if d.completion.Some? then [d.completion.value] else []);
  }

  /** The record of a completion whose output is `said`, cut to the limit. */
  function CompletedWith(said: string, limit: nat): Record {
    var (text, truncated) := Truncated(said, limit);
    Record(P.Completed, Some(text), truncated, None)
  }

  /** What the agent said before its answer while the prompt was driven, whoever was still reading. */
  function SaidText(signals: seq<Signal>): string {
    Concat(Said(Received(signals, false) + Late(signals, false)))
  }

  function HeardText(signals: seq<Signal>, limit: nat): string {
    Concat(Heard(Received(signals, false), "", limit + 4))
  }

  function MissedText(signals: seq<Signal>, limit: nat): string {
    Concat(Missed(Received(signals, false), Late(signals, false), "", limit + 4))
  }

  /** The record of a completion answers for its text: what was heard, and when that is all that was said. */
  predicate TextAccounted(record: Record, signals: seq<Signal>, limit: nat) {
    var said, heard, missed := SaidText(signals), HeardText(signals, limit), MissedText(signals, limit);
    && said == heard + missed
    && record == CompletedWith(heard, limit)
    && (Confirmed(Received(signals, false), "", limit + 4) ==> missed == "")
    && (record == CompletedWith(said, limit) <==> missed == "" || Len(heard) > limit)
  }

  /** All that happened in an attempt: to its runtime and to the processes its events went through. */
  datatype Course = Course(
    launched: bool,
    preparation: Preparation,
    signals: seq<Signal>,
    exit: Option<nat>,
    code: string,
    scripts: Scripts)

  function RuntimeOf(c: Course, limit: nat): Emission {
    Ran(c.launched, c.preparation, c.signals, limit + 4, c.exit, c.code)
  }

  function EventsFrom(c: Course, limit: nat): seq<Report> {
    EventsOfAttempt(RuntimeOf(c, limit), c.scripts)
  }

  /**
    End to end. A submission is only recorded as completed on a successful answer of its agent. Its output
    and its truncation flag are then those of everything that was heard before that answer, cut once to
    the limit: capturing with four bytes of slack on the way loses nothing. They are those of everything
    the agent said before it if the answer came on the stream; otherwise, if and only if the wait for the
    stream missed no text, or what was heard exceeds the limit anyway.
  */
  lemma CompletedOutputIsWhatTheAgentSaidIff(c: Course, limit: nat)
    requires Recorded(EventsFrom(c, limit), limit).state.Completed?
    ensures exists i :: 0 <= i < |c.signals| && Answers(c.signals[i])
    ensures TextAccounted(Recorded(EventsFrom(c, limit), limit), c.signals, limit)
  {
    var output := CompletedRecord(RuntimeOf(c, limit), c.scripts, limit);
    CompletionIsTheVerdict(c.launched, c.preparation, c.signals, limit + 4, c.exit, c.code, RuntimeOf(c, limit),
        output);
    CompletionRecordsWhatWasHeard(c.signals, limit, output);
    HeardIsSaidIff(Received(c.signals, false), Late(c.signals, false), limit + 4, limit);
  }

  /** Cutting what was heard is cutting what was said. */
  lemma HeardIsSaidIff(values: seq<Value>, late: seq<Value>, cap: nat, limit: nat)
    ensures var said, heard := Concat(Said(values + late)), Concat(Heard(values, "", cap));
            var missed := Concat(Missed(values, late, "", cap));
      && said == heard + missed
      && (Confirmed(values, "", cap) ==> missed == "")
      && (CompletedWith(heard, limit) == CompletedWith(said, limit) <==> missed == "" || Len(heard) > limit)
  {
    SaidIsHeardOrMissed(values, late, "", cap);
    ConcatAppend(Heard(values, "", cap), Missed(values, late, "", cap));
    TruncatedAlikeIff(Concat(Heard(values, "", cap)), Concat(Missed(values, late, "", cap)), limit);
  }

  /** What was said before an answer that only the request itself returned can be lost. */
  lemma WhatTheAgentSaidCanBeLost(limit: nat)
    ensures var reply, delta, answer :=
              Message(None, Some(false), false), Message(Some(Delta("x")), None, false), Response(false, "end_turn");
            var signals := [PostAnswered(answer, Wait([reply, delta, answer], false, []))];
      && Driven(signals, "", false, limit + 4).completion == Some(Completed(""))
      && SaidText(signals) == "x"
      && CompletedWith("", limit) != CompletedWith("x", limit)
  {
    var reply, delta, answer :=
      Message(None, Some(false), false), Message(Some(Delta("x")), None, false), Response(false, "end_turn");
    AfterAFailedReply(reply, delta, answer, limit + 4);
    TruncatedAlikeIff("", "x", limit);
    assert "" + "x" == "x";
  }

  lemma AfterAFailedReply(reply: Value, delta: Value, answer: Value, cap: nat)
    requires reply == Message(None, Some(false), false) && delta == Message(Some(Delta("x")), None, false)
    requires answer.Response?
    ensures Awaited([reply, delta, answer], false, "", cap) == Await("", [], None)
    ensures Concat(Said([reply, delta, answer] + [])) == "x"
  {
    var values := [reply, delta, answer];
    assert values + [] == values;
    assert values[1..] == [delta, answer] && values[1..][1..] == [answer];
    var text: seq<string> := ["x"];
    assert Said(values[1..]) == text;
    assert text[..0] == [] && Concat(text) == "x";
  }

  /** What an attempt may record. */
  ghost predicate Trustworthy(record: Record, c: Course, limit: nat) {
    && Conservative(record, RuntimeOf(c, limit), c.scripts, limit)
    && (record.state.Completed? ==>
          (exists i :: 0 <= i < |c.signals| && Answers(c.signals[i])) && TextAccounted(record, c.signals, limit))
  }

  lemma RecordIsTrustworthy(c: Course, limit: nat)
    ensures Trustworthy(Recorded(EventsFrom(c, limit), limit), c, limit)
  {
    OutcomeIsConservative(RuntimeOf(c, limit), c.scripts, limit);
    if Recorded(EventsFrom(c, limit), limit).state.Completed? {
      CompletedOutputIsWhatTheAgentSaidIff(c, limit);
    }
  }

  lemma CompletedRecord(runtime: Emission, s: Scripts, limit: nat) returns (output: string)
    requires Recorded(EventsOfAttempt(runtime, s), limit).state.Completed?
    ensures First(runtime.events) == Some(Completed(output))
    ensures Recorded(EventsOfAttempt(runtime, s), limit) == CompletedWith(output, limit)
  {
    OutcomeIsConservative(runtime, s, limit);
    output := First(runtime.events).value.output;
  }

  /** Four bytes of slack are enough, so the capture may be replaced by everything that was heard. */
  lemma CompletionRecordsWhatWasHeard(signals: seq<Signal>, limit: nat, output: string)
    requires Driven(signals, "", false, limit + 4).completion == Some(Completed(output))
    ensures exists i :: 0 <= i < |signals| && Answers(signals[i])
    ensures CompletedWith(output, limit) == CompletedWith(HeardText(signals, limit), limit)
  {
    VerdictsAreConservative(signals, "", false, limit + 4);
    CompletionCaptures(signals, limit + 4, output);
    SlackOfFourIsEnough(Heard(Received(signals, false), "", limit + 4), limit, 4);
  }
}
