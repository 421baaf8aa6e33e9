/**
  The persisted event log of one submission, read as a history.

  `Replay` folds a log over the accepted scheduling request; `Legal` says which entry may come next.
  The store keeps every log legal and every row equal to the replay of its log, so the facts proved
  here about legal logs are facts about every persisted submission.
*/
module EventLog {
  import opened Prelude
  import opened Protocol

  datatype Run = Run(id: AttemptId, state: AttemptState)

  datatype View = View(
    state: SubmissionState,
    revision: nat,
    blocker: Option<Blocker>,
    cancelRequested: bool,
    schedule: Scheduling,
    attempt: Option<Run>)

  function Unborn(accepted: Scheduling): View {
    View(Queued, 0, None, false, accepted, None)
  }

  function Apply(v: View, e: Event): View {
    match e.body
    case Created => v.(revision := 1)
    case AttemptCreated =>
      if e.attempt.Some? then v.(attempt := Some(Run(e.attempt.value, Starting))) else v
    case AttemptStateChanged(_, to) =>
      if v.attempt.Some? then v.(attempt := Some(v.attempt.value.(state := to))) else v
    case StateChanged(_, to, _) =>
      v.(state := to, revision := v.revision + 1, blocker := if to.Running? then None else v.blocker)
    case QueueBlocked(b) => v.(blocker := Some(b), revision := v.revision + 1)
    case CancellationRequested => v.(cancelRequested := true, revision := v.revision + 1)
    case SchedulingChanged(p) => v.(schedule := p.Over(v.schedule), revision := v.revision + 1)
    case AgentReport(_, _) => v
  }

  function Replay(accepted: Scheduling, log: seq<Event>): View {
    if log == [] then Unborn(accepted)
    else Apply(Replay(accepted, log[..|log| - 1]), log[|log| - 1])
  }

  predicate Owns(v: View, attempt: Option<AttemptId>) {
    && v.state.Running?
    && v.attempt.Some?
    && attempt == Some(v.attempt.value.id)
    && v.attempt.value.state.Active()
  }

  predicate Waiting(v: View) {
    v.revision > 0 && v.state.Queued? && v.attempt.None?
  }

  /** The ways a queued submission ends without ever having had an attempt. */
  predicate QueueExit(to: SubmissionState, reason: Option<Reason>) {
    || (to.Cancelled? && reason == Some(CancelledByClient))
    || (to.Expired? && reason == Some(StartDeadlineExpired))
    || (to.Failed? && reason == Some(ConfigurationSnapshotMissing))
  }

  /** Which entry may follow a log that replays to `v`. */
  predicate Legal(v: View, e: Event) {
    match e.body
    case Created => v.revision == 0 && e.attempt.None?
    case AttemptCreated => Waiting(v) && e.attempt.Some?
    case AttemptStateChanged(from, to) =>
      && Owns(v, e.attempt)
      && (if to.Executing? then from == Some(Starting) && v.attempt.value.state.Starting?
          else from.None? && to.Ended? && to.outcome.Outcome())
    case StateChanged(was, to, reason) =>
      if was.Queued? then
        if to.Running? then
          && reason.None? && v.revision > 0 && v.state.Queued?
          && v.attempt.Some? && v.attempt.value.state.Starting? && e.attempt == Some(v.attempt.value.id)
        else Waiting(v) && e.attempt.None? && QueueExit(to, reason)
      else
        && was.Running? && reason.None? && v.state.Running?
        && v.attempt.Some? && e.attempt == Some(v.attempt.value.id)
        && v.attempt.value.state == Ended(to)
    case QueueBlocked(b) => Waiting(v) && e.attempt.None? && v.blocker != Some(b)
    case CancellationRequested => Owns(v, e.attempt) && !v.cancelRequested
    case SchedulingChanged(p) => Waiting(v) && e.attempt.None? && !p.Empty() && p.Over(v.schedule).Ordered()
    case AgentReport(_, _) => Owns(v, e.attempt)
  }

  predicate LegalLog(id: SubmissionId, accepted: Scheduling, log: seq<Event>) {
    log == [] ||
    (var prefix, e := log[..|log| - 1], log[|log| - 1];
     && LegalLog(id, accepted, prefix)
     && e.submission == id
     && e.sequence == |log|
     && Legal(Replay(accepted, prefix), e))
  }

  /** How a submission and its only attempt are coupled between transactions. */
  predicate Settled(v: View) {
    && v.revision > 0
    && match v.state
       case Queued => v.attempt.None? && !v.cancelRequested
       case Running => v.attempt.Some? && v.attempt.value.state.Active()
       case Completed => v.attempt.Some? && v.attempt.value.state == Ended(Completed)
       case Uncertain => v.attempt.Some? && v.attempt.value.state == Ended(Uncertain)
       case Failed => v.attempt.Some? ==> v.attempt.value.state == Ended(Failed)
       case Cancelled => v.attempt.Some? ==> v.attempt.value.state == Ended(Cancelled)
       case Expired => v.attempt.None?
  }

  /** Appending one legal entry. */
  lemma Extend(id: SubmissionId, accepted: Scheduling, log: seq<Event>, e: Event)
    ensures Replay(accepted, log + [e]) == Apply(Replay(accepted, log), e)
    ensures LegalLog(id, accepted, log + [e]) <==>
            && LegalLog(id, accepted, log) && e.submission == id
            && e.sequence == |log| + 1 && Legal(Replay(accepted, log), e)
  {
    assert (log + [e])[..|log|] == log;
  }

  /** Appending the two entries of one transaction. */
  lemma Extend2(id: SubmissionId, accepted: Scheduling, log: seq<Event>, e1: Event, e2: Event)
    requires LegalLog(id, accepted, log) && e1.submission == id && e2.submission == id
    requires e1.sequence == |log| + 1 && e2.sequence == |log| + 2
    ensures Replay(accepted, log + [e1, e2]) == Apply(Apply(Replay(accepted, log), e1), e2)
    ensures LegalLog(id, accepted, log + [e1, e2]) <==>
            Legal(Replay(accepted, log), e1) && Legal(Apply(Replay(accepted, log), e1), e2)
  {
    Extend(id, accepted, log, e1);
    Extend(id, accepted, log + [e1], e2);
    assert log + [e1, e2] == log + [e1] + [e2];
  }

  /** Every prefix of a legal log is legal, entry `i` carries sequence `i + 1` and was legal when written. */
  lemma {:induction false} LegalAt(id: SubmissionId, accepted: Scheduling, log: seq<Event>, i: nat)
    requires LegalLog(id, accepted, log) && i < |log|
    ensures LegalLog(id, accepted, log[..i])
    ensures log[i].submission == id && log[i].sequence == i + 1
    ensures Legal(Replay(accepted, log[..i]), log[i])
    ensures Replay(accepted, log[..i + 1]) == Apply(Replay(accepted, log[..i]), log[i])
  {
    var prefix := log[..|log| - 1];
    if i < |prefix| {
      LegalAt(id, accepted, prefix, i);
      assert prefix[..i] == log[..i] && prefix[..i + 1] == log[..i + 1];
    } else {
      assert log[..i] == prefix && log[..i + 1] == log;
    }
  }

  /** Only the first entry announces the submission, and after it the revision is positive. */
  lemma {:induction false} BornOnce(id: SubmissionId, accepted: Scheduling, log: seq<Event>)
    requires LegalLog(id, accepted, log)
    ensures Replay(accepted, log).revision > 0 <==> log != []
    ensures Replay(accepted, log).state.Terminal() ==> log != [] && log[|log| - 1].EndsSubmission()
  {
    if log != [] {
      BornOnce(id, accepted, log[..|log| - 1]);
    }
  }

  /**
    Terminal is final: an entry that ends the submission is the last one, there is at most one of
    them, and it is there exactly when the replayed state is terminal.
  */
  lemma TerminalIsLast(id: SubmissionId, accepted: Scheduling, log: seq<Event>)
    requires LegalLog(id, accepted, log)
    ensures forall i :: 0 <= i < |log| && log[i].EndsSubmission() ==> i == |log| - 1
    ensures Replay(accepted, log).state.Terminal() <==> log != [] && log[|log| - 1].EndsSubmission()
  {
    BornOnce(id, accepted, log);
    forall i | 0 <= i < |log| && log[i].EndsSubmission()
      ensures i == |log| - 1 && Replay(accepted, log).state.Terminal()
    {
      LegalAt(id, accepted, log, i);
      if i + 1 < |log| {
        LegalAt(id, accepted, log, i + 1);
        assert Replay(accepted, log[..i + 1]).state.Terminal();
        BornOnce(id, accepted, log[..i + 1]);
        assert false;
      }
      assert log[..i + 1] == log;
    }
  }

  /** Between two queue entries that follow one another the remembered blocker does not move. */
  lemma {:induction false} BlockerStays(id: SubmissionId, accepted: Scheduling, log: seq<Event>, i: nat, j: nat)
    requires LegalLog(id, accepted, log) && i < j <= |log|
    requires log[i].body.QueueBlocked?
    requires forall k :: i < k < j ==> !log[k].body.QueueBlocked?
    ensures Waiting(Replay(accepted, log[..j])) ==> Replay(accepted, log[..j]).blocker == Some(log[i].body.blocker)
    decreases j
  {
    LegalAt(id, accepted, log, j - 1);
    if i + 1 < j {
      BlockerStays(id, accepted, log, i, j - 1);
    }
  }

  /** Consecutive `queue.blocked` entries always differ, whatever else was logged between them. */
  lemma BlockedEntriesDiffer(id: SubmissionId, accepted: Scheduling, log: seq<Event>, i: nat, j: nat)
    requires LegalLog(id, accepted, log) && i < j < |log|
    requires log[i].body.QueueBlocked? && log[j].body.QueueBlocked?
    requires forall k :: i < k < j ==> !log[k].body.QueueBlocked?
    ensures log[i].body.blocker != log[j].body.blocker
  {
    BlockerStays(id, accepted, log, i, j);
    LegalAt(id, accepted, log, j);
  }

  /** A cancellation of the running submission was requested. */
  predicate Requested(log: seq<Event>) {
    exists i :: 0 <= i < |log| && log[i].body.CancellationRequested?
  }

  /** The cancel flag is set exactly if the log records the request, which happens at most once. */
  lemma {:induction false} FlagIsLogged(id: SubmissionId, accepted: Scheduling, log: seq<Event>)
    requires LegalLog(id, accepted, log)
    ensures Replay(accepted, log).cancelRequested <==> Requested(log)
    ensures forall i, j :: 0 <= i < j < |log| ==>
              !(log[i].body.CancellationRequested? && log[j].body.CancellationRequested?)
  {
    if log != [] {
      var prefix := log[..|log| - 1];
      FlagIsLogged(id, accepted, prefix);
      assert forall i :: 0 <= i < |prefix| ==> prefix[i] == log[i];
      if Requested(prefix) {
        var i :| 0 <= i < |prefix| && prefix[i].body.CancellationRequested?;
        assert log[i].body.CancellationRequested?;
      }
    }
  }

  /** Longer logs never replay to a smaller revision. */
  lemma {:induction false} RevisionGrows(id: SubmissionId, accepted: Scheduling, log: seq<Event>, i: nat)
    requires LegalLog(id, accepted, log) && i <= |log|
    ensures Replay(accepted, log[..i]).revision <= Replay(accepted, log).revision
    decreases |log| - i
  {
    if i < |log| {
      LegalAt(id, accepted, log, i);
      RevisionGrows(id, accepted, log, i + 1);
    } else {
      assert log[..i] == log;
    }
  }

  // ----- what a log says about the schedule -----

  function PatchedPriority(p: Patch): Option<nat> {
    p.priority
  }

  function PatchedNotBefore(p: Patch): Option<Option<Time>> {
    p.notBefore
  }

  function PatchedDeadline(p: Patch): Option<Option<Time>> {
    p.startDeadline
  }

  /** The value in the last patch of the log that carries the field, or the accepted one. */
  function LastSet<T>(log: seq<Event>, accepted: T, field: Patch -> Option<T>): T {
    if log == [] then accepted
    else
      var body := log[|log| - 1].body;
      if body.SchedulingChanged? && field(body.patch).Some? then field(body.patch).value
      else LastSet(log[..|log| - 1], accepted, field)
  }

  /** A replayed schedule holds in each field what the last patch that carries the field said. */
  lemma {:induction false} LastPatchWins(accepted: Scheduling, log: seq<Event>)
    ensures var schedule := Replay(accepted, log).schedule;
      && schedule.priority == LastSet(log, accepted.priority, PatchedPriority)
      && schedule.notBefore == LastSet(log, accepted.notBefore, PatchedNotBefore)
      && schedule.startDeadline == LastSet(log, accepted.startDeadline, PatchedDeadline)
  {
    if log != [] { LastPatchWins(accepted, log[..|log| - 1]); }
  }
}
