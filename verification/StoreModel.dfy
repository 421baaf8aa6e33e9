/**
  The database as a value, and every store transaction as a function on it.

  A transaction either commits, giving a new database, or returns an error and leaves it alone.
  `sent` lists the envelopes the method broadcasts after its commit, in order.
*/
module StoreModel {
  import opened Prelude
  import opened Protocol
  import opened EventLog

  datatype Route = Route(id: string, adapter: string, model: string, sourceIds: seq<string>, targetId: string)

  /** The part of a submission fixed when it is accepted. */
  datatype Frozen = Frozen(
    client: string,
    key: string,
    digest: string,
    profile: string,
    policy: string,
    accepted: Scheduling,
    routes: Option<seq<Route>>, // NULL for rows written before execution snapshots existed
    workspace: Option<string>,
    writable: bool,
    createdAt: Time)

  datatype Submission = Submission(
    frozen: Frozen,
    state: SubmissionState,
    revision: nat,
    schedule: Scheduling,
    blocker: Option<Blocker>,
    cancelRequested: bool,
    latestSequence: nat,
    output: Option<string>,
    truncated: bool,
    error: Option<ErrorCode>,
    finishedAt: Option<Time>)

  datatype Attempt = Attempt(
    submission: SubmissionId,
    number: nat,
    state: AttemptState,
    source: string,
    agentVersion: Option<string>,
    error: Option<ErrorCode>,
    capacityHeld: bool)

  datatype Db = Db(
    subs: map<SubmissionId, Submission>,
    attempts: map<AttemptId, Attempt>,
    logs: map<SubmissionId, seq<Event>>)

  datatype StoreError =
    NotFound | IdempotencyConflict | RevisionConflict | NotQueued | WorkspaceBusy | InvalidScheduling | Internal

  datatype Outcome<+R> = Outcome(db: Db, reply: Result<R, StoreError>, sent: seq<Event>)

  datatype Accepted = Accepted(id: SubmissionId, digest: string, profile: string, policy: string, replay: bool)

  datatype ClaimSpec = ClaimSpec(submission: SubmissionId, attempt: AttemptId, source: string)

  datatype FinishSpec = FinishSpec(
    submission: SubmissionId,
    attempt: AttemptId,
    state: SubmissionState,
    output: Option<string>,
    truncated: bool,
    error: Option<ErrorCode>,
    agentVersion: Option<string>)

  datatype Disposition = AlreadyTerminal | CancelledNow | CancelPending

  datatype Cancellation = Cancellation(disposition: Disposition, revision: nat)

  datatype FinalResult = FinalResult(state: SubmissionState, output: Option<string>, truncated: bool,
                                     error: Option<ErrorCode>, finishedAt: Time)

  // ----- reading -----

  function Log(db: Db, id: SubmissionId): seq<Event> {
    if id in db.logs then db.logs[id] else []
  }

  function ViewOf(db: Db, id: SubmissionId): View
    requires id in db.subs
  {
    Replay(db.subs[id].frozen.accepted, Log(db, id))
  }

  predicate Active(db: Db, a: AttemptId) {
    a in db.attempts && db.attempts[a].state.Active()
  }

  predicate Locks(db: Db, id: SubmissionId) {
    id in db.subs && db.subs[id].state.Locks()
  }

  predicate Shares(x: Frozen, y: Frozen) {
    x.workspace.Some? && x.workspace == y.workspace && (x.writable || y.writable)
  }

  /** Some other submission runs in, or may still be writing to, the workspace of `id`. */
  predicate Busy(db: Db, id: SubmissionId)
    requires id in db.subs
  {
    exists other :: other in db.subs && other != id && Locks(db, other)
        && Shares(db.subs[id].frozen, db.subs[other].frozen)
  }

  function HeldBy(db: Db, source: string): set<AttemptId> {
    set a | a in db.attempts && db.attempts[a].source == source && db.attempts[a].capacityHeld
  }

  function ActiveForSource(db: Db, source: string): nat {
    |HeldBy(db, source)|
  }

  /** A cursor that does not fit the column type is an internal error. */
  function EventsAfter(db: Db, id: SubmissionId, after: nat): Result<seq<Event>, StoreError> {
    if id !in db.subs then Err(NotFound)
    else if after > I64_MAX then Err(Internal)
    else Ok(Suffix(Log(db, id), after))
  }

  function Suffix(log: seq<Event>, after: nat): seq<Event> {
    if log == [] then []
    else Suffix(log[..|log| - 1], after) + (if log[|log| - 1].sequence > after then [log[|log| - 1]] else [])
  }

  /** The row holding an idempotency key; the schema keeps (client, key) unique. */
  ghost function Holder(db: Db, client: string, key: string): (r: Option<SubmissionId>)
    ensures r.Some? ==> r.value in db.subs && KeyOf(db.subs[r.value]) == (client, key)
    ensures r.None? ==> forall id :: id in db.subs ==> KeyOf(db.subs[id]) != (client, key)
  {
    if exists id :: id in db.subs && KeyOf(db.subs[id]) == (client, key) then
      var id :| id in db.subs && KeyOf(db.subs[id]) == (client, key);
      Some(id)
    else None
  }

  function KeyOf(s: Submission): (string, string) {
    (s.frozen.client, s.frozen.key)
  }

  function Receipt(db: Db, id: SubmissionId, replay: bool): Accepted
    requires id in db.subs
  {
    var f := db.subs[id].frozen;
    Accepted(id, f.digest, f.profile, f.policy, replay)
  }

  ghost function IdempotentReplay(db: Db, client: string, key: string,
                                  digest: string): Result<Option<Accepted>, StoreError> {
    var holder := Holder(db, client, key);
    if holder.None? then Ok(None)
    else if db.subs[holder.value].frozen.digest != digest then Err(IdempotencyConflict)
    else Ok(Some(Receipt(db, holder.value, true)))
  }

  function CancelFlag(db: Db, id: SubmissionId): Result<bool, StoreError> {
    if id !in db.subs then Err(NotFound) else Ok(db.subs[id].cancelRequested)
  }

  function ResultOf(db: Db, id: SubmissionId): Result<FinalResult, StoreError> {
    if id !in db.subs then Err(NotFound)
    else
      var s := db.subs[id];
      if !s.state.Terminal() then Err(NotQueued)
      else if s.finishedAt.None? then Err(Internal)
      else Ok(FinalResult(s.state, s.output, s.truncated, s.error, s.finishedAt.value))
  }

  // ----- writing -----

  function PutAttempt(db: Db, a: AttemptId, t: Attempt): Db {
    db.(attempts := db.attempts[a := t])
  }

  /** Stores the row and its new log entries; each entry takes the next sequence number. */
  function Commit(db: Db, id: SubmissionId, s: Submission, entries: seq<Event>): Db {
    Db(db.subs[id := s.(latestSequence := s.latestSequence + |entries|)],
       db.attempts,
       db.logs[id := Log(db, id) + entries])
  }

  function Entry(id: SubmissionId, s: Submission, attempt: Option<AttemptId>, body: EventBody): Event {
    Event(id, attempt, s.latestSequence + 1, body)
  }

  function Entries(id: SubmissionId, s: Submission, attempt: Option<AttemptId>, first: EventBody,
                   second: EventBody): seq<Event> {
    [Event(id, attempt, s.latestSequence + 1, first), Event(id, attempt, s.latestSequence + 2, second)]
  }

  function Committed<R>(db: Db, id: SubmissionId, s: Submission, entries: seq<Event>, reply: R): Outcome<R> {
    Outcome(Commit(db, id, s, entries), Ok(reply), entries)
  }

  function Refused<R>(db: Db, error: StoreError): Outcome<R> {
    Outcome(db, Err(error), [])
  }

  function FreshRow(f: Frozen): Submission {
    Submission(f, Queued, 1, f.accepted, None, false, 0, None, false, None, None)
  }

  ghost function Accept(db: Db, id: SubmissionId, f: Frozen): Outcome<Accepted> {
    var holder := Holder(db, f.client, f.key);
    if holder.Some? then
      if db.subs[holder.value].frozen.digest != f.digest then Refused(db, IdempotencyConflict)
      else Outcome(db, Ok(Receipt(db, holder.value, true)), [])
    else
      Committed(db, id, FreshRow(f), [Entry(id, FreshRow(f), None, Created)],
                Accepted(id, f.digest, f.profile, f.policy, false))
  }

  /** `COALESCE(MAX(number), 0) + 1` over the attempts of one submission. */
  ghost predicate NextNumber(db: Db, id: SubmissionId, n: nat) {
    && (forall a :: a in db.attempts && db.attempts[a].submission == id ==> db.attempts[a].number < n)
    && (n == 1 || exists a :: a in db.attempts && db.attempts[a].submission == id && db.attempts[a].number + 1 == n)
  }

  const STARTED := StateChanged(Queued, Running, None)

  function Claim(db: Db, spec: ClaimSpec, number: nat): Outcome<Attempt> {
    var id := spec.submission;
    if id !in db.subs then Refused(db, NotFound)
    else if !db.subs[id].state.Queued? then Refused(db, NotQueued)
    else if Busy(db, id) then Refused(db, WorkspaceBusy)
    else
      var t := Attempt(id, number, Starting, spec.source, None, None, true);
      var s := db.subs[id].(state := Running, blocker := None, revision := db.subs[id].revision + 1);
      Committed(PutAttempt(db, spec.attempt, t), id, s, Entries(id, s, Some(spec.attempt), AttemptCreated, STARTED), t)
  }

  function MarkAttemptRunning(db: Db, id: SubmissionId, a: AttemptId, version: Option<string>): Outcome<()> {
    if a !in db.attempts || db.attempts[a].submission != id || !db.attempts[a].state.Starting? then
      Outcome(db, Ok(()), [])
    else if id !in db.subs then Refused(db, Internal)
    else
      var t := db.attempts[a].(state := Executing, agentVersion := version);
      var e := Entry(id, db.subs[id], Some(a), AttemptStateChanged(Some(Starting), Executing));
      Committed(PutAttempt(db, a, t), id, db.subs[id], [e], ())
  }

  /** No state is checked: only the tasks that call this keep it from writing after the end. */
  function AppendAgentEvent(db: Db, id: SubmissionId, a: AttemptId, kind: string, payload: string): Outcome<()> {
    if id !in db.subs then Refused(db, Internal)
    else Committed(db, id, db.subs[id], [Entry(id, db.subs[id], Some(a), AgentReport(kind, payload))], ())
  }

  function Finish(db: Db, spec: FinishSpec, now: Time): Outcome<()> {
    var id, a := spec.submission, spec.attempt;
    if !spec.state.Outcome() then Refused(db, Internal)
    else if id !in db.subs || !db.subs[id].state.Running? then Refused(db, NotQueued)
    else if a !in db.attempts || db.attempts[a].submission != id || !Active(db, a) then Refused(db, Internal)
    else
      var s := db.subs[id].(state := spec.state, revision := db.subs[id].revision + 1, output := spec.output,
                            truncated := spec.truncated, error := spec.error, finishedAt := Some(now));
      var t := db.attempts[a].(state := Ended(spec.state), error := spec.error,
                               agentVersion := if spec.agentVersion.Some? then spec.agentVersion
                                   else db.attempts[a].agentVersion,
                               capacityHeld := spec.state.Uncertain?);
      Committed(PutAttempt(db, a, t), id, s,
                Entries(id, s, Some(a), AttemptStateChanged(None, Ended(spec.state)),
                    StateChanged(Running, spec.state, None)), ())
  }

  function SetBlocker(db: Db, id: SubmissionId, b: Blocker): Outcome<()> {
    if id !in db.subs || !db.subs[id].state.Queued? || db.subs[id].blocker == Some(b) then Outcome(db, Ok(()), [])
    else
      var s := db.subs[id].(blocker := Some(b), revision := db.subs[id].revision + 1);
      Committed(db, id, s, [Entry(id, s, None, QueueBlocked(b))], ())
  }

  /** Ends a queued submission; `error` is only written by the snapshot rejection. */
  function FinishQueued(db: Db, id: SubmissionId, state: SubmissionState, reason: Reason, error: Option<ErrorCode>,
                        now: Time): Outcome<()> {
    if id !in db.subs || !db.subs[id].state.Queued? then Refused(db, NotQueued)
    else
      var row := db.subs[id];
      var s := row.(state := state, revision := row.revision + 1, finishedAt := Some(now),
                     error := if error.Some? then error else row.error);
      Committed(db, id, s, [Entry(id, s, None, StateChanged(Queued, state, Some(reason)))], ())
  }

  function Expire(db: Db, id: SubmissionId, now: Time): Outcome<()> {
    FinishQueued(db, id, Expired, StartDeadlineExpired, None, now)
  }

  function RejectUnfrozen(db: Db, id: SubmissionId, now: Time): Outcome<()> {
    FinishQueued(db, id, Failed, ConfigurationSnapshotMissing, Some(RuntimeUnavailable), now)
  }

  /** The attempt a cancellation is addressed to; legal databases have at most one active attempt a submission. */
  ghost function ActiveOf(db: Db, id: SubmissionId): (r: Option<AttemptId>)
    ensures r.Some? ==> Active(db, r.value) && db.attempts[r.value].submission == id
    ensures r.None? ==> forall a :: Active(db, a) ==> db.attempts[a].submission != id
  {
    if exists a :: Active(db, a) && db.attempts[a].submission == id then
      var a :| Active(db, a) && db.attempts[a].submission == id;
      Some(a)
    else None
  }

  ghost function Cancel(db: Db, id: SubmissionId, now: Time): Outcome<Cancellation> {
    if id !in db.subs then Refused(db, NotFound)
    else
      var s := db.subs[id];
      if s.state.Terminal() then Outcome(db, Ok(Cancellation(AlreadyTerminal, s.revision)), [])
      else if s.state.Queued? then
        var out := FinishQueued(db, id, Cancelled, CancelledByClient, None, now);
        Outcome(out.db, Ok(Cancellation(CancelledNow, s.revision + 1)), out.sent)
      else if s.cancelRequested then Outcome(db, Ok(Cancellation(CancelPending, s.revision)), [])
      else
        Committed(db, id, s.(cancelRequested := true, revision := s.revision + 1),
                  [Entry(id, s, ActiveOf(db, id), CancellationRequested)], Cancellation(CancelPending, s.revision + 1))
  }

  function PatchScheduling(db: Db, id: SubmissionId, expected: nat, p: Patch): Outcome<Submission> {
    if p.Empty() then Refused(db, NotQueued)
    else if id !in db.subs then Refused(db, NotFound)
    else
      var s := db.subs[id];
      if s.revision != expected then Refused(db, RevisionConflict)
      else if !s.state.Queued? then Refused(db, NotQueued)
      else if !p.Over(s.schedule).Ordered() then Refused(db, InvalidScheduling)
      else
        var s' := s.(schedule := p.Over(s.schedule), revision := s.revision + 1);
        Committed(db, id, s', [Entry(id, s, None, SchedulingChanged(p))], s'.(latestSequence := s.latestSequence + 1))
  }

  function Lost(id: SubmissionId, a: AttemptId): FinishSpec {
    FinishSpec(id, a, Uncertain, None, false, Some(RunnerLost), None)
  }

  // ----- the invariant every transaction keeps -----

  ghost predicate RowInv(db: Db, id: SubmissionId)
    requires id in db.subs
  {
    var s, v := db.subs[id], ViewOf(db, id);
    && LegalLog(id, s.frozen.accepted, Log(db, id))
    && s.latestSequence == |Log(db, id)|
    && v == View(s.state, s.revision, s.blocker, s.cancelRequested, s.schedule, v.attempt)
    && Settled(v)
    && s.schedule.Ordered()
    && (s.finishedAt.Some? <==> s.state.Terminal())
    && (v.attempt.Some? ==> v.attempt.value.id in db.attempts && db.attempts[v.attempt.value.id].submission == id)
  }

  ghost predicate AttemptInv(db: Db, a: AttemptId)
    requires a in db.attempts
  {
    var t := db.attempts[a];
    && t.submission in db.subs
    && t.number == 1
    && ViewOf(db, t.submission).attempt == Some(Run(a, t.state))
    && t.capacityHeld == t.state.Holds()
  }

  ghost predicate KeysUnique(db: Db) {
    forall x, y {:trigger KeyOf(db.subs[x]), KeyOf(db.subs[y])} ::
      x in db.subs && y in db.subs && KeyOf(db.subs[x]) == KeyOf(db.subs[y]) ==> x == y
  }

  ghost predicate Exclusive(db: Db) {
    forall x, y {:trigger Locks(db, x), Locks(db, y)} ::
      Locks(db, x) && Locks(db, y) && Shares(db.subs[x].frozen, db.subs[y].frozen) ==> x == y
  }

  ghost predicate Inv(db: Db) {
    && db.logs.Keys == db.subs.Keys
    && (forall id {:trigger RowInv(db, id)} :: id in db.subs ==> RowInv(db, id))
    && (forall a {:trigger AttemptInv(db, a)} :: a in db.attempts ==> AttemptInv(db, a))
    && KeysUnique(db)
    && Exclusive(db)
  }
}
