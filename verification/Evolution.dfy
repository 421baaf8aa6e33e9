/** How one store transaction may change the database, summarised for reasoning about runs. */
module Evolution {
  import opened Prelude
  import opened Protocol
  import opened StoreModel
  import opened StoreProofs

  /** A row keeps its frozen part, never loses a revision or a cancel request, and stops changing once terminal. */
  predicate RowEvolves(x: Submission, y: Submission) {
    && y.frozen == x.frozen
    && x.revision <= y.revision
    && (x.cancelRequested ==> y.cancelRequested)
    && (x.state.Terminal() ==> y == x)
    && (x.state.Running? ==> !y.state.Queued?)
    && (y.schedule != x.schedule || y.state != x.state ==> x.revision < y.revision)
  }

  /** An attempt keeps its owner and source, and stops changing once ended. */
  predicate AttemptEvolves(x: Attempt, y: Attempt) {
    && y.submission == x.submission
    && y.source == x.source
    && (x.state.Ended? ==> y == x)
    && (y.capacityHeld ==> x.capacityHeld)
  }

  predicate RowStep(x: Db, y: Db, id: SubmissionId)
    requires id in x.subs
  {
    && id in y.subs
    && RowEvolves(x.subs[id], y.subs[id])
    && Log(x, id) <= Log(y, id)
    && (x.subs[id].state.Terminal() ==> Log(y, id) == Log(x, id))
  }

  predicate AttemptStep(x: Db, y: Db, a: AttemptId)
    requires a in x.attempts
  {
    a in y.attempts && AttemptEvolves(x.attempts[a], y.attempts[a])
  }

  ghost predicate Evolves(x: Db, y: Db) {
    && (forall id {:trigger RowStep(x, y, id)} :: id in x.subs ==> RowStep(x, y, id))
    && (forall a {:trigger AttemptStep(x, y, a)} :: a in x.attempts ==> AttemptStep(x, y, a))
  }

  lemma EvolvesTransitively(x: Db, y: Db, z: Db)
    requires Evolves(x, y) && Evolves(y, z)
    ensures Evolves(x, z)
  {
    forall id | id in x.subs ensures RowStep(x, z, id) {
      assert RowStep(x, y, id) && RowStep(y, z, id);
    }
    forall a | a in x.attempts ensures AttemptStep(x, z, a) {
      assert AttemptStep(x, y, a) && AttemptStep(y, z, a);
    }
  }

  /** No attempt and no cancel flag of an existing row changes. */
  ghost predicate Quiet(x: Db, y: Db) {
    && y.attempts == x.attempts
    && (forall id :: id in x.subs ==> id in y.subs && y.subs[id].cancelRequested == x.subs[id].cancelRequested)
  }

  /** Only attempt `a` changes. */
  ghost predicate Moves(x: Db, y: Db, a: AttemptId) {
    && a in x.attempts && a in y.attempts
    && y.attempts == x.attempts[a := y.attempts[a]]
    && AttemptEvolves(x.attempts[a], y.attempts[a])
    && (forall id :: id in x.subs ==> id in y.subs && y.subs[id].cancelRequested == x.subs[id].cancelRequested)
  }

  lemma CommitEvolves(db: Db, a: Db, id: SubmissionId, s: Submission, entries: seq<Event>)
    requires a == db.(attempts := a.attempts)
    requires forall t :: t in db.attempts ==> t in a.attempts && AttemptEvolves(db.attempts[t], a.attempts[t])
    requires id in db.subs ==> !db.subs[id].state.Terminal() && RowEvolves(db.subs[id], s)
    requires id !in db.subs ==> id !in db.logs
    ensures Evolves(db, Commit(a, id, s, entries))
  {
  }

  lemma AcceptEvolves(db: Db, id: SubmissionId, f: Frozen)
    requires Inv(db) && id !in db.subs
    ensures Evolves(db, Accept(db, id, f).db) && Quiet(db, Accept(db, id, f).db)
  {
    CommitEvolves(db, db, id, FreshRow(f), [Entry(id, FreshRow(f), None, Created)]);
  }

  lemma FinishQueuedEvolves(db: Db, id: SubmissionId, state: SubmissionState, reason: Reason, error: Option<ErrorCode>,
                            now: Time)
    requires state.Terminal()
    ensures var out := FinishQueued(db, id, state, reason, error, now); Evolves(db, out.db) && Quiet(db, out.db)
  {
    if id in db.subs && db.subs[id].state.Queued? {
      var s := db.subs[id];
      var s' := s.(state := state, revision := s.revision + 1, finishedAt := Some(now),
          error := if error.Some? then error else s.error);
      CommitEvolves(db, db, id, s', [Entry(id, s', None, StateChanged(Queued, state, Some(reason)))]);
    }
  }

  lemma SetBlockerEvolves(db: Db, id: SubmissionId, b: Blocker)
    ensures Evolves(db, SetBlocker(db, id, b).db) && Quiet(db, SetBlocker(db, id, b).db)
  {
    if id in db.subs && db.subs[id].state.Queued? && db.subs[id].blocker != Some(b) {
      var s := db.subs[id].(blocker := Some(b), revision := db.subs[id].revision + 1);
      CommitEvolves(db, db, id, s, [Entry(id, s, None, QueueBlocked(b))]);
    }
  }

  lemma PatchEvolves(db: Db, id: SubmissionId, expected: nat, p: Patch)
    ensures var out := PatchScheduling(db, id, expected, p);
      && Evolves(db, out.db) && Quiet(db, out.db)
      && (out.reply.Ok? ==> id in db.subs && db.subs[id].revision == expected < out.db.subs[id].revision)
  {
    if PatchScheduling(db, id, expected, p).reply.Ok? {
      var s := db.subs[id].(schedule := p.Over(db.subs[id].schedule), revision := db.subs[id].revision + 1);
      CommitEvolves(db, db, id, s, [Entry(id, db.subs[id], None, SchedulingChanged(p))]);
    }
  }

  /**
    A cancellation touches no attempt; it raises the flag only of a running submission, which it then
    reports as pending.
  */
  lemma CancelEvolves(db: Db, id: SubmissionId, now: Time)
    ensures var out := Cancel(db, id, now);
      && Evolves(db, out.db)
      && out.db.attempts == db.attempts
      && out.db.subs.Keys == db.subs.Keys
      && (forall x :: x in db.subs && x != id ==> out.db.subs[x] == db.subs[x])
      && (id in db.subs && db.subs[id].state.Running? ==>
            out.reply.Ok? && out.reply.value.disposition.CancelPending? && out.db.subs[id].state.Running?)
      && (id in db.subs && !db.subs[id].state.Running? ==>
            out.db.subs[id].cancelRequested == db.subs[id].cancelRequested)
  {
    if id in db.subs && db.subs[id].state.Queued? {
      FinishQueuedEvolves(db, id, Cancelled, CancelledByClient, None, now);
    } else if id in db.subs && db.subs[id].state.Running? && !db.subs[id].cancelRequested {
      var s := db.subs[id].(cancelRequested := true, revision := db.subs[id].revision + 1);
      CommitEvolves(db, db, id, s, [Entry(id, db.subs[id], ActiveOf(db, id), CancellationRequested)]);
    }
  }

  lemma MarkEvolves(db: Db, id: SubmissionId, a: AttemptId, version: Option<string>)
    requires Inv(db) && Active(db, a) && db.attempts[a].submission == id
    ensures var out := MarkAttemptRunning(db, id, a, version);
           Evolves(db, out.db) && Moves(db, out.db, a)
           && Active(out.db, a)
  {
    Coupled(db, a);
    if db.attempts[a].state.Starting? {
      var t := db.attempts[a].(state := Executing, agentVersion := version);
      CommitEvolves(db, PutAttempt(db, a, t), id, db.subs[id],
          [Entry(id, db.subs[id], Some(a), AttemptStateChanged(Some(Starting), Executing))]);
    } else {
      assert db.attempts == db.attempts[a := db.attempts[a]];
    }
  }

  lemma AgentEventEvolves(db: Db, id: SubmissionId, a: AttemptId, kind: string, payload: string)
    requires Inv(db) && Active(db, a) && db.attempts[a].submission == id
    ensures var out := AppendAgentEvent(db, id, a, kind, payload); Evolves(db, out.db) && Quiet(db, out.db)
  {
    Coupled(db, a);
    CommitEvolves(db, db, id, db.subs[id], [Entry(id, db.subs[id], Some(a), AgentReport(kind, payload))]);
  }

  /** The owner's first finish always succeeds: both row-count errors are out of its reach. */
  lemma OwnerFinishes(db: Db, spec: FinishSpec, now: Time)
    requires Inv(db) && spec.state.Outcome() && Active(db, spec.attempt)
             && db.attempts[spec.attempt].submission == spec.submission
    ensures var out := Finish(db, spec, now);
      && out.reply.Ok?
      && Evolves(db, out.db) && Moves(db, out.db, spec.attempt)
      && out.db.attempts[spec.attempt].state == Ended(spec.state)
      && out.db.subs[spec.submission].state == spec.state
      && out.db.subs[spec.submission].output == spec.output
      && out.db.subs[spec.submission].truncated == spec.truncated
      && out.db.subs[spec.submission].error == spec.error
      && Recovers(db, out.db, spec)
  {
    Coupled(db, spec.attempt);
    FinishEffect(db, spec, now);
    var id, a, out := spec.submission, spec.attempt, Finish(db, spec, now);
    var s := db.subs[id].(state := spec.state, revision := db.subs[id].revision + 1, output := spec.output,
                          truncated := spec.truncated, error := spec.error, finishedAt := Some(now));
    CommitEvolves(db, PutAttempt(db, a, out.db.attempts[a]), id, s,
                  Entries(id, s, Some(a), AttemptStateChanged(None, Ended(spec.state)),
                      StateChanged(Running, spec.state, None)));
  }

  /** An uncertain finish keeps the source slot; the other outcomes give it back. */
  ghost predicate Recovers(x: Db, y: Db, spec: FinishSpec) {
    && (forall id :: id in x.subs && id != spec.submission ==> id in y.subs && y.subs[id] == x.subs[id])
    && y.subs.Keys == x.subs.Keys
    && spec.attempt in y.attempts
    && (y.attempts[spec.attempt].capacityHeld <==> spec.state.Uncertain?)
  }

  lemma ClaimEvolves(db: Db, spec: ClaimSpec)
    requires Inv(db) && spec.attempt !in db.attempts
    ensures var out := Claim(db, spec, 1);
      && Evolves(db, out.db)
      && (out.reply.Err? ==> out.db == db)
      && (out.reply.Ok? ==>
            && out.db.attempts == db.attempts[spec.attempt := out.reply.value]
            && out.reply.value.submission == spec.submission
            && out.reply.value.source == spec.source
            && out.reply.value.state.Starting? && out.reply.value.capacityHeld
            && spec.submission in db.subs && db.subs[spec.submission].state.Queued?
            && (forall id :: id in db.subs ==>
              id in out.db.subs
              && out.db.subs[id].cancelRequested == db.subs[id].cancelRequested)
            && (forall id :: id in db.subs && id != spec.submission ==> out.db.subs[id] == db.subs[id]))
  {
    var out := Claim(db, spec, 1);
    if out.reply.Ok? {
      var id := spec.submission;
      var s := db.subs[id].(state := Running, blocker := None, revision := db.subs[id].revision + 1);
      CommitEvolves(db, PutAttempt(db, spec.attempt, out.reply.value), id, s,
          Entries(id, s, Some(spec.attempt), AttemptCreated, STARTED));
    }
  }

  /** Without a new attempt no source gains a held slot. */
  lemma HeldShrinks(x: Db, y: Db, source: string)
    requires Evolves(x, y) && y.attempts.Keys == x.attempts.Keys
    ensures HeldBy(y, source) <= HeldBy(x, source)
  {
    forall a | a in HeldBy(y, source) ensures a in HeldBy(x, source) {
      assert AttemptStep(x, y, a);
    }
  }
}
