/** Every store transaction keeps the invariant, and what the invariant means. */
module StoreProofs {
  import opened Prelude
  import opened Protocol
  import opened EventLog
  import opened StoreModel

  /** `after` differs from `before` at most in the row, the log and the attempts of one submission. */
  ghost predicate OnlyTouches(before: Db, after: Db, id: SubmissionId) {
    && id in after.subs
    && before.subs.Keys + {id} == after.subs.Keys
    && before.logs.Keys + {id} == after.logs.Keys
    && (forall x :: x in before.subs && x != id ==> after.subs[x] == before.subs[x] && Log(after, x) == Log(before, x))
    && (forall a :: a in before.attempts ==>
      a in after.attempts
      && after.attempts[a].submission == before.attempts[a].submission)
    && (forall a :: a in after.attempts && after.attempts[a].submission != id ==>
          a in before.attempts && after.attempts[a] == before.attempts[a])
  }

  lemma RowFrame(before: Db, after: Db, id: SubmissionId, x: SubmissionId)
    requires OnlyTouches(before, after, id)
    requires x in before.subs && x != id && RowInv(before, x)
    ensures RowInv(after, x)
  {
  }

  lemma AttemptFrame(before: Db, after: Db, id: SubmissionId, a: AttemptId)
    requires OnlyTouches(before, after, id)
    requires a in after.attempts && after.attempts[a].submission != id && AttemptInv(before, a)
    ensures AttemptInv(after, a)
  {
  }

  lemma KeysFrame(before: Db, after: Db, id: SubmissionId)
    requires KeysUnique(before) && OnlyTouches(before, after, id)
    requires id in before.subs ==> after.subs[id].frozen == before.subs[id].frozen
    requires id !in before.subs ==> Holder(before, after.subs[id].frozen.client, after.subs[id].frozen.key).None?
    ensures KeysUnique(after)
  {
    forall x, y | x in after.subs && y in after.subs && KeyOf(after.subs[x]) == KeyOf(after.subs[y]) ensures x == y {
      if x in before.subs && y in before.subs {
        assert KeyOf(before.subs[x]) == KeyOf(before.subs[y]);
      }
    }
  }

  lemma ExclusionFrame(before: Db, after: Db, id: SubmissionId)
    requires Exclusive(before) && OnlyTouches(before, after, id)
    requires id in before.subs ==> after.subs[id].frozen == before.subs[id].frozen
    requires Locks(after, id) ==> Locks(before, id) || (id in before.subs && !Busy(before, id))
    ensures Exclusive(after)
  {
    forall x, y | Locks(after, x) && Locks(after, y) && x != y
      ensures !Shares(after.subs[x].frozen, after.subs[y].frozen)
    {
      var other := if x == id then y else x;
      assert other != id ==> Locks(before, other);
      if Locks(before, id) || (x != id && y != id) {
        assert Locks(before, x) && Locks(before, y);
      } else {
        assert !Shares(before.subs[id].frozen, before.subs[other].frozen);
      }
    }
  }

  lemma LocalChange(before: Db, after: Db, id: SubmissionId)
    requires Inv(before) && OnlyTouches(before, after, id)
    requires RowInv(after, id)
    requires forall a :: a in after.attempts && after.attempts[a].submission == id ==> AttemptInv(after, a)
    requires id in before.subs ==> after.subs[id].frozen == before.subs[id].frozen
    requires id !in before.subs ==> Holder(before, after.subs[id].frozen.client, after.subs[id].frozen.key).None?
    requires Locks(after, id) ==> Locks(before, id) || (id in before.subs && !Busy(before, id))
    ensures Inv(after)
  {
    KeysFrame(before, after, id);
    ExclusionFrame(before, after, id);
    forall x | x in after.subs ensures RowInv(after, x) {
      if x != id { RowFrame(before, after, id, x); }
    }
    forall a | a in after.attempts ensures AttemptInv(after, a) {
      if after.attempts[a].submission != id { AttemptFrame(before, after, id, a); }
    }
  }

  /** Storing row `s` with legal entries that lead the replay to `v` leaves a sound row. */
  lemma CommitRow(db: Db, id: SubmissionId, s: Submission, entries: seq<Event>, v: View)
    requires s.latestSequence == |Log(db, id)|
    requires LegalLog(id, s.frozen.accepted, Log(db, id) + entries)
             && Replay(s.frozen.accepted, Log(db, id) + entries) == v
    requires v == View(s.state, s.revision, s.blocker, s.cancelRequested, s.schedule, v.attempt)
    requires Settled(v) && s.schedule.Ordered() && (s.finishedAt.Some? <==> s.state.Terminal())
    requires v.attempt.Some? ==> v.attempt.value.id in db.attempts && db.attempts[v.attempt.value.id].submission == id
    ensures RowInv(Commit(db, id, s, entries), id) && ViewOf(Commit(db, id, s, entries), id) == v
  {
  }

  lemma CommitTouches(db: Db, id: SubmissionId, s: Submission, entries: seq<Event>)
    ensures OnlyTouches(db, Commit(db, id, s, entries), id)
  {
  }

  lemma CommitTouches2(db: Db, a: AttemptId, t: Attempt, s: Submission, entries: seq<Event>)
    requires a in db.attempts ==> db.attempts[a].submission == t.submission
    ensures OnlyTouches(db, Commit(PutAttempt(db, a, t), t.submission, s, entries), t.submission)
  {
  }

  /** ... and read back. */
  lemma RowFacts(db: Db, id: SubmissionId) returns (v: View)
    requires Inv(db) && id in db.subs
    ensures v == ViewOf(db, id)
    ensures var s := db.subs[id];
      && LegalLog(id, s.frozen.accepted, Log(db, id)) && s.latestSequence == |Log(db, id)|
      && id in db.logs
      && v == View(s.state, s.revision, s.blocker, s.cancelRequested, s.schedule, v.attempt)
      && Settled(v) && s.schedule.Ordered() && (s.finishedAt.Some? <==> s.state.Terminal())
      && (v.attempt.Some? ==>
            && v.attempt.value.id in db.attempts
            && db.attempts[v.attempt.value.id].submission == id
            && db.attempts[v.attempt.value.id].state == v.attempt.value.state)
  {
    v := ViewOf(db, id);
    assert RowInv(db, id);
    if v.attempt.Some? { assert AttemptInv(db, v.attempt.value.id); }
  }

  /** A waiting submission has no attempt at all, so its first attempt is number one. */
  lemma QueuedHasNoAttempt(db: Db, id: SubmissionId)
    requires Inv(db) && id in db.subs && db.subs[id].state.Queued?
    ensures forall a :: a in db.attempts ==> db.attempts[a].submission != id
  {
    assert RowInv(db, id);
    forall a | a in db.attempts ensures db.attempts[a].submission != id {
      assert AttemptInv(db, a);
    }
  }

  lemma FirstAttemptIsNumberOne(db: Db, id: SubmissionId, n: nat)
    requires Inv(db) && id in db.subs && db.subs[id].state.Queued?
    ensures NextNumber(db, id, n) <==> n == 1
  {
    QueuedHasNoAttempt(db, id);
  }

  lemma EmptyInv()
    ensures Inv(Db(map[], map[], map[]))
  {
  }

  lemma AcceptKeepsInv(db: Db, id: SubmissionId, f: Frozen)
    requires Inv(db) && id !in db.subs && f.accepted.Ordered()
    ensures Inv(Accept(db, id, f).db)
  {
    if Holder(db, f.client, f.key).None? {
      AcceptedRow(db, id, f);
      forall a | a in db.attempts ensures db.attempts[a].submission != id {
        assert AttemptInv(db, a);
      }
      LocalChange(db, Accept(db, id, f).db, id);
    }
  }

  /** Whoever accepts must have checked the two times: a new row is consistent exactly if they are ordered. */
  lemma AcceptKeepsInvIff(db: Db, id: SubmissionId, f: Frozen)
    requires Inv(db) && id !in db.subs
    ensures Inv(Accept(db, id, f).db) <==> Holder(db, f.client, f.key).Some? || f.accepted.Ordered()
  {
    if f.accepted.Ordered() {
      AcceptKeepsInv(db, id, f);
    } else if Holder(db, f.client, f.key).None? {
      DisorderIsVisible(Accept(db, id, f).db, id);
    }
  }

  lemma DisorderIsVisible(db: Db, id: SubmissionId)
    requires id in db.subs && !db.subs[id].schedule.Ordered()
    ensures !Inv(db)
  {
    assert !RowInv(db, id);
  }

  lemma AcceptedRow(db: Db, id: SubmissionId, f: Frozen)
    requires id !in db.subs && id !in db.logs && f.accepted.Ordered() && Holder(db, f.client, f.key).None?
    ensures RowInv(Accept(db, id, f).db, id) && OnlyTouches(db, Accept(db, id, f).db, id)
  {
    var e := Entry(id, FreshRow(f), None, Created);
    Extend(id, f.accepted, [], e);
    assert Log(db, id) + [e] == [] + [e];
    CommitRow(db, id, FreshRow(f), [e], Apply(Unborn(f.accepted), e));
    CommitTouches(db, id, FreshRow(f), [e]);
  }

  lemma ClaimKeepsInv(db: Db, spec: ClaimSpec)
    requires Inv(db) && spec.attempt !in db.attempts
    ensures Inv(Claim(db, spec, 1).db)
  {
    var out := Claim(db, spec, 1);
    if out.reply.Ok? {
      var id := spec.submission;
      var v := RowFacts(db, id);
      QueuedHasNoAttempt(db, id);
      ClaimedRow(db, spec, v);
      LocalChange(db, out.db, id);
    }
  }

  lemma ClaimedRow(db: Db, spec: ClaimSpec, v: View)
    requires Claim(db, spec, 1).reply.Ok? && spec.attempt !in db.attempts
    requires var id := spec.submission; var s := db.subs[id];
      && LegalLog(id, s.frozen.accepted, Log(db, id)) && s.latestSequence == |Log(db, id)|
      && v == ViewOf(db, id) == View(s.state, s.revision, s.blocker, s.cancelRequested, s.schedule, v.attempt)
      && Settled(v) && s.schedule.Ordered() && s.finishedAt.None?
    ensures var after := Claim(db, spec, 1).db;
      RowInv(after, spec.submission) && OnlyTouches(db, after, spec.submission) && AttemptInv(after, spec.attempt)
  {
    var id := spec.submission;
    var t := Claim(db, spec, 1).reply.value;
    var s := db.subs[id].(state := Running, blocker := None, revision := db.subs[id].revision + 1);
    var es := Entries(id, s, Some(spec.attempt), AttemptCreated, STARTED);
    Extend2(id, s.frozen.accepted, Log(db, id), es[0], es[1]);
    CommitRow(PutAttempt(db, spec.attempt, t), id, s, es, Apply(Apply(v, es[0]), es[1]));
    CommitTouches2(db, spec.attempt, t, s, es);
  }

  /** The attempt a running or ended submission points to, from both sides of the foreign key. */
  lemma Coupled(db: Db, a: AttemptId)
    requires Inv(db) && a in db.attempts
    ensures var t := db.attempts[a];
            && t.submission in db.subs
            && (t.state.Active() <==> db.subs[t.submission].state.Running?)
            && (t.state.Ended? ==> db.subs[t.submission].state == t.state.outcome)
            && ViewOf(db, t.submission).attempt == Some(Run(a, t.state))
            && (t.capacityHeld <==> t.state.Holds())
            && (forall b :: b in db.attempts && db.attempts[b].submission == t.submission ==> a == b)
  {
    var id := db.attempts[a].submission;
    assert AttemptInv(db, a) && RowInv(db, id);
    forall b | b in db.attempts && db.attempts[b].submission == id ensures a == b {
      assert AttemptInv(db, b);
    }
  }

  /** A transaction that moves the only attempt of a submission and logs one entry about it. */
  lemma AttemptStepKeepsInv(db: Db, a: AttemptId, t: Attempt, s: Submission, body: EventBody, v: View)
    requires Inv(db) && Active(db, a) && t.submission == db.attempts[a].submission && t.number == 1
    requires t.state.Active() && t.capacityHeld
    requires var id := t.submission;
      && id in db.subs && v == ViewOf(db, id)
      && s == db.subs[id].(cancelRequested := s.cancelRequested, revision := s.revision)
      && (var e := Event(id, Some(a), db.subs[id].latestSequence + 1, body);
          && Legal(v, e)
          && Apply(v, e) == v.(cancelRequested := s.cancelRequested, revision := s.revision,
              attempt := Some(Run(a, t.state))))
    ensures Inv(Commit(PutAttempt(db, a, t), t.submission, s, [Entry(t.submission, s, Some(a), body)]))
  {
    var id := t.submission;
    var w := RowFacts(db, id);
    Coupled(db, a);
    MovedRow(db, a, t, s, body, v);
    LocalChange(db, Commit(PutAttempt(db, a, t), id, s, [Entry(id, s, Some(a), body)]), id);
  }

  lemma MovedRow(db: Db, a: AttemptId, t: Attempt, s: Submission, body: EventBody, v: View)
    requires a in db.attempts && t.submission == db.attempts[a].submission && t.number == 1
    requires t.state.Active() && t.capacityHeld
    requires var id := t.submission;
      && id in db.subs && id in db.logs && v == ViewOf(db, id) && v.state.Running? && Settled(v)
      && LegalLog(id, s.frozen.accepted, Log(db, id)) && s.latestSequence == |Log(db, id)|
      && s == db.subs[id].(cancelRequested := s.cancelRequested, revision := s.revision)
      && v == View(s.state, db.subs[id].revision, s.blocker, db.subs[id].cancelRequested, s.schedule, v.attempt)
      && s.schedule.Ordered() && s.finishedAt.None?
      && (var e := Event(id, Some(a), s.latestSequence + 1, body);
          && Legal(v, e)
          && Apply(v, e) == v.(cancelRequested := s.cancelRequested, revision := s.revision,
              attempt := Some(Run(a, t.state))))
    requires s.revision > 0
    ensures var id := t.submission; var after := Commit(PutAttempt(db, a, t), id, s, [Entry(id, s, Some(a), body)]);
      RowInv(after, id) && OnlyTouches(db, after, id) && AttemptInv(after, a)
  {
    var id := t.submission;
    var e := Entry(id, s, Some(a), body);
    Extend(id, s.frozen.accepted, Log(db, id), e);
    CommitRow(PutAttempt(db, a, t), id, s, [e], Apply(v, e));
    CommitTouches2(db, a, t, s, [e]);
  }

  lemma MarkKeepsInv(db: Db, id: SubmissionId, a: AttemptId, version: Option<string>)
    requires Inv(db)
    ensures Inv(MarkAttemptRunning(db, id, a, version).db)
  {
    if a in db.attempts && db.attempts[a].submission == id && db.attempts[a].state.Starting? {
      Coupled(db, a);
      var v := RowFacts(db, id);
      assert AttemptInv(db, a);
      var t := db.attempts[a].(state := Executing, agentVersion := version);
      AttemptStepKeepsInv(db, a, t, db.subs[id], AttemptStateChanged(Some(Starting), Executing), v);
    }
  }

  /**
    `append_agent_event` checks nothing. It keeps the database legal exactly when the submission does
    not exist or the attempt is the live attempt of its running submission.
  */
  lemma AppendAgentKeepsInvIff(db: Db, id: SubmissionId, a: AttemptId, kind: string, payload: string)
    requires Inv(db)
    ensures Inv(AppendAgentEvent(db, id, a, kind, payload).db)
            <==> id !in db.subs || (Active(db, a) && db.attempts[a].submission == id)
  {
    if id in db.subs {
      if Active(db, a) && db.attempts[a].submission == id {
        AgentEventKeepsInv(db, id, a, kind, payload);
      } else {
        StrayAgentEventBreaksInv(db, id, a, kind, payload);
      }
    }
  }

  lemma AgentEventKeepsInv(db: Db, id: SubmissionId, a: AttemptId, kind: string, payload: string)
    requires Inv(db) && id in db.subs && Active(db, a) && db.attempts[a].submission == id
    ensures Inv(AppendAgentEvent(db, id, a, kind, payload).db)
  {
    var v := RowFacts(db, id);
    Coupled(db, a);
    assert AttemptInv(db, a);
    assert PutAttempt(db, a, db.attempts[a]) == db;
    AttemptStepKeepsInv(db, a, db.attempts[a], db.subs[id], AgentReport(kind, payload), v);
  }

  lemma StrayAgentEventBreaksInv(db: Db, id: SubmissionId, a: AttemptId, kind: string, payload: string)
    requires Inv(db) && id in db.subs && !(Active(db, a) && db.attempts[a].submission == id)
    ensures !Inv(AppendAgentEvent(db, id, a, kind, payload).db)
  {
    var after := AppendAgentEvent(db, id, a, kind, payload).db;
    var v := RowFacts(db, id);
    Extend(id, db.subs[id].frozen.accepted, Log(db, id), Entry(id, db.subs[id], Some(a), AgentReport(kind, payload)));
    assert !Owns(v, Some(a));
    if Inv(after) {
      var w := RowFacts(after, id);
    }
  }

  lemma FinishKeepsInv(db: Db, spec: FinishSpec, now: Time)
    requires Inv(db)
    ensures Inv(Finish(db, spec, now).db)
  {
    var out := Finish(db, spec, now);
    if out.reply.Ok? {
      var id, a := spec.submission, spec.attempt;
      var v := RowFacts(db, id);
      Coupled(db, a);
      assert AttemptInv(db, a);
      FinishedRow(db, spec, now, v);
      LocalChange(db, out.db, id);
    }
  }

  lemma FinishedRow(db: Db, spec: FinishSpec, now: Time, v: View)
    requires Finish(db, spec, now).reply.Ok? && db.attempts[spec.attempt].number == 1
    requires var id := spec.submission; var s := db.subs[id];
      && id in db.logs
      && LegalLog(id, s.frozen.accepted, Log(db, id)) && s.latestSequence == |Log(db, id)|
      && v == ViewOf(db, id) == View(s.state, s.revision, s.blocker, s.cancelRequested, s.schedule, v.attempt)
      && v.attempt == Some(Run(spec.attempt, db.attempts[spec.attempt].state))
      && s.schedule.Ordered()
    ensures var after := Finish(db, spec, now).db;
      RowInv(after, spec.submission) && OnlyTouches(db, after, spec.submission) && AttemptInv(after, spec.attempt)
  {
    var id, a := spec.submission, spec.attempt;
    var t := Finish(db, spec, now).db.attempts[a];
    var s := Finish(db, spec, now).db.subs[id].(latestSequence := db.subs[id].latestSequence);
    var es := Entries(id, s, Some(a), AttemptStateChanged(None, Ended(spec.state)),
        StateChanged(Running, spec.state, None));
    Extend2(id, s.frozen.accepted, Log(db, id), es[0], es[1]);
    CommitRow(PutAttempt(db, a, t), id, s, es, Apply(Apply(v, es[0]), es[1]));
    CommitTouches2(db, a, t, s, es);
  }

  /** A transaction that rewrites one waiting row and logs one legal entry. */
  lemma QueueStepKeepsInv(db: Db, id: SubmissionId, s: Submission, body: EventBody, v: View)
    requires Inv(db) && id in db.subs && db.subs[id].state.Queued? && v == ViewOf(db, id)
    requires s.frozen == db.subs[id].frozen && s.latestSequence == db.subs[id].latestSequence
    requires s.finishedAt.Some? <==> s.state.Terminal()
    requires var e := Event(id, None, s.latestSequence + 1, body);
             && Legal(v, e) && Settled(Apply(v, e))
             && Apply(v, e) == View(s.state, s.revision, s.blocker, s.cancelRequested, s.schedule, None)
    requires s.schedule.Ordered() && !s.state.Locks()
    ensures Inv(Commit(db, id, s, [Entry(id, s, None, body)]))
  {
    QueuedHasNoAttempt(db, id);
    var w := RowFacts(db, id);
    var e := Entry(id, s, None, body);
    Extend(id, s.frozen.accepted, Log(db, id), e);
    CommitRow(db, id, s, [e], Apply(v, e));
    CommitTouches(db, id, s, [e]);
    LocalChange(db, Commit(db, id, s, [e]), id);
  }

  lemma SetBlockerKeepsInv(db: Db, id: SubmissionId, b: Blocker)
    requires Inv(db)
    ensures Inv(SetBlocker(db, id, b).db)
  {
    if id in db.subs && db.subs[id].state.Queued? && db.subs[id].blocker != Some(b) {
      var v := RowFacts(db, id);
      QueueStepKeepsInv(db, id, db.subs[id].(blocker := Some(b), revision := db.subs[id].revision + 1),
          QueueBlocked(b), v);
    }
  }

  lemma FinishQueuedKeepsInv(db: Db, id: SubmissionId, state: SubmissionState, reason: Reason, error: Option<ErrorCode>,
                             now: Time)
    requires Inv(db) && QueueExit(state, Some(reason))
    ensures Inv(FinishQueued(db, id, state, reason, error, now).db)
  {
    if id in db.subs && db.subs[id].state.Queued? {
      var v := RowFacts(db, id);
      var s := db.subs[id];
      var s' := s.(state := state, revision := s.revision + 1, finishedAt := Some(now),
                   error := if error.Some? then error else s.error);
      QueueStepKeepsInv(db, id, s', StateChanged(Queued, state, Some(reason)), v);
    }
  }

  lemma CancelKeepsInv(db: Db, id: SubmissionId, now: Time)
    requires Inv(db)
    ensures Inv(Cancel(db, id, now).db)
  {
    if id in db.subs {
      var v := RowFacts(db, id);
      var s := db.subs[id];
      if s.state.Queued? {
        FinishQueuedKeepsInv(db, id, Cancelled, CancelledByClient, None, now);
      } else if s.state.Running? && !s.cancelRequested {
        RunningHasItsAttempt(db, id);
        var a := ActiveOf(db, id).value;
        Coupled(db, a);
        assert AttemptInv(db, a);
        assert PutAttempt(db, a, db.attempts[a]) == db;
        AttemptStepKeepsInv(db, a, db.attempts[a], s.(cancelRequested := true, revision := s.revision + 1),
            CancellationRequested, v);
      }
    }
  }

  /** A running submission has exactly one active attempt, and `ActiveOf` finds it. */
  lemma RunningHasItsAttempt(db: Db, id: SubmissionId)
    requires Inv(db) && id in db.subs && db.subs[id].state.Running?
    ensures ActiveOf(db, id).Some?
    ensures forall a :: a in db.attempts && db.attempts[a].submission == id ==> Some(a) == ActiveOf(db, id)
  {
    var v := RowFacts(db, id);
    assert Active(db, v.attempt.value.id);
    Coupled(db, v.attempt.value.id);
  }

  /** What a cancellation reports is what the row now says. */
  lemma CancelReports(db: Db, id: SubmissionId, now: Time)
    requires Inv(db)
    ensures var out := Cancel(db, id, now);
      && (out.reply.Ok? <==> id in db.subs)
      && (out.reply.Ok? ==>
            && id in out.db.subs
            && var x, y := db.subs[id], out.db.subs[id];
            && out.reply.value.revision == y.revision
            && match out.reply.value.disposition
               case AlreadyTerminal => x.state.Terminal() && y == x
               case CancelledNow => x.state.Queued? && y.state.Cancelled?
               case CancelPending => x.state.Running? && y.state.Running? && y.cancelRequested)
  {
    if id in db.subs { var v := RowFacts(db, id); }
  }

  /** A second cancellation changes nothing. */
  lemma CancelIsIdempotent(db: Db, id: SubmissionId, now: Time, later: Time)
    requires Inv(db)
    ensures Cancel(Cancel(db, id, now).db, id, later).db == Cancel(db, id, now).db
    ensures Cancel(Cancel(db, id, now).db, id, later).sent == []
  {
    CancelReports(db, id, now);
    SecondCancel(Cancel(db, id, now).db, id, later);
  }

  lemma SecondCancel(db: Db, id: SubmissionId, now: Time)
    requires id in db.subs ==>
               db.subs[id].state.Terminal()
               || (!db.subs[id].state.Queued? && db.subs[id].cancelRequested)
    ensures Cancel(db, id, now).db == db && Cancel(db, id, now).sent == []
  {
  }

  /** The envelopes a transaction broadcasts are exactly the entries it appended, in order. */
  predicate Publishes(before: Db, after: Db, id: SubmissionId, sent: seq<Event>) {
    && Log(after, id) == Log(before, id) + sent
    && (forall x :: x in before.logs && x != id ==> Log(after, x) == Log(before, x))
  }

  /** Two submissions get in each other's way: both use one workspace and one of them writes. */
  predicate Clash(x: Submission, y: Submission) {
    x.frozen.workspace.Some? && x.frozen.workspace == y.frozen.workspace && (x.frozen.writable || y.frozen.writable)
  }

  /** `other` runs, or may still be writing, in the workspace of `id`. */
  predicate Hinders(db: Db, id: SubmissionId, other: SubmissionId)
    requires id in db.subs && other in db.subs
  {
    other != id && (db.subs[other].state.Running? || db.subs[other].state.Uncertain?)
    && Clash(db.subs[id], db.subs[other])
  }

  /** Nothing but the row and the log of `id` has changed. */
  predicate OnlyRow(before: Db, after: Db, id: SubmissionId, row: Submission) {
    after.subs == before.subs[id := row] && after.attempts == before.attempts
  }

  lemma ClaimPublishes(db: Db, spec: ClaimSpec)
    ensures var out := Claim(db, spec, 1); Publishes(db, out.db, spec.submission, out.sent)
  {
    assert Log(db, spec.submission) + [] == Log(db, spec.submission);
  }

  /** When a claim is refused, and what it moves when it is not. */
  lemma ClaimEffect(db: Db, spec: ClaimSpec)
    ensures var out := Claim(db, spec, 1); var id, a := spec.submission, spec.attempt;
      && (out.reply == Err(NotFound) <==> id !in db.subs)
      && (out.reply == Err(NotQueued) <==> id in db.subs && !db.subs[id].state.Queued?)
      && (out.reply == Err(WorkspaceBusy) <==>
          && id in db.subs && db.subs[id].state.Queued?
          && exists other :: other in db.subs && Hinders(db, id, other))
      && (out.reply.Err? ==> out.reply.error in {NotFound, NotQueued, WorkspaceBusy} && out.db == db)
      && (out.reply.Ok? ==>
            && var s := db.subs[id];
            && out.db.attempts == db.attempts[a := Attempt(id, 1, Starting, spec.source, None, None, true)]
            && out.reply.value == out.db.attempts[a]
            && out.db.subs == db.subs[id := s.(state := Running, blocker := None, revision := s.revision + 1,
                                               latestSequence := s.latestSequence + 2)]
            && out.sent == [Event(id, Some(a), s.latestSequence + 1, AttemptCreated),
                            Event(id, Some(a), s.latestSequence + 2, StateChanged(Queued, Running, None))])
  {
    var id := spec.submission;
    if id in db.subs {
      assert Busy(db, id) <==> exists other :: other in db.subs && Hinders(db, id, other) by {
        forall other | other in db.subs
          ensures Hinders(db, id, other) <==>
                  other != id && Locks(db, other) && Shares(db.subs[id].frozen, db.subs[other].frozen)
        {
        }
      }
    }
  }

  lemma MarkPublishes(db: Db, id: SubmissionId, a: AttemptId, version: Option<string>)
    ensures var out := MarkAttemptRunning(db, id, a, version); Publishes(db, out.db, id, out.sent)
  {
    assert Log(db, id) + [] == Log(db, id);
  }

  /** Only a starting attempt is marked, once, with the version of its agent. */
  lemma MarkEffect(db: Db, id: SubmissionId, a: AttemptId, version: Option<string>)
    requires Inv(db)
    ensures var out := MarkAttemptRunning(db, id, a, version);
      && out.reply.Ok?
      && (if a in db.attempts && db.attempts[a].submission == id && db.attempts[a].state.Starting? then
            && var s := db.subs[id];
            && out.db.attempts == db.attempts[a := db.attempts[a].(state := Executing, agentVersion := version)]
            && out.db.subs == db.subs[id := s.(latestSequence := s.latestSequence + 1)]
            && out.sent == [Event(id, Some(a), s.latestSequence + 1, AttemptStateChanged(Some(Starting), Executing))]
          else
            out.db == db && out.sent == [])
  {
    if a in db.attempts { assert AttemptInv(db, a); }
  }

  lemma FinishPublishes(db: Db, spec: FinishSpec, now: Time)
    ensures var out := Finish(db, spec, now); Publishes(db, out.db, spec.submission, out.sent)
  {
    assert Log(db, spec.submission) + [] == Log(db, spec.submission);
  }

  lemma AgentEventPublishes(db: Db, id: SubmissionId, a: AttemptId, kind: string, payload: string)
    ensures var out := AppendAgentEvent(db, id, a, kind, payload); Publishes(db, out.db, id, out.sent)
  {
    assert Log(db, id) + [] == Log(db, id);
  }

  /** An agent event adds its entry and touches nothing else. */
  lemma AgentEventEffect(db: Db, id: SubmissionId, a: AttemptId, kind: string, payload: string)
    requires id in db.subs
    ensures var out, s := AppendAgentEvent(db, id, a, kind, payload), db.subs[id];
      && out.reply.Ok? && OnlyRow(db, out.db, id, s.(latestSequence := s.latestSequence + 1))
      && out.sent == [Event(id, Some(a), s.latestSequence + 1, AgentReport(kind, payload))]
  {
  }

  lemma BlockerPublishes(db: Db, id: SubmissionId, b: Blocker)
    ensures var out := SetBlocker(db, id, b); Publishes(db, out.db, id, out.sent)
  {
    assert Log(db, id) + [] == Log(db, id);
  }

  /** A queued submission shows the blocker afterwards, and only a new one is logged. */
  lemma BlockerEffect(db: Db, id: SubmissionId, b: Blocker)
    ensures var out := SetBlocker(db, id, b);
      if id in db.subs && db.subs[id].state.Queued? && db.subs[id].blocker != Some(b) then
        && var s := db.subs[id];
        && OnlyRow(db, out.db, id, s.(blocker := Some(b), revision := s.revision + 1,
                                      latestSequence := s.latestSequence + 1))
        && out.sent == [Event(id, None, s.latestSequence + 1, QueueBlocked(b))]
      else
        out.db == db && out.sent == []
  {
  }

  lemma QueueEndPublishes(db: Db, id: SubmissionId, state: SubmissionState, reason: Reason, error: Option<ErrorCode>,
                          now: Time)
    ensures var out := FinishQueued(db, id, state, reason, error, now); Publishes(db, out.db, id, out.sent)
  {
    assert Log(db, id) + [] == Log(db, id);
  }

  /** Leaving the queue stores the state, the time and any error, and logs the reason. */
  lemma QueueEndEffect(db: Db, id: SubmissionId, state: SubmissionState, reason: Reason, error: Option<ErrorCode>,
                       now: Time)
    ensures var out := FinishQueued(db, id, state, reason, error, now);
      && (out.reply.Ok? <==> id in db.subs && db.subs[id].state.Queued?)
      && (out.reply.Err? ==> out.reply.error == NotQueued && out.db == db)
      && (out.reply.Ok? ==>
            && var s := db.subs[id];
            && OnlyRow(db, out.db, id,
                   s.(state := state, revision := s.revision + 1, latestSequence := s.latestSequence + 1,
                      error := if error.None? then s.error else error, finishedAt := Some(now)))
            && out.sent == [Event(id, None, s.latestSequence + 1, StateChanged(Queued, state, Some(reason)))])
  {
  }

  lemma PatchPublishes(db: Db, id: SubmissionId, expected: nat, p: Patch)
    ensures var out := PatchScheduling(db, id, expected, p); Publishes(db, out.db, id, out.sent)
  {
    assert Log(db, id) + [] == Log(db, id);
  }

  /** What a field holds after a patch: the value the patch carries, be it a null, or what it held. */
  predicate Takes<T(==)>(after: T, before: T, given: Option<T>) {
    (given.Some? ==> after == given.value) && (given.None? ==> after == before)
  }

  /** The times a patch leads to are in order. */
  predicate TimesFit(s: Scheduling, p: Patch) {
    var start := if p.notBefore.Some? then p.notBefore.value else s.notBefore;
    var deadline := if p.startDeadline.Some? then p.startDeadline.value else s.startDeadline;
    start.None? || deadline.None? || start.value < deadline.value
  }

  /** The error order of a patch, and what each field of the row holds after it. */
  lemma PatchEffect(db: Db, id: SubmissionId, expected: nat, p: Patch)
    ensures var out := PatchScheduling(db, id, expected, p);
      && (out.reply.Err? ==> out.db == db && out.sent == [])
      && (if p.priority.None? && p.notBefore.None? && p.startDeadline.None? then out.reply == Err(NotQueued)
          else if id !in db.subs then out.reply == Err(NotFound)
          else if db.subs[id].revision != expected then out.reply == Err(RevisionConflict)
          else if db.subs[id].state != Queued then out.reply == Err(NotQueued)
          else if !TimesFit(db.subs[id].schedule, p) then out.reply == Err(InvalidScheduling)
          else
            && out.reply.Ok? && id in out.db.subs
            && var s, row := db.subs[id], out.db.subs[id];
            && Takes(row.schedule.priority, s.schedule.priority, p.priority)
            && Takes(row.schedule.notBefore, s.schedule.notBefore, p.notBefore)
            && Takes(row.schedule.startDeadline, s.schedule.startDeadline, p.startDeadline)
            && OnlyRow(db, out.db, id, s.(schedule := row.schedule, revision := expected + 1,
                                          latestSequence := s.latestSequence + 1))
            && out.reply.value == row
            && out.sent == [Event(id, None, s.latestSequence + 1, SchedulingChanged(p))])
  {
  }

  lemma CancelPublishes(db: Db, id: SubmissionId, now: Time)
    ensures var out := Cancel(db, id, now); Publishes(db, out.db, id, out.sent)
  {
    QueueEndPublishes(db, id, Cancelled, CancelledByClient, None, now);
    assert Log(db, id) + [] == Log(db, id);
  }

  /** What each kind of cancellation stores and logs. */
  lemma CancelEffect(db: Db, id: SubmissionId, now: Time)
    requires Inv(db) && id in db.subs
    ensures var out, s := Cancel(db, id, now), db.subs[id];
      if s.state.Queued? then
        && OnlyRow(db, out.db, id, s.(state := Cancelled, revision := s.revision + 1,
                                      latestSequence := s.latestSequence + 1, finishedAt := Some(now)))
        && out.sent == [Event(id, None, s.latestSequence + 1, StateChanged(Queued, Cancelled, Some(CancelledByClient)))]
        && out.reply == Ok(Cancellation(CancelledNow, s.revision + 1))
      else if s.state.Running? && !s.cancelRequested then
        && OnlyRow(db, out.db, id, s.(cancelRequested := true, revision := s.revision + 1,
                                      latestSequence := s.latestSequence + 1))
        && (exists a :: Active(db, a) && db.attempts[a].submission == id
              && out.sent == [Event(id, Some(a), s.latestSequence + 1, CancellationRequested)])
        && out.reply == Ok(Cancellation(CancelPending, s.revision + 1))
      else
        && out.db == db && out.sent == []
        && out.reply == Ok(Cancellation(if s.state.Running? then CancelPending else AlreadyTerminal, s.revision))
  {
    if db.subs[id].state.Running? {
      RunningHasItsAttempt(db, id);
      assert Active(db, ActiveOf(db, id).value);
    }
  }

  lemma AcceptPublishes(db: Db, id: SubmissionId, f: Frozen)
    requires id !in db.subs && id !in db.logs
    ensures var out := Accept(db, id, f); Publishes(db, out.db, id, out.sent)
  {
    assert Log(db, id) + [] == Log(db, id);
  }

  predicate HoldsKey(s: Submission, client: string, key: string) {
    s.frozen.client == client && s.frozen.key == key
  }

  /** A new key creates a queued row as requested; a key that is held is replayed, or refused to another digest. */
  lemma AcceptEffect(db: Db, id: SubmissionId, f: Frozen)
    ensures var out := Accept(db, id, f);
      && ((forall x :: x in db.subs ==> !HoldsKey(db.subs[x], f.client, f.key)) ==>
            && out.reply == Ok(Accepted(id, f.digest, f.profile, f.policy, false))
            && OnlyRow(db, out.db, id,
                   Submission(f, Queued, 1, f.accepted, None, false, 1, None, false, None, None))
            && out.sent == [Event(id, None, 1, Created)])
      && (forall x :: x in db.subs && HoldsKey(db.subs[x], f.client, f.key) && KeysUnique(db) ==>
            && var held := db.subs[x].frozen;
            && out.db == db && out.sent == []
            && out.reply == if held.digest == f.digest then Ok(Accepted(x, f.digest, held.profile, held.policy, true))
                            else Err(IdempotencyConflict))
  {
    var holder := Holder(db, f.client, f.key);
    if holder.None? {
      assert forall x :: x in db.subs ==> KeyOf(db.subs[x]) != (f.client, f.key);
    } else {
      assert HoldsKey(db.subs[holder.value], f.client, f.key);
      forall x | x in db.subs && HoldsKey(db.subs[x], f.client, f.key) && KeysUnique(db) ensures x == holder.value {
        assert KeyOf(db.subs[x]) == KeyOf(db.subs[holder.value]);
      }
    }
  }

  lemma PatchKeepsInv(db: Db, id: SubmissionId, expected: nat, p: Patch)
    requires Inv(db)
    ensures Inv(PatchScheduling(db, id, expected, p).db)
  {
    var out := PatchScheduling(db, id, expected, p);
    if out.reply.Ok? {
      var v := RowFacts(db, id);
      var s := db.subs[id];
      QueueStepKeepsInv(db, id, s.(schedule := p.Over(s.schedule), revision := s.revision + 1), SchedulingChanged(p),
          v);
    }
  }

  // ----- what the invariant means -----

  /**
    Log replay. Folding the log over the accepted request rebuilds the row and the attempt; sequences
    are exactly 1..latest_event_sequence; a terminal row has its terminal entry last and no other.
  */
  lemma LogRebuildsRow(db: Db, id: SubmissionId)
    requires Inv(db) && id in db.subs
    ensures var s, v, log := db.subs[id], ViewOf(db, id), Log(db, id);
      && v.state == s.state && v.revision == s.revision && v.blocker == s.blocker
      && v.cancelRequested == s.cancelRequested && v.schedule == s.schedule
      && s.schedule.priority == LastSet(log, s.frozen.accepted.priority, PatchedPriority)
      && s.schedule.notBefore == LastSet(log, s.frozen.accepted.notBefore, PatchedNotBefore)
      && s.schedule.startDeadline == LastSet(log, s.frozen.accepted.startDeadline, PatchedDeadline)
      && (forall a :: a in db.attempts && db.attempts[a].submission == id <==>
            a in db.attempts && v.attempt == Some(Run(a, db.attempts[a].state)))
      && (v.attempt.Some? ==> v.attempt.value.id in db.attempts)
      && |log| == s.latestSequence
      && (forall i :: 0 <= i < |log| ==> log[i].sequence == i + 1 && log[i].submission == id)
      && (forall i :: 0 <= i < |log| && log[i].EndsSubmission() ==> i == |log| - 1)
      && (s.state.Terminal() <==> log != [] && log[|log| - 1].EndsSubmission())
  {
    var v := RowFacts(db, id);
    var accepted, log := db.subs[id].frozen.accepted, Log(db, id);
    TerminalIsLast(id, accepted, log);
    LastPatchWins(accepted, log);
    forall i | 0 <= i < |log| ensures log[i].sequence == i + 1 && log[i].submission == id {
      LegalAt(id, accepted, log, i);
    }
    forall a | a in db.attempts
      ensures db.attempts[a].submission == id <==> v.attempt == Some(Run(a, db.attempts[a].state))
    {
      Coupled(db, a);
    }
  }

  /** `events_after` is the log from the cursor on; a cursor past the end gets nothing. */
  lemma {:induction false} SuffixFrom(id: SubmissionId, accepted: Scheduling, log: seq<Event>, after: nat)
    requires LegalLog(id, accepted, log)
    ensures Suffix(log, after) == if after <= |log| then log[after..] else []
  {
    if log != [] {
      SuffixFrom(id, accepted, log[..|log| - 1], after);
    }
  }

  /** What one accepted `finish` does to the attempts, the source slots and the workspace locks. */
  lemma FinishEffect(db: Db, spec: FinishSpec, now: Time)
    requires Inv(db)
    ensures var out := Finish(db, spec, now); var id, a := spec.submission, spec.attempt;
      && (out.reply.Ok? <==> spec.state.Outcome() && Active(db, a) && db.attempts[a].submission == id)
      && (out.reply.Err? ==> out.db == db)
      && (out.reply.Ok? ==>
            && id in db.subs
            && out.db.attempts == db.attempts[a := out.db.attempts[a]]
            && out.db.attempts[a].state == Ended(spec.state)
            && out.db.attempts[a].submission == id
            && out.db.attempts[a].source == db.attempts[a].source
            && out.db.attempts[a].capacityHeld == spec.state.Uncertain?
            && db.attempts[a].capacityHeld
            && out.db.subs == db.subs[id := out.db.subs[id]]
            && out.db.subs[id].frozen == db.subs[id].frozen
            && out.db.subs[id].state == spec.state)
      && (out.reply.Ok? ==>
            && var s, t := db.subs[id], db.attempts[a];
            && out.db.subs[id] == s.(state := spec.state, revision := s.revision + 1,
                   latestSequence := s.latestSequence + 2, output := spec.output, truncated := spec.truncated,
                   error := spec.error, finishedAt := Some(now))
            && out.db.attempts[a].error == spec.error
            && out.db.attempts[a].agentVersion
               == (if spec.agentVersion.None? then t.agentVersion else spec.agentVersion)
            && out.sent == [Event(id, Some(a), s.latestSequence + 1, AttemptStateChanged(None, Ended(spec.state))),
                            Event(id, Some(a), s.latestSequence + 2, StateChanged(Running, spec.state, None))])
  {
    if Active(db, spec.attempt) {
      Coupled(db, spec.attempt);
    } else if spec.submission in db.subs && db.subs[spec.submission].state.Running? {
      RunningHasItsAttempt(db, spec.submission);
    }
  }
}
