/**
  The store as the daemon uses it: three tables updated in place by transactions.

  Every method works on a `Transaction`, a private copy of the tables, and either commits it whole or
  drops it. `published` records the envelopes sent to the broadcast channel, in order.
*/
module Store {
  import opened Prelude
  import opened Protocol
  import opened EventLog
  import opened StoreModel
  import opened StoreProofs
  import opened Sorting

  datatype QueuedItem = QueuedItem(id: SubmissionId, frozen: Frozen, schedule: Scheduling)

  function ItemOf(db: Db, id: SubmissionId): QueuedItem
    requires id in db.subs
  {
    QueuedItem(id, db.subs[id].frozen, db.subs[id].schedule)
  }

  /** ORDER BY priority DESC, created_at ASC */
  predicate QueueOrder(x: QueuedItem, y: QueuedItem) {
    || x.schedule.priority > y.schedule.priority
    || (x.schedule.priority == y.schedule.priority && x.frozen.createdAt <= y.frozen.createdAt)
  }

  ghost predicate IsQueue(db: Db, q: seq<QueuedItem>) {
    && (forall i :: 0 <= i < |q| ==>
      q[i].id in db.subs && db.subs[q[i].id].state.Queued?
      && q[i] == ItemOf(db, q[i].id))
    && (forall i, j :: 0 <= i < j < |q| ==> q[i].id != q[j].id)
    && (forall id :: id in db.subs && db.subs[id].state.Queued? ==> exists i :: 0 <= i < |q| && q[i].id == id)
    && Sorted(QueueOrder, q)
  }

  predicate Unfrozen(db: Db, id: SubmissionId) {
    id in db.subs && db.subs[id].state.Queued? && db.subs[id].frozen.routes.None?
  }

  function UnfrozenRows(db: Db): set<SubmissionId> {
    set id | id in db.subs && Unfrozen(db, id)
  }

  predicate AllFrozen(db: Db) {
    UnfrozenRows(db) == {}
  }

  function ActiveRows(db: Db): set<AttemptId> {
    set a | a in db.attempts && Active(db, a)
  }

  /** A row update followed by two appends leaves what one transaction is specified to commit. */
  lemma StagedTwice(db: Db, id: SubmissionId, s: Submission, e1: Event, e2: Event)
    ensures var db0 := db.(subs := db.subs[id := s]);
            var db1 := Commit(db0, id, s, [e1]);
            Commit(db1, id, s.(latestSequence := s.latestSequence + 1), [e2]) == Commit(db, id, s, [e1, e2])
  {
    assert Log(db, id) + [e1] + [e2] == Log(db, id) + [e1, e2];
  }

  class Transaction {
    var subs: map<SubmissionId, Submission>
    var attempts: map<AttemptId, Attempt>
    var logs: map<SubmissionId, seq<Event>>

    constructor (db: Db)
      ensures Tables() == db
    {
      subs, attempts, logs := db.subs, db.attempts, db.logs;
    }

    function Tables(): Db
      reads this
    {
      Db(subs, attempts, logs)
    }

    /** Bumps the row's counter and inserts the envelope under the new sequence. */
    method AppendEvent(id: SubmissionId, attempt: Option<AttemptId>, body: EventBody)
      returns (r: Result<Event, StoreError>)
      modifies this
      ensures id !in old(subs) ==> r == Err(Internal) && Tables() == old(Tables())
      ensures id in old(subs) ==>
                && r == Ok(Event(id, attempt, old(subs[id].latestSequence) + 1, body))
                && Tables() == Commit(old(Tables()), id, old(subs[id]), [r.value])
    {
      if id !in subs { return Err(Internal); }
      var sequence := subs[id].latestSequence + 1;
      subs := subs[id := subs[id].(latestSequence := sequence)];
      var e := Event(id, attempt, sequence, body);
      logs := logs[id := (if id in logs then logs[id] else []) + [e]];
      return Ok(e);
    }

    /** Rewrites the attempt and its submission and logs the two entries about the change. */
    method MoveAttempt(a: AttemptId, t: Attempt, s: Submission, first: EventBody, second: EventBody)
      returns (sent: seq<Event>)
      requires t.submission in subs
      modifies this
      ensures sent == Entries(t.submission, s, Some(a), first, second)
      ensures Tables() == Commit(PutAttempt(old(Tables()), a, t), t.submission, s, sent)
    {
      ghost var staged := PutAttempt(Tables(), a, t);
      attempts := attempts[a := t];
      subs := subs[t.submission := s];
      var e1 := AppendEvent(t.submission, Some(a), first);
      var e2 := AppendEvent(t.submission, Some(a), second);
      StagedTwice(staged, t.submission, s, e1.value, e2.value);
      return [e1.value, e2.value];
    }
  }

  class Store {
    var submissions: map<SubmissionId, Submission>
    var attempts: map<AttemptId, Attempt>
    var events: map<SubmissionId, seq<Event>>
    var published: seq<Event>

    function Tables(): Db
      reads this
    {
      Db(submissions, attempts, events)
    }

    ghost predicate Valid()
      reads this
    {
      Inv(Tables())
    }

    constructor ()
      ensures Valid() && Tables() == Db(map[], map[], map[]) && published == []
    {
      submissions, attempts, events, published := map[], map[], map[], [];
      EmptyInv();
    }

    method Save(tx: Transaction, sent: seq<Event>)
      modifies this
      ensures Tables() == tx.Tables() && published == old(published) + sent
    {
      submissions, attempts, events := tx.subs, tx.attempts, tx.logs;
      published := published + sent;
    }

    // ----- reads -----

    method FindKey(client: string, key: string) returns (r: Option<SubmissionId>)
      requires Valid()
      ensures r == Holder(Tables(), client, key)
    {
      r := None;
      var rest := submissions.Keys;
      while rest != {}
        invariant rest <= submissions.Keys
        invariant r.Some? ==> r.value in submissions && KeyOf(submissions[r.value]) == (client, key)
        invariant r.None? ==> forall id :: id in submissions && id !in rest ==> KeyOf(submissions[id]) != (client, key)
        decreases rest
      {
        var id :| id in rest;
        if KeyOf(submissions[id]) == (client, key) { r := Some(id); }
        rest := rest - {id};
      }
    }

    method IdempotentReplay(client: string, key: string, digest: string)
      returns (r: Result<Option<Accepted>, StoreError>)
      requires Valid()
      ensures r == StoreModel.IdempotentReplay(Tables(), client, key, digest)
    {
      var found := FindKey(client, key);
      if found.None? { return Ok(None); }
      if submissions[found.value].frozen.digest != digest { return Err(IdempotencyConflict); }
      return Ok(Some(Receipt(Tables(), found.value, true)));
    }

    method EventsAfter(id: SubmissionId, after: nat) returns (r: Result<seq<Event>, StoreError>)
      requires Valid()
      ensures r == StoreModel.EventsAfter(Tables(), id, after)
      ensures r == Err(NotFound) <==> id !in submissions
      ensures r == Err(Internal) <==> id in submissions && after > 9_223_372_036_854_775_807
      ensures r.Err? ==> r.error in {NotFound, Internal}
      ensures r.Ok? ==>
                r == Ok(if after <= |Log(Tables(), id)| then Log(Tables(), id)[after..] else [])
    {
      if id !in submissions { return Err(NotFound); }
      if after > I64_MAX { return Err(Internal); }
      assert RowInv(Tables(), id);
      SuffixFrom(id, submissions[id].frozen.accepted, Log(Tables(), id), after);
      var log := if id in events then events[id] else [];
      var found: seq<Event> := [];
      for i := 0 to |log|
        invariant found == Suffix(log[..i], after)
      {
        assert log[..i + 1][..i] == log[..i];
        if log[i].sequence > after { found := found + [log[i]]; }
      }
      assert log[..|log|] == log;
      return Ok(found);
    }

    method ActiveForSource(source: string) returns (count: nat)
      ensures count == StoreModel.ActiveForSource(Tables(), source)
      ensures count == |set a | a in attempts && attempts[a].source == source && attempts[a].capacityHeld|
    {
      count := 0;
      var rest := attempts.Keys;
      ghost var seen: set<AttemptId> := {};
      while rest != {}
        invariant rest <= attempts.Keys
        invariant seen == set a | a in HeldBy(Tables(), source) && a !in rest
        invariant count == |seen|
        decreases rest
      {
        var a :| a in rest;
        if attempts[a].source == source && attempts[a].capacityHeld {
          count := count + 1;
          seen := seen + {a};
        }
        rest := rest - {a};
      }
      assert seen == HeldBy(Tables(), source);
      assert seen == set a | a in attempts && attempts[a].source == source && attempts[a].capacityHeld;
    }

    /** The flag is exactly what the log says: somebody asked for a cancellation while the submission was running. */
    method CancellationRequested(id: SubmissionId) returns (r: Result<bool, StoreError>)
      requires Valid()
      ensures r.Err? <==> id !in submissions
      ensures r.Err? ==> r.error == NotFound
      ensures r.Ok? ==> (r.value <==> Requested(Log(Tables(), id)))
      ensures r == Ok(true) ==> !submissions[id].state.Queued?
    {
      if id !in submissions { return Err(NotFound); }
      assert RowInv(Tables(), id);
      FlagIsLogged(id, submissions[id].frozen.accepted, Log(Tables(), id));
      return Ok(submissions[id].cancelRequested);
    }

    /** A terminal row always has its finish time, so the decoding error of the service cannot occur. */
    method FinalResultOf(id: SubmissionId) returns (r: Result<FinalResult, StoreError>)
      requires Valid()
      ensures r == ResultOf(Tables(), id)
      ensures r.Ok? <==> id in submissions && submissions[id].state.Terminal()
      ensures r.Err? ==> r.error == if id in submissions then NotQueued else NotFound
      ensures r.Ok? ==>
                && r.value.state == submissions[id].state && r.value.error == submissions[id].error
                && r.value.output == submissions[id].output && r.value.truncated == submissions[id].truncated
                && Some(r.value.finishedAt) == submissions[id].finishedAt
    {
      if id !in submissions { return Err(NotFound); }
      assert RowInv(Tables(), id);
      var s := submissions[id];
      if !s.state.Terminal() { return Err(NotQueued); }
      return Ok(FinalResult(s.state, s.output, s.truncated, s.error, s.finishedAt.value));
    }

    /** Fails on a queued row without snapshots, as decoding one does. */
    method ListQueued() returns (r: Result<seq<QueuedItem>, StoreError>)
      requires Valid()
      ensures r.Ok? <==> AllFrozen(Tables())
      ensures r.Ok? ==> IsQueue(Tables(), r.value)
      ensures r.Ok? ==> forall i :: 0 <= i < |r.value| ==>
                var row := submissions[r.value[i].id];
                r.value[i].frozen == row.frozen && r.value[i].schedule == row.schedule
      ensures r.Err? ==> r.error == Internal
    {
      var rest := submissions.Keys;
      var q: seq<QueuedItem> := [];
      QueueOrderIsTotal();
      while rest != {}
        invariant rest <= submissions.Keys
        invariant forall id :: id in submissions && id !in rest ==> !Unfrozen(Tables(), id)
        invariant forall i :: 0 <= i < |q| ==> q[i].id in submissions && q[i].id !in rest
        invariant forall i :: 0 <= i < |q| ==> submissions[q[i].id].state.Queued? && q[i] == ItemOf(Tables(), q[i].id)
        invariant forall i, j :: 0 <= i < j < |q| ==> q[i].id != q[j].id
        invariant forall id :: id in submissions && id !in rest && submissions[id].state.Queued? ==> InQueue(q, id)
        invariant Sorted(QueueOrder, q)
        decreases rest
      {
        var id :| id in rest;
        rest := rest - {id};
        if submissions[id].state.Queued? {
          if submissions[id].frozen.routes.None? {
            assert id in UnfrozenRows(Tables());
            return Err(Internal);
          }
          QueueInsert(ItemOf(Tables(), id), q);
          InsertKeepsSorted(QueueOrder, ItemOf(Tables(), id), q);
          q := Insert(QueueOrder, ItemOf(Tables(), id), q);
        }
      }
      return Ok(q);
    }

    // ----- transactions -----

    method Accept(id: SubmissionId, f: Frozen) returns (r: Result<Accepted, StoreError>)
      requires Valid() && id !in submissions
      modifies this
      ensures var out := StoreModel.Accept(old(Tables()), id, f);
              Tables() == out.db && r == out.reply && published == old(published) + out.sent
      ensures Valid() <==> old(Holder(Tables(), f.client, f.key).Some?) || f.accepted.Ordered()
    {
      AcceptKeepsInvIff(Tables(), id, f);
      var tx := new Transaction(Tables());
      var found := FindKey(f.client, f.key);
      if found.Some? {
        if submissions[found.value].frozen.digest != f.digest { return Err(IdempotencyConflict); }
        return Ok(Receipt(Tables(), found.value, true));
      }
      StoreRow(tx, id, FreshRow(f), None, Created);
      return Ok(Accepted(id, f.digest, f.profile, f.policy, false));
    }

    /** Stores a row with one entry about it, and commits. */
    method StoreRow(tx: Transaction, id: SubmissionId, s: Submission, attempt: Option<AttemptId>, body: EventBody)
      requires tx.Tables() == Tables()
      modifies this, tx
      ensures Tables() == Commit(old(Tables()), id, s, [Entry(id, s, attempt, body)])
      ensures published == old(published) + [Entry(id, s, attempt, body)]
    {
      tx.subs := tx.subs[id := s];
      var e := tx.AppendEvent(id, attempt, body);
      Save(tx, [e.value]);
    }

    method IsBusy(id: SubmissionId) returns (busy: bool)
      requires id in submissions
      ensures busy == Busy(Tables(), id)
    {
      busy := false;
      var rest := submissions.Keys;
      while rest != {}
        invariant rest <= submissions.Keys
        invariant busy ==> Busy(Tables(), id)
        invariant !busy ==> forall other ::
                    other in submissions && other !in rest && other != id && Locks(Tables(), other)
                    ==> !Shares(submissions[id].frozen, submissions[other].frozen)
        decreases rest
      {
        var other :| other in rest;
        rest := rest - {other};
        if other != id && submissions[other].state.Locks()
            && Shares(submissions[id].frozen, submissions[other].frozen) {
          assert Locks(Tables(), other);
          busy := true;
        }
      }
    }

    method NextAttemptNumber(id: SubmissionId) returns (n: nat)
      ensures NextNumber(Tables(), id, n)
    {
      n := 1;
      var rest := attempts.Keys;
      while rest != {}
        invariant rest <= attempts.Keys
        invariant forall a :: a in attempts && a !in rest && attempts[a].submission == id ==> attempts[a].number < n
        invariant n == 1 || exists a :: a in attempts && attempts[a].submission == id && attempts[a].number + 1 == n
        decreases rest
      {
        var a :| a in rest;
        rest := rest - {a};
        if attempts[a].submission == id && attempts[a].number + 1 > n { n := attempts[a].number + 1; }
      }
    }

    method Claim(spec: ClaimSpec) returns (r: Result<Attempt, StoreError>)
      requires Valid() && spec.attempt !in attempts
      modifies this
      ensures var out := StoreModel.Claim(old(Tables()), spec, 1);
              Tables() == out.db && r == out.reply && published == old(published) + out.sent
      ensures Valid()
    {
      ClaimKeepsInv(Tables(), spec);
      var id := spec.submission;
      if id !in submissions { return Err(NotFound); }
      if !submissions[id].state.Queued? { return Err(NotQueued); }
      var busy := IsBusy(id);
      if busy { return Err(WorkspaceBusy); }
      var tx := new Transaction(Tables());
      var number := NextAttemptNumber(id);
      FirstAttemptIsNumberOne(Tables(), id, number);
      var t := Attempt(id, number, Starting, spec.source, None, None, true);
      var s := tx.subs[id].(state := Running, blocker := None, revision := tx.subs[id].revision + 1);
      var sent := tx.MoveAttempt(spec.attempt, t, s, AttemptCreated, STARTED);
      Save(tx, sent);
      return Ok(t);
    }

    method MarkAttemptRunning(id: SubmissionId, a: AttemptId, version: Option<string>)
      returns (r: Result<(), StoreError>)
      requires Valid()
      modifies this
      ensures var out := StoreModel.MarkAttemptRunning(old(Tables()), id, a, version);
              Tables() == out.db && r == out.reply && published == old(published) + out.sent
      ensures Valid()
    {
      MarkKeepsInv(Tables(), id, a, version);
      var tx := new Transaction(Tables());
      if a !in tx.attempts || tx.attempts[a].submission != id || !tx.attempts[a].state.Starting? {
        return Ok(());
      }
      tx.attempts := tx.attempts[a := tx.attempts[a].(state := Executing, agentVersion := version)];
      var e := tx.AppendEvent(id, Some(a), AttemptStateChanged(Some(Starting), Executing));
      if e.Err? { return Err(e.error); }
      Save(tx, [e.value]);
      return Ok(());
    }

    method AppendAgentEvent(id: SubmissionId, a: AttemptId, kind: string, payload: string)
      returns (r: Result<(), StoreError>)
      requires Valid()
      modifies this
      ensures var out := StoreModel.AppendAgentEvent(old(Tables()), id, a, kind, payload);
              Tables() == out.db && r == out.reply && published == old(published) + out.sent
      ensures Valid() <==> old(id !in submissions || (Active(Tables(), a) && attempts[a].submission == id))
    {
      AppendAgentKeepsInvIff(Tables(), id, a, kind, payload);
      var tx := new Transaction(Tables());
      var e := tx.AppendEvent(id, Some(a), AgentReport(kind, payload));
      if e.Err? { return Err(e.error); }
      Save(tx, [e.value]);
      return Ok(());
    }

    method Finish(spec: FinishSpec, now: Time) returns (r: Result<(), StoreError>)
      requires Valid()
      modifies this
      ensures var out := StoreModel.Finish(old(Tables()), spec, now);
              Tables() == out.db && r == out.reply && published == old(published) + out.sent
      ensures Valid()
    {
      FinishKeepsInv(Tables(), spec, now);
      var id, a := spec.submission, spec.attempt;
      if !spec.state.Outcome() { return Err(Internal); }
      var tx := new Transaction(Tables());
      if id !in tx.subs || !tx.subs[id].state.Running? { return Err(NotQueued); }
      var s := tx.subs[id].(state := spec.state, revision := tx.subs[id].revision + 1, output := spec.output,
                            truncated := spec.truncated, error := spec.error, finishedAt := Some(now));
      if a !in tx.attempts || tx.attempts[a].submission != id || !tx.attempts[a].state.Active() {
        return Err(Internal);
      }
      var t := tx.attempts[a].(state := Ended(spec.state), error := spec.error,
                               agentVersion := if spec.agentVersion.Some? then spec.agentVersion
                                   else tx.attempts[a].agentVersion,
                               capacityHeld := spec.state.Uncertain?);
      var sent := tx.MoveAttempt(a, t, s, AttemptStateChanged(None, Ended(spec.state)),
          StateChanged(Running, spec.state, None));
      Save(tx, sent);
      return Ok(());
    }

    method SetBlocker(id: SubmissionId, b: Blocker)
      requires Valid()
      modifies this
      ensures var out := StoreModel.SetBlocker(old(Tables()), id, b);
              Tables() == out.db && published == old(published) + out.sent
      ensures Valid()
    {
      SetBlockerKeepsInv(Tables(), id, b);
      var tx := new Transaction(Tables());
      if id !in tx.subs || !tx.subs[id].state.Queued? { return; }
      if tx.subs[id].blocker == Some(b) { return; }
      StoreRow(tx, id, tx.subs[id].(blocker := Some(b), revision := tx.subs[id].revision + 1), None, QueueBlocked(b));
    }

    method FinishQueued(id: SubmissionId, state: SubmissionState, reason: Reason, error: Option<ErrorCode>, now: Time)
      returns (r: Result<(), StoreError>)
      requires Valid() && QueueExit(state, Some(reason))
      modifies this
      ensures var out := StoreModel.FinishQueued(old(Tables()), id, state, reason, error, now);
              Tables() == out.db && r == out.reply && published == old(published) + out.sent
      ensures Valid()
    {
      FinishQueuedKeepsInv(Tables(), id, state, reason, error, now);
      var tx := new Transaction(Tables());
      if id !in tx.subs || !tx.subs[id].state.Queued? { return Err(NotQueued); }
      var s := tx.subs[id];
      s := s.(state := state, revision := s.revision + 1, finishedAt := Some(now),
              error := if error.Some? then error else s.error);
      StoreRow(tx, id, s, None, StateChanged(Queued, state, Some(reason)));
      return Ok(());
    }

    method Expire(id: SubmissionId, now: Time) returns (r: Result<(), StoreError>)
      requires Valid()
      modifies this
      ensures var out := StoreModel.Expire(old(Tables()), id, now);
              Tables() == out.db && r == out.reply && published == old(published) + out.sent
      ensures Valid()
    {
      r := FinishQueued(id, Expired, StartDeadlineExpired, None, now);
    }

    method ActiveAttempt(id: SubmissionId) returns (r: Option<AttemptId>)
      requires Valid()
      ensures r == ActiveOf(Tables(), id)
    {
      r := None;
      var rest := attempts.Keys;
      while rest != {}
        invariant rest <= attempts.Keys
        invariant r.Some? ==> Active(Tables(), r.value) && attempts[r.value].submission == id
        invariant r.None? ==> forall a :: Active(Tables(), a) && a !in rest ==> attempts[a].submission != id
        decreases rest
      {
        var a :| a in rest;
        if attempts[a].submission == id && attempts[a].state.Active() { r := Some(a); }
        rest := rest - {a};
      }
      if r.Some? {
        Coupled(Tables(), r.value);
        assert Active(Tables(), r.value);
      }
    }

    method Cancel(id: SubmissionId, now: Time) returns (r: Result<Cancellation, StoreError>)
      requires Valid()
      modifies this
      ensures var out := StoreModel.Cancel(old(Tables()), id, now);
              Tables() == out.db && r == out.reply && published == old(published) + out.sent
      ensures Valid()
    {
      CancelKeepsInv(Tables(), id, now);
      if id !in submissions { return Err(NotFound); }
      var s := submissions[id];
      if s.state.Terminal() { return Ok(Cancellation(AlreadyTerminal, s.revision)); }
      if s.state.Queued? {
        var _ := FinishQueued(id, Cancelled, CancelledByClient, None, now);
        return Ok(Cancellation(CancelledNow, s.revision + 1));
      }
      if s.cancelRequested { return Ok(Cancellation(CancelPending, s.revision)); }
      var a := ActiveAttempt(id);
      var tx := new Transaction(Tables());
      StoreRow(tx, id, s.(cancelRequested := true, revision := s.revision + 1), a, EventBody.CancellationRequested);
      return Ok(Cancellation(CancelPending, s.revision + 1));
    }

    method PatchScheduling(id: SubmissionId, expected: nat, p: Patch) returns (r: Result<Submission, StoreError>)
      requires Valid()
      modifies this
      ensures var out := StoreModel.PatchScheduling(old(Tables()), id, expected, p);
              Tables() == out.db && r == out.reply && published == old(published) + out.sent
      ensures Valid()
    {
      PatchKeepsInv(Tables(), id, expected, p);
      if p.Empty() { return Err(NotQueued); }
      var tx := new Transaction(Tables());
      if id !in tx.subs { return Err(NotFound); }
      var s := tx.subs[id];
      if s.revision != expected { return Err(RevisionConflict); }
      if !s.state.Queued? { return Err(NotQueued); }
      var schedule := p.Over(s.schedule);
      if !schedule.Ordered() { return Err(InvalidScheduling); }
      StoreRow(tx, id, s.(schedule := schedule, revision := s.revision + 1), None, SchedulingChanged(p));
      return Ok(submissions[id]);
    }

    // ----- startup -----

    /** Fails every queued row that predates execution snapshots, counting them. */
    method RejectUnfrozenQueued(now: Time) returns (rejected: nat)
      requires Valid()
      modifies this
      ensures Valid() && AllFrozen(Tables())
      ensures rejected == |UnfrozenRows(old(Tables()))|
      ensures Rejected(old(Tables()), Tables())
    {
      ghost var before := Tables();
      var rows := UnfrozenRows(Tables());
      rejected := 0;
      while rows != {}
        invariant Valid() && Rejected(before, Tables()) && rows == UnfrozenRows(Tables())
        invariant rejected + |rows| == |UnfrozenRows(before)|
        decreases rows
      {
        var id :| id in rows;
        var r := RejectRow(id, now, before);
        if r.Ok? { rejected := rejected + 1; }
        rows := rows - {id};
      }
    }

    method RejectRow(id: SubmissionId, now: Time, ghost before: Db) returns (r: Result<(), StoreError>)
      requires Valid() && Rejected(before, Tables()) && id in UnfrozenRows(Tables())
      modifies this
      ensures Valid() && Rejected(before, Tables()) && r.Ok?
      ensures UnfrozenRows(Tables()) == UnfrozenRows(old(Tables())) - {id}
    {
      RejectStep(before, Tables(), id, now);
      r := FinishQueued(id, Failed, ConfigurationSnapshotMissing, Some(RuntimeUnavailable), now);
    }

    /** Ends every unfinished attempt as uncertain, counting them; it never meets an error. */
    method RecoverRunningAsUncertain(now: Time) returns (r: Result<nat, StoreError>)
      requires Valid()
      modifies this
      ensures Valid() && r == Ok(|ActiveRows(old(Tables()))| as nat)
      ensures Recovered(old(Tables()), Tables()) && ActiveRows(Tables()) == {}
    {
      ghost var before := Tables();
      var rows := ActiveRows(Tables());
      var recovered: nat := 0;
      while rows != {}
        invariant Valid() && Recovered(before, Tables()) && rows == ActiveRows(Tables())
        invariant recovered + |rows| == |ActiveRows(before)|
        decreases rows
      {
        var a :| a in rows;
        RecoverStep(before, Tables(), a, now);
        var done := Finish(Lost(attempts[a].submission, a), now);
        assert done.Ok?; // so the error path of the loop is dead
        recovered := recovered + 1;
        rows := rows - {a};
      }
      return Ok(recovered);
    }
  }

  predicate InQueue(q: seq<QueuedItem>, id: SubmissionId) {
    exists i :: 0 <= i < |q| && q[i].id == id
  }

  lemma QueueOrderIsTotal()
    ensures TotalPreorder(QueueOrder)
  {
  }

  lemma {:induction false} InsertDistinct(le: (QueuedItem, QueuedItem) -> bool, x: QueuedItem, q: seq<QueuedItem>,
                                          i: nat, j: nat)
    requires forall k :: 0 <= k < |q| ==> q[k].id != x.id
    requires forall k, l :: 0 <= k < l < |q| ==> q[k].id != q[l].id
    requires i < j < |Insert(le, x, q)|
    ensures Insert(le, x, q)[i].id != Insert(le, x, q)[j].id
  {
    var r := Insert(le, x, q);
    InsertMember(le, x, q, r[j]);
    if q != [] && !le(x, q[0]) {
      var t := Insert(le, x, q[1..]);
      assert r[j] == t[j - 1];
      if i > 0 {
        assert r[i] == t[i - 1];
        InsertDistinct(le, x, q[1..], i - 1, j - 1);
      } else {
        InsertMember(le, x, q[1..], t[j - 1]);
        if r[j] in q[1..] {
          var k :| 0 <= k < |q[1..]| && q[1..][k] == r[j];
          assert q[k + 1] == r[j];
        }
      }
    } else if i > 0 {
      assert r[i] == q[i - 1] && r[j] == q[j - 1];
    }
  }

  lemma QueueInsert(x: QueuedItem, q: seq<QueuedItem>)
    requires forall i :: 0 <= i < |q| ==> q[i].id != x.id
    requires forall i, j :: 0 <= i < j < |q| ==> q[i].id != q[j].id
    ensures var r := Insert(QueueOrder, x, q);
      && (forall i :: 0 <= i < |r| ==> r[i] == x || r[i] in q)
      && (forall i, j :: 0 <= i < j < |r| ==> r[i].id != r[j].id)
      && (forall id :: id == x.id || InQueue(q, id) ==> InQueue(r, id))
  {
    InsertContents(QueueOrder, x, q);
    var r := Insert(QueueOrder, x, q);
    forall i, j | 0 <= i < j < |r| ensures r[i].id != r[j].id { InsertDistinct(QueueOrder, x, q, i, j); }
    forall i | 0 <= i < |r| ensures r[i] == x || r[i] in q { InsertMember(QueueOrder, x, q, r[i]); }
    forall id | id == x.id || InQueue(q, id) ensures InQueue(r, id) {
      var e :| (e == x || e in q) && e.id == id;
      assert e in multiset(r);
    }
  }

  /** Rejection fails the queued rows without snapshots and touches nothing else. */
  ghost predicate Rejected(before: Db, after: Db) {
    && after.attempts == before.attempts
    && after.subs.Keys == before.subs.Keys
    && forall id :: id in before.subs ==>
         || after.subs[id] == before.subs[id]
         || (&& Unfrozen(before, id)
             && var x, y := before.subs[id], after.subs[id];
             && y.finishedAt.Some?
             && y == x.(state := Failed, revision := x.revision + 1, latestSequence := x.latestSequence + 1,
                        error := Some(RuntimeUnavailable), finishedAt := y.finishedAt))
  }

  lemma RejectStep(before: Db, here: Db, id: SubmissionId, now: Time)
    requires Inv(here) && Rejected(before, here) && Unfrozen(here, id)
    ensures var out := RejectUnfrozen(here, id, now);
            out.reply.Ok? && Rejected(before, out.db) && UnfrozenRows(out.db) == UnfrozenRows(here) - {id}
  {
    QueueEndEffect(here, id, Failed, ConfigurationSnapshotMissing, Some(RuntimeUnavailable), now);
    RejectedMore(before, here, RejectUnfrozen(here, id, now).db, id);
  }

  lemma RejectedMore(before: Db, here: Db, after: Db, id: SubmissionId)
    requires Rejected(before, here) && Unfrozen(here, id) && id in after.subs
    requires var x, y := here.subs[id], after.subs[id];
      && OnlyRow(here, after, id, y) && y.finishedAt.Some?
      && y == x.(state := Failed, revision := x.revision + 1, latestSequence := x.latestSequence + 1,
                 error := Some(RuntimeUnavailable), finishedAt := y.finishedAt)
    ensures Rejected(before, after) && UnfrozenRows(after) == UnfrozenRows(here) - {id}
  {
  }

  predicate AttemptRecovered(x: Attempt, y: Attempt) {
    y == x || (x.state.Active() && y.state == Ended(Uncertain) && y.source == x.source
               && y.submission == x.submission && x.capacityHeld && y.capacityHeld)
  }

  predicate RowRecovered(x: Submission, y: Submission) {
    || y == x
    || (&& x.state.Running? && y.finishedAt.Some?
        && y == x.(state := Uncertain, revision := x.revision + 1, latestSequence := x.latestSequence + 2,
                   output := None, truncated := false, error := Some(RunnerLost), finishedAt := y.finishedAt))
  }

  /**
    What recovery may do: an unfinished attempt may become uncertain, keeping its source slot, while
    its submission becomes uncertain, keeping its workspace lock. Everything else stays as it was.
  */
  ghost predicate Recovered(before: Db, after: Db) {
    && after.attempts.Keys == before.attempts.Keys
    && after.subs.Keys == before.subs.Keys
    && (forall a :: a in before.attempts ==> AttemptRecovered(before.attempts[a], after.attempts[a]))
    && (forall id :: id in before.subs ==> RowRecovered(before.subs[id], after.subs[id]))
  }

  lemma RecoverStep(before: Db, here: Db, a: AttemptId, now: Time)
    requires Inv(here) && Recovered(before, here) && Active(here, a)
    ensures var out := Finish(here, Lost(here.attempts[a].submission, a), now);
            out.reply.Ok? && Recovered(before, out.db) && ActiveRows(out.db) == ActiveRows(here) - {a}
  {
    FinishEffect(here, Lost(here.attempts[a].submission, a), now);
    Coupled(here, a);
    var id, out := here.attempts[a].submission, Finish(here, Lost(here.attempts[a].submission, a), now);
    assert RowRecovered(here.subs[id], out.db.subs[id]);
    assert AttemptRecovered(here.attempts[a], out.db.attempts[a]);
  }

  /**
    Recovery preserves every source's held attempts and every workspace lock, and once it is done
    each attempt that was active is uncertain.
  */
  lemma RecoveryKeepsClaims(before: Db, after: Db, source: string)
    requires Recovered(before, after) && ActiveRows(after) == {}
    ensures HeldBy(after, source) == HeldBy(before, source)
    ensures forall id :: Locks(after, id) <==> Locks(before, id)
    ensures forall a :: Active(before, a) ==> after.attempts[a].state == Ended(Uncertain)
  {
    forall a | Active(before, a) ensures after.attempts[a].state == Ended(Uncertain) {
      assert a !in ActiveRows(after);
    }
  }
}
