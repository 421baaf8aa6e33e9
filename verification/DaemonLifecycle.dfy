/** Startup, crash recovery, and the only ways the scheduler can stop. */
module DaemonLifecycle {
  import opened Prelude
  import opened Protocol
  import opened StoreModel
  import opened StoreProofs
  import opened Store
  import opened Scheduler
  import opened Evolution
  import opened Daemon
  import opened DaemonSafety
  import opened DaemonRuns

  // ----- where the scheduler goes -----

  /** The queued submissions a pass still has to visit, as it read them. */
  function Remaining(pc: Pc): seq<QueuedItem> {
    match pc
    case Passing(queue) => queue
    case Claiming(queue, item, _, _) => [item] + queue
    case Deferring(queue, item) => [item] + queue
    case Registering(queue, _, _) => queue
    case Checking(queue, _, _) => queue
    case Signalling(queue, _, _) => queue
    case Spawning(queue, _, _) => queue
    case _ => []
  }

  /** Every submission a pass will visit exists. */
  predicate Known(d: Daemon) {
    forall i :: 0 <= i < |Remaining(d.pc)| ==> Remaining(d.pc)[i].id in d.db.subs
  }

  /** The row of the overdue submission at the head of the pass has left the queue since the pass read it. */
  predicate MissedExpiry(d: Daemon, act: Action) {
    && act.ExpireNext? && d.pc.Passing? && d.pc.queue != [] && Overdue(d.pc.queue[0], act.now)
    && (d.pc.queue[0].id in d.db.subs ==> !d.db.subs[d.pc.queue[0].id].state.Queued?)
  }

  /** What a step may do to the program counter: it either stays, goes on with what remains, or begins a pass. */
  ghost predicate PcMoves(d: Daemon, act: Action, pc: Pc) {
    && (Started(d.pc) ==> Started(pc))
    && (pc.Stopped? && !d.pc.Stopped? ==> (act.Shutdown? && AtRest(d.pc)) || MissedExpiry(d, act))
    && (|| (forall i :: 0 <= i < |Remaining(pc)| ==> Remaining(pc)[i] in Remaining(d.pc))
        || (act.BeginPass? && pc == Passing(act.queue)))
  }

  lemma ApiLeavesPc(d: Daemon, act: Action)
    requires act.Precheck? || act.AcceptRequest? || act.AcceptUnanswered? || act.CancelCommit? || act.CancelSignal?
             || act.HandlerDropped? || act.PatchRequest?
    ensures Step(d, act).pc == d.pc
  {
    if act.Precheck? { PrecheckOnlyAnswers(d, act.handler, act.frozen); }
  }

  lemma TasksLeavePc(d: Daemon, act: Action)
    requires TaskStep(act)
    ensures Step(d, act).pc == d.pc
  {
  }

  lemma ListingMovesPc(d: Daemon, act: Action)
    requires act.ListUnfrozen? || act.ListUnfinished? || act.Shutdown?
    ensures PcMoves(d, act, Step(d, act).pc)
  {
  }

  lemma StartupMovesPc(d: Daemon, act: Action)
    requires Safe(d) && (act.RejectNext? || act.RecoverNext?)
    ensures PcMoves(d, act, Step(d, act).pc)
  {
    if act.RecoverNext? { RecoverIsSafe(d, act.now); }
  }

  lemma BeginPassMovesPc(d: Daemon, act: Action)
    requires Safe(d) && act.BeginPass?
    ensures PcMoves(d, act, Step(d, act).pc)
  {
    BeginPassIsSafe(d, act.queue);
  }

  lemma ExpireMovesPc(d: Daemon, act: Action)
    requires act.ExpireNext?
    ensures PcMoves(d, act, Step(d, act).pc)
  {
    ExpireOutcomes(d, act);
    ExpiredPcMoves(d, act, StepExpireNext(d, act.now).pc);
  }

  lemma ExpireOutcomes(d: Daemon, act: Action)
    requires act.ExpireNext?
    ensures var pc := StepExpireNext(d, act.now).pc;
      pc == d.pc || (d.pc.Passing? && d.pc.queue != [] && pc == Passing(d.pc.queue[1..]))
          || (pc.Stopped? && MissedExpiry(d, act))
  {
  }

  lemma ExpiredPcMoves(d: Daemon, act: Action, pc: Pc)
    requires pc == d.pc || (d.pc.Passing? && d.pc.queue != [] && pc == Passing(d.pc.queue[1..]))
             || (pc.Stopped? && MissedExpiry(d, act))
    ensures PcMoves(d, act, pc)
  {
  }

  lemma DelayMovesPc(d: Daemon, act: Action)
    requires act.DelayNext?
    ensures PcMoves(d, act, Step(d, act).pc)
  {
  }

  lemma BlockMovesPc(d: Daemon, act: Action)
    requires act.BlockNext?
    ensures PcMoves(d, act, Step(d, act).pc)
  {
  }

  lemma ClaimMovesPc(d: Daemon, act: Action)
    requires act.ClaimNext? && (d.pc.Claiming? ==> d.pc.item.id in d.db.subs)
    ensures PcMoves(d, act, Step(d, act).pc)
  {
    ClaimOutcomes(d, act.attempt);
    ClaimedPcMoves(d, act, StepClaimNext(d, act.attempt).pc);
  }

  /** Of the errors of a claim only the two that the pass handles can occur. */
  lemma ClaimOutcomes(d: Daemon, a: AttemptId)
    requires d.pc.Claiming? ==> d.pc.item.id in d.db.subs
    ensures var pc := StepClaimNext(d, a).pc;
      || pc == d.pc
      || (d.pc.Claiming? && (pc == Passing(d.pc.queue) || pc == Deferring(d.pc.queue, d.pc.item)
                             || pc == Registering(d.pc.queue, d.pc.item.id, a)))
  {
  }

  lemma ClaimedPcMoves(d: Daemon, act: Action, pc: Pc)
    requires act.ClaimNext?
    requires pc == d.pc || (d.pc.Claiming? && (pc == Passing(d.pc.queue) || pc == Deferring(d.pc.queue, d.pc.item)
                                               || pc == Registering(d.pc.queue, d.pc.item.id, act.attempt)))
    ensures PcMoves(d, act, pc)
  {
  }

  lemma ReadCapacityMovesPc(d: Daemon, act: Action)
    requires act.ReadCapacity?
    ensures PcMoves(d, act, Step(d, act).pc)
  {
    var pc := StepReadCapacity(d, act.source, act.observations, act.now).pc;
    if pc != d.pc { assert [d.pc.queue[0]] + d.pc.queue[1..] == d.pc.queue; }
    GoingOnMovesPc(d, act, pc);
  }

  lemma DeferMovesPc(d: Daemon, act: Action)
    requires act.DeferNext?
    ensures PcMoves(d, act, Step(d, act).pc)
  {
  }

  lemma RegisterMovesPc(d: Daemon, act: Action)
    requires act.Register?
    ensures PcMoves(d, act, Step(d, act).pc)
  {
  }

  lemma CheckFlagMovesPc(d: Daemon, act: Action)
    requires act.CheckFlag?
    ensures PcMoves(d, act, Step(d, act).pc)
  {
    CheckFlagGoesOn(d);
    GoingOnMovesPc(d, act, StepCheckFlag(d).pc);
  }

  lemma CheckFlagGoesOn(d: Daemon)
    ensures var pc := StepCheckFlag(d).pc;
           pc == d.pc
           || (Started(pc) && !pc.Stopped? && Remaining(pc) == Remaining(d.pc))
  {
  }

  lemma GoingOnMovesPc(d: Daemon, act: Action, pc: Pc)
    requires pc == d.pc || (Started(pc) && !pc.Stopped? && Remaining(pc) == Remaining(d.pc))
    ensures PcMoves(d, act, pc)
  {
  }

  lemma HandoverMovesPc(d: Daemon, act: Action)
    requires act.Signal? || act.Spawn?
    ensures PcMoves(d, act, Step(d, act).pc)
  {
  }

  lemma SchedulerMovesPc(d: Daemon, act: Action)
    requires Safe(d) && Known(d) && SchedulerStep(act)
    ensures PcMoves(d, act, Step(d, act).pc)
  {
    match act
    case BeginPass(_) => BeginPassMovesPc(d, act);
    case ExpireNext(_) => ExpireMovesPc(d, act);
    case DelayNext(_) => DelayMovesPc(d, act);
    case BlockNext(_) => BlockMovesPc(d, act);
    case ClaimNext(_) =>
      if d.pc.Claiming? { assert Remaining(d.pc)[0] == d.pc.item; }
      ClaimMovesPc(d, act);
    case ReadCapacity(_, _, _) => ReadCapacityMovesPc(d, act);
    case DeferNext => DeferMovesPc(d, act);
    case Register => RegisterMovesPc(d, act);
    case CheckFlag => CheckFlagMovesPc(d, act);
    case Signal | Spawn(_) => HandoverMovesPc(d, act);
  }

  lemma StepMovesPc(d: Daemon, act: Action)
    requires Safe(d) && Known(d) && !act.Crash?
    ensures PcMoves(d, act, Step(d, act).pc)
  {
    if SchedulerStep(act) {
      SchedulerMovesPc(d, act);
    } else if TaskStep(act) {
      TasksLeavePc(d, act);
    } else if act.ListUnfrozen? || act.ListUnfinished? || act.Shutdown? {
      ListingMovesPc(d, act);
    } else if act.RejectNext? || act.RecoverNext? {
      StartupMovesPc(d, act);
    } else {
      ApiLeavesPc(d, act);
    }
  }

  lemma BegunPassIsKnown(d: Daemon, queue: seq<QueuedItem>)
    requires Known(d)
    ensures Known(StepBeginPass(d, queue))
  {
    if AtRest(d.pc) && AllFrozen(d.db) && exists q, now :: IsQueue(d.db, q) && queue == PassOrder(q, now) {
      var q, now :| IsQueue(d.db, q) && queue == PassOrder(q, now);
      OrderHasQueue(d.db, q, now);
    }
  }

  lemma StepKeepsKnown(d: Daemon, act: Action)
    requires Safe(d) && Known(d)
    ensures Known(Step(d, act))
  {
    if act.BeginPass? {
      BegunPassIsKnown(d, act.queue);
    } else if !act.Crash? {
      var e := Step(d, act);
      StepMovesPc(d, act);
      StepEvolves(d, act);
      forall i | 0 <= i < |Remaining(e.pc)| ensures Remaining(e.pc)[i].id in e.db.subs {
        var k :| 0 <= k < |Remaining(d.pc)| && Remaining(d.pc)[k] == Remaining(e.pc)[i];
        assert RowStep(d.db, e.db, Remaining(d.pc)[k].id);
      }
    }
  }

  lemma {:induction false} RunKeepsKnown(d: Daemon, acts: seq<Action>)
    requires Safe(d) && Known(d)
    ensures Known(Play(d, acts))
  {
    if acts != [] {
      RunKeepsKnown(d, acts[..|acts| - 1]);
      RunIsSafe(d, acts[..|acts| - 1]);
      StepKeepsKnown(Play(d, acts[..|acts| - 1]), acts[|acts| - 1]);
    }
  }

  lemma MissedExpiryStops(d: Daemon, act: Action)
    requires MissedExpiry(d, act)
    ensures Step(d, act).pc.Stopped? && Step(d, act).tasks == map[]
  {
  }

  lemma ShutdownStops(d: Daemon)
    requires AtRest(d.pc)
    ensures Step(d, Shutdown).pc.Stopped?
  {
  }

  /**
    The scheduler never stops of its own accord but for one race. In any run, a step other than a crash
    stops a scheduler that was going exactly when it is a shutdown between passes, or when the deadline
    of a submission has passed that left the queue after the pass read it; its tasks are then lost. In particular
    startup never fails, no queued row lacks snapshots once passes begin, and no claim meets an internal error.
  */
  lemma SchedulerStopsOnlyWhen(d: Daemon, acts: seq<Action>, act: Action)
    requires Safe(d) && Known(d) && !act.Crash? && !Play(d, acts).pc.Stopped?
    ensures Step(Play(d, acts), act).pc.Stopped? <==>
            (act.Shutdown? && AtRest(Play(d, acts).pc)) || MissedExpiry(Play(d, acts), act)
    ensures MissedExpiry(Play(d, acts), act) ==> Step(Play(d, acts), act).tasks == map[]
  {
    var e := Play(d, acts);
    RunIsSafe(d, acts);
    RunKeepsKnown(d, acts);
    StepMovesPc(e, act);
    if MissedExpiry(e, act) { MissedExpiryStops(e, act); }
    if act.Shutdown? && AtRest(e.pc) { ShutdownStops(e); }
  }

  /** The race is real: whenever a cancellation slips in between the reading and the expiry, the scheduler stops. */
  lemma CancellationCanStopTheScheduler(d: Daemon, handler: nat, now: Time)
    requires Safe(d) && d.pc.Passing? && d.pc.queue != [] && Overdue(d.pc.queue[0], now) && handler !in d.handlers
    requires d.pc.queue[0].id in d.db.subs && d.db.subs[d.pc.queue[0].id].state.Queued?
    ensures !Step(d, ExpireNext(now)).pc.Stopped?
    ensures Step(Step(d, CancelCommit(handler, d.pc.queue[0].id, now)), ExpireNext(now)).pc.Stopped?
  {
    var id := d.pc.queue[0].id;
    var e := Step(d, CancelCommit(handler, id, now));
    ApiLeavesPc(d, CancelCommit(handler, id, now));
    assert e.db == Cancel(d.db, id, now).db;
    MissedExpiryStops(e, ExpireNext(now));
  }

  // ----- crash recovery -----

  ghost predicate SameLocks(x: Db, y: Db) {
    forall id {:trigger Locks(x, id)} {:trigger Locks(y, id)} :: Locks(x, id) <==> Locks(y, id)
  }

  /** Nothing is claimed or finished but as recovery does it, whatever clients do meanwhile. */
  ghost predicate Preserved(x: Db, y: Db) {
    && y.attempts.Keys == x.attempts.Keys
    && (forall a {:trigger y.attempts[a]} :: a in x.attempts ==> AttemptRecovered(x.attempts[a], y.attempts[a]))
    && SameLocks(x, y)
  }

  lemma PreservedTransitively(x: Db, y: Db, z: Db)
    requires Preserved(x, y) && Preserved(y, z)
    ensures Preserved(x, z)
  {
    forall a | a in x.attempts ensures AttemptRecovered(x.attempts[a], z.attempts[a]) {
      assert AttemptRecovered(x.attempts[a], y.attempts[a]) && AttemptRecovered(y.attempts[a], z.attempts[a]);
    }
    forall id ensures Locks(x, id) <==> Locks(z, id) {
      assert Locks(x, id) <==> Locks(y, id);
    }
  }

  lemma AcceptPreserves(d: Daemon, act: Action)
    requires act.AcceptRequest? || act.AcceptUnanswered?
    ensures Preserved(d.db, Step(d, act).db)
  {
  }

  lemma FinishQueuedPreserves(db: Db, id: SubmissionId, state: SubmissionState, reason: Reason,
                              error: Option<ErrorCode>, now: Time)
    requires !state.Locks()
    ensures Preserved(db, FinishQueued(db, id, state, reason, error, now).db)
  {
  }

  lemma CancelPreserves(db: Db, id: SubmissionId, now: Time)
    ensures Preserved(db, Cancel(db, id, now).db)
  {
    FinishQueuedPreserves(db, id, Cancelled, CancelledByClient, None, now);
  }

  lemma PatchPreserves(db: Db, id: SubmissionId, revision: nat, p: Patch)
    ensures Preserved(db, PatchScheduling(db, id, revision, p).db)
  {
  }

  lemma RejectPreserves(d: Daemon, now: Time)
    ensures Preserved(d.db, StepRejectNext(d, now).db)
  {
    if d.pc.Rejecting? && d.pc.rows != [] {
      FinishQueuedPreserves(d.db, d.pc.rows[0], Failed, ConfigurationSnapshotMissing, Some(RuntimeUnavailable), now);
    }
  }

  lemma RecoverPreserves(d: Daemon, now: Time)
    requires Safe(d)
    ensures Preserved(d.db, StepRecoverNext(d, now).db)
  {
    if d.pc.Recovering? && d.pc.lost != [] {
      assert Active(d.db, d.pc.lost[0]);
      RecoverStep(d.db, d.db, d.pc.lost[0], now);
    }
  }

  lemma StartupSkipsPasses(d: Daemon, act: Action)
    requires Safe(d) && !Started(d.pc)
    requires act.ExpireNext? || act.DelayNext? || act.BlockNext? || act.DeferNext? || act.ClaimNext?
    ensures Step(d, act).db == d.db
  {
  }

  lemma StartupIdles(d: Daemon, act: Action)
    requires Safe(d) && !Started(d.pc) && SchedulerStep(act)
    ensures Step(d, act).db == d.db
  {
    match act
    case ExpireNext(_) | DelayNext(_) | BlockNext(_) | DeferNext | ClaimNext(_) => StartupSkipsPasses(d, act);
    case BeginPass(_) | ReadCapacity(_, _, _) => ReadingsLeaveTables(d, act);
    case Register | CheckFlag | Spawn(_) => HandoverLeavesTables(d, act);
    case Signal => SignalsLeaveTables(d, act);
  }

  lemma StartupAdvancesNothing(d: Daemon, act: Action)
    requires Safe(d) && !Started(d.pc) && (act.TaskAdvances? || act.TaskFinishes?)
    ensures Step(d, act).db == d.db
  {
  }

  lemma StartupGivesUpNothing(d: Daemon, act: Action)
    requires Safe(d) && !Started(d.pc) && act.TaskGivesUp?
    ensures Step(d, act).db == d.db
  {
  }

  lemma StartupHasNoTasks(d: Daemon, act: Action)
    requires Safe(d) && !Started(d.pc) && TaskStep(act)
    ensures Step(d, act).db == d.db
  {
    match act
    case TaskAdvances(_) | TaskFinishes(_, _) => StartupAdvancesNothing(d, act);
    case TaskGivesUp(_, _, _) => StartupGivesUpNothing(d, act);
    case ExecuteReturns(_) | TaskFails(_) => FailuresLeaveTables(d, act);
    case TaskCleansUp(_) | TaskLost(_) => EndingsLeaveTables(d, act);
  }

  lemma StartupPreserves(d: Daemon, act: Action)
    requires Safe(d) && !Started(d.pc)
    ensures Preserved(d.db, Step(d, act).db)
  {
    if SchedulerStep(act) {
      StartupIdles(d, act);
    } else if TaskStep(act) {
      StartupHasNoTasks(d, act);
    } else {
      OthersPreserve(d, act);
    }
  }

  lemma OthersPreserve(d: Daemon, act: Action)
    requires Safe(d) && !SchedulerStep(act) && !TaskStep(act)
    ensures Preserved(d.db, Step(d, act).db)
  {
    match act
    case AcceptRequest(_, _) | AcceptUnanswered(_, _) => AcceptPreserves(d, act);
    case CancelCommit(_, id, now) => CancelPreserves(d.db, id, now);
    case PatchRequest(id, revision, p) => PatchPreserves(d.db, id, revision, p);
    case RejectNext(now) => RejectPreserves(d, now);
    case RecoverNext(now) => RecoverPreserves(d, now);
    case Precheck(_, _) | ListUnfrozen(_) | ListUnfinished(_) => ListingsLeaveTables(d, act);
    case CancelSignal(_) => SignalsLeaveTables(d, act);
    case HandlerDropped(h) => DropLeavesTables(d, h);
    case Shutdown | Crash => StopsLeaveTables(d, act);
  }

  /** Passes have not begun in any state of the run. */
  ghost predicate NeverStarts(d: Daemon, acts: seq<Action>) {
    forall i :: 0 <= i <= |acts| ==> !Started(Play(d, acts[..i]).pc)
  }

  lemma PrefixNeverStarts(d: Daemon, acts: seq<Action>)
    requires acts != [] && NeverStarts(d, acts)
    ensures NeverStarts(d, acts[..|acts| - 1])
  {
    var prefix := acts[..|acts| - 1];
    forall i | 0 <= i <= |prefix| ensures !Started(Play(d, prefix[..i]).pc) {
      assert prefix[..i] == acts[..i];
    }
  }

  lemma {:induction false} StartupRunPreserves(d: Daemon, acts: seq<Action>)
    requires Safe(d) && NeverStarts(d, acts)
    ensures Preserved(d.db, Play(d, acts).db)
  {
    if acts != [] {
      var prefix, act := acts[..|acts| - 1], acts[|acts| - 1];
      PrefixNeverStarts(d, acts);
      RunIsSafe(d, prefix);
      StartupRunPreserves(d, prefix);
      assert !Started(Play(d, prefix).pc);
      StartupPreserves(Play(d, prefix), act);
      PreservedTransitively(d.db, Play(d, prefix).db, Play(d, acts).db);
    }
  }

  /** Only a crash takes a scheduler that has begun its passes back to startup. */
  lemma {:induction false} OnlyACrashGoesBack(d: Daemon, acts: seq<Action>)
    requires Safe(d) && Known(d) && Crash !in acts && !Started(Play(d, acts).pc)
    ensures NeverStarts(d, acts)
  {
    if acts != [] {
      var prefix, act := acts[..|acts| - 1], acts[|acts| - 1];
      RunIsSafe(d, prefix);
      RunKeepsKnown(d, prefix);
      StepMovesPc(Play(d, prefix), act);
      OnlyACrashGoesBack(d, prefix);
      forall i | 0 <= i <= |acts| ensures !Started(Play(d, acts[..i]).pc) {
        assert if i < |acts| then acts[..i] == prefix[..i] else acts[..i] == acts;
      }
    }
  }

  /** Recovery has gone through its list: what that leaves of the database before the crash. */
  ghost predicate Recovered(before: Db, db: Db) {
    && ActiveRows(db) == {}
    && (forall id :: id in db.subs ==> !db.subs[id].state.Running?)
    && (forall a :: Active(before, a) ==> a in db.attempts && db.attempts[a].state == Ended(Uncertain))
    && (forall source :: HeldBy(db, source) == HeldBy(before, source))
    && SameLocks(before, db)
    && AllFrozen(db)
  }

  /**
    Crash recovery. Let the daemon crash in any state and restart, with API calls interleaved anyhow, and
    let it crash again during startup any number of times. When recovery has gone through its list, no
    attempt is active, every attempt that was active is uncertain, each source holds exactly the attempts
    it held, each workspace is locked by exactly the submissions that locked it, and every queued row has
    its snapshots.
  */
  lemma CrashRecovery(d: Daemon, acts: seq<Action>)
    requires Safe(d)
    requires NeverStarts(StepCrash(d), acts) && Play(StepCrash(d), acts).pc == Recovering([])
    ensures Recovered(d.db, Play(StepCrash(d), acts).db)
  {
    CrashIsSafe(d);
    RestartRecovers(StepCrash(d), acts);
  }

  lemma RestartRecovers(boot: Daemon, acts: seq<Action>)
    requires Safe(boot) && NeverStarts(boot, acts) && Play(boot, acts).pc == Recovering([])
    ensures Recovered(boot.db, Play(boot, acts).db)
  {
    RunIsSafe(boot, acts);
    StartupRunPreserves(boot, acts);
    RecoveredState(boot.db, Play(boot, acts));
  }

  /** In particular after a crash that no second one follows. */
  lemma OneCrashRecovery(d: Daemon, acts: seq<Action>)
    requires Safe(d) && Crash !in acts && Play(StepCrash(d), acts).pc == Recovering([])
    ensures Recovered(d.db, Play(StepCrash(d), acts).db)
  {
    CrashIsSafe(d);
    OnlyACrashGoesBack(StepCrash(d), acts);
    CrashRecovery(d, acts);
  }

  lemma RecoveredState(before: Db, e: Daemon)
    requires Safe(e) && e.pc == Recovering([]) && Preserved(before, e.db)
    ensures Recovered(before, e.db)
  {
    assert forall a :: a in e.db.attempts ==> !Active(e.db, a);
    forall id | id in e.db.subs ensures !e.db.subs[id].state.Running? {
      var v := RowFacts(e.db, id);
      if v.attempt.Some? { assert !Active(e.db, v.attempt.value.id); }
    }
    forall a | Active(before, a) ensures a in e.db.attempts && e.db.attempts[a].state == Ended(Uncertain) {
      assert AttemptRecovered(before.attempts[a], e.db.attempts[a]);
      assert !Active(e.db, a);
    }
    forall source ensures HeldBy(e.db, source) == HeldBy(before, source) {
      forall a ensures a in HeldBy(e.db, source) <==> a in HeldBy(before, source) {
        if a in before.attempts { assert AttemptRecovered(before.attempts[a], e.db.attempts[a]); }
      }
    }
  }
}
