/** The main results about whole runs of the daemon: any list of actions, from any safe state. */
module DaemonRuns {
  import opened Prelude
  import opened Protocol
  import opened StoreModel
  import opened Store
  import opened Scheduler
  import opened Evolution
  import opened Daemon
  import opened DaemonSafety
  import A = AttemptPipeline

  lemma InitialIsSafe(d: Daemon)
    requires Initial(d) && Inv(d.db) && ValidConfig(d.config)
    ensures Safe(d)
  {
  }

  lemma {:induction false} RunIsSafe(d: Daemon, acts: seq<Action>)
    requires Safe(d)
    ensures Safe(Play(d, acts))
  {
    if acts != [] {
      RunIsSafe(d, acts[..|acts| - 1]);
      StepIsSafe(Play(d, acts[..|acts| - 1]), acts[|acts| - 1]);
    }
  }

  // ----- history -----

  /** Rows and attempts evolve, logs grow, ended things stay, and nobody edits the configuration. */
  ghost predicate Follows(d: Daemon, e: Daemon) {
    Evolves(d.db, e.db) && e.config == d.config
  }

  /** ... and no attempt appears and no cancellation is abandoned. */
  ghost predicate Steady(d: Daemon, e: Daemon) {
    Follows(d, e) && e.db.attempts.Keys == d.db.attempts.Keys && e.abandoned <= d.abandoned
  }

  lemma AcceptingEvolves(d: Daemon, act: Action)
    requires Inv(d.db) && (act.AcceptRequest? || act.AcceptUnanswered?)
    ensures Steady(d, Step(d, act))
  {
    var h, id := act.handler, act.id;
    if h in d.handlers && d.handlers[h].Creating? && id !in d.db.subs {
      AcceptEvolves(d.db, id, d.handlers[h].frozen);
    } else {
      EvolvesIsReflexive(d.db);
    }
  }

  lemma CancellingEvolves(d: Daemon, act: Action)
    requires act.CancelCommit?
    ensures Steady(d, Step(d, act))
  {
    CancelEvolves(d.db, act.id, act.now);
    EvolvesIsReflexive(d.db);
  }

  lemma PatchingEvolves(d: Daemon, act: Action)
    requires act.PatchRequest?
    ensures Steady(d, Step(d, act))
  {
    PatchEvolves(d.db, act.id, act.revision, act.patch);
  }

  lemma RejectingEvolves(d: Daemon, act: Action)
    requires act.RejectNext?
    ensures Steady(d, Step(d, act))
  {
    if d.pc.Rejecting? && d.pc.rows != [] {
      FinishQueuedEvolves(d.db, d.pc.rows[0], Failed, ConfigurationSnapshotMissing, Some(RuntimeUnavailable), act.now);
    }
  }

  lemma ExpiringEvolves(d: Daemon, act: Action)
    requires act.ExpireNext?
    ensures Steady(d, Step(d, act))
  {
    EvolvesIsReflexive(d.db);
    if d.pc.Passing? && d.pc.queue != [] { ExpiredEvolves(d, d.pc.queue[0].id, act.now, d.pc.queue[1..]); }
  }

  lemma ExpiredEvolves(d: Daemon, id: SubmissionId, now: Time, rest: seq<QueuedItem>)
    ensures Steady(d, d.(pc := Stopped, tasks := map[]))
    ensures Steady(d, d.(db := Expire(d.db, id, now).db, pc := Passing(rest)))
  {
    EvolvesIsReflexive(d.db);
    FinishQueuedEvolves(d.db, id, Expired, StartDeadlineExpired, None, now);
  }

  lemma ClaimingEvolves(d: Daemon, act: Action)
    requires Inv(d.db) && act.ClaimNext?
    ensures Follows(d, Step(d, act)) && Step(d, act).abandoned <= d.abandoned
  {
    if d.pc.Claiming? && act.attempt !in d.db.attempts {
      ClaimEvolves(d.db, ClaimSpec(d.pc.item.id, act.attempt, d.pc.source));
    } else {
      EvolvesIsReflexive(d.db);
    }
  }

  lemma BlockEvolves(d: Daemon, item: QueuedItem, code: BlockerCode, rest: seq<QueuedItem>)
    ensures Steady(d, StepBlock(d, item, code, rest))
  {
    SetBlockerEvolves(d.db, item.id, Blocker(code, None));
  }

  lemma DelayingEvolves(d: Daemon, act: Action)
    requires act.DelayNext?
    ensures Steady(d, Step(d, act))
  {
    EvolvesIsReflexive(d.db);
    if d.pc.Passing? && d.pc.queue != [] { BlockEvolves(d, d.pc.queue[0], NotBefore, d.pc.queue[1..]); }
  }

  lemma BlockingEvolves(d: Daemon, act: Action)
    requires act.BlockNext?
    ensures Steady(d, Step(d, act))
  {
    EvolvesIsReflexive(d.db);
    if d.pc.Passing? && d.pc.queue != [] { BlockEvolves(d, d.pc.queue[0], act.code, d.pc.queue[1..]); }
  }

  lemma DeferringEvolves(d: Daemon, act: Action)
    requires act.DeferNext?
    ensures Steady(d, Step(d, act))
  {
    EvolvesIsReflexive(d.db);
    if d.pc.Deferring? { BlockEvolves(d, d.pc.item, BusyWorkspace, d.pc.queue); }
  }

  lemma AdvancingEvolves(d: Daemon, act: Action)
    requires Inv(d.db) && act.TaskAdvances?
    requires act.attempt in d.tasks ==> TaskOk(d, act.attempt)
    ensures Steady(d, Step(d, act))
  {
    var a := act.attempt;
    if Drives(d, a) && !Concluding(d.tasks[a]) {
      var id, note := d.tasks[a].submission, d.tasks[a].todo[0].note;
      if note.Started? {
        MarkEvolves(d.db, id, a, note.version);
      } else {
        AgentEventEvolves(d.db, id, a, A.KindOf(note), A.PayloadOf(note));
      }
    } else {
      EvolvesIsReflexive(d.db);
    }
  }

  lemma RecoveringEvolves(d: Daemon, act: Action)
    requires Inv(d.db) && act.RecoverNext?
    requires d.pc.Recovering? && d.pc.lost != [] ==> Active(d.db, d.pc.lost[0])
    ensures Steady(d, Step(d, act))
  {
    if d.pc.Recovering? && d.pc.lost != [] {
      OwnerFinishes(d.db, Lost(d.db.attempts[d.pc.lost[0]].submission, d.pc.lost[0]), act.now);
    }
  }

  lemma ConcludingEvolves(d: Daemon, a: AttemptId, record: A.Record, now: Time)
    requires Inv(d.db) && a in d.tasks && TaskOk(d, a) && !HasEnded(d.tasks[a]) && record.state.Outcome()
    ensures Steady(d, Concluded(d, a, record, now))
  {
    OwnerFinishes(d.db, A.FinishOf(d.tasks[a].submission, a, record), now);
  }

  lemma FinishingEvolves(d: Daemon, act: Action)
    requires Inv(d.db) && (act.TaskFinishes? || act.TaskGivesUp?)
    requires act.attempt in d.tasks ==> TaskOk(d, act.attempt)
    ensures Steady(d, Step(d, act))
  {
    EvolvesIsReflexive(d.db);
    var a := act.attempt;
    if act.TaskFinishes? {
      if Drives(d, a) && Concluding(d.tasks[a]) {
        ConcludingEvolves(d, a, A.Recorded(d.tasks[a].todo, d.config.outputLimit), act.now);
      }
    } else if a in d.tasks && d.tasks[a].phase.Failing? && act.written {
      ConcludingEvolves(d, a, A.UNKNOWN_FATE, act.now);
    }
  }

  predicate LeavesTables(d: Daemon, e: Daemon) {
    e.db == d.db && e.config == d.config && e.abandoned <= d.abandoned
  }

  lemma ListingsLeaveTables(d: Daemon, act: Action)
    requires act.Precheck? || act.ListUnfrozen? || act.ListUnfinished?
    ensures LeavesTables(d, Step(d, act))
  {
    match act
    case Precheck(h, f) => PrecheckOnlyAnswers(d, h, f);
    case ListUnfrozen(rows) => assert LeavesTables(d, StepListUnfrozen(d, rows));
    case ListUnfinished(lost) => assert LeavesTables(d, StepListUnfinished(d, lost));
  }

  lemma ReadingsLeaveTables(d: Daemon, act: Action)
    requires act.BeginPass? || act.ReadCapacity?
    ensures LeavesTables(d, Step(d, act))
  {
    match act
    case BeginPass(queue) => assert LeavesTables(d, StepBeginPass(d, queue));
    case ReadCapacity(source, obs, now) => assert LeavesTables(d, StepReadCapacity(d, source, obs, now));
  }

  lemma SignalsLeaveTables(d: Daemon, act: Action)
    requires act.CancelSignal? || act.Signal?
    ensures LeavesTables(d, Step(d, act))
  {
    match act
    case CancelSignal(h) =>
      if h in d.handlers && d.handlers[h].Cancelling? {
        SignalledShape(d.(handlers := d.handlers - {h}), d.handlers[h].submission);
      }
    case Signal => if d.pc.Signalling? { SignalledShape(d, d.pc.submission); }
  }

  lemma HandoverLeavesTables(d: Daemon, act: Action)
    requires act.Register? || act.CheckFlag? || act.Spawn?
    ensures LeavesTables(d, Step(d, act))
  {
  }

  lemma FailuresLeaveTables(d: Daemon, act: Action)
    requires act.ExecuteReturns? || act.TaskFails?
    ensures LeavesTables(d, Step(d, act))
  {
  }

  lemma EndingsLeaveTables(d: Daemon, act: Action)
    requires act.TaskCleansUp? || act.TaskLost?
    ensures LeavesTables(d, Step(d, act))
  {
  }

  lemma StopsLeaveTables(d: Daemon, act: Action)
    requires act.Shutdown? || act.Crash?
    ensures LeavesTables(d, Step(d, act))
  {
  }

  lemma DropLeavesTables(d: Daemon, handler: nat)
    ensures var e := StepHandlerDropped(d, handler); e.db == d.db && e.config == d.config
  {
  }

  lemma SchedulerStepEvolves(d: Daemon, act: Action)
    requires Safe(d) && SchedulerStep(act)
    ensures Follows(d, Step(d, act)) && (!act.ClaimNext? ==> Steady(d, Step(d, act)))
    ensures Step(d, act).abandoned <= d.abandoned
  {
    EvolvesIsReflexive(d.db);
    match act
    case ExpireNext(_) => ExpiringEvolves(d, act);
    case ClaimNext(_) => ClaimingEvolves(d, act);
    case DelayNext(_) => DelayingEvolves(d, act);
    case BlockNext(_) => BlockingEvolves(d, act);
    case DeferNext => DeferringEvolves(d, act);
    case BeginPass(_) | ReadCapacity(_, _, _) => ReadingsLeaveTables(d, act);
    case Register | CheckFlag | Spawn(_) => HandoverLeavesTables(d, act);
    case Signal => SignalsLeaveTables(d, act);
  }

  lemma TaskStepEvolves(d: Daemon, act: Action)
    requires Safe(d) && TaskStep(act)
    ensures Steady(d, Step(d, act))
  {
    EvolvesIsReflexive(d.db);
    match act
    case TaskAdvances(_) => AdvancingEvolves(d, act);
    case TaskFinishes(_, _) | TaskGivesUp(_, _, _) => FinishingEvolves(d, act);
    case ExecuteReturns(_) | TaskFails(_) => FailuresLeaveTables(d, act);
    case TaskCleansUp(_) | TaskLost(_) => EndingsLeaveTables(d, act);
  }

  lemma OtherStepEvolves(d: Daemon, act: Action)
    requires Safe(d) && !SchedulerStep(act) && !TaskStep(act) && !act.HandlerDropped?
    ensures Steady(d, Step(d, act))
  {
    EvolvesIsReflexive(d.db);
    match act
    case AcceptRequest(_, _) | AcceptUnanswered(_, _) => AcceptingEvolves(d, act);
    case CancelCommit(_, _, _) => CancellingEvolves(d, act);
    case PatchRequest(_, _, _) => PatchingEvolves(d, act);
    case RejectNext(_) => RejectingEvolves(d, act);
    case RecoverNext(_) => RecoveringEvolves(d, act);
    case Precheck(_, _) | ListUnfrozen(_) | ListUnfinished(_) => ListingsLeaveTables(d, act);
    case CancelSignal(_) => SignalsLeaveTables(d, act);
    case Shutdown | Crash => StopsLeaveTables(d, act);
  }

  lemma StepEvolves(d: Daemon, act: Action)
    requires Safe(d)
    ensures Follows(d, Step(d, act))
    ensures !act.ClaimNext? ==> Step(d, act).db.attempts.Keys == d.db.attempts.Keys
    ensures !act.HandlerDropped? ==> Step(d, act).abandoned <= d.abandoned
  {
    if SchedulerStep(act) {
      SchedulerStepEvolves(d, act);
    } else if TaskStep(act) {
      TaskStepEvolves(d, act);
    } else if act.HandlerDropped? {
      DropLeavesTables(d, act.handler);
      EvolvesIsReflexive(d.db);
    } else {
      OtherStepEvolves(d, act);
    }
  }

  lemma {:induction false} RunEvolves(d: Daemon, acts: seq<Action>)
    requires Safe(d)
    ensures Follows(d, Play(d, acts))
  {
    if acts == [] {
      EvolvesIsReflexive(d.db);
    } else {
      var here := Play(d, acts[..|acts| - 1]);
      RunEvolves(d, acts[..|acts| - 1]);
      RunIsSafe(d, acts[..|acts| - 1]);
      StepEvolves(here, acts[|acts| - 1]);
      EvolvesTransitively(d.db, here.db, Play(d, acts).db);
    }
  }
}
