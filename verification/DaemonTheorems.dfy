/** What the runs of the daemon mean for its clients. */
module DaemonTheorems {
  import opened Prelude
  import opened Protocol
  import opened StoreModel
  import opened StoreProofs
  import opened Store
  import opened Capacity
  import opened Scheduler
  import opened Evolution
  import opened Daemon
  import opened DaemonSafety
  import opened DaemonRuns
  import A = AttemptPipeline
  import R = Runtime

  // ----- history -----

  /** The log of a submission only grows, its accepted request never changes and its revision never falls. */
  lemma HistoryOnlyGrows(d: Daemon, acts: seq<Action>, id: SubmissionId)
    requires Safe(d) && id in d.db.subs
    ensures var e := Play(d, acts);
      && id in e.db.subs
      && Log(d.db, id) <= Log(e.db, id)
      && e.db.subs[id].frozen == d.db.subs[id].frozen
      && d.db.subs[id].revision <= e.db.subs[id].revision
      && var schedule := e.db.subs[id].schedule;
      && (schedule.notBefore.Some? && schedule.startDeadline.Some? ==>
            schedule.notBefore.value < schedule.startDeadline.value)
  {
    RunEvolves(d, acts);
    RunIsSafe(d, acts);
    assert RowStep(d.db, Play(d, acts).db, id);
    assert RowInv(Play(d, acts).db, id);
  }

  /**
    Terminal is final: the row, the result, the attempts and the log of an ended submission stay as
    they are, and its last entry is the only one that ends it.
  */
  lemma TerminalIsFinal(d: Daemon, acts: seq<Action>, id: SubmissionId)
    requires Safe(d) && id in d.db.subs && d.db.subs[id].state.Terminal()
    ensures var e := Play(d, acts);
      && id in e.db.subs && e.db.subs[id] == d.db.subs[id]
      && ResultOf(d.db, id).Ok? && ResultOf(e.db, id) == ResultOf(d.db, id)
      && Log(e.db, id) == Log(d.db, id)
      && (forall a :: a in e.db.attempts && e.db.attempts[a].submission == id ==>
            a in d.db.attempts && e.db.attempts[a] == d.db.attempts[a])
      && Log(e.db, id) != [] && Log(e.db, id)[|Log(e.db, id)| - 1].EndsSubmission()
      && (forall i :: 0 <= i < |Log(e.db, id)| - 1 ==> !Log(e.db, id)[i].EndsSubmission())
  {
    var e := Play(d, acts);
    RunEvolves(d, acts);
    RunIsSafe(d, acts);
    assert RowStep(d.db, e.db, id);
    var v := RowFacts(d.db, id);
    var w := RowFacts(e.db, id);
    LogRebuildsRow(e.db, id);
    assert v == w;
    forall a | a in e.db.attempts && e.db.attempts[a].submission == id
      ensures a in d.db.attempts && e.db.attempts[a] == d.db.attempts[a]
    {
      Coupled(e.db, a);
      assert AttemptStep(d.db, e.db, a);
    }
  }

  /** At most one of all the patches that present the same revision of a submission succeeds in a run. */
  lemma NoLostUpdate(d: Daemon, id: SubmissionId, revision: nat, first: Patch, acts: seq<Action>, second: Patch)
    requires Safe(d) && PatchScheduling(d.db, id, revision, first).reply.Ok?
    ensures PatchScheduling(Play(StepPatch(d, id, revision, first), acts).db, id, revision, second).reply.Err?
  {
    var patched := StepPatch(d, id, revision, first);
    PatchIsSafe(d, id, revision, first);
    PatchEvolves(d.db, id, revision, first);
    LaterRevision(patched, acts, id, revision);
    StaleRevisionIsRefused(Play(patched, acts).db, id, revision, second);
  }

  lemma StaleRevisionIsRefused(db: Db, id: SubmissionId, revision: nat, p: Patch)
    requires id in db.subs && db.subs[id].revision != revision
    ensures PatchScheduling(db, id, revision, p).reply.Err?
  {
  }

  lemma LaterRevision(d: Daemon, acts: seq<Action>, id: SubmissionId, revision: nat)
    requires Safe(d) && id in d.db.subs && d.db.subs[id].revision > revision
    ensures id in Play(d, acts).db.subs && Play(d, acts).db.subs[id].revision > revision
  {
    RunEvolves(d, acts);
    assert RowStep(d.db, Play(d, acts).db, id);
  }

  // ----- workspaces -----

  /** Two submissions that own the same workspace at the same time only read it. */
  lemma WorkspaceExclusion(d: Daemon, acts: seq<Action>, x: SubmissionId, y: SubmissionId)
    requires Safe(d)
    requires var db := Play(d, acts).db; x != y && Locks(db, x) && Locks(db, y)
    requires var db := Play(d, acts).db;
      db.subs[x].frozen.workspace.Some? && db.subs[x].frozen.workspace == db.subs[y].frozen.workspace
    ensures var db := Play(d, acts).db; !db.subs[x].frozen.writable && !db.subs[y].frozen.writable
  {
    RunIsSafe(d, acts);
  }

  /** A writer whose fate is unknown keeps its workspace forever: nobody else is ever admitted to it. */
  lemma UncertainWriterKeepsItsLock(d: Daemon, acts: seq<Action>, id: SubmissionId, other: SubmissionId,
                                    spec: ClaimSpec)
    requires Safe(d) && id in d.db.subs && d.db.subs[id].state.Uncertain?
    requires d.db.subs[id].frozen.workspace.Some? && d.db.subs[id].frozen.writable
    requires var db := Play(d, acts).db;
      && other in db.subs && other != id && db.subs[other].frozen.workspace == d.db.subs[id].frozen.workspace
      && spec.submission == other
    ensures var db := Play(d, acts).db;
      && Locks(db, id) && Busy(db, other) && !Locks(db, other)
      && (db.subs[other].state.Queued? ==> Claim(db, spec, 1).reply == Err(WorkspaceBusy))
  {
    var db := Play(d, acts).db;
    TerminalIsFinal(d, acts, id);
    RunIsSafe(d, acts);
    assert Locks(db, id) && Shares(db.subs[other].frozen, db.subs[id].frozen);
  }

  // ----- capacity -----

  /** The attempts held on a configured source fit beside its reserve. */
  ghost predicate Uncrowded(d: Daemon, source: string) {
    source in d.config.sources ==>
      ActiveForSource(d.db, source) + d.config.sources[source].reserve <= d.config.sources[source].limit
  }

  /**
    A claim only succeeds with room to spare: it takes one slot of a configured source whose observation
    was healthy and fresh when read, and even now its observed load plus one leaves the reserve free.
  */
  lemma ClaimTakesASpareSlot(d: Daemon, a: AttemptId)
    requires Safe(d) && d.pc.Claiming? && a !in d.db.attempts
    requires Claim(d.db, ClaimSpec(d.pc.item.id, a, d.pc.source), 1).reply.Ok?
    ensures var s, seen, after := d.pc.source, d.pc.seen, StepClaimNext(d, a).db;
      && s in d.config.sources && s in seen.observations
      && var o, source := seen.observations[s], d.config.sources[s];
      && o.probe.health.Healthy? && !Stale(source, o, seen.now)
      && ObservedLoad(o, ActiveForSource(d.db, s)) + 1 + source.reserve <= source.limit
      && HeldBy(after, s) == HeldBy(d.db, s) + {a}
      && ActiveForSource(after, s) == ActiveForSource(d.db, s) + 1
      && (forall t :: t != s ==> HeldBy(after, t) == HeldBy(d.db, t))
  {
    var s, seen := d.pc.source, d.pc.seen;
    OpenMeansRoomForOneMore(seen.config.sources[s], seen.observations, ActiveForSource(d.db, s), seen.now);
    ClaimTakesOneSlot(d.db, ClaimSpec(d.pc.item.id, a, s));
  }

  lemma ClaimTakesOneSlot(db: Db, spec: ClaimSpec)
    requires Inv(db) && spec.attempt !in db.attempts && Claim(db, spec, 1).reply.Ok?
    ensures var after := Claim(db, spec, 1).db;
      && HeldBy(after, spec.source) == HeldBy(db, spec.source) + {spec.attempt}
      && forall t :: t != spec.source ==> HeldBy(after, t) == HeldBy(db, t)
  {
    ClaimEvolves(db, spec);
    var after := Claim(db, spec, 1).db;
    assert HeldBy(after, spec.source) == HeldBy(db, spec.source) + {spec.attempt};
    forall t | t != spec.source ensures HeldBy(after, t) == HeldBy(db, t) {
      forall b ensures b in HeldBy(after, t) <==> b in HeldBy(db, t) {}
    }
  }

  lemma ClaimKeepsUncrowded(d: Daemon, a: AttemptId, source: string)
    requires Safe(d) && Uncrowded(d, source)
    ensures Uncrowded(StepClaimNext(d, a), source)
  {
    if Grants(d, a) {
      GrantedClaim(d, a);
      ClaimTakesASpareSlot(d, a);
      SpareSlotKeepsUncrowded(d, StepClaimNext(d, a), d.pc.source, source);
    } else {
      RefusedClaim(d, a);
      SameTablesSameCrowd(d, StepClaimNext(d, a), source);
    }
  }

  lemma SameTablesSameCrowd(d: Daemon, e: Daemon, source: string)
    requires e.db == d.db && e.config == d.config && Uncrowded(d, source)
    ensures Uncrowded(e, source)
  {
  }

  lemma SpareSlotKeepsUncrowded(d: Daemon, e: Daemon, taken: string, source: string)
    requires e.config == d.config && taken in d.config.sources && Uncrowded(d, source)
    requires forall t :: t != taken ==> HeldBy(e.db, t) == HeldBy(d.db, t)
    requires ActiveForSource(e.db, taken) + d.config.sources[taken].reserve <= d.config.sources[taken].limit
    ensures Uncrowded(e, source)
  {
    if source != taken { assert HeldBy(e.db, source) == HeldBy(d.db, source); }
  }

  lemma StepKeepsUncrowded(d: Daemon, act: Action, source: string)
    requires Safe(d) && Uncrowded(d, source)
    ensures Uncrowded(Step(d, act), source)
  {
    if act.ClaimNext? {
      ClaimKeepsUncrowded(d, act.attempt, source);
    } else {
      StepEvolves(d, act);
      LessIsUncrowded(d, Step(d, act), source);
    }
  }

  lemma LessIsUncrowded(d: Daemon, e: Daemon, source: string)
    requires Uncrowded(d, source) && Follows(d, e) && e.db.attempts.Keys == d.db.attempts.Keys
    ensures Uncrowded(e, source)
  {
    HeldShrinks(d.db, e.db, source);
    SubsetSize(HeldBy(e.db, source), HeldBy(d.db, source));
  }

  /** Capacity safety: once a source holds no more than its limit less its reserve, it never will again. */
  lemma {:induction false} CapacityIsNeverExceeded(d: Daemon, acts: seq<Action>, source: string)
    requires Safe(d) && Uncrowded(d, source)
    ensures Uncrowded(Play(d, acts), source)
  {
    if acts != [] {
      var prefix := acts[..|acts| - 1];
      CapacityIsNeverExceeded(d, prefix, source);
      RunIsSafe(d, prefix);
      StepKeepsUncrowded(Play(d, prefix), acts[|acts| - 1], source);
    }
  }

  // ----- cancellation -----

  /**
    No lost cancellation: once a pending cancellation has been committed and neither its handler nor the
    dispatcher has anything left to do about it, the cancel channel of the running task holds true,
    unless, and only unless, the handler died before it signalled and nobody has signalled since, or the
    signal came when `execute` had returned and nobody listened any more.
  */
  lemma NoLostCancellation(d: Daemon, acts: seq<Action>, a: AttemptId)
    requires Safe(d) && Drives(Play(d, acts), a)
    ensures var e := Play(d, acts); var id := e.tasks[a].submission;
      && id in e.db.subs && a in e.channels
      && (e.db.subs[id].cancelRequested && !SignalPending(e, id) ==>
            (e.channels[a] <==> id !in e.abandoned && id !in e.unheard))
      && (e.tasks[a].listening ==> id !in e.unheard)
  {
    RunIsSafe(d, acts);
    var e := Play(d, acts);
    var id := e.tasks[a].submission;
    assert TaskOk(e, a) && EntryOk(e, id);
    assert AttemptInv(e.db, a);
  }

  /** While no handler dies nothing is abandoned, so every cancellation then reaches its channel. */
  lemma {:induction false} OnlyDeadHandlersAbandon(d: Daemon, acts: seq<Action>)
    requires Safe(d) && d.abandoned == {} && forall i :: 0 <= i < |acts| ==> !acts[i].HandlerDropped?
    ensures Play(d, acts).abandoned == {}
  {
    if acts != [] {
      OnlyDeadHandlersAbandon(d, acts[..|acts| - 1]);
      RunIsSafe(d, acts[..|acts| - 1]);
      StepEvolves(Play(d, acts[..|acts| - 1]), acts[|acts| - 1]);
    }
  }

  /** A dead handler does lose the signal: the flag is set, nobody is left to signal, and the channel stays false. */
  lemma DeadHandlerLosesTheSignal(d: Daemon, a: AttemptId, handler: nat, now: Time)
    requires Safe(d) && Drives(d, a) && handler !in d.handlers
    requires var id := d.tasks[a].submission;
             id in d.db.subs && !d.db.subs[id].cancelRequested && !SignalPending(d, id) && !ChannelTrue(d, id)
    ensures var id := d.tasks[a].submission;
            var e := StepHandlerDropped(StepCancelCommit(d, handler, id, now), handler);
            id in e.db.subs && e.db.subs[id].cancelRequested && !SignalPending(e, id) && id in e.abandoned
                && !ChannelTrue(e, id)
  {
    PendingCancellation(d, a, handler, now);
  }

  /** While its attempt listens, the next cancellation of the same submission that is seen through makes good for it. */
  lemma NextCancellationSignals(d: Daemon, a: AttemptId, handler: nat, now: Time)
    requires Safe(d) && Drives(d, a) && d.tasks[a].listening && handler !in d.handlers
    ensures var id := d.tasks[a].submission;
            var e := StepCancelSignal(StepCancelCommit(d, handler, id, now), handler);
            ChannelTrue(e, id) && id !in e.abandoned
  {
    PendingCancellation(d, a, handler, now);
  }

  /** A cancellation of a running attempt is committed and its handler is left to signal. */
  lemma PendingCancellation(d: Daemon, a: AttemptId, handler: nat, now: Time)
    requires Safe(d) && Drives(d, a) && handler !in d.handlers
    ensures var id := d.tasks[a].submission;
            var out := Cancel(d.db, id, now);
      && id in out.db.subs && out.db.subs[id].cancelRequested
      && id in d.registry && d.registry[id] == a
      && StepCancelCommit(d, handler, id, now) == d.(db := out.db, handlers := d.handlers[handler := Cancelling(id)])
  {
    assert TaskOk(d, a);
    Coupled(d.db, a);
    CancelReports(d.db, d.tasks[a].submission, now);
  }

  /**
    Once `execute` has returned, a first cancellation comes too late: it is committed and signalled, nobody
    is left to signal and nothing is abandoned, and yet the channel stays false.
  */
  lemma CancellationAfterExecuteIsUnheard(d: Daemon, a: AttemptId, handler: nat, now: Time)
    requires Safe(d) && Drives(d, a) && !d.tasks[a].listening && handler !in d.handlers
    requires var id := d.tasks[a].submission; !SignalPending(d, id) && !ChannelTrue(d, id)
    ensures var id := d.tasks[a].submission;
            var e := StepCancelSignal(StepCancelCommit(d, handler, id, now), handler);
      && id in e.db.subs && e.db.subs[id].cancelRequested && !SignalPending(e, id)
      && id !in e.abandoned && id in e.unheard && !ChannelTrue(e, id)
  {
    var id := d.tasks[a].submission;
    PendingCancellation(d, a, handler, now);
    assert TaskOk(d, a);
    UnheardSignal(d, StepCancelCommit(d, handler, id, now), a, handler, id);
  }

  lemma UnheardSignal(d: Daemon, c: Daemon, a: AttemptId, handler: nat, id: SubmissionId)
    requires id in d.registry && d.registry[id] == a && a in d.tasks && !d.tasks[a].listening && handler !in d.handlers
    requires !SignalPending(d, id) && !ChannelTrue(d, id) && !(HoldsReceiver(d.pc) && d.pc.attempt == a)
    requires c == d.(db := c.db, handlers := d.handlers[handler := Cancelling(id)])
    ensures var e := StepCancelSignal(c, handler);
      && e.db == c.db && !SignalPending(e, id) && id !in e.abandoned && id in e.unheard && !ChannelTrue(e, id)
  {
    assert c.handlers - {handler} == d.handlers;
  }

  // ----- attempts -----

  /**
    A task that has recorded the end of its attempt recorded the verdict on all its events, or an unknown
    fate if its own store calls failed; and so the tables show it for ever after, whatever interleaves.
  */
  lemma TaskLeavesItsVerdict(d: Daemon, acts: seq<Action>, a: AttemptId, more: seq<Action>)
    requires Safe(d) && a in Play(d, acts).tasks && HasEnded(Play(d, acts).tasks[a])
    ensures var e := Play(d, acts); var t := e.tasks[a];
      && A.EndedAs(Play(e, more).db, t.submission, a, Verdict(e, t))
      && Verdict(e, t) == if t.failed then A.UNKNOWN_FATE else A.Recorded(t.events, d.config.outputLimit)
  {
    var e := Play(d, acts);
    RunIsSafe(d, acts);
    RunEvolves(d, acts);
    RunEvolves(e, more);
    assert TaskOk(e, a);
    EndingStands(e.db, Play(e, more).db, e.tasks[a].submission, a, Verdict(e, e.tasks[a]));
  }

  lemma EndingStands(x: Db, y: Db, id: SubmissionId, a: AttemptId, record: A.Record)
    requires Evolves(x, y) && A.EndedAs(x, id, a, record) && record.state.Outcome()
    ensures A.EndedAs(y, id, a, record)
  {
    assert RowStep(x, y, id) && AttemptStep(x, y, a);
  }

  predicate Unfailed(d: Daemon, a: AttemptId) {
    a in d.tasks ==> !d.tasks[a].failed
  }

  /** A task keeps the events it was spawned with, and only its own failure marks it as failed. */
  ghost predicate KeepsTask(d: Daemon, act: Action, a: AttemptId) {
    var e := Step(d, act);
    && (Unfailed(d, a) && act != TaskFails(a) ==> Unfailed(e, a))
    && (a in e.tasks ==>
          || (a in d.tasks && e.tasks[a].submission == d.tasks[a].submission && e.tasks[a].events == d.tasks[a].events)
          || act == Spawn(e.tasks[a].events))
  }

  lemma ApiLeavesTasks(d: Daemon, act: Action)
    requires act.AcceptRequest? || act.AcceptUnanswered? || act.CancelCommit? || act.CancelSignal? || act.PatchRequest?
    ensures Step(d, act).tasks == d.tasks
  {
  }

  lemma HandlersLeaveTasks(d: Daemon, act: Action)
    requires act.Precheck? || act.HandlerDropped?
    ensures Step(d, act).tasks == d.tasks
  {
    if act.Precheck? { PrecheckOnlyAnswers(d, act.handler, act.frozen); }
  }

  lemma StartupKeepsTask(d: Daemon, act: Action, a: AttemptId)
    requires act.ListUnfrozen? || act.RejectNext? || act.ListUnfinished? || act.RecoverNext?
    ensures KeepsTask(d, act, a)
  {
  }

  lemma LifecycleKeepsTask(d: Daemon, act: Action, a: AttemptId)
    requires act.Shutdown? || act.Crash?
    ensures KeepsTask(d, act, a)
  {
  }

  lemma PassKeepsTask(d: Daemon, act: Action, a: AttemptId)
    requires act.BeginPass? || act.ExpireNext?
    ensures KeepsTask(d, act, a)
  {
  }

  lemma CapacityKeepsTask(d: Daemon, act: Action, a: AttemptId)
    requires act.ReadCapacity? || act.ClaimNext?
    ensures KeepsTask(d, act, a)
  {
  }

  lemma BlockKeepsTask(d: Daemon, act: Action, a: AttemptId)
    requires act.DelayNext? || act.BlockNext? || act.DeferNext?
    ensures KeepsTask(d, act, a)
  {
  }

  lemma HandshakeKeepsTask(d: Daemon, act: Action, a: AttemptId)
    requires act.Register? || act.CheckFlag?
    ensures KeepsTask(d, act, a)
  {
  }

  lemma SignalKeepsTask(d: Daemon, act: Action, a: AttemptId)
    requires act.Signal?
    ensures KeepsTask(d, act, a)
  {
  }

  lemma SpawnKeepsTask(d: Daemon, act: Action, a: AttemptId)
    requires act.Spawn?
    ensures KeepsTask(d, act, a)
  {
  }

  lemma AdvanceKeepsTask(d: Daemon, act: Action, a: AttemptId)
    requires act.ExecuteReturns? || act.TaskAdvances?
    ensures KeepsTask(d, act, a)
  {
  }

  lemma FinishKeepsTask(d: Daemon, act: Action, a: AttemptId)
    requires act.TaskFinishes?
    ensures KeepsTask(d, act, a)
  {
  }

  lemma GiveUpKeepsTask(d: Daemon, act: Action, a: AttemptId)
    requires act.TaskGivesUp?
    ensures KeepsTask(d, act, a)
  {
  }

  lemma FailKeepsTask(d: Daemon, act: Action, a: AttemptId)
    requires act.TaskFails?
    ensures KeepsTask(d, act, a)
  {
  }

  lemma LeaveKeepsTask(d: Daemon, act: Action, a: AttemptId)
    requires act.TaskCleansUp? || act.TaskLost?
    ensures KeepsTask(d, act, a)
  {
  }

  lemma StepKeepsTask(d: Daemon, act: Action, a: AttemptId)
    ensures KeepsTask(d, act, a)
  {
    match act
    case Precheck(_, _) | HandlerDropped(_) => HandlersLeaveTasks(d, act);
    case AcceptRequest(_, _) | AcceptUnanswered(_, _) | CancelCommit(_, _, _) | CancelSignal(_)
      | PatchRequest(_, _, _) =>
      ApiLeavesTasks(d, act);
    case ListUnfrozen(_) | RejectNext(_) | ListUnfinished(_) | RecoverNext(_) => StartupKeepsTask(d, act, a);
    case Shutdown | Crash => LifecycleKeepsTask(d, act, a);
    case BeginPass(_) | ExpireNext(_) => PassKeepsTask(d, act, a);
    case ReadCapacity(_, _, _) | ClaimNext(_) => CapacityKeepsTask(d, act, a);
    case DelayNext(_) | BlockNext(_) | DeferNext => BlockKeepsTask(d, act, a);
    case Register | CheckFlag => HandshakeKeepsTask(d, act, a);
    case Signal => SignalKeepsTask(d, act, a);
    case Spawn(_) => SpawnKeepsTask(d, act, a);
    case ExecuteReturns(_) | TaskAdvances(_) => AdvanceKeepsTask(d, act, a);
    case TaskFinishes(_, _) => FinishKeepsTask(d, act, a);
    case TaskGivesUp(_, _, _) => GiveUpKeepsTask(d, act, a);
    case TaskFails(_) => FailKeepsTask(d, act, a);
    case _ => LeaveKeepsTask(d, act, a);
  }

  lemma {:induction false} RunFailsNoTask(d: Daemon, acts: seq<Action>, a: AttemptId)
    requires TaskFails(a) !in acts && Unfailed(d, a)
    ensures Unfailed(Play(d, acts), a)
  {
    if acts != [] {
      RunFailsNoTask(d, acts[..|acts| - 1], a);
      StepKeepsTask(Play(d, acts[..|acts| - 1]), acts[|acts| - 1], a);
    }
  }

  /**
    Store errors of its own aside, a task that runs to its end leaves exactly the verdict on the events
    it was given, and it stays: no other actor can spoil it, before or after.
  */
  lemma TaskRecordsItsEvents(d: Daemon, acts: seq<Action>, a: AttemptId, more: seq<Action>)
    requires Safe(d) && a !in d.tasks && TaskFails(a) !in acts
    requires a in Play(d, acts).tasks && Play(d, acts).tasks[a].phase.Finished?
    ensures var e := Play(d, acts); var t := e.tasks[a];
      && A.EndedAs(Play(e, more).db, t.submission, a, A.Recorded(t.events, d.config.outputLimit))
      && A.TablesShow(Play(e, more).db, t.submission, a, t.events, d.config.outputLimit)
  {
    var e := Play(d, acts);
    RunFailsNoTask(d, acts, a);
    RunIsSafe(d, acts);
    assert TaskOk(e, a);
    TaskLeavesItsVerdict(d, acts, a, more);
    A.RecordIsShown(Play(e, more).db, e.tasks[a].submission, a, e.tasks[a].events, d.config.outputLimit);
  }

  /** A task whose own store calls failed leaves its submission as lost. */
  lemma FailedTaskLeavesALoss(d: Daemon, acts: seq<Action>, a: AttemptId, more: seq<Action>)
    requires Safe(d) && a in Play(d, acts).tasks && HasEnded(Play(d, acts).tasks[a]) && Play(d, acts).tasks[a].failed
    ensures var e := Play(d, acts); var id := e.tasks[a].submission; var db := Play(e, more).db;
      id in db.subs && a in db.attempts && A.RowShowsLoss(db.subs[id]) && db.attempts[a].state == Ended(Uncertain)
  {
    TaskLeavesItsVerdict(d, acts, a, more);
  }

  /** Each step of a task on a report either marks the start of the runtime or logs the report. */
  lemma TaskStepsAreLogged(d: Daemon, a: AttemptId)
    requires Safe(d) && Drives(d, a) && !Concluding(d.tasks[a])
    ensures var e, t := StepTaskAdvances(d, a), d.tasks[a]; var id, note := t.submission, t.todo[0].note;
      && t.todo[0].Progress? && a in d.db.attempts && e.tasks == d.tasks[a := e.tasks[a]]
      && (if note.Started? then
            && (d.db.attempts[a].state.Starting? ==>
                  && a in e.db.attempts
                  && e.db.attempts[a] == d.db.attempts[a].(state := Executing, agentVersion := note.version))
            && e.tasks[a].todo == [t.todo[0].(note := R.Activity("diagnostic.warning"))] + t.todo[1..]
            && A.Reports(Log(e.db, id)) == A.Reports(Log(d.db, id))
          else
            && e.tasks[a].todo == t.todo[1..] && e.db.attempts == d.db.attempts
            && A.TellsMore(Log(d.db, id), Log(e.db, id), note))
  {
    assert TaskOk(d, a) && AttemptInv(d.db, a);
    var id, log, after := d.tasks[a].submission, Log(d.db, d.tasks[a].submission),
      Log(StepTaskAdvances(d, a).db, d.tasks[a].submission);
    if after != log {
      assert after == log + [after[|log|]];
      A.OneMoreEntry(log, after[|log|]);
    }
  }

  /** Only a submission that may not start yet is delayed, and its row says so. */
  lemma DelaysTell(d: Daemon, item: QueuedItem, now: Time)
    requires d.pc.Passing? && d.pc.queue != [] && d.pc.queue[0] == item
    requires item.id in d.db.subs && d.db.subs[item.id].state.Queued?
    ensures if item.schedule.notBefore.Some? && now < item.schedule.notBefore.value then
              Shows(Step(d, DelayNext(now)).db.subs[item.id], NotBefore)
            else
              Step(d, DelayNext(now)) == d
  {
  }

  /** Only a submission whose deadline has passed expires. */
  lemma ExpiriesAreDue(d: Daemon, item: QueuedItem, now: Time)
    requires d.pc.Passing? && d.pc.queue != [] && d.pc.queue[0] == item
    requires item.id in d.db.subs && d.db.subs[item.id].state.Queued?
    ensures if item.schedule.startDeadline.Some? && item.schedule.startDeadline.value <= now then
              var row := Step(d, ExpireNext(now)).db.subs[item.id]; row.state.Expired? && row.finishedAt == Some(now)
            else
              Step(d, ExpireNext(now)) == d
  {
  }

  /** A submission only goes on to its claim within its times, and on an open source of one of its local routes. */
  lemma DispatchesAreDue(d: Daemon, source: string, observations: map<string, Observation>, now: Time)
    requires Step(d, ReadCapacity(source, observations, now)) != d
    ensures d.pc.Passing? && d.pc.queue != []
    ensures var item := d.pc.queue[0];
      && (item.schedule.startDeadline.Some? ==> now < item.schedule.startDeadline.value)
      && (item.schedule.notBefore.Some? ==> item.schedule.notBefore.value <= now)
      && (exists route :: route in RoutesOf(item) && route.targetId == "local" && source in route.sourceIds)
      && source in d.config.sources
      && Open(d.config.sources[source], observations, ActiveForSource(d.db, source), now)
  {
    var item := d.pc.queue[0];
    var i :| 0 <= i < |RoutesOf(item)| && Local(RoutesOf(item)[i]) && source in RoutesOf(item)[i].sourceIds;
    assert RoutesOf(item)[i] in RoutesOf(item);
  }

  /** A cancel flag that cannot be read counts as set. */
  lemma UnreadableFlagSignals(d: Daemon)
    requires d.pc.Checking?
    ensures Step(d, CheckFlag).pc
            == if d.pc.submission in d.db.subs && !d.db.subs[d.pc.submission].cancelRequested
               then Spawning(d.pc.queue, d.pc.submission, d.pc.attempt)
               else Pc.Signalling(d.pc.queue, d.pc.submission, d.pc.attempt)
  {
  }

  /** A shutdown between passes cancels every attempt that still listens. */
  lemma ShutdownCancelsAll(d: Daemon, id: SubmissionId)
    requires Safe(d) && AtRest(d.pc) && id in d.registry && Listens(d, d.registry[id])
    ensures ChannelTrue(Step(d, Shutdown), id) && Step(d, Shutdown).tasks == d.tasks
  {
    assert EntryOk(d, id);
  }

  /** A task that is done removes its channel from the registry. */
  lemma CleanUpUnregisters(d: Daemon, a: AttemptId)
    requires a in d.tasks && d.tasks[a].phase.Finished?
    ensures var e := Step(d, TaskCleansUp(a)); a !in e.tasks && d.tasks[a].submission !in e.registry
  {
  }

  lemma BusyWorkspaceIsTold(d: Daemon)
    requires d.pc.Deferring? && d.pc.item.id in d.db.subs && d.db.subs[d.pc.item.id].state.Queued?
    ensures Shows(Step(d, DeferNext).db.subs[d.pc.item.id], BusyWorkspace)
  {
  }

  lemma BlockersAreTold(d: Daemon, code: BlockerCode)
    requires d.pc.Passing? && d.pc.queue != []
    requires d.pc.queue[0].id in d.db.subs && d.db.subs[d.pc.queue[0].id].state.Queued?
    ensures Shows(Step(d, BlockNext(code)).db.subs[d.pc.queue[0].id], code)
  {
  }

  ghost predicate InOrder(queue: seq<QueuedItem>, now: Time) {
    forall i, j :: 0 <= i < j < |queue| ==> ServedBefore(queue[i], queue[j], now)
  }

  /** A pass is over all queued submissions, each in its turn. */
  lemma PassesServeInOrder(d: Daemon, queue: seq<QueuedItem>)
    requires AtRest(d.pc) && Step(d, BeginPass(queue)).pc == Passing(queue) && queue != []
    ensures Lists(d.db, queue) && exists now :: InOrder(queue, now)
  {
    var q, now :| IsQueue(d.db, q) && queue == PassOrder(q, now);
    OrderHasQueue(d.db, q, now);
    forall i, j | 0 <= i < j < |queue| ensures ServedBefore(queue[i], queue[j], now) {
      OrderServes(d.db, q, now, i, j);
    }
    assert InOrder(queue, now);
  }

  lemma {:induction false} EventsWereSpawned(d: Daemon, acts: seq<Action>, a: AttemptId)
    requires a !in d.tasks && a in Play(d, acts).tasks
    ensures Spawn(Play(d, acts).tasks[a].events) in acts
  {
    var e := Play(d, acts[..|acts| - 1]);
    StepKeepsTask(e, acts[|acts| - 1], a);
    if acts[|acts| - 1] != Spawn(Play(d, acts).tasks[a].events) {
      EventsWereSpawned(d, acts[..|acts| - 1], a);
    }
  }

  /**
    A claimed attempt, end to end and among all other actors. Its events come from a runtime driving a
    prompt, through a worker, a supervisor and `execute`. Then submission and attempt end for ever as the
    runtime's own first ending, passed on by two processes that exited well, or as uncertain. They end as
    completed only on a successful answer of the agent, with the output that was heard before it, and
    with all that was said before it exactly unless text that still mattered was missed.
  */
  lemma ClaimedAttemptEndsConservatively(d: Daemon, acts: seq<Action>, a: AttemptId, more: seq<Action>, c: A.Course)
    requires Safe(d) && a !in d.tasks && TaskFails(a) !in acts
    requires a in Play(d, acts).tasks && Play(d, acts).tasks[a].phase.Finished?
    requires Play(d, acts).tasks[a].events == A.EventsFrom(c, d.config.outputLimit)
    ensures var record := A.Recorded(A.EventsFrom(c, d.config.outputLimit), d.config.outputLimit);
      && A.EndedAs(Play(Play(d, acts), more).db, Play(d, acts).tasks[a].submission, a, record)
      && A.Trustworthy(record, c, d.config.outputLimit)
  {
    TaskRecordsItsEvents(d, acts, a, more);
    A.RecordIsTrustworthy(c, d.config.outputLimit);
  }
}
