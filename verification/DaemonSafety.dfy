/** What holds in every state of every run of the daemon. */
module DaemonSafety {
  import opened Prelude
  import opened Protocol
  import opened StoreModel
  import opened StoreProofs
  import opened Store
  import opened Capacity
  import opened Scheduler
  import opened Evolution
  import opened Daemon
  import A = AttemptPipeline
  import R = Runtime

  // ----- the invariant -----

  /**
    What a task that could finish its attempt has recorded: the verdict on its events, unless its own store
    calls failed.
  */
  function Verdict(d: Daemon, t: Task): A.Record {
    if t.failed then A.UNKNOWN_FATE else A.Recorded(t.events, d.config.outputLimit)
  }

  /** What is left to a task still leads to the verdict on all its events. */
  predicate Faithful(d: Daemon, t: Task) {
    match t.phase
    case Driving => !t.failed && A.Recorded(t.todo, d.config.outputLimit) == A.Recorded(t.events, d.config.outputLimit)
    case Failing => t.failed
    case Finished(record) => if record.None? then t.failed else record.value == Verdict(d, t)
  }

  /** The task has recorded the end of its attempt. */
  predicate HasEnded(t: Task) {
    t.phase.Finished? && t.phase.record.Some?
  }

  /**
    A task owns a live attempt until it records the end of it, which then stands as recorded, and its
    cancel channel stays registered until it is done.
  */
  ghost predicate TaskOk(d: Daemon, a: AttemptId)
    requires a in d.tasks
  {
    var t := d.tasks[a];
    && a in d.db.attempts && d.db.attempts[a].submission == t.submission
    && Faithful(d, t)
    && (if HasEnded(t) then A.EndedAs(d.db, t.submission, a, t.phase.record.value) else Active(d.db, a))
    && t.submission in d.registry && d.registry[t.submission] == a
  }

  ghost predicate ChannelOk(d: Daemon, id: SubmissionId)
    requires id in d.registry
  {
    var a := d.registry[id];
    a in d.channels && a in d.db.attempts && d.db.attempts[a].submission == id
  }

  ghost predicate HandlerOk(h: Handler) {
    h.Creating? ==> h.frozen.accepted.Ordered() && h.frozen.routes.Some?
  }

  /** The scheduler has claimed `a` and not yet handed it to a task. */
  ghost predicate Carries(d: Daemon, id: SubmissionId, a: AttemptId) {
    Active(d.db, a) && d.db.attempts[a].submission == id && a !in d.tasks
  }

  predicate Idle(d: Daemon) {
    d.tasks == map[] && d.registry == map[]
  }

  ghost predicate PcOk(d: Daemon) {
    match d.pc
    case Boot => Idle(d)
    case Rejecting(rows) => Idle(d) && forall id :: Unfrozen(d.db, id) ==> id in rows
    case Recovering(lost) => Idle(d) && AllFrozen(d.db) && ListsActive(d.db, lost)
    case Passing(_) => AllFrozen(d.db)
    case Claiming(_, _, source, seen) => AllFrozen(d.db) && seen.config == d.config && SourceOpen(seen, d.db, source)
    case Deferring(_, _) => AllFrozen(d.db)
    case Registering(_, id, a) => AllFrozen(d.db) && Carries(d, id, a) && id !in d.registry
    case Checking(_, id, a) => AllFrozen(d.db) && Carries(d, id, a) && id in d.registry && d.registry[id] == a
    case Signalling(_, id, a) => AllFrozen(d.db) && Carries(d, id, a) && id in d.registry && d.registry[id] == a
    case Spawning(_, id, a) => AllFrozen(d.db) && Carries(d, id, a) && id in d.registry && d.registry[id] == a
    case Stopped => true
  }

  /** Somebody has yet to read the registry, or the flag, on behalf of a cancellation of `id`. */
  ghost predicate SignalPending(d: Daemon, id: SubmissionId) {
    || (exists h :: h in d.handlers && d.handlers[h] == Cancelling(id))
    || (d.pc.Checking? && d.pc.submission == id)
    || (d.pc.Signalling? && d.pc.submission == id)
  }

  ghost predicate FlagOk(d: Daemon, id: SubmissionId)
    requires id in d.registry
  {
    && (id in d.db.subs && d.db.subs[id].cancelRequested ==>
      ChannelTrue(d, id) || SignalPending(d, id)
      || id in d.abandoned || id in d.unheard)
    && (id in d.abandoned || id in d.unheard ==> !ChannelTrue(d, id))
    && (id in d.unheard ==> !Listens(d, d.registry[id]))
  }

  /** A registered channel belongs to the attempt of its submission and holds what it should. */
  ghost predicate EntryOk(d: Daemon, id: SubmissionId)
    requires id in d.registry
  {
    ChannelOk(d, id) && FlagOk(d, id)
  }

  ghost predicate Safe(d: Daemon) {
    && Inv(d.db)
    && ValidConfig(d.config)
    && (forall a {:trigger TaskOk(d, a)} :: a in d.tasks ==> TaskOk(d, a))
    && (forall id {:trigger EntryOk(d, id)} :: id in d.registry ==> EntryOk(d, id))
    && (forall h {:trigger d.handlers[h]} :: h in d.handlers ==> HandlerOk(d.handlers[h]))
    && PcOk(d)
  }

  // ----- API steps -----

  /** A transaction of somebody else: it moves no attempt, and adds no queued row without snapshots. */
  ghost predicate Apart(x: Db, y: Db) {
    && Inv(y) && Evolves(x, y) && y.attempts == x.attempts
    && (forall id :: Unfrozen(y, id) ==> Unfrozen(x, id))
  }

  lemma ApartKeepsPc(d: Daemon, db: Db)
    requires Safe(d) && Apart(d.db, db)
    ensures PcOk(d.(db := db))
    ensures AllFrozen(d.db) ==> AllFrozen(db)
  {
    assert UnfrozenRows(db) <= UnfrozenRows(d.db);
    if d.pc.Claiming? {
      assert HeldBy(db, d.pc.source) == HeldBy(d.db, d.pc.source);
    }
    if d.pc.Recovering? {
      forall a | Active(db, a) ensures a in d.pc.lost { assert Active(d.db, a); }
      forall i | 0 <= i < |d.pc.lost| ensures Active(db, d.pc.lost[i]) { assert Active(d.db, d.pc.lost[i]); }
    }
  }

  /** No attempt and no cancel flag that was there changes. */
  ghost predicate Undisturbed(x: Db, y: Db) {
    && (forall a :: a in x.attempts ==> a in y.attempts && y.attempts[a] == x.attempts[a])
    && (forall id :: id in x.subs ==> id in y.subs && y.subs[id].cancelRequested == x.subs[id].cancelRequested)
  }

  /** A task keeps its standing while nobody touches its attempt; what it recorded nobody can touch. */
  lemma TaskStays(d: Daemon, e: Daemon, a: AttemptId)
    requires Inv(d.db) && a in d.tasks && TaskOk(d, a) && Evolves(d.db, e.db) && e.config == d.config
    requires a in e.tasks && e.tasks[a] == d.tasks[a] && a in e.db.attempts && e.db.attempts[a] == d.db.attempts[a]
    requires var id := d.tasks[a].submission; id in e.registry && e.registry[id] == a
    ensures TaskOk(e, a)
  {
    if HasEnded(d.tasks[a]) {
      assert RowStep(d.db, e.db, d.tasks[a].submission) && RowInv(d.db, d.tasks[a].submission);
    }
  }

  lemma QuietKeepsSafe(d: Daemon, e: Daemon)
    requires Safe(d) && Inv(e.db) && Undisturbed(d.db, e.db) && Evolves(d.db, e.db)
    requires e.abandoned == d.abandoned && e.unheard == d.unheard
    requires e.tasks == d.tasks && e.registry == d.registry && e.channels == d.channels && e.config == d.config
    requires forall h :: h in e.handlers ==> HandlerOk(e.handlers[h])
    requires e.pc == d.pc || (!d.pc.Checking? && !d.pc.Signalling? && !HoldsReceiver(e.pc))
    requires KeepsSignals(d.handlers, e.handlers)
    requires PcOk(e)
    ensures Safe(e)
  {
    forall a | a in e.tasks ensures TaskOk(e, a) {
      assert TaskOk(d, a);
      TaskStays(d, e, a);
    }
    forall id | id in e.registry ensures EntryOk(e, id) {
      assert EntryOk(d, id);
      assert AttemptInv(d.db, d.registry[id]);
      if SignalPending(d, id) { SignalsStay(d, e, id); }
    }
  }

  predicate KeepsSignals(x: map<nat, Handler>, y: map<nat, Handler>) {
    forall h :: h in x && x[h].Cancelling? ==> h in y && y[h] == x[h]
  }

  lemma SignalsStay(d: Daemon, e: Daemon, id: SubmissionId)
    requires KeepsSignals(d.handlers, e.handlers) && SignalPending(d, id)
    requires e.pc == d.pc || (!d.pc.Checking? && !d.pc.Signalling?)
    ensures SignalPending(e, id)
  {
    if h :| h in d.handlers && d.handlers[h] == Cancelling(id) {
      assert e.handlers[h] == Cancelling(id);
    }
  }

  lemma AcceptIsSafe(d: Daemon, handler: nat, id: SubmissionId)
    requires Safe(d)
    ensures Safe(StepAccept(d, handler, id))
  {
    if handler in d.handlers && d.handlers[handler].Creating? && id !in d.db.subs {
      assert HandlerOk(d.handlers[handler]);
      AcceptIsApart(d.db, id, d.handlers[handler].frozen);
      AnsweringIsSafe(d, Accept(d.db, id, d.handlers[handler].frozen).db, d.handlers - {handler},
          StepAccept(d, handler, id).replies);
    }
  }

  lemma AcceptIsApart(db: Db, id: SubmissionId, f: Frozen)
    requires Inv(db) && id !in db.subs && f.accepted.Ordered() && f.routes.Some?
    ensures Apart(db, Accept(db, id, f).db) && Quiet(db, Accept(db, id, f).db)
  {
    AcceptKeepsInv(db, id, f);
    AcceptEvolves(db, id, f);
  }

  lemma PrecheckIsSafe(d: Daemon, handler: nat, f: Frozen)
    requires Safe(d)
    ensures Safe(StepPrecheck(d, handler, f))
  {
    PrecheckOnlyAnswers(d, handler, f);
    EvolvesIsReflexive(d.db);
    AnsweringIsSafe(d, d.db, StepPrecheck(d, handler, f).handlers, StepPrecheck(d, handler, f).replies);
  }

  lemma PrecheckOnlyAnswers(d: Daemon, handler: nat, f: Frozen)
    ensures var e := StepPrecheck(d, handler, f);
      && e == d.(handlers := e.handlers, replies := e.replies)
      && KeepsSignals(d.handlers, e.handlers)
      && forall h :: h in e.handlers ==> HandlerOk(e.handlers[h]) || (h in d.handlers && e.handlers[h] == d.handlers[h])
  {
  }

  lemma AnsweringIsSafe(d: Daemon, db: Db, handlers: map<nat, Handler>, replies: seq<Reply>)
    requires Safe(d) && KeepsSignals(d.handlers, handlers) && Apart(d.db, db) && Quiet(d.db, db)
    requires forall h :: h in handlers ==> HandlerOk(handlers[h]) || (h in d.handlers && handlers[h] == d.handlers[h])
    ensures Safe(d.(db := db, handlers := handlers, replies := replies))
  {
    ApartKeepsPc(d, db);
    QuietKeepsSafe(d, d.(db := db, handlers := handlers, replies := replies));
  }

  lemma AcceptUnansweredIsSafe(d: Daemon, handler: nat, id: SubmissionId)
    requires Safe(d)
    ensures Safe(StepAcceptUnanswered(d, handler, id))
  {
    if handler in d.handlers && d.handlers[handler].Creating? && id !in d.db.subs {
      assert HandlerOk(d.handlers[handler]);
      AcceptIsApart(d.db, id, d.handlers[handler].frozen);
      var e := d.(db := Accept(d.db, id, d.handlers[handler].frozen).db, handlers := d.handlers - {handler});
      AnsweringIsSafe(d, e.db, e.handlers, d.replies);
      BookkeepingIsSafe(e, StepAcceptUnanswered(d, handler, id).unanswered);
    }
  }

  lemma BookkeepingIsSafe(d: Daemon, unanswered: set<SubmissionId>)
    requires Safe(d)
    ensures Safe(d.(unanswered := unanswered))
  {
    var e := d.(unanswered := unanswered);
    forall a | a in e.tasks ensures TaskOk(e, a) { assert TaskOk(d, a); }
    forall x | x in e.registry ensures EntryOk(e, x) { assert EntryOk(d, x); }
  }

  lemma AbandoningIsSafe(d: Daemon, handler: nat, id: SubmissionId)
    requires Safe(d) && handler in d.handlers && d.handlers[handler] == Cancelling(id) && !ChannelTrue(d, id)
    ensures Safe(d.(handlers := d.handlers - {handler}, abandoned := d.abandoned + {id}))
  {
    var e := d.(handlers := d.handlers - {handler}, abandoned := d.abandoned + {id});
    forall a | a in e.tasks ensures TaskOk(e, a) { assert TaskOk(d, a); }
    forall x | x in e.registry ensures EntryOk(e, x) {
      assert EntryOk(d, x);
      if x != id && SignalPending(d, x) { OtherSignalStays(d, e, handler, x); }
    }
  }

  lemma RedundantDropIsSafe(d: Daemon, handler: nat, id: SubmissionId)
    requires Safe(d) && handler in d.handlers && d.handlers[handler] == Cancelling(id) && ChannelTrue(d, id)
    ensures Safe(d.(handlers := d.handlers - {handler}))
  {
    var e := d.(handlers := d.handlers - {handler});
    forall a | a in e.tasks ensures TaskOk(e, a) { assert TaskOk(d, a); }
    forall x | x in e.registry ensures EntryOk(e, x) {
      assert EntryOk(d, x);
      if x != id && SignalPending(d, x) { OtherSignalStays(d, e, handler, x); }
    }
  }

  /** The cancellation a dead handler owed is remembered as abandoned, unless its channel was already true. */
  lemma HandlerDroppedIsSafe(d: Daemon, handler: nat)
    requires Safe(d)
    ensures Safe(StepHandlerDropped(d, handler))
  {
    if handler in d.handlers {
      match d.handlers[handler]
      case Creating(_) =>
        EvolvesIsReflexive(d.db);
        AnsweringIsSafe(d, d.db, d.handlers - {handler}, d.replies);
      case Cancelling(id) =>
        if ChannelTrue(d, id) { RedundantDropIsSafe(d, handler, id); } else { AbandoningIsSafe(d, handler, id); }
    }
  }

  lemma EvolvesIsReflexive(db: Db)
    ensures Evolves(db, db) && Quiet(db, db)
  {
  }

  lemma PatchIsSafe(d: Daemon, id: SubmissionId, revision: nat, p: Patch)
    requires Safe(d)
    ensures Safe(StepPatch(d, id, revision, p))
  {
    var db := PatchScheduling(d.db, id, revision, p).db;
    PatchKeepsInv(d.db, id, revision, p);
    PatchEvolves(d.db, id, revision, p);
    ApartKeepsPc(d, db);
    QuietKeepsSafe(d, d.(db := db));
  }

  lemma CancelCommitIsSafe(d: Daemon, handler: nat, id: SubmissionId, now: Time)
    requires Safe(d)
    ensures Safe(StepCancelCommit(d, handler, id, now))
  {
    if handler !in d.handlers {
      var out := Cancel(d.db, id, now);
      CancelKeepsInv(d.db, id, now);
      CancelEvolves(d.db, id, now);
      ApartKeepsPc(d, out.db);
      var pending := out.reply.Ok? && out.reply.value.disposition.CancelPending?;
      CancellingIsSafe(d, out.db, handler, id, pending);
    }
  }

  lemma CancellingIsSafe(d: Daemon, db: Db, handler: nat, id: SubmissionId, pending: bool)
    requires Safe(d) && Apart(d.db, db) && handler !in d.handlers
    requires forall x :: x in d.db.subs && x != id ==>
               x in db.subs
               && db.subs[x].cancelRequested == d.db.subs[x].cancelRequested
    requires !pending && id in d.db.subs ==>
               id in db.subs && db.subs[id].cancelRequested == d.db.subs[id].cancelRequested
    requires PcOk(d.(db := db))
    ensures Safe(d.(db := db, handlers := if pending then d.handlers[handler := Cancelling(id)] else d.handlers))
  {
    var e := d.(db := db, handlers := if pending then d.handlers[handler := Cancelling(id)] else d.handlers);
    CancellingKeepsTasks(d, e);
    CancellingKeepsFlags(d, e, handler, id, pending);
  }

  lemma CancellingKeepsFlags(d: Daemon, e: Daemon, handler: nat, id: SubmissionId, pending: bool)
    requires Safe(d) && Apart(d.db, e.db) && handler !in d.handlers
    requires e == d.(db := e.db, handlers := if pending then d.handlers[handler := Cancelling(id)] else d.handlers)
    requires forall x :: x in d.db.subs && (x != id || !pending) ==>
               x in e.db.subs && e.db.subs[x].cancelRequested == d.db.subs[x].cancelRequested
    ensures forall x :: x in e.registry ==> EntryOk(e, x)
  {
    forall x | x in e.registry ensures EntryOk(e, x) {
      assert EntryOk(d, x);
      assert AttemptInv(d.db, d.registry[x]);
      if SignalPending(d, x) { SignalsStay(d, e, x); }
      if x == id && pending { assert e.handlers[handler] == Cancelling(id); }
    }
  }

  lemma CancellingKeepsTasks(d: Daemon, e: Daemon)
    requires Safe(d) && Apart(d.db, e.db) && e == d.(db := e.db, handlers := e.handlers)
    ensures forall a :: a in e.tasks ==> TaskOk(e, a)
  {
    forall a | a in e.tasks ensures TaskOk(e, a) {
      assert TaskOk(d, a);
      TaskStays(d, e, a);
    }
  }

  /** A signal answers for every cancellation of the submission so far: it is heard, or found nobody to hear it. */
  lemma SignalledFlag(d: Daemon, id: SubmissionId)
    requires id in d.registry && d.registry[id] in d.channels
    requires id in d.unheard ==> !Listens(d, d.registry[id]) && !ChannelTrue(d, id)
    ensures FlagOk(Signalled(d, id), id)
  {
  }

  lemma SignalledOthers(d: Daemon, id: SubmissionId, x: SubmissionId)
    requires x in d.registry && x != id && (id in d.registry ==> d.registry[id] != d.registry[x])
    ensures var e := Signalled(d, id);
      && ChannelTrue(e, x) == ChannelTrue(d, x)
      && (x in e.abandoned <==> x in d.abandoned) && (x in e.unheard <==> x in d.unheard)
  {
  }

  lemma SignalledShape(d: Daemon, id: SubmissionId)
    ensures var e := Signalled(d, id);
      && e == d.(channels := e.channels, abandoned := e.abandoned, unheard := e.unheard)
      && d.channels.Keys <= e.channels.Keys && e.abandoned <= d.abandoned
  {
  }

  lemma CancelSignalIsSafe(d: Daemon, handler: nat)
    requires Safe(d)
    ensures Safe(StepCancelSignal(d, handler))
  {
    if handler in d.handlers && d.handlers[handler].Cancelling? {
      var id := d.handlers[handler].submission;
      var c := d.(handlers := d.handlers - {handler});
      var e := Signalled(c, id);
      SignalledShape(c, id);
      forall a | a in e.tasks ensures TaskOk(e, a) { assert TaskOk(d, a); }
      forall x | x in e.registry ensures EntryOk(e, x) {
        assert EntryOk(d, x);
        if x == id {
          SignalledFlag(c, id);
        } else {
          if id in d.registry { assert EntryOk(d, id); }
          SignalledOthers(c, id, x);
          if SignalPending(d, x) { OtherSignalStays(d, e, handler, x); }
        }
      }
    }
  }

  lemma OtherSignalStays(d: Daemon, e: Daemon, handler: nat, id: SubmissionId)
    requires e.handlers == d.handlers - {handler} && e.pc == d.pc && SignalPending(d, id)
    requires handler in d.handlers && d.handlers[handler] != Cancelling(id)
    ensures SignalPending(e, id)
  {
    if h :| h in d.handlers && d.handlers[h] == Cancelling(id) {
      assert e.handlers[h] == Cancelling(id);
    }
  }

  // ----- scheduler steps -----

  /** A transaction of the scheduler on the queue. */
  lemma QueueStepIsSafe(d: Daemon, db: Db, pc: Pc)
    requires Safe(d) && Apart(d.db, db) && Quiet(d.db, db)
    requires !d.pc.Checking? && !d.pc.Signalling? && !HoldsReceiver(pc)
    requires PcOk(d.(db := db, pc := pc))
    ensures Safe(d.(db := db, pc := pc))
  {
    QuietKeepsSafe(d, d.(db := db, pc := pc));
  }

  lemma FinishQueuedIsApart(db: Db, id: SubmissionId, state: SubmissionState, reason: Reason, error: Option<ErrorCode>,
                            now: Time)
    requires Inv(db) && EventLog.QueueExit(state, Some(reason))
    ensures Apart(db, FinishQueued(db, id, state, reason, error, now).db)
            && Quiet(db, FinishQueued(db, id, state, reason, error, now).db)
  {
    FinishQueuedKeepsInv(db, id, state, reason, error, now);
    FinishQueuedEvolves(db, id, state, reason, error, now);
  }

  lemma BlockIsSafe(d: Daemon, item: QueuedItem, code: BlockerCode, rest: seq<QueuedItem>)
    requires Safe(d) && (d.pc.Passing? || d.pc.Deferring?)
    ensures Safe(StepBlock(d, item, code, rest))
  {
    var b := Blocker(code, None);
    SetBlockerKeepsInv(d.db, item.id, b);
    SetBlockerEvolves(d.db, item.id, b);
    ApartKeepsPc(d, SetBlocker(d.db, item.id, b).db);
    QueueStepIsSafe(d, SetBlocker(d.db, item.id, b).db, Passing(rest));
  }

  lemma ExpireIsSafe(d: Daemon, now: Time)
    requires Safe(d)
    ensures Safe(StepExpireNext(d, now))
  {
    if d.pc.Passing? && d.pc.queue != [] && Overdue(d.pc.queue[0], now) {
      ExpiringIsSafe(d, d.pc.queue[0].id, now);
    }
  }

  lemma ExpiringIsSafe(d: Daemon, id: SubmissionId, now: Time)
    requires Safe(d) && d.pc.Passing? && d.pc.queue != []
    ensures Safe(d.(pc := Stopped, tasks := map[]))
    ensures Safe(d.(db := Expire(d.db, id, now).db, pc := Passing(d.pc.queue[1..])))
  {
    FinishQueuedIsApart(d.db, id, Expired, StartDeadlineExpired, None, now);
    ApartKeepsPc(d, Expire(d.db, id, now).db);
    QueueStepIsSafe(d, Expire(d.db, id, now).db, Passing(d.pc.queue[1..]));
    StopIsSafe(d, map[]);
  }

  /** Stopping keeps the registry; it never happens between the registration of an attempt and its task. */
  lemma StopIsSafe(d: Daemon, tasks: map<AttemptId, Task>)
    requires Safe(d) && (tasks == d.tasks || tasks == map[])
    requires !d.pc.Checking? && !d.pc.Signalling?
    ensures Safe(d.(pc := Stopped, tasks := tasks))
  {
    var e := d.(pc := Stopped, tasks := tasks);
    forall a | a in e.tasks ensures TaskOk(e, a) { assert TaskOk(d, a); }
    forall x | x in e.registry ensures EntryOk(e, x) {
      assert EntryOk(d, x);
    }
  }

  lemma RejectIsSafe(d: Daemon, now: Time)
    requires Safe(d)
    ensures Safe(StepRejectNext(d, now))
  {
    if d.pc.Rejecting? && d.pc.rows != [] {
      var id := d.pc.rows[0];
      FinishQueuedIsApart(d.db, id, Failed, ConfigurationSnapshotMissing, Some(RuntimeUnavailable), now);
      QueueStepIsSafe(d, RejectUnfrozen(d.db, id, now).db, Rejecting(d.pc.rows[1..]));
    }
  }

  /** The scheduler moves on without touching anything. */
  lemma MovingOnIsSafe(d: Daemon, pc: Pc)
    requires Safe(d) && !d.pc.Checking? && !d.pc.Signalling? && !HoldsReceiver(pc) && PcOk(d.(pc := pc))
    ensures Safe(d.(pc := pc))
  {
    EvolvesIsReflexive(d.db);
    QuietKeepsSafe(d, d.(pc := pc));
  }

  lemma ListUnfinishedIsSafe(d: Daemon, lost: seq<AttemptId>)
    requires Safe(d)
    ensures Safe(StepListUnfinished(d, lost))
  {
    if d.pc == Rejecting([]) && ListsActive(d.db, lost) {
      assert UnfrozenRows(d.db) <= (set id | id in d.pc.rows);
      MovingOnIsSafe(d, Recovering(lost));
    }
  }

  /** Recovery never meets an error: what is listed stays unfinished until the loop reaches it. */
  lemma RecoverIsSafe(d: Daemon, now: Time)
    requires Safe(d)
    ensures Safe(StepRecoverNext(d, now))
    ensures d.pc.Recovering? ==> StepRecoverNext(d, now).pc.Recovering?
  {
    if d.pc.Recovering? && d.pc.lost != [] {
      var a := d.pc.lost[0];
      assert Active(d.db, a);
      var spec := Lost(d.db.attempts[a].submission, a);
      FinishKeepsInv(d.db, spec, now);
      OwnerFinishes(d.db, spec, now);
      var e := StepRecoverNext(d, now);
      FrozenStays(d.db, e.db);
      forall b | Active(e.db, b) ensures b in e.pc.lost { assert Active(d.db, b); }
      forall i | 0 <= i < |e.pc.lost| ensures Active(e.db, e.pc.lost[i]) { assert Active(d.db, d.pc.lost[i + 1]); }
    }
  }

  lemma FrozenStays(x: Db, y: Db)
    requires Evolves(x, y) && y.subs.Keys == x.subs.Keys
    ensures UnfrozenRows(y) <= UnfrozenRows(x)
  {
    forall id | id in UnfrozenRows(y) ensures id in UnfrozenRows(x) {
      assert RowStep(x, y, id);
    }
  }

  lemma BeginPassIsSafe(d: Daemon, queue: seq<QueuedItem>)
    requires Safe(d)
    ensures Safe(StepBeginPass(d, queue))
    ensures StepBeginPass(d, queue).pc.Stopped? ==> d.pc.Stopped?
  {
    var e := StepBeginPass(d, queue);
    if AtRest(d.pc) && e != d {
      MovingOnIsSafe(d, Passing(queue));
    }
  }

  lemma ReadCapacityIsSafe(d: Daemon, source: string, observations: map<string, Observation>, now: Time)
    requires Safe(d)
    ensures Safe(StepReadCapacity(d, source, observations, now))
  {
    var e := StepReadCapacity(d, source, observations, now);
    if e != d { MovingOnIsSafe(d, e.pc); }
  }

  predicate Grants(d: Daemon, a: AttemptId) {
    && d.pc.Claiming? && a !in d.db.attempts
    && Claim(d.db, ClaimSpec(d.pc.item.id, a, d.pc.source), 1).reply.Ok?
  }

  /** What a claim that is not granted may change. */
  lemma RefusedClaim(d: Daemon, a: AttemptId)
    requires !Grants(d, a)
    ensures var e := StepClaimNext(d, a);
      || e == d
      || (&& d.pc.Claiming? && e == d.(pc := e.pc, tasks := e.tasks)
          && ((e.tasks == d.tasks && (e.pc.Deferring? || e.pc.Passing?)) || (e.tasks == map[] && e.pc.Stopped?)))
  {
  }

  lemma GrantedClaim(d: Daemon, a: AttemptId)
    requires Grants(d, a)
    ensures var db := Claim(d.db, ClaimSpec(d.pc.item.id, a, d.pc.source), 1).db;
            StepClaimNext(d, a) == d.(db := db, pc := Registering(d.pc.queue, d.pc.item.id, a))
  {
  }

  lemma ClaimIsSafe(d: Daemon, a: AttemptId)
    requires Safe(d)
    ensures Safe(StepClaimNext(d, a))
  {
    if Grants(d, a) {
      GrantedClaim(d, a);
      ClaimFacts(d.db, ClaimSpec(d.pc.item.id, a, d.pc.source));
      ClaimedIsSafe(d, Claim(d.db, ClaimSpec(d.pc.item.id, a, d.pc.source), 1).db, d.pc.item.id, a);
    } else {
      RefusedClaim(d, a);
      if StepClaimNext(d, a) != d { RefusedClaimIsSafe(d, StepClaimNext(d, a)); }
    }
  }

  lemma ClaimFacts(db: Db, spec: ClaimSpec)
    requires Inv(db) && spec.attempt !in db.attempts && Claim(db, spec, 1).reply.Ok?
    ensures var after := Claim(db, spec, 1).db;
      && Inv(after) && Evolves(db, after) && after.subs.Keys == db.subs.Keys && Undisturbed(db, after)
      && Active(after, spec.attempt) && after.attempts[spec.attempt].submission == spec.submission
      && spec.submission in db.subs && db.subs[spec.submission].state.Queued?
  {
    ClaimKeepsInv(db, spec);
    ClaimEvolves(db, spec);
  }

  lemma RefusedClaimIsSafe(d: Daemon, e: Daemon)
    requires Safe(d) && d.pc.Claiming?
    requires e == d.(pc := e.pc, tasks := e.tasks)
    requires (e.tasks == d.tasks && (e.pc.Deferring? || e.pc.Passing?)) || (e.tasks == map[] && e.pc.Stopped?)
    ensures Safe(e)
  {
    if e.pc.Stopped? { StopIsSafe(d, map[]); } else { MovingOnIsSafe(d, e.pc); }
  }

  lemma ClaimedIsSafe(d: Daemon, db: Db, id: SubmissionId, a: AttemptId)
    requires Safe(d) && d.pc.Claiming? && a !in d.db.attempts
    requires Inv(db) && Evolves(d.db, db) && db.subs.Keys == d.db.subs.Keys && Undisturbed(d.db, db)
    requires Active(db, a) && db.attempts[a].submission == id
    requires id in d.db.subs && d.db.subs[id].state.Queued?
    ensures Safe(d.(db := db, pc := Registering(d.pc.queue, id, a)))
  {
    ClaimedPc(d, db, id, a);
    AdmittedIsSafe(d, d.(db := db, pc := Registering(d.pc.queue, id, a)));
  }

  lemma AdmittedIsSafe(d: Daemon, e: Daemon)
    requires Safe(d) && d.pc.Claiming? && e == d.(db := e.db, pc := e.pc) && e.pc.Registering? && PcOk(e)
    requires Inv(e.db) && Undisturbed(d.db, e.db) && Evolves(d.db, e.db)
    ensures Safe(e)
  {
    QuietKeepsSafe(d, e);
  }

  lemma ClaimedPc(d: Daemon, db: Db, id: SubmissionId, a: AttemptId)
    requires Safe(d) && d.pc.Claiming? && a !in d.db.attempts
    requires Evolves(d.db, db) && db.subs.Keys == d.db.subs.Keys
    requires Active(db, a) && db.attempts[a].submission == id
    requires id in d.db.subs && d.db.subs[id].state.Queued?
    ensures PcOk(d.(db := db, pc := Registering(d.pc.queue, id, a)))
  {
    NewcomerIsUnknown(d, id, a);
    FrozenStays(d.db, db);
  }

  /** Neither the tasks nor the registry know anything about a submission that is still queued. */
  lemma NewcomerIsUnknown(d: Daemon, id: SubmissionId, a: AttemptId)
    requires Safe(d) && a !in d.db.attempts && id in d.db.subs && d.db.subs[id].state.Queued?
    ensures a !in d.tasks && id !in d.registry
  {
    QueuedHasNoAttempt(d.db, id);
    forall b | b in d.tasks ensures b in d.db.attempts { assert TaskOk(d, b); }
    forall x | x in d.registry ensures d.registry[x] in d.db.attempts && d.db.attempts[d.registry[x]].submission == x {
      assert EntryOk(d, x);
    }
  }

  lemma RegisterIsSafe(d: Daemon)
    requires Safe(d)
    ensures Safe(StepRegister(d))
  {
    if d.pc.Registering? {
      var e := StepRegister(d);
      forall b | b in e.tasks ensures TaskOk(e, b) { assert TaskOk(d, b); }
      forall x | x in e.registry ensures EntryOk(e, x) {
        if x != d.pc.submission {
          assert EntryOk(d, x);
          if SignalPending(d, x) { SignalsStay(d, e, x); }
        }
      }
    }
  }

  /** Checking the flag answers for every cancellation committed before. */
  lemma CheckFlagIsSafe(d: Daemon)
    requires Safe(d)
    ensures Safe(StepCheckFlag(d))
  {
    if d.pc.Checking? {
      var id, a, queue := d.pc.submission, d.pc.attempt, d.pc.queue;
      assert AttemptInv(d.db, a);
      if CancelFlag(d.db, id) == Ok(false) {
        CheckedIsSafe(d, Spawning(queue, id, a));
      } else {
        CheckedIsSafe(d, Pc.Signalling(queue, id, a));
      }
    }
  }

  lemma CheckedIsSafe(d: Daemon, pc: Pc)
    requires Safe(d) && d.pc.Checking? && d.pc.submission in d.db.subs
    requires if d.db.subs[d.pc.submission].cancelRequested
             then pc == Pc.Signalling(d.pc.queue, d.pc.submission, d.pc.attempt)
             else pc == Spawning(d.pc.queue, d.pc.submission, d.pc.attempt)
    ensures Safe(d.(pc := pc))
  {
    var e := d.(pc := pc);
    forall b | b in e.tasks ensures TaskOk(e, b) { assert TaskOk(d, b); }
    forall x | x in e.registry ensures EntryOk(e, x) {
      assert EntryOk(d, x);
      OtherPcStays(d, e, x);
    }
  }

  lemma OtherPcStays(d: Daemon, e: Daemon, id: SubmissionId)
    requires e.handlers == d.handlers && (d.pc.Checking? || d.pc.Signalling?)
    ensures d.pc.submission != id && SignalPending(d, id) ==> SignalPending(e, id)
  {
  }

  lemma SignalIsSafe(d: Daemon)
    requires Safe(d)
    ensures Safe(StepSignal(d))
  {
    if d.pc.Signalling? {
      var id := d.pc.submission;
      var e := StepSignal(d);
      SignalledShape(d, id);
      forall b | b in e.tasks ensures TaskOk(e, b) { assert TaskOk(d, b); }
      forall x | x in e.registry ensures EntryOk(e, x) {
        assert EntryOk(d, x);
        if x == id {
          SignalledFlag(d, id);
        } else {
          assert EntryOk(d, id);
          SignalledOthers(d, id, x);
          OtherPcStays(d, e, x);
        }
      }
    }
  }

  lemma SpawnIsSafe(d: Daemon, events: seq<R.Report>)
    requires Safe(d)
    ensures Safe(StepSpawn(d, events))
  {
    if d.pc.Spawning? {
      var e := StepSpawn(d, events);
      forall b | b in e.tasks ensures TaskOk(e, b) { if b != d.pc.attempt { assert TaskOk(d, b); } }
      forall x | x in e.registry ensures EntryOk(e, x) {
        assert EntryOk(d, x);
        if SignalPending(d, x) { SignalsStay(d, e, x); }
      }
    }
  }

  // ----- steps of the attempt tasks -----

  lemma TaskStepKeepsPc(d: Daemon, db: Db, a: AttemptId)
    requires Safe(d) && a in d.tasks
    requires Inv(db) && Evolves(d.db, db) && Moves(d.db, db, a) && db.subs.Keys == d.db.subs.Keys
    ensures forall tasks: map<AttemptId, Task> :: tasks.Keys == d.tasks.Keys ==> PcOk(d.(db := db, tasks := tasks))
  {
    FrozenStays(d.db, db);
    if d.pc.Claiming? {
      var seen, source := d.pc.seen, d.pc.source;
      HeldShrinks(d.db, db, source);
      SubsetSize(HeldBy(db, source), HeldBy(d.db, source));
      OpenIsAntitone(seen.config.sources[source], seen.observations, ActiveForSource(db, source),
          ActiveForSource(d.db, source), seen.now);
    }
  }

  /** A task moves its own attempt and itself; nobody else's standing changes. */
  lemma TaskStepIsSafe(d: Daemon, db: Db, a: AttemptId, t: Task)
    requires Safe(d) && a in d.tasks && !HasEnded(d.tasks[a])
    requires Inv(db) && Evolves(d.db, db) && Moves(d.db, db, a) && db.subs.Keys == d.db.subs.Keys
    requires t.submission == d.tasks[a].submission && Faithful(d, t) && (t.listening ==> d.tasks[a].listening)
    requires if HasEnded(t) then A.EndedAs(db, t.submission, a, t.phase.record.value) else Active(db, a)
    ensures Safe(d.(db := db, tasks := d.tasks[a := t]))
  {
    var e := d.(db := db, tasks := d.tasks[a := t]);
    TaskStepKeepsPc(d, db, a);
    forall b | b in e.tasks ensures TaskOk(e, b) {
      assert TaskOk(d, b);
      if b != a { TaskStays(d, e, b); }
    }
    TaskStepKeepsFlags(d, e, a);
  }

  lemma TaskStepKeepsFlags(d: Daemon, e: Daemon, a: AttemptId)
    requires Safe(d) && Moves(d.db, e.db, a) && e == d.(db := e.db, tasks := e.tasks)
    requires forall b :: Listens(e, b) ==> Listens(d, b)
    ensures forall x :: x in e.registry ==> EntryOk(e, x)
  {
    forall x | x in e.registry ensures EntryOk(e, x) {
      assert EntryOk(d, x);
      assert AttemptInv(d.db, d.registry[x]);
      if SignalPending(d, x) { SignalsStay(d, e, x); }
    }
  }

  /** Only the tables and the phase of the task are touched by its end. */
  lemma ConcludedIsSafe(d: Daemon, a: AttemptId, record: A.Record, now: Time)
    requires Safe(d) && a in d.tasks && !HasEnded(d.tasks[a]) && record.state.Outcome()
    requires record == Verdict(d, d.tasks[a])
    ensures Safe(Concluded(d, a, record, now))
    ensures Finish(d.db, A.FinishOf(d.tasks[a].submission, a, record), now).reply.Ok?
  {
    assert TaskOk(d, a);
    var spec := A.FinishOf(d.tasks[a].submission, a, record);
    FinishKeepsInv(d.db, spec, now);
    OwnerFinishes(d.db, spec, now);
    TaskStepIsSafe(d, Finish(d.db, spec, now).db, a,
        d.tasks[a].(phase := Finished(Some(record)), listening := false));
  }

  lemma MarkingFacts(db: Db, id: SubmissionId, a: AttemptId, version: Option<string>)
    requires Inv(db) && Active(db, a) && db.attempts[a].submission == id
    ensures var after := MarkAttemptRunning(db, id, a, version).db;
      Inv(after) && Evolves(db, after) && Moves(db, after, a) && after.subs.Keys == db.subs.Keys && Active(after, a)
  {
    Coupled(db, a);
    MarkKeepsInv(db, id, a, version);
    MarkEvolves(db, id, a, version);
  }

  lemma ReportingFacts(db: Db, id: SubmissionId, a: AttemptId, kind: string, payload: string)
    requires Inv(db) && Active(db, a) && db.attempts[a].submission == id
    ensures var after := AppendAgentEvent(db, id, a, kind, payload).db;
      Inv(after) && Evolves(db, after) && Moves(db, after, a) && after.subs.Keys == db.subs.Keys && Active(after, a)
  {
    Coupled(db, a);
    AgentEventKeepsInv(db, id, a, kind, payload);
    AgentEventEvolves(db, id, a, kind, payload);
    assert db.attempts == db.attempts[a := db.attempts[a]];
  }

  lemma RemainingIsFaithful(d: Daemon, t: Task)
    requires Faithful(d, t) && t.phase.Driving? && !Concluding(t)
    ensures Faithful(d, t.(todo := TodoAfter(t)))
  {
    assert [t.todo[0]] + t.todo[1..] == t.todo;
    if t.todo[0].note.Started? { assert TodoAfter(t)[1..] == t.todo[1..]; }
  }

  lemma TaskAdvancesIsSafe(d: Daemon, a: AttemptId)
    requires Safe(d)
    ensures Safe(StepTaskAdvances(d, a))
  {
    if Drives(d, a) && !Concluding(d.tasks[a]) {
      assert TaskOk(d, a);
      var t, id := d.tasks[a], d.tasks[a].submission;
      RemainingIsFaithful(d, t);
      if t.todo[0].note.Started? {
        MarkingFacts(d.db, id, a, t.todo[0].note.version);
      } else {
        ReportingFacts(d.db, id, a, A.KindOf(t.todo[0].note), A.PayloadOf(t.todo[0].note));
      }
      TaskStepIsSafe(d, StepTaskAdvances(d, a).db, a, t.(todo := TodoAfter(t)));
    }
  }

  /** The owner's finish succeeds, whatever else happened since its claim. */
  lemma TaskFinishesIsSafe(d: Daemon, a: AttemptId, now: Time)
    requires Safe(d)
    ensures Safe(StepTaskFinishes(d, a, now))
    ensures Drives(d, a) ==>
              var record := A.Recorded(d.tasks[a].todo, d.config.outputLimit);
              && record == A.Recorded(d.tasks[a].events, d.config.outputLimit)
              && Finish(d.db, A.FinishOf(d.tasks[a].submission, a, record), now).reply.Ok?
  {
    if Drives(d, a) {
      assert TaskOk(d, a);
      ConcludedIsSafe(d, a, A.Recorded(d.tasks[a].todo, d.config.outputLimit), now);
    }
  }

  lemma RephasingIsSafe(d: Daemon, a: AttemptId, t: Task)
    requires Safe(d) && a in d.tasks && !HasEnded(d.tasks[a])
    requires t.submission == d.tasks[a].submission && Faithful(d, t) && !HasEnded(t)
    requires t.listening ==> d.tasks[a].listening
    ensures Safe(d.(tasks := d.tasks[a := t]))
  {
    assert TaskOk(d, a);
    EvolvesIsReflexive(d.db);
    assert d.db.attempts == d.db.attempts[a := d.db.attempts[a]];
    TaskStepIsSafe(d, d.db, a, t);
  }

  lemma ExecuteReturnsIsSafe(d: Daemon, a: AttemptId)
    requires Safe(d)
    ensures Safe(StepExecuteReturns(d, a))
  {
    if Drives(d, a) && |d.tasks[a].todo| <= EVENT_BUFFER {
      assert TaskOk(d, a);
      RephasingIsSafe(d, a, d.tasks[a].(listening := false));
    }
  }

  lemma TaskFailsIsSafe(d: Daemon, a: AttemptId)
    requires Safe(d)
    ensures Safe(StepTaskFails(d, a))
  {
    if Drives(d, a) { RephasingIsSafe(d, a, d.tasks[a].(phase := Failing, failed := true, listening := false)); }
  }

  lemma TaskGivesUpIsSafe(d: Daemon, a: AttemptId, written: bool, now: Time)
    requires Safe(d)
    ensures Safe(StepTaskGivesUp(d, a, written, now))
  {
    if a in d.tasks && d.tasks[a].phase.Failing? {
      assert TaskOk(d, a);
      if written {
        ConcludedIsSafe(d, a, A.UNKNOWN_FATE, now);
      } else {
        RephasingIsSafe(d, a, d.tasks[a].(phase := Finished(None), listening := false));
      }
    }
  }

  lemma TaskCleansUpIsSafe(d: Daemon, a: AttemptId)
    requires Safe(d)
    ensures Safe(StepTaskCleansUp(d, a))
  {
    var e := StepTaskCleansUp(d, a);
    if e != d {
      assert TaskOk(d, a);
      forall b | b in e.tasks ensures TaskOk(e, b) { assert TaskOk(d, b); }
      forall x | x in e.registry ensures EntryOk(e, x) { assert EntryOk(d, x); }
    }
  }

  lemma TaskLostIsSafe(d: Daemon, a: AttemptId)
    requires Safe(d)
    ensures Safe(StepTaskLost(d, a))
  {
    var e := d.(tasks := d.tasks - {a});
    forall b | b in e.tasks ensures TaskOk(e, b) { assert TaskOk(d, b); }
    forall x | x in e.registry ensures EntryOk(e, x) { assert EntryOk(d, x); }
  }

  lemma ShutdownIsSafe(d: Daemon)
    requires Safe(d)
    ensures Safe(StepShutdown(d))
  {
    if AtRest(d.pc) {
      var e := StepShutdown(d);
      forall b | b in e.tasks ensures TaskOk(e, b) { assert TaskOk(d, b); }
      forall x | x in e.registry ensures EntryOk(e, x) { assert EntryOk(d, x); }
    }
  }

  // ----- every step -----

  lemma CreateStepIsSafe(d: Daemon, act: Action)
    requires Safe(d)
    requires act.Precheck? || act.AcceptRequest? || act.AcceptUnanswered?
    ensures Safe(Step(d, act))
  {
    match act
    case Precheck(h, f) => PrecheckIsSafe(d, h, f);
    case AcceptRequest(h, id) => AcceptIsSafe(d, h, id);
    case AcceptUnanswered(h, id) => AcceptUnansweredIsSafe(d, h, id);
  }

  lemma CancelStepIsSafe(d: Daemon, act: Action)
    requires Safe(d)
    requires act.CancelCommit? || act.CancelSignal? || act.HandlerDropped? || act.PatchRequest?
    ensures Safe(Step(d, act))
  {
    match act
    case CancelCommit(h, id, now) => CancelCommitIsSafe(d, h, id, now);
    case CancelSignal(h) => CancelSignalIsSafe(d, h);
    case HandlerDropped(h) => HandlerDroppedIsSafe(d, h);
    case PatchRequest(id, revision, p) => PatchIsSafe(d, id, revision, p);
  }

  lemma ListUnfrozenIsSafe(d: Daemon, rows: seq<SubmissionId>)
    requires Safe(d)
    ensures Safe(StepListUnfrozen(d, rows))
  {
    if d.pc.Boot? && (set id | id in rows) == UnfrozenRows(d.db) {
      forall id | Unfrozen(d.db, id) ensures id in rows { assert id in UnfrozenRows(d.db); }
      MovingOnIsSafe(d, Rejecting(rows));
    }
  }

  lemma CrashIsSafe(d: Daemon)
    requires Safe(d)
    ensures Safe(StepCrash(d))
  {
  }

  lemma StartupStepIsSafe(d: Daemon, act: Action)
    requires Safe(d)
    requires act.ListUnfrozen? || act.RejectNext? || act.ListUnfinished? || act.RecoverNext?
    ensures Safe(Step(d, act))
  {
    match act
    case ListUnfrozen(rows) => ListUnfrozenIsSafe(d, rows);
    case RejectNext(now) => RejectIsSafe(d, now);
    case ListUnfinished(lost) => ListUnfinishedIsSafe(d, lost);
    case RecoverNext(now) => RecoverIsSafe(d, now);
  }

  lemma ShutdownStepIsSafe(d: Daemon, act: Action)
    requires Safe(d)
    requires act.Shutdown?
    ensures Safe(Step(d, act))
  {
    ShutdownIsSafe(d);
  }

  lemma CrashStepIsSafe(d: Daemon, act: Action)
    requires Safe(d)
    requires act.Crash?
    ensures Safe(Step(d, act))
  {
    CrashIsSafe(d);
  }

  lemma PassStepIsSafe(d: Daemon, act: Action)
    requires Safe(d)
    requires act.BeginPass? || act.ReadCapacity?
    ensures Safe(Step(d, act))
  {
    match act
    case BeginPass(queue) => BeginPassIsSafe(d, queue);
    case ReadCapacity(source, obs, now) => ReadCapacityIsSafe(d, source, obs, now);
  }

  lemma DecisionStepIsSafe(d: Daemon, act: Action)
    requires Safe(d)
    requires act.ExpireNext? || act.ClaimNext?
    ensures Safe(Step(d, act))
  {
    match act
    case ExpireNext(now) => ExpireIsSafe(d, now);
    case ClaimNext(a) => ClaimIsSafe(d, a);
  }

  lemma BlockStepIsSafe(d: Daemon, act: Action)
    requires Safe(d)
    requires act.DelayNext? || act.BlockNext? || act.DeferNext?
    ensures Safe(Step(d, act))
  {
    if Step(d, act) != d {
      match act
      case DelayNext(_) => BlockIsSafe(d, d.pc.queue[0], NotBefore, d.pc.queue[1..]);
      case BlockNext(code) => BlockIsSafe(d, d.pc.queue[0], code, d.pc.queue[1..]);
      case DeferNext => BlockIsSafe(d, d.pc.item, BusyWorkspace, d.pc.queue);
    }
  }

  lemma RegistrationStepIsSafe(d: Daemon, act: Action)
    requires Safe(d)
    requires act.Register? || act.CheckFlag?
    ensures Safe(Step(d, act))
  {
    match act
    case Register => RegisterIsSafe(d);
    case CheckFlag => CheckFlagIsSafe(d);
  }

  lemma HandoverStepIsSafe(d: Daemon, act: Action)
    requires Safe(d)
    requires act.Signal? || act.Spawn?
    ensures Safe(Step(d, act))
  {
    match act
    case Signal => SignalIsSafe(d);
    case Spawn(events) => SpawnIsSafe(d, events);
  }

  lemma TaskStepsAreSafe(d: Daemon, act: Action)
    requires Safe(d)
    requires act.TaskAdvances? || act.TaskFinishes?
    ensures Safe(Step(d, act))
  {
    match act
    case TaskAdvances(a) => TaskAdvancesIsSafe(d, a);
    case TaskFinishes(a, now) => TaskFinishesIsSafe(d, a, now);
  }

  lemma TaskErrorsAreSafe(d: Daemon, act: Action)
    requires Safe(d)
    requires act.TaskFails? || act.TaskGivesUp?
    ensures Safe(Step(d, act))
  {
    match act
    case TaskFails(a) => TaskFailsIsSafe(d, a);
    case TaskGivesUp(a, written, now) => TaskGivesUpIsSafe(d, a, written, now);
  }

  lemma TaskReturnIsSafe(d: Daemon, act: Action)
    requires Safe(d)
    requires act.ExecuteReturns?
    ensures Safe(Step(d, act))
  {
    ExecuteReturnsIsSafe(d, act.attempt);
  }

  lemma TaskEndIsSafe(d: Daemon, act: Action)
    requires Safe(d)
    requires act.TaskCleansUp? || act.TaskLost?
    ensures Safe(Step(d, act))
  {
    match act
    case TaskCleansUp(a) => TaskCleansUpIsSafe(d, a);
    case TaskLost(a) => TaskLostIsSafe(d, a);
  }

  predicate SchedulerStep(act: Action) {
    || act.BeginPass? || act.ExpireNext? || act.ReadCapacity? || act.ClaimNext?
    || act.DelayNext? || act.BlockNext? || act.DeferNext?
    || act.Register? || act.CheckFlag? || act.Signal? || act.Spawn?
  }

  lemma SchedulerStepIsSafe(d: Daemon, act: Action)
    requires Safe(d) && SchedulerStep(act)
    ensures Safe(Step(d, act))
  {
    match act
    case BeginPass(_) | ReadCapacity(_, _, _) => PassStepIsSafe(d, act);
    case ExpireNext(_) | ClaimNext(_) => DecisionStepIsSafe(d, act);
    case DelayNext(_) | BlockNext(_) | DeferNext => BlockStepIsSafe(d, act);
    case Register | CheckFlag => RegistrationStepIsSafe(d, act);
    case Signal | Spawn(_) => HandoverStepIsSafe(d, act);
  }

  predicate TaskStep(act: Action) {
    || act.ExecuteReturns? || act.TaskAdvances? || act.TaskFinishes? || act.TaskFails? || act.TaskGivesUp?
    || act.TaskCleansUp? || act.TaskLost?
  }

  lemma AnyTaskStepIsSafe(d: Daemon, act: Action)
    requires Safe(d) && TaskStep(act)
    ensures Safe(Step(d, act))
  {
    match act
    case TaskAdvances(_) | TaskFinishes(_, _) => TaskStepsAreSafe(d, act);
    case ExecuteReturns(_) => TaskReturnIsSafe(d, act);
    case TaskFails(_) | TaskGivesUp(_, _, _) => TaskErrorsAreSafe(d, act);
    case TaskCleansUp(_) | TaskLost(_) => TaskEndIsSafe(d, act);
  }

  lemma StepIsSafe(d: Daemon, act: Action)
    requires Safe(d)
    ensures Safe(Step(d, act))
  {
    if SchedulerStep(act) {
      SchedulerStepIsSafe(d, act);
    } else if TaskStep(act) {
      AnyTaskStepIsSafe(d, act);
    } else {
      match act
      case Precheck(_, _) | AcceptRequest(_, _) | AcceptUnanswered(_, _) => CreateStepIsSafe(d, act);
      case CancelCommit(_, _, _) | CancelSignal(_) | HandlerDropped(_) | PatchRequest(_, _, _) =>
        CancelStepIsSafe(d, act);
      case ListUnfrozen(_) | RejectNext(_) | ListUnfinished(_) | RecoverNext(_) => StartupStepIsSafe(d, act);
      case Shutdown => ShutdownStepIsSafe(d, act);
      case Crash => CrashStepIsSafe(d, act);
    }
  }
}
