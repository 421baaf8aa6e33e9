/**
  The running daemon: one scheduler, the attempt tasks it spawned, and the API handlers, all
  interleaving. Every step is one store transaction, one access to the cancellation registry, or one
  reading, because those are the points at which the service may switch between its tasks.

  `Step` is total: an action whose guard fails leaves the daemon alone, so a theorem over all lists of
  actions is a theorem over all runs.
*/
module Daemon {
  import opened Prelude
  import opened Protocol
  import opened StoreModel
  import opened Store
  import opened Capacity
  import opened Scheduler
  import R = Runtime
  import A = AttemptPipeline

  /**
    An attempt task consumes its events, or falls out of that with a store error. A finished one, which
    may have failed to record anything, still has to clean up its registry entry.
  */
  datatype Phase = Driving | Failing | Finished(record: Option<A.Record>)

  /**
    `events` is all that `execute` will send, `todo` what is left of it. The task holds the receiver of its
    cancel channel while it is `listening`, which ends when `execute` returns.
  */
  datatype Task = Task(
    submission: SubmissionId,
    phase: Phase,
    events: seq<R.Report>,
    todo: seq<R.Report>,
    failed: bool,
    listening: bool)

  /** How many events `execute` can have sent that its task has not yet consumed. */
  const EVENT_BUFFER := 256

  /** API handlers that stand between two of their awaits. */
  datatype Handler =
    | Creating(frozen: Frozen)            // looked the key up, found nothing, validated
    | Cancelling(submission: SubmissionId) // committed a pending cancellation, registry not read yet

  datatype Pc =
    | Boot
    | Rejecting(rows: seq<SubmissionId>)
    | Recovering(lost: seq<AttemptId>)
    | Passing(queue: seq<QueuedItem>)                                     // between passes when empty
    | Claiming(queue: seq<QueuedItem>, item: QueuedItem, source: string, seen: World) // capacity was read
    | Deferring(queue: seq<QueuedItem>, item: QueuedItem)                 // the claim found the workspace busy
    | Registering(queue: seq<QueuedItem>, submission: SubmissionId, attempt: AttemptId)
    | Checking(queue: seq<QueuedItem>, submission: SubmissionId, attempt: AttemptId)
    | Signalling(queue: seq<QueuedItem>, submission: SubmissionId, attempt: AttemptId)
    | Spawning(queue: seq<QueuedItem>, submission: SubmissionId, attempt: AttemptId)
    | Stopped

  /** An answer given to a create request. */
  datatype Reply = Reply(client: string, key: string, digest: string, outcome: Result<Accepted, StoreError>)

  datatype Daemon = Daemon(
    config: Config,
    db: Db,
    pc: Pc,
    tasks: map<AttemptId, Task>,
    registry: map<SubmissionId, AttemptId>, // which cancel channel is registered
    channels: map<AttemptId, bool>,         // the value each cancel channel holds
    handlers: map<nat, Handler>,
    abandoned: set<SubmissionId>,           // owed a signal by a handler that died, and not signalled since
    unheard: set<SubmissionId>,             // signalled when nobody listened any more
    replies: seq<Reply>,
    unanswered: set<SubmissionId>)          // created by a handler that died before replying

  datatype Action =
    // API
    | Precheck(handler: nat, frozen: Frozen)
    | AcceptRequest(handler: nat, id: SubmissionId)
    | AcceptUnanswered(handler: nat, id: SubmissionId) // the client went away during the insert
    | CancelCommit(handler: nat, id: SubmissionId, now: Time)
    | CancelSignal(handler: nat)
    | HandlerDropped(handler: nat) // the client went away between two awaits
    | PatchRequest(id: SubmissionId, revision: nat, patch: Patch)
    // startup
    | ListUnfrozen(rows: seq<SubmissionId>)
    | RejectNext(now: Time)
    | ListUnfinished(lost: seq<AttemptId>)
    | RecoverNext(now: Time)
    // scheduling
    | BeginPass(queue: seq<QueuedItem>)
    | ExpireNext(now: Time)
    | DelayNext(now: Time)
    | BlockNext(code: BlockerCode)
    | ReadCapacity(source: string, observations: map<string, Observation>, now: Time)
    | ClaimNext(attempt: AttemptId)
    | DeferNext
    | Register
    | CheckFlag
    | Signal
    | Spawn(events: seq<R.Report>)
    // attempt tasks
    | ExecuteReturns(attempt: AttemptId)
    | TaskAdvances(attempt: AttemptId)
    | TaskFinishes(attempt: AttemptId, now: Time)
    | TaskFails(attempt: AttemptId) // a store call of its own failed
    | TaskGivesUp(attempt: AttemptId, written: bool, now: Time)
    | TaskCleansUp(attempt: AttemptId)
    | TaskLost(attempt: AttemptId) // a panic; the entry in the registry stays behind
    // lifecycle
    | Shutdown
    | Crash

  predicate Started(pc: Pc) {
    !pc.Boot? && !pc.Rejecting? && !pc.Recovering?
  }

  predicate AtRest(pc: Pc) {
    (pc.Passing? && pc.queue == []) || (pc.Recovering? && pc.lost == [])
  }

  predicate ChannelTrue(d: Daemon, id: SubmissionId) {
    id in d.registry && d.registry[id] in d.channels && d.channels[d.registry[id]]
  }

  /** The dispatcher still holds the receiver of the channel it made. */
  predicate HoldsReceiver(pc: Pc) {
    pc.Checking? || pc.Signalling? || pc.Spawning?
  }

  predicate Listens(d: Daemon, a: AttemptId) {
    (HoldsReceiver(d.pc) && d.pc.attempt == a) || (a in d.tasks && d.tasks[a].listening)
  }

  /** A value sent while nobody listens is not even stored in the channel. */
  function Signalled(d: Daemon, id: SubmissionId): Daemon {
    if id !in d.registry then d.(abandoned := d.abandoned - {id})
    else if Listens(d, d.registry[id]) then
      d.(channels := d.channels[d.registry[id] := true], abandoned := d.abandoned - {id})
    else
      d.(abandoned := d.abandoned - {id}, unheard := if ChannelTrue(d, id) then d.unheard else d.unheard + {id})
  }

  // ----- API handlers -----

  ghost function StepPrecheck(d: Daemon, handler: nat, f: Frozen): Daemon {
    if handler in d.handlers then d
    else
      var found := IdempotentReplay(d.db, f.client, f.key, f.digest);
      if found.Err? then d.(replies := d.replies + [Reply(f.client, f.key, f.digest, Err(found.error))])
      else if found.value.Some? then
        d.(replies := d.replies + [Reply(f.client, f.key, f.digest, Ok(found.value.value))])
      else if !f.accepted.Ordered() || f.routes.None? then d // rejected by `validate_request`
      else d.(handlers := d.handlers[handler := Creating(f)])
  }

  ghost function StepAccept(d: Daemon, handler: nat, id: SubmissionId): Daemon {
    if handler !in d.handlers || !d.handlers[handler].Creating? || id in d.db.subs then d
    else
      var f := d.handlers[handler].frozen;
      var out := Accept(d.db, id, f);
      d.(db := out.db, handlers := d.handlers - {handler},
         replies := d.replies + [Reply(f.client, f.key, f.digest, out.reply)])
  }

  ghost function StepCancelCommit(d: Daemon, handler: nat, id: SubmissionId, now: Time): Daemon {
    if handler in d.handlers then d
    else
      var out := Cancel(d.db, id, now);
      d.(db := out.db,
         handlers := if out.reply.Ok? && out.reply.value.disposition.CancelPending?
                     then d.handlers[handler := Cancelling(id)] else d.handlers)
  }

  ghost function StepAcceptUnanswered(d: Daemon, handler: nat, id: SubmissionId): Daemon {
    if handler !in d.handlers || !d.handlers[handler].Creating? || id in d.db.subs then d
    else
      var out := Accept(d.db, id, d.handlers[handler].frozen);
      d.(db := out.db, handlers := d.handlers - {handler},
         unanswered := if id in out.db.subs then d.unanswered + {id} else d.unanswered)
  }

  function StepCancelSignal(d: Daemon, handler: nat): Daemon {
    if handler !in d.handlers || !d.handlers[handler].Cancelling? then d
    else Signalled(d.(handlers := d.handlers - {handler}), d.handlers[handler].submission)
  }

  function StepHandlerDropped(d: Daemon, handler: nat): Daemon {
    if handler !in d.handlers then d
    else
      match d.handlers[handler]
      case Creating(_) => d.(handlers := d.handlers - {handler})
      case Cancelling(id) =>
        d.(handlers := d.handlers - {handler},
           abandoned := if ChannelTrue(d, id) then d.abandoned else d.abandoned + {id})
  }

  function StepPatch(d: Daemon, id: SubmissionId, revision: nat, p: Patch): Daemon {
    d.(db := PatchScheduling(d.db, id, revision, p).db)
  }

  // ----- scheduler -----

  ghost function StepListUnfrozen(d: Daemon, rows: seq<SubmissionId>): Daemon {
    if d.pc.Boot? && (set id | id in rows) == UnfrozenRows(d.db) then d.(pc := Rejecting(rows)) else d
  }

  function StepRejectNext(d: Daemon, now: Time): Daemon {
    if !d.pc.Rejecting? || d.pc.rows == [] then d
    else d.(db := RejectUnfrozen(d.db, d.pc.rows[0], now).db, pc := Rejecting(d.pc.rows[1..]))
  }

  ghost predicate ListsActive(db: Db, lost: seq<AttemptId>) {
    && (forall i :: 0 <= i < |lost| ==> Active(db, lost[i]))
    && (forall i, j :: 0 <= i < j < |lost| ==> lost[i] != lost[j])
    && (forall a :: Active(db, a) ==> a in lost)
  }

  ghost function StepListUnfinished(d: Daemon, lost: seq<AttemptId>): Daemon {
    if d.pc == Rejecting([]) && ListsActive(d.db, lost) then d.(pc := Recovering(lost)) else d
  }

  /** A failing `finish` makes the scheduler stop. */
  function StepRecoverNext(d: Daemon, now: Time): Daemon {
    if !d.pc.Recovering? || d.pc.lost == [] then d
    else
      var a := d.pc.lost[0];
      var id := if a in d.db.attempts then d.db.attempts[a].submission else 0;
      var out := Finish(d.db, Lost(id, a), now);
      if out.reply.Err? then d.(pc := Stopped)
      else d.(db := out.db, pc := Recovering(d.pc.lost[1..]))
  }

  /** Decoding a queued row without snapshots fails, which stops the scheduler and drops its tasks. */
  ghost function StepBeginPass(d: Daemon, queue: seq<QueuedItem>): Daemon {
    if !AtRest(d.pc) then d
    else if !AllFrozen(d.db) then d.(pc := Stopped, tasks := map[])
    else if exists q, now :: IsQueue(d.db, q) && queue == PassOrder(q, now) then d.(pc := Passing(queue))
    else d
  }

  /** A submission that left the queue meanwhile makes `expire` fail, with the same effect. */
  function StepExpireNext(d: Daemon, now: Time): Daemon {
    if !d.pc.Passing? || d.pc.queue == [] || !Overdue(d.pc.queue[0], now) then d
    else
      var out := Expire(d.db, d.pc.queue[0].id, now);
      if out.reply.Err? then d.(pc := Stopped, tasks := map[])
      else d.(db := out.db, pc := Passing(d.pc.queue[1..]))
  }

  function StepBlock(d: Daemon, item: QueuedItem, code: BlockerCode, rest: seq<QueuedItem>): Daemon {
    d.(db := SetBlocker(d.db, item.id, Blocker(code, None)).db, pc := Passing(rest))
  }

  function StepDelayNext(d: Daemon, now: Time): Daemon {
    if !d.pc.Passing? || d.pc.queue == [] || !TooEarly(d.pc.queue[0], now) then d
    else StepBlock(d, d.pc.queue[0], NotBefore, d.pc.queue[1..])
  }

  /** `select_dispatch` found no open source; which code it chose does not matter between transactions. */
  function StepBlockNext(d: Daemon, code: BlockerCode): Daemon {
    if !d.pc.Passing? || d.pc.queue == [] then d
    else StepBlock(d, d.pc.queue[0], code, d.pc.queue[1..])
  }

  function StepReadCapacity(d: Daemon, source: string, observations: map<string, Observation>, now: Time): Daemon {
    if !d.pc.Passing? || d.pc.queue == [] then d
    else
      var item := d.pc.queue[0];
      if !Overdue(item, now) && !TooEarly(item, now) && InPool(RoutesOf(item), source)
         && SourceOpen(World(d.config, observations, now), d.db, source)
      then d.(pc := Claiming(d.pc.queue[1..], item, source, World(d.config, observations, now)))
      else d
  }

  function StepClaimNext(d: Daemon, attempt: AttemptId): Daemon {
    if !d.pc.Claiming? || attempt in d.db.attempts then d
    else
      var id := d.pc.item.id;
      var out := Claim(d.db, ClaimSpec(id, attempt, d.pc.source), 1);
      match out.reply
      case Ok(_) => d.(db := out.db, pc := Registering(d.pc.queue, id, attempt))
      case Err(WorkspaceBusy) => d.(pc := Deferring(d.pc.queue, d.pc.item))
      case Err(NotQueued) => d.(pc := Passing(d.pc.queue))
      case Err(_) => d.(pc := Stopped, tasks := map[])
  }

  function StepDeferNext(d: Daemon): Daemon {
    if !d.pc.Deferring? then d else StepBlock(d, d.pc.item, BusyWorkspace, d.pc.queue)
  }

  function StepRegister(d: Daemon): Daemon {
    if !d.pc.Registering? then d
    else
      var (id, a) := (d.pc.submission, d.pc.attempt);
      d.(registry := d.registry[id := a], channels := d.channels[a := false], unheard := d.unheard - {id},
         pc := Checking(d.pc.queue, id, a))
  }

  /** A failing read of the flag is treated as a cancellation. */
  function StepCheckFlag(d: Daemon): Daemon {
    if !d.pc.Checking? then d
    else if CancelFlag(d.db, d.pc.submission) == Ok(false) then
      d.(pc := Spawning(d.pc.queue, d.pc.submission, d.pc.attempt))
    else d.(pc := Pc.Signalling(d.pc.queue, d.pc.submission, d.pc.attempt))
  }

  function StepSignal(d: Daemon): Daemon {
    if !d.pc.Signalling? then d
    else Signalled(d, d.pc.submission).(pc := Spawning(d.pc.queue, d.pc.submission, d.pc.attempt))
  }

  function StepSpawn(d: Daemon, events: seq<R.Report>): Daemon {
    if !d.pc.Spawning? then d
    else d.(tasks := d.tasks[d.pc.attempt := Task(d.pc.submission, Driving, events, events, false, true)],
            pc := Passing(d.pc.queue))
  }

  // ----- attempt tasks -----

  predicate Drives(d: Daemon, a: AttemptId) {
    a in d.tasks && d.tasks[a].phase.Driving?
  }

  /** The task has nothing left but its ending. */
  predicate Concluding(t: Task) {
    t.todo == [] || t.todo[0].Terminal()
  }

  /** What follows an event: the start of the runtime is marked first and noted in a transaction of its own. */
  function TodoAfter(t: Task): seq<R.Report>
    requires !Concluding(t)
  {
    if t.todo[0].note.Started? then [R.Progress(R.Activity(A.KindOf(t.todo[0].note)))] + t.todo[1..] else t.todo[1..]
  }

  function StepExecuteReturns(d: Daemon, a: AttemptId): Daemon {
    if !Drives(d, a) || |d.tasks[a].todo| > EVENT_BUFFER then d
    else d.(tasks := d.tasks[a := d.tasks[a].(listening := false)])
  }

  function StepTaskAdvances(d: Daemon, a: AttemptId): Daemon {
    if !Drives(d, a) || Concluding(d.tasks[a]) then d
    else
      var t, id := d.tasks[a], d.tasks[a].submission;
      var note := t.todo[0].note;
      d.(db := if note.Started? then MarkAttemptRunning(d.db, id, a, note.version).db
               else AppendAgentEvent(d.db, id, a, A.KindOf(note), A.PayloadOf(note)).db,
         tasks := d.tasks[a := t.(todo := TodoAfter(t))])
  }

  function Concluded(d: Daemon, a: AttemptId, record: A.Record, now: Time): Daemon
    requires a in d.tasks
  {
    d.(db := Finish(d.db, A.FinishOf(d.tasks[a].submission, a, record), now).db,
       tasks := d.tasks[a := d.tasks[a].(phase := Finished(Some(record)), listening := false)])
  }

  function StepTaskFinishes(d: Daemon, a: AttemptId, now: Time): Daemon {
    if !Drives(d, a) || !Concluding(d.tasks[a]) then d
    else Concluded(d, a, A.Recorded(d.tasks[a].todo, d.config.outputLimit), now)
  }

  function StepTaskFails(d: Daemon, a: AttemptId): Daemon {
    if !Drives(d, a) then d
    else d.(tasks := d.tasks[a := d.tasks[a].(phase := Failing, failed := true, listening := false)])
  }

  /** The last resort after an error: one more `finish`, whose own failure is ignored. */
  function StepTaskGivesUp(d: Daemon, a: AttemptId, written: bool, now: Time): Daemon {
    if a !in d.tasks || !d.tasks[a].phase.Failing? then d
    else if written then Concluded(d, a, A.UNKNOWN_FATE, now)
    else d.(tasks := d.tasks[a := d.tasks[a].(phase := Finished(None), listening := false)])
  }

  function StepTaskCleansUp(d: Daemon, a: AttemptId): Daemon {
    if a !in d.tasks || !d.tasks[a].phase.Finished? then d
    else d.(registry := d.registry - {d.tasks[a].submission}, tasks := d.tasks - {a})
  }

  function StepTaskLost(d: Daemon, a: AttemptId): Daemon {
    d.(tasks := d.tasks - {a})
  }

  // ----- lifecycle -----

  function StepShutdown(d: Daemon): Daemon {
    if !AtRest(d.pc) then d
    else
      d.(channels := map a | a in d.channels ::
             d.channels[a] || (Listens(d, a) && exists id :: id in d.registry && d.registry[id] == a),
         abandoned := {},
         unheard := d.unheard + (set id | id in d.registry && !Listens(d, d.registry[id]) && !ChannelTrue(d, id)),
         pc := Stopped)
  }

  function StepCrash(d: Daemon): Daemon {
    Daemon(d.config, d.db, Boot, map[], map[], map[], map[], {}, {}, d.replies, d.unanswered)
  }

  ghost function Step(d: Daemon, act: Action): Daemon {
    match act
    case Precheck(h, f) => StepPrecheck(d, h, f)
    case AcceptRequest(h, id) => StepAccept(d, h, id)
    case AcceptUnanswered(h, id) => StepAcceptUnanswered(d, h, id)
    case CancelCommit(h, id, now) => StepCancelCommit(d, h, id, now)
    case CancelSignal(h) => StepCancelSignal(d, h)
    case HandlerDropped(h) => StepHandlerDropped(d, h)
    case PatchRequest(id, revision, p) => StepPatch(d, id, revision, p)
    case ListUnfrozen(rows) => StepListUnfrozen(d, rows)
    case RejectNext(now) => StepRejectNext(d, now)
    case ListUnfinished(lost) => StepListUnfinished(d, lost)
    case RecoverNext(now) => StepRecoverNext(d, now)
    case BeginPass(queue) => StepBeginPass(d, queue)
    case ExpireNext(now) => StepExpireNext(d, now)
    case DelayNext(now) => StepDelayNext(d, now)
    case BlockNext(code) => StepBlockNext(d, code)
    case ReadCapacity(source, obs, now) => StepReadCapacity(d, source, obs, now)
    case ClaimNext(a) => StepClaimNext(d, a)
    case DeferNext => StepDeferNext(d)
    case Register => StepRegister(d)
    case CheckFlag => StepCheckFlag(d)
    case Signal => StepSignal(d)
    case Spawn(events) => StepSpawn(d, events)
    case ExecuteReturns(a) => StepExecuteReturns(d, a)
    case TaskAdvances(a) => StepTaskAdvances(d, a)
    case TaskFinishes(a, now) => StepTaskFinishes(d, a, now)
    case TaskFails(a) => StepTaskFails(d, a)
    case TaskGivesUp(a, written, now) => StepTaskGivesUp(d, a, written, now)
    case TaskCleansUp(a) => StepTaskCleansUp(d, a)
    case TaskLost(a) => StepTaskLost(d, a)
    case Shutdown => StepShutdown(d)
    case Crash => StepCrash(d)
  }

  ghost function Play(d: Daemon, acts: seq<Action>): Daemon {
    if acts == [] then d else Step(Play(d, acts[..|acts| - 1]), acts[|acts| - 1])
  }

  /** The daemon starts on whatever consistent database it finds. */
  predicate Initial(d: Daemon) {
    && d.pc.Boot? && d.tasks == map[] && d.registry == map[] && d.channels == map[] && d.handlers == map[]
    && d.abandoned == {} && d.unheard == {} && d.replies == [] && d.unanswered == {}
  }
}
