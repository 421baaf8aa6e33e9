/** Creating submissions is idempotent and linearizable, however the pre-checks and inserts interleave. */
module DaemonReplies {
  import opened Prelude
  import opened Protocol
  import opened StoreModel
  import opened Evolution
  import opened Daemon
  import opened DaemonSafety
  import opened DaemonRuns

  /** A success names the row that holds the key and was accepted with this digest; a refusal is a digest clash. */
  ghost predicate ReplyOk(db: Db, r: Reply) {
    match r.outcome
    case Ok(acc) =>
      && acc.id in db.subs
      && KeyOf(db.subs[acc.id]) == (r.client, r.key)
      && r.digest == acc.digest
      && acc.digest == db.subs[acc.id].frozen.digest
      && acc.profile == db.subs[acc.id].frozen.profile
      && acc.policy == db.subs[acc.id].frozen.policy
    case Err(error) =>
      && error.IdempotencyConflict?
      && exists id :: id in db.subs && KeyOf(db.subs[id]) == (r.client, r.key) && db.subs[id].frozen.digest != r.digest
  }

  /** The reply that announced the creation of `id`. */
  predicate Announces(r: Reply, id: SubmissionId) {
    r.outcome.Ok? && !r.outcome.value.replay && r.outcome.value.id == id
  }

  /** How many replies announced `id`. */
  function Announcements(replies: seq<Reply>, id: SubmissionId): nat {
    if replies == [] then 0
    else Announcements(replies[..|replies| - 1], id) + (if Announces(replies[|replies| - 1], id) then 1 else 0)
  }

  /** How many announcements a submission should have; `born` are those the database held to begin with. */
  function Owed(d: Daemon, born: set<SubmissionId>, id: SubmissionId): nat {
    if id in d.db.subs && id !in born && id !in d.unanswered then 1 else 0
  }

  ghost predicate RepliesOk(d: Daemon, born: set<SubmissionId>) {
    && (forall i {:trigger d.replies[i]} :: 0 <= i < |d.replies| ==> ReplyOk(d.db, d.replies[i]))
    && (forall id {:trigger Announcements(d.replies, id)} ::
          Announcements(d.replies, id) == Owed(d, born, id))
    && d.unanswered <= d.db.subs.Keys
  }

  lemma ReplyStaysOk(x: Db, y: Db, r: Reply)
    requires Evolves(x, y) && ReplyOk(x, r)
    ensures ReplyOk(y, r)
  {
    match r.outcome
    case Ok(acc) => assert RowStep(x, y, acc.id);
    case Err(_) =>
      var id :| id in x.subs && KeyOf(x.subs[id]) == (r.client, r.key) && x.subs[id].frozen.digest != r.digest;
      assert RowStep(x, y, id);
  }

  /** No announcement is added and no row created. */
  lemma SilentStep(d: Daemon, e: Daemon, born: set<SubmissionId>)
    requires RepliesOk(d, born) && Evolves(d.db, e.db)
    requires Silent(d, e)
    ensures RepliesOk(e, born)
  {
    forall i | 0 <= i < |e.replies| ensures ReplyOk(e.db, e.replies[i]) {
      ReplyStaysOk(d.db, e.db, d.replies[i]);
    }
  }

  /** One reply is given; it announces `id` exactly if the step created it. */
  lemma AnsweringStep(d: Daemon, e: Daemon, born: set<SubmissionId>, r: Reply)
    requires RepliesOk(d, born) && Evolves(d.db, e.db) && born <= d.db.subs.Keys
    requires e.replies == d.replies + [r] && ReplyOk(e.db, r)
    requires forall id :: Announces(r, id) <==> id in e.db.subs && id !in d.db.subs
    requires d.db.subs.Keys <= e.db.subs.Keys && e.unanswered == d.unanswered
    ensures RepliesOk(e, born)
  {
    forall i | 0 <= i < |e.replies| ensures ReplyOk(e.db, e.replies[i]) {
      if i < |d.replies| { ReplyStaysOk(d.db, e.db, d.replies[i]); assert e.replies[i] == d.replies[i]; }
    }
    forall id ensures Announcements(e.replies, id) == Owed(e, born, id) {
      assert e.replies[..|d.replies|] == d.replies;
      assert Announcements(d.replies, id) <= 1;
    }
  }

  lemma PrecheckAnswers(d: Daemon, handler: nat, f: Frozen, born: set<SubmissionId>)
    requires RepliesOk(d, born) && born <= d.db.subs.Keys
    ensures RepliesOk(StepPrecheck(d, handler, f), born)
  {
    var e := StepPrecheck(d, handler, f);
    PrecheckOnlyAnswers(d, handler, f);
    EvolvesIsReflexive(d.db);
    if e.replies == d.replies {
      SilentStep(d, e, born);
    } else {
      AnsweringStep(d, e, born, e.replies[|d.replies|]);
    }
  }

  lemma AcceptAnswers(d: Daemon, handler: nat, id: SubmissionId, born: set<SubmissionId>)
    requires Inv(d.db) && RepliesOk(d, born) && born <= d.db.subs.Keys
    ensures RepliesOk(StepAccept(d, handler, id), born)
  {
    var e := StepAccept(d, handler, id);
    if e != d {
      AcceptEvolves(d.db, id, d.handlers[handler].frozen);
      AnsweringStep(d, e, born, e.replies[|d.replies|]);
    }
  }

  /** A handler that died before it could reply leaves a row nobody has announced. */
  lemma UnansweredStep(d: Daemon, handler: nat, id: SubmissionId, born: set<SubmissionId>)
    requires Inv(d.db) && RepliesOk(d, born) && born <= d.db.subs.Keys
    ensures RepliesOk(StepAcceptUnanswered(d, handler, id), born)
  {
    var e := StepAcceptUnanswered(d, handler, id);
    if e != d {
      var f := d.handlers[handler].frozen;
      AcceptEvolves(d.db, id, f);
      UnansweredRow(d, e, born, id);
    }
  }

  lemma UnansweredRow(d: Daemon, e: Daemon, born: set<SubmissionId>, id: SubmissionId)
    requires RepliesOk(d, born) && born <= d.db.subs.Keys && Evolves(d.db, e.db) && id !in d.db.subs
    requires e.replies == d.replies && d.db.subs.Keys <= e.db.subs.Keys <= d.db.subs.Keys + {id}
    requires e.unanswered == if id in e.db.subs then d.unanswered + {id} else d.unanswered
    ensures RepliesOk(e, born)
  {
    forall i | 0 <= i < |e.replies| ensures ReplyOk(e.db, e.replies[i]) {
      ReplyStaysOk(d.db, e.db, d.replies[i]);
    }
    forall x ensures Announcements(e.replies, x) == Owed(e, born, x) {
      assert Announcements(d.replies, x) == Owed(d, born, x);
    }
  }

  // ----- every request is answered -----

  /** The answer to a request whose key is held: the row that holds it, or a conflict over another digest. */
  predicate AnswersHeld(r: Reply, f: Frozen, id: SubmissionId, held: Frozen) {
    && (r.client, r.key, r.digest) == (f.client, f.key, f.digest)
    && r.outcome == if held.digest == f.digest then Ok(Accepted(id, f.digest, held.profile, held.policy, true))
                    else Err(IdempotencyConflict)
  }

  /** A request whose key is held is answered by the look-up. */
  lemma HeldKeysAreAnswered(d: Daemon, handler: nat, f: Frozen, id: SubmissionId)
    requires Inv(d.db) && handler !in d.handlers && id in d.db.subs && KeyOf(d.db.subs[id]) == (f.client, f.key)
    ensures var replies := StepPrecheck(d, handler, f).replies;
            |replies| == |d.replies| + 1 && AnswersHeld(replies[|d.replies|], f, id, d.db.subs[id].frozen)
  {
    var holder := Holder(d.db, f.client, f.key);
    assert KeyOf(d.db.subs[holder.value]) == KeyOf(d.db.subs[id]);
  }

  /** Any other valid request goes on to its insert, and every insert is answered. */
  lemma NewKeysGoOn(d: Daemon, handler: nat, f: Frozen)
    requires handler !in d.handlers && forall id :: id in d.db.subs ==> KeyOf(d.db.subs[id]) != (f.client, f.key)
    requires f.accepted.Ordered() && f.routes.Some?
    ensures StepPrecheck(d, handler, f) == d.(handlers := d.handlers[handler := Creating(f)])
  {
    assert Holder(d.db, f.client, f.key).None?;
  }

  lemma InsertsAreAnswered(d: Daemon, handler: nat, id: SubmissionId)
    requires handler in d.handlers && d.handlers[handler].Creating? && id !in d.db.subs
    ensures var f, e := d.handlers[handler].frozen, StepAccept(d, handler, id);
      && handler !in e.handlers && |e.replies| == |d.replies| + 1
      && var r := e.replies[|d.replies|]; (r.client, r.key, r.digest) == (f.client, f.key, f.digest)
  {
  }

  // ----- the other steps are silent -----

  predicate Silent(d: Daemon, e: Daemon) {
    e.replies == d.replies && e.db.subs.Keys == d.db.subs.Keys && e.unanswered == d.unanswered
  }

  lemma CancelIsSilent(d: Daemon, act: Action)
    requires act.CancelCommit?
    ensures Silent(d, Step(d, act))
  {
  }

  lemma SignalIsSilent(d: Daemon, act: Action)
    requires act.CancelSignal? || act.Signal?
    ensures Silent(d, Step(d, act))
  {
    match act
    case CancelSignal(h) =>
      if h in d.handlers && d.handlers[h].Cancelling? {
        SignalledShape(d.(handlers := d.handlers - {h}), d.handlers[h].submission);
      }
    case Signal => if d.pc.Signalling? { SignalledShape(d, d.pc.submission); }
  }

  lemma RequestIsSilent(d: Daemon, act: Action)
    requires act.HandlerDropped? || act.PatchRequest?
    ensures Silent(d, Step(d, act))
  {
  }

  lemma RejectionIsSilent(d: Daemon, act: Action)
    requires act.ListUnfrozen? || act.RejectNext?
    ensures Silent(d, Step(d, act))
  {
  }

  lemma RecoveryIsSilent(d: Daemon, act: Action)
    requires act.ListUnfinished? || act.RecoverNext?
    ensures Silent(d, Step(d, act))
  {
  }

  lemma PassIsSilent(d: Daemon, act: Action)
    requires act.BeginPass?
    ensures Silent(d, Step(d, act))
  {
  }

  lemma ExpiryIsSilent(d: Daemon, act: Action)
    requires act.ExpireNext?
    ensures Silent(d, Step(d, act))
  {
  }

  lemma BlockIsSilent(d: Daemon, act: Action)
    requires act.BlockNext? || act.DeferNext?
    ensures Silent(d, Step(d, act))
  {
  }

  lemma DelayIsSilent(d: Daemon, act: Action)
    requires act.DelayNext?
    ensures Silent(d, Step(d, act))
  {
  }

  lemma CapacityIsSilent(d: Daemon, act: Action)
    requires act.ReadCapacity?
    ensures Silent(d, Step(d, act))
  {
  }

  lemma ClaimIsSilent(d: Daemon, act: Action)
    requires act.ClaimNext?
    ensures Silent(d, Step(d, act))
  {
    if Grants(d, act.attempt) {
      GrantedClaim(d, act.attempt);
    } else {
      RefusedClaim(d, act.attempt);
    }
  }

  lemma HandoverIsSilent(d: Daemon, act: Action)
    requires act.Register? || act.CheckFlag? || act.Spawn?
    ensures Silent(d, Step(d, act))
  {
  }

  lemma SchedulerIsSilent(d: Daemon, act: Action)
    requires SchedulerStep(act)
    ensures Silent(d, Step(d, act))
  {
    match act
    case BeginPass(_) => PassIsSilent(d, act);
    case ExpireNext(_) => ExpiryIsSilent(d, act);
    case DelayNext(_) => DelayIsSilent(d, act);
    case BlockNext(_) | DeferNext => BlockIsSilent(d, act);
    case ReadCapacity(_, _, _) => CapacityIsSilent(d, act);
    case ClaimNext(_) => ClaimIsSilent(d, act);
    case Register | CheckFlag | Spawn(_) => HandoverIsSilent(d, act);
    case Signal => SignalIsSilent(d, act);
  }

  lemma AdvanceIsSilent(d: Daemon, act: Action)
    requires Inv(d.db) && act.TaskAdvances? && (act.attempt in d.tasks ==> TaskOk(d, act.attempt))
    ensures Silent(d, Step(d, act))
  {
  }

  lemma FinishIsSilent(d: Daemon, act: Action)
    requires act.TaskFinishes?
    ensures Silent(d, Step(d, act))
  {
  }

  lemma GivingUpIsSilent(d: Daemon, act: Action)
    requires act.TaskGivesUp?
    ensures Silent(d, Step(d, act))
  {
  }

  lemma EndIsSilent(d: Daemon, act: Action)
    requires act.TaskCleansUp? || act.TaskLost?
    ensures Silent(d, Step(d, act))
  {
  }

  lemma FailureIsSilent(d: Daemon, act: Action)
    requires act.ExecuteReturns? || act.TaskFails?
    ensures Silent(d, Step(d, act))
  {
  }

  lemma StopIsSilent(d: Daemon, act: Action)
    requires act.Shutdown? || act.Crash?
    ensures Silent(d, Step(d, act))
  {
  }

  lemma CreatingKeepsReplies(d: Daemon, act: Action, born: set<SubmissionId>)
    requires Safe(d) && RepliesOk(d, born) && born <= d.db.subs.Keys
    requires act.Precheck? || act.AcceptRequest? || act.AcceptUnanswered?
    ensures RepliesOk(Step(d, act), born)
  {
    match act
    case Precheck(h, f) => PrecheckAnswers(d, h, f, born);
    case AcceptRequest(h, id) => AcceptAnswers(d, h, id, born);
    case AcceptUnanswered(h, id) => UnansweredStep(d, h, id, born);
  }

  lemma StepKeepsReplies(d: Daemon, act: Action, born: set<SubmissionId>)
    requires Safe(d) && RepliesOk(d, born) && born <= d.db.subs.Keys
    ensures RepliesOk(Step(d, act), born)
  {
    if act.Precheck? || act.AcceptRequest? || act.AcceptUnanswered? {
      CreatingKeepsReplies(d, act, born);
    } else {
      StepEvolves(d, act);
      OtherIsSilent(d, act);
      SilentStep(d, Step(d, act), born);
    }
  }

  lemma OtherIsSilent(d: Daemon, act: Action)
    requires Safe(d) && !act.Precheck? && !act.AcceptRequest? && !act.AcceptUnanswered?
    ensures Silent(d, Step(d, act))
  {
    if SchedulerStep(act) {
      SchedulerIsSilent(d, act);
    } else {
      match act
      case CancelCommit(_, _, _) => CancelIsSilent(d, act);
      case CancelSignal(_) => SignalIsSilent(d, act);
      case HandlerDropped(_) | PatchRequest(_, _, _) => RequestIsSilent(d, act);
      case ListUnfrozen(_) | RejectNext(_) => RejectionIsSilent(d, act);
      case ListUnfinished(_) | RecoverNext(_) => RecoveryIsSilent(d, act);
      case TaskAdvances(a) =>
        if a in d.tasks { assert TaskOk(d, a); }
        AdvanceIsSilent(d, act);
      case TaskFinishes(_, _) => FinishIsSilent(d, act);
      case TaskGivesUp(_, _, _) => GivingUpIsSilent(d, act);
      case ExecuteReturns(_) | TaskFails(_) => FailureIsSilent(d, act);
      case TaskCleansUp(_) | TaskLost(_) => EndIsSilent(d, act);
      case Shutdown | Crash => StopIsSilent(d, act);
    }
  }

  lemma {:induction false} RunKeepsReplies(d: Daemon, acts: seq<Action>, born: set<SubmissionId>)
    requires Safe(d) && RepliesOk(d, born) && born <= d.db.subs.Keys
    ensures RepliesOk(Play(d, acts), born)
  {
    if acts != [] {
      var here := Play(d, acts[..|acts| - 1]);
      RunKeepsReplies(d, acts[..|acts| - 1], born);
      RunIsSafe(d, acts[..|acts| - 1]);
      RunEvolves(d, acts[..|acts| - 1]);
      forall id | id in born ensures id in here.db.subs { assert RowStep(d.db, here.db, id); }
      StepKeepsReplies(here, acts[|acts| - 1], born);
    }
  }

  /**
    Idempotent accept is linearizable. All successful replies to one client and key carry the same
    submission, digest, profile and policy, those its row still holds; each was given to the digest
    the row was accepted with, and every refusal to a different one. Exactly one of the replies about
    a submission created during the run is not a replay, unless the handler that created it died before
    it replied; and none about an older one.
  */
  lemma IdempotentAcceptIsLinearizable(d: Daemon, acts: seq<Action>, i: nat, j: nat)
    requires Initial(d) && Safe(d)
    requires var e := Play(d, acts);
      && i < |e.replies| && j < |e.replies| && e.replies[i].outcome.Ok?
      && e.replies[j].client == e.replies[i].client && e.replies[j].key == e.replies[i].key
    ensures var e := Play(d, acts); var acc := e.replies[i].outcome.value;
      && acc.id in e.db.subs && e.replies[i].digest == acc.digest == e.db.subs[acc.id].frozen.digest
      && acc.profile == e.db.subs[acc.id].frozen.profile && acc.policy == e.db.subs[acc.id].frozen.policy
      && (e.replies[j].outcome.Ok? <==> e.replies[j].digest == acc.digest)
      && (e.replies[j].outcome.Ok? ==> e.replies[j].outcome.value == acc.(replay := e.replies[j].outcome.value.replay))
      && (e.replies[j].outcome.Err? ==> e.replies[j].outcome.error.IdempotencyConflict?)
      && Announcements(e.replies, acc.id) == (if acc.id in d.db.subs || acc.id in e.unanswered then 0 else 1)
  {
    var e := Play(d, acts);
    RunKeepsReplies(d, acts, d.db.subs.Keys);
    RunIsSafe(d, acts);
    assert ReplyOk(e.db, e.replies[i]) && ReplyOk(e.db, e.replies[j]);
    SameKeySameRow(e.db, e.replies[i], e.replies[j]);
  }

  lemma SameKeySameRow(db: Db, x: Reply, y: Reply)
    requires KeysUnique(db) && ReplyOk(db, x) && ReplyOk(db, y) && x.outcome.Ok?
    requires y.client == x.client && y.key == x.key
    ensures y.outcome.Ok? ==> y.outcome.value.id == x.outcome.value.id
    ensures y.outcome.Err? ==> y.digest != x.digest
  {
    var id := x.outcome.value.id;
    match y.outcome
    case Ok(acc) => assert KeyOf(db.subs[acc.id]) == KeyOf(db.subs[id]);
    case Err(_) =>
      var other :| other in db.subs && KeyOf(db.subs[other]) == (y.client, y.key)
          && db.subs[other].frozen.digest != y.digest;
      assert KeyOf(db.subs[other]) == KeyOf(db.subs[id]);
  }
}
