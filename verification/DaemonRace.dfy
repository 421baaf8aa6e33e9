/** A whole run in which the one race of `DaemonLifecycle.SchedulerStopsOnlyWhen` stops the scheduler. */
module DaemonRace {
  import opened Prelude
  import opened Protocol
  import opened StoreModel
  import opened StoreProofs
  import opened Store
  import opened Capacity
  import opened Scheduler
  import opened Daemon
  import opened DaemonSafety
  import opened DaemonRuns

  const DEADLINE := Scheduling(0, None, Some(5))
  const SOURCE := "source"
  const CONFIG := Config(map[SOURCE := Source(SOURCE, 1, 0, Static)], 0)
  const ROUTE := Route("route", "adapter", "model", [SOURCE], LOCAL)
  const REQUEST := Frozen("client", "key", "digest", "profile", "policy", DEADLINE, Some([ROUTE]), None, false, 0)
  const ITEM := QueuedItem(1, REQUEST, DEADLINE)
  const NO_ROWS: seq<SubmissionId> := []
  const NO_ATTEMPTS: seq<AttemptId> := []

  const START := Daemon(CONFIG, Db(map[], map[], map[]), Boot, map[], map[], map[], map[], {}, {}, [], {})

  const STARTUP: seq<Action> := [ListUnfrozen(NO_ROWS)] + [ListUnfinished(NO_ATTEMPTS)]
  const REQUESTED := STARTUP + [Precheck(0, REQUEST)] + [AcceptRequest(0, 1)]
  const READ := REQUESTED + [BeginPass([ITEM])]
  const CANCELLED := READ + [CancelCommit(0, 1, 10)]
  const RACE := CANCELLED + [ExpireNext(10)]

  lemma PlayMore(d: Daemon, acts: seq<Action>, act: Action)
    ensures Play(d, acts + [act]) == Step(Play(d, acts), act)
  {
    assert (acts + [act])[..|acts|] == acts;
  }

  predicate Calm(d: Daemon) {
    d == d.(handlers := map[], tasks := map[], registry := map[])
  }

  predicate Empty(db: Db) {
    db == Db(map[], map[], map[])
  }

  lemma ListsNothing(d: Daemon)
    requires Empty(d.db) && d.pc.Boot? && Calm(d)
    ensures var e := StepListUnfrozen(d, NO_ROWS); Empty(e.db) && e.pc == Rejecting([]) && Calm(e)
  {
    assert (set id | id in NO_ROWS) == UnfrozenRows(d.db);
  }

  lemma RecoversNothing(d: Daemon)
    requires Empty(d.db) && d.pc == Rejecting([]) && Calm(d)
    ensures var e := StepListUnfinished(d, NO_ATTEMPTS); Empty(e.db) && e.pc == Recovering([]) && Calm(e)
  {
  }

  lemma Starts()
    ensures var d := Play(START, STARTUP); Empty(d.db) && d.pc == Recovering([]) && Calm(d)
  {
    var none: seq<Action> := [];
    assert [ListUnfrozen(NO_ROWS)] == none + [ListUnfrozen(NO_ROWS)];
    PlayMore(START, none, ListUnfrozen(NO_ROWS));
    PlayMore(START, [ListUnfrozen(NO_ROWS)], ListUnfinished(NO_ATTEMPTS));
    ListsNothing(START);
    RecoversNothing(StepListUnfrozen(START, NO_ROWS));
  }

  /** The request waits in the queue. */
  predicate Waits(db: Db) {
    && db.subs.Keys == {1} && db.subs[1].state.Queued? && !db.subs[1].cancelRequested
    && db.subs[1].frozen == REQUEST && db.subs[1].schedule == DEADLINE && db.attempts == map[]
  }

  lemma PassesTheCheck(d: Daemon)
    requires Empty(d.db) && Calm(d)
    ensures var e := StepPrecheck(d, 0, REQUEST);
           e == d.(handlers := map[0 := Creating(REQUEST)])
  {
    assert Holder(d.db, REQUEST.client, REQUEST.key).None?;
  }

  lemma IsAccepted(d: Daemon)
    requires Empty(d.db) && d.handlers == map[0 := Creating(REQUEST)] && Idle(d)
    ensures var e := StepAccept(d, 0, 1); Waits(e.db) && e.pc == d.pc && Calm(e)
  {
    assert Holder(d.db, REQUEST.client, REQUEST.key).None?;
    assert d.handlers - {0} == map[];
  }

  lemma Requests()
    ensures var d := Play(START, REQUESTED); Waits(d.db) && d.pc == Recovering([]) && Calm(d)
  {
    var d := Play(START, STARTUP);
    Starts();
    PlayMore(START, STARTUP, Precheck(0, REQUEST));
    PlayMore(START, STARTUP + [Precheck(0, REQUEST)], AcceptRequest(0, 1));
    PassesTheCheck(d);
    IsAccepted(StepPrecheck(d, 0, REQUEST));
  }

  lemma IsRead(d: Daemon)
    requires Waits(d.db) && d.pc == Recovering([])
    ensures var e := StepBeginPass(d, [ITEM]); e == d.(pc := Passing([ITEM]))
  {
    var one := [ITEM];
    var none: seq<QueuedItem> := [];
    assert one[1..] == none && Sorting.Sort(ByEffectivePriority(0), none) == none;
    assert PassOrder(one, 0) == one;
    assert one[0].id == 1;
    assert IsQueue(d.db, one);
    assert UnfrozenRows(d.db) == {};
  }

  lemma IsLost(d: Daemon)
    requires Waits(d.db) && d.pc == Passing([ITEM]) && Calm(d)
    ensures var e := StepCancelCommit(d, 0, 1, 10); e.pc == d.pc && StepExpireNext(e, 10).pc.Stopped?
  {
    var e := StepCancelCommit(d, 0, 1, 10);
    assert e.db == Cancel(d.db, 1, 10).db;
    assert e.db.subs[1].state.Cancelled?;
  }

  lemma StartIsSafe()
    ensures Initial(START) && Safe(START)
  {
    EmptyInv();
    InitialIsSafe(START);
  }

  lemma Reads()
    ensures var d := Play(START, READ); Waits(d.db) && d.pc == Passing([ITEM]) && Calm(d)
  {
    Requests();
    PlayMore(START, REQUESTED, BeginPass([ITEM]));
    IsRead(Play(START, REQUESTED));
  }

  lemma Loses()
    ensures Play(START, CANCELLED).pc == Passing([ITEM]) && Play(START, RACE).pc.Stopped?
  {
    Reads();
    PlayMore(START, READ, CancelCommit(0, 1, 10));
    PlayMore(START, CANCELLED, ExpireNext(10));
    IsLost(Play(START, READ));
  }

  /**
    The race is reachable: from an empty database, without a crash or a shutdown, a submission whose
    deadline passes while its client cancels it stops the scheduler.
  */
  lemma TheRaceIsReachable()
    ensures Initial(START) && Safe(START)
    ensures !Play(START, CANCELLED).pc.Stopped? && Play(START, RACE).pc.Stopped?
  {
    StartIsSafe();
    Loses();
  }
}
