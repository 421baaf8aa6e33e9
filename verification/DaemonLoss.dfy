/** Two runs in which a committed cancellation never reaches the channel of the attempt that it is meant for. */
module DaemonLoss {
  import opened Prelude
  import opened StoreModel
  import opened Capacity
  import opened Scheduler
  import opened Daemon
  import opened DaemonSafety
  import opened DaemonRuns
  import opened DaemonTheorems
  import opened DaemonRace

  const SEEN: map<string, Observation> := map[SOURCE := Observation(Probe(Healthy, None), 0, 0)]

  const OFFERED := READ + [ReadCapacity(SOURCE, SEEN, 0)]
  const DISPATCHED := OFFERED + [ClaimNext(1)]
  const REGISTERED := DISPATCHED + [Register]
  const CHECKED := REGISTERED + [CheckFlag]
  const SPAWNED := CHECKED + [Spawn([])]
  const DROPPED := SPAWNED + [CancelCommit(0, 1, 0)] + [HandlerDropped(0)]
  const RETURNED := SPAWNED + [ExecuteReturns(1)]
  const LATE := RETURNED + [CancelCommit(0, 1, 0)] + [CancelSignal(0)]

  /** Submission 1 runs as attempt 1, nobody has asked to cancel it, and the scheduler is at `pc`. */
  predicate Claimed(d: Daemon, pc: Pc) {
    && d == d.(pc := pc, handlers := map[], tasks := map[])
    && 1 in d.db.subs && !d.db.subs[1].cancelRequested
  }

  lemma FindsRoom(d: Daemon)
    requires Waits(d.db) && d.pc == Passing([ITEM]) && d.config == CONFIG
    ensures StepReadCapacity(d, SOURCE, SEEN, 0) == d.(pc := Claiming([], ITEM, SOURCE, World(CONFIG, SEEN, 0)))
  {
    assert RoutesOf(ITEM)[0] == ROUTE;
    assert HeldBy(d.db, SOURCE) == {};
    assert SourceOpen(World(CONFIG, SEEN, 0), d.db, SOURCE);
    assert [ITEM][1..] == [];
  }

  lemma IsClaimed(d: Daemon)
    requires Waits(d.db) && d.pc == Claiming([], ITEM, SOURCE, World(CONFIG, SEEN, 0))
    requires Calm(d)
    ensures StepClaimNext(d, 1).registry == map[]
    ensures Claimed(StepClaimNext(d, 1), Registering([], 1, 1))
  {
    assert !Busy(d.db, 1);
  }

  lemma KeepsItsConfig()
    ensures Play(START, READ).config == CONFIG
  {
    StartIsSafe();
    RunEvolves(START, READ);
  }

  lemma Offers()
    ensures var d := Play(START, OFFERED);
           Waits(d.db) && Calm(d) && d.pc == Claiming([], ITEM, SOURCE, World(CONFIG, SEEN, 0))
  {
    Reads();
    KeepsItsConfig();
    PlayMore(START, READ, ReadCapacity(SOURCE, SEEN, 0));
    FindsRoom(Play(START, READ));
  }

  lemma Dispatches()
    ensures var d := Play(START, DISPATCHED); Claimed(d, Registering([], 1, 1)) && d.registry == map[]
  {
    Offers();
    PlayMore(START, OFFERED, ClaimNext(1));
    IsClaimed(Play(START, OFFERED));
  }

  /** ... and its cancel channel is registered. */
  predicate Wired(d: Daemon, pc: Pc) {
    Claimed(d, pc) && d.registry == map[1 := 1] && !ChannelTrue(d, 1)
  }

  lemma IsWired(d: Daemon)
    requires Claimed(d, Registering([], 1, 1)) && d.registry == map[]
    ensures Wired(StepRegister(d), Checking([], 1, 1))
  {
  }

  lemma IsUncancelled(d: Daemon)
    requires Wired(d, Checking([], 1, 1))
    ensures Wired(StepCheckFlag(d), Spawning([], 1, 1))
  {
  }

  /** ... and its task has been spawned. */
  predicate Runs(d: Daemon, listening: bool) {
    && d == d.(pc := Passing([]), handlers := map[], registry := map[1 := 1],
               tasks := map[1 := Task(1, Driving, [], [], false, listening)])
    && 1 in d.db.subs && !d.db.subs[1].cancelRequested && !ChannelTrue(d, 1)
  }

  lemma IsSpawned(d: Daemon)
    requires Wired(d, Spawning([], 1, 1))
    ensures Runs(StepSpawn(d, []), true)
  {
  }

  lemma Registers()
    ensures Wired(Play(START, REGISTERED), Checking([], 1, 1))
  {
    Dispatches();
    PlayMore(START, DISPATCHED, Register);
    IsWired(Play(START, DISPATCHED));
  }

  lemma Checks()
    ensures Wired(Play(START, CHECKED), Spawning([], 1, 1))
  {
    Registers();
    PlayMore(START, REGISTERED, CheckFlag);
    IsUncancelled(Play(START, REGISTERED));
  }

  lemma Spawns()
    ensures Runs(Play(START, SPAWNED), true)
  {
    Checks();
    PlayMore(START, CHECKED, Spawn([]));
    IsSpawned(Play(START, CHECKED));
  }

  lemma Returns()
    ensures Runs(Play(START, RETURNED), false)
  {
    Spawns();
    PlayMore(START, SPAWNED, ExecuteReturns(1));
  }

  /** Attempt 1 is being driven, its submission is cancelled, nobody has yet to signal, and its channel is false. */
  ghost predicate SignalLost(d: Daemon) {
    && Drives(d, 1) && d.tasks[1].submission == 1 && 1 in d.db.subs && d.db.subs[1].cancelRequested
    && !SignalPending(d, 1) && !ChannelTrue(d, 1)
  }

  lemma DroppedIsLost(d: Daemon)
    requires Safe(d) && Runs(d, true)
    ensures SignalLost(StepHandlerDropped(StepCancelCommit(d, 0, 1, 0), 0))
  {
    DeadHandlerLosesTheSignal(d, 1, 0, 0);
    PendingCancellation(d, 1, 0, 0);
  }

  lemma LateIsLost(d: Daemon)
    requires Safe(d) && Runs(d, false)
    ensures SignalLost(StepCancelSignal(StepCancelCommit(d, 0, 1, 0), 0))
  {
    CancellationAfterExecuteIsUnheard(d, 1, 0, 0);
    PendingCancellation(d, 1, 0, 0);
  }

  lemma CancelsAndDrops(d: Daemon, acts: seq<Action>)
    ensures Play(d, acts + [CancelCommit(0, 1, 0)] + [HandlerDropped(0)])
            == StepHandlerDropped(StepCancelCommit(Play(d, acts), 0, 1, 0), 0)
  {
    PlayMore(d, acts, CancelCommit(0, 1, 0));
    PlayMore(d, acts + [CancelCommit(0, 1, 0)], HandlerDropped(0));
  }

  lemma CancelsAndSignals(d: Daemon, acts: seq<Action>)
    ensures Play(d, acts + [CancelCommit(0, 1, 0)] + [CancelSignal(0)])
            == StepCancelSignal(StepCancelCommit(Play(d, acts), 0, 1, 0), 0)
  {
    PlayMore(d, acts, CancelCommit(0, 1, 0));
    PlayMore(d, acts + [CancelCommit(0, 1, 0)], CancelSignal(0));
  }

  lemma DropLoses()
    ensures SignalLost(Play(START, DROPPED))
  {
    StartIsSafe();
    RunIsSafe(START, SPAWNED);
    Spawns();
    CancelsAndDrops(START, SPAWNED);
    DroppedIsLost(Play(START, SPAWNED));
  }

  lemma LatenessLoses()
    ensures SignalLost(Play(START, LATE))
  {
    StartIsSafe();
    RunIsSafe(START, RETURNED);
    Returns();
    CancelsAndSignals(START, RETURNED);
    LateIsLost(Play(START, RETURNED));
  }

  /**
    Cancellations can be lost: from an empty database, without a crash or a shutdown, one whose handler
    dies between its commit and its signal, and one that is signalled when `execute` has returned.
  */
  lemma CancellationsAreLost()
    ensures Initial(START) && Safe(START)
    ensures SignalLost(Play(START, DROPPED)) && SignalLost(Play(START, LATE))
  {
    StartIsSafe();
    DropLoses();
    LatenessLoses();
  }
}
