/** The public vocabulary of the service: states, scheduling constraints and event envelopes. */
module Protocol {
  import opened Prelude

  // ULIDs are 128-bit integers; only their freshness matters here.
  type SubmissionId = nat
  type AttemptId = nat
  type Time = int

  datatype SubmissionState = Queued | Running | Completed | Failed | Cancelled | Expired | Uncertain {
    predicate Terminal() {
      Completed? || Failed? || Cancelled? || Expired? || Uncertain?
    }

    /** The outcomes `finish` accepts for a running submission. */
    predicate Outcome() {
      Completed? || Failed? || Cancelled? || Uncertain?
    }

    /** States in which a submission owns its workspace lock. */
    predicate Locks() {
      Running? || Uncertain?
    }
  }

  datatype AttemptState =
    | Starting
    | Executing // "running" in the database; renamed because submissions have a running state too
    | Ended(outcome: SubmissionState)
  {
    predicate Active() {
      Starting? || Executing?
    }

    /** Attempts that keep their source slot: the live ones and those whose fate is unknown. */
    predicate Holds() {
      Active() || (Ended? && outcome.Uncertain?)
    }
  }

  /** The codes the scheduler passes to `set_blocker`. */
  datatype BlockerCode = NotBefore | BusyWorkspace | RouteUnsatisfied | CapacityUnknown | CapacityUnavailable

  datatype Blocker = Blocker(code: BlockerCode, detail: Option<string>)

  /** Why a queued submission ended without an attempt. */
  datatype Reason = CancelledByClient | StartDeadlineExpired | ConfigurationSnapshotMissing

  /** Persisted error codes; `Reported` is a code chosen by the runtime. */
  datatype ErrorCode = RunnerLost | RuntimeUnavailable | Reported(code: string)

  datatype Scheduling = Scheduling(priority: nat, notBefore: Option<Time>, startDeadline: Option<Time>) {
    predicate Ordered() {
      notBefore.Some? && startDeadline.Some? ==> notBefore.value < startDeadline.value
    }
  }

  /** A missing field leaves the value alone; `Some(None)` is an explicit JSON null and clears it. */
  datatype Patch = Patch(
    priority: Option<nat>,
    notBefore: Option<Option<Time>>,
    startDeadline: Option<Option<Time>>)
  {
    predicate Empty() {
      priority.None? && notBefore.None? && startDeadline.None?
    }

    function Over(s: Scheduling): Scheduling {
      Scheduling(
        if priority.Some? then priority.value else s.priority,
        if notBefore.Some? then notBefore.value else s.notBefore,
        if startDeadline.Some? then startDeadline.value else s.startDeadline)
    }
  }

  datatype EventBody =
    | Created
    | AttemptCreated
    | AttemptStateChanged(from: Option<AttemptState>, attemptTo: AttemptState)
    | StateChanged(was: SubmissionState, to: SubmissionState, reason: Option<Reason>)
    | QueueBlocked(blocker: Blocker)
    | CancellationRequested
    | SchedulingChanged(patch: Patch)
    | AgentReport(kind: string, payload: string)

  datatype Event = Event(
    submission: SubmissionId,
    attempt: Option<AttemptId>,
    sequence: nat,
    body: EventBody)
  {
    /** What `isTerminalEvent` of the SDK looks for. */
    predicate EndsSubmission() {
      body.StateChanged? && body.to.Terminal()
    }
  }
}
