/**
  The server side of the event stream: an initial read of the log, then live envelopes, with a fresh
  read of the log whenever an envelope shows a gap or the receiver lagged.
*/
module Delivery {
  import opened Prelude
  import opened Protocol
  import opened EventLog
  import opened StoreModel
  import opened StoreProofs
  import opened Store
  import Evolution
  import Daemon
  import DaemonSafety
  import DaemonRuns

  /** What a broadcast receiver returns. */
  datatype Item = Message(event: Event) | Lagged

  /** The stream's `last_sequence` and everything it has yielded. */
  datatype Cursor = Cursor(last: nat, out: seq<Event>)

  function Yielding(c: Cursor, e: Event): Cursor {
    if e.sequence > c.last then Cursor(e.sequence, c.out + [e]) else c
  }

  function Delivered(c: Cursor, batch: seq<Event>): Cursor {
    if batch == [] then c else Yielding(Delivered(c, batch[..|batch| - 1]), batch[|batch| - 1])
  }

  /** The entries come in rising order after `from`, up to `last`. */
  predicate Rising(from: nat, out: seq<Event>, last: nat) {
    && (forall i :: 0 <= i < |out| ==> from < out[i].sequence <= last)
    && (forall i, j :: 0 <= i < j < |out| ==> out[i].sequence < out[j].sequence)
    && last == if out == [] then from else out[|out| - 1].sequence
  }

  /** Whatever a batch holds, nothing is yielded twice or out of order, and no newer entry is held back. */
  lemma {:induction false} DeliveredRises(from: nat, batch: seq<Event>)
    ensures var c := Delivered(Cursor(from, []), batch);
      && Rising(from, c.out, c.last)
      && (forall i :: 0 <= i < |batch| ==> batch[i].sequence <= c.last)
      && (forall i :: 0 <= i < |c.out| ==> c.out[i] in batch)
  {
    if batch != [] { DeliveredRises(from, batch[..|batch| - 1]); }
  }

  /** How the stream of `id` moves on when it receives `item` while the log is `log`. */
  function Received(c: Cursor, id: SubmissionId, log: seq<Event>, item: Item): Cursor {
    match item
    case Lagged => Delivered(c, Suffix(log, c.last))
    case Message(e) =>
      if e.submission != id || e.sequence <= c.last then c
      else if e.sequence == c.last + 1 then Cursor(e.sequence, c.out + [e])
      else Delivered(c, Suffix(log, c.last))
  }

  /** The item tells of entries it does not bring along. */
  predicate NeedsLog(last: nat, id: SubmissionId, item: Item) {
    item.Lagged? || (item.event.submission == id && item.event.sequence > last + 1)
  }

  class EventStream {
    const id: SubmissionId
    var last: nat
    var out: seq<Event>

    function Position(): Cursor
      reads this
    {
      Cursor(last, out)
    }

    constructor (id: SubmissionId, after: nat)
      ensures this.id == id && Position() == Cursor(after, [])
    {
      this.id := id;
      last, out := after, [];
    }

    method Deliver(batch: seq<Event>)
      modifies this
      ensures Position() == Delivered(old(Position()), batch)
    {
      for i := 0 to |batch|
        invariant Position() == Delivered(old(Position()), batch[..i])
      {
        assert batch[..i + 1][..i] == batch[..i];
        if batch[i].sequence > last {
          last := batch[i].sequence;
          out := out + [batch[i]];
        }
      }
      assert batch[..|batch|] == batch;
    }

    /** The initial read; it is the only point where the stream can fail to open. */
    method Open(store: Store) returns (r: Result<(), StoreError>)
      requires store.Valid()
      modifies this
      ensures var read := StoreModel.EventsAfter(store.Tables(), id, old(last));
              && (r.Ok? <==> read.Ok?)
              && Position() == if read.Ok? then Delivered(old(Position()), read.value) else old(Position())
    {
      var initial := store.EventsAfter(id, last);
      if initial.Err? { return Err(initial.error); }
      Deliver(initial.value);
      return Ok(());
    }

    /** One turn of the loop; `broken` when the log had to be read again and could not be. */
    method Receive(store: Store, item: Item) returns (broken: bool)
      requires store.Valid()
      modifies this
      ensures var read := StoreModel.EventsAfter(store.Tables(), id, old(last));
              && (broken <==> NeedsLog(old(last), id, item) && read.Err?)
              && Position() == if broken then old(Position())
                               else Received(old(Position()), id, Log(store.Tables(), id), item)
    {
      if item.Message? {
        var e := item.event;
        if e.submission != id || e.sequence <= last { return false; }
        if e.sequence == last + 1 {
          last := e.sequence;
          out := out + [e];
          return false;
        }
      }
      var events := store.EventsAfter(id, last);
      if events.Err? { return true; }
      Deliver(events.value);
      return false;
    }
  }

  // ----- a stream among commits, broadcasts and lag -----

  datatype Phase = Closed | Subscribed | Streaming

  /**
    One submission's log and one receiver. A commit appends to the log at once; its envelopes reach the
    receiver later, in any order, unless they were sent before the subscription or are dropped by lag.
  */
  datatype Feed = Feed(
    id: SubmissionId,
    accepted: Scheduling,
    log: seq<Event>,
    unsent: set<Event>,
    phase: Phase,
    after: nat,
    queue: seq<Item>,
    cursor: Cursor)

  datatype Happening =
    | Commit(entries: seq<Event>)
    | Broadcast(event: Event)  // an envelope of this submission
    | Foreign(event: Event)    // an envelope of another submission
    | Subscribe(after: nat)
    | ReadLog
    | Overflow(lost: nat)      // the receiver fell behind
    | Receive
    | Disconnect

  function Next(f: Feed, h: Happening): Feed {
    match h
    case Commit(entries) =>
      if LegalLog(f.id, f.accepted, f.log + entries)
      then f.(log := f.log + entries, unsent := f.unsent + (set e | e in entries)) else f
    case Broadcast(e) =>
      if e !in f.unsent then f
      else f.(unsent := f.unsent - {e}, queue := if f.phase.Closed? then f.queue else f.queue + [Message(e)])
    case Foreign(e) =>
      if e.submission == f.id || f.phase.Closed? then f else f.(queue := f.queue + [Message(e)])
    case Subscribe(after) =>
      if after > I64_MAX then f // the initial read will fail and no stream begins
      else f.(phase := Subscribed, after := after, queue := [], cursor := Cursor(after, []))
    case ReadLog =>
      if !f.phase.Subscribed? then f
      else f.(phase := Streaming, cursor := Delivered(f.cursor, Suffix(f.log, f.cursor.last)))
    case Overflow(lost) =>
      if f.phase.Closed? || lost == 0 || lost > |f.queue| then f else f.(queue := [Lagged] + f.queue[lost..])
    case Receive =>
      if !f.phase.Streaming? || f.queue == [] then f
      else f.(queue := f.queue[1..], cursor := Received(f.cursor, f.id, f.log, f.queue[0]))
    case Disconnect => f.(phase := Closed, queue := [])
  }

  function Happen(f: Feed, hs: seq<Happening>): Feed {
    if hs == [] then f else Next(Happen(f, hs[..|hs| - 1]), hs[|hs| - 1])
  }

  // ----- the stream agrees with the log -----

  /** Entry `i` of the log carries sequence `i + 1`. */
  predicate Sequenced(id: SubmissionId, log: seq<Event>) {
    forall i :: 0 <= i < |log| ==> log[i].sequence == i + 1 && log[i].submission == id
  }

  lemma LegalIsSequenced(id: SubmissionId, accepted: Scheduling, log: seq<Event>)
    requires LegalLog(id, accepted, log)
    ensures Sequenced(id, log)
  {
    forall i | 0 <= i < |log| ensures log[i].sequence == i + 1 && log[i].submission == id {
      LegalAt(id, accepted, log, i);
    }
  }

  predicate Persisted(log: seq<Event>, e: Event) {
    0 < e.sequence <= |log| && log[e.sequence - 1] == e
  }

  /** Exactly the entries after the cursor the stream was opened with, up to its position, each once and in order. */
  predicate Agrees(c: Cursor, after: nat, log: seq<Event>) {
    && after <= c.last
    && (c.last > after ==> c.last <= |log|)
    && c.out == if c.last <= |log| then log[after..c.last] else []
  }

  /** The newest entry is still on its way, or a lag notice is. */
  predicate NewsPending(f: Feed) {
    f.log != [] && (f.log[|f.log| - 1] in f.unsent || Message(f.log[|f.log| - 1]) in f.queue || Lagged in f.queue)
  }

  ghost predicate Sound(f: Feed) {
    && LegalLog(f.id, f.accepted, f.log)
    && (forall e :: e in f.unsent ==> Persisted(f.log, e))
    && (forall i :: 0 <= i < |f.queue| && f.queue[i].Message? && f.queue[i].event.submission == f.id ==>
          Persisted(f.log, f.queue[i].event))
    && (f.phase.Closed? || Agrees(f.cursor, f.after, f.log))
    && (f.phase.Streaming? && f.cursor.last < |f.log| ==> NewsPending(f))
  }

  lemma {:induction false} DeliverRun(c: Cursor, log: seq<Event>, id: SubmissionId, n: nat)
    requires Sequenced(id, log) && c.last <= n <= |log|
    ensures Delivered(c, log[c.last..n]) == Cursor(n, c.out + log[c.last..n])
  {
    if c.last < n {
      DeliverRun(c, log, id, n - 1);
      assert log[c.last..n][..n - 1 - c.last] == log[c.last..n - 1];
    }
  }

  lemma DeliverRest(c: Cursor, id: SubmissionId, log: seq<Event>, after: nat)
    requires Sequenced(id, log) && after <= c.last <= |log| && c.out == log[after..c.last]
    ensures Delivered(c, log[c.last..]) == Cursor(|log|, log[after..])
  {
    DeliverRun(c, log, id, |log|);
    assert log[c.last..|log|] == log[c.last..];
    assert log[after..c.last] + log[c.last..] == log[after..];
  }

  /** Reading the log again always catches up completely. */
  lemma CatchesUp(c: Cursor, id: SubmissionId, accepted: Scheduling, log: seq<Event>, after: nat)
    requires LegalLog(id, accepted, log) && Agrees(c, after, log)
    ensures var r := Delivered(c, Suffix(log, c.last)); Agrees(r, after, log) && c.last <= r.last && r.last >= |log|
  {
    SuffixFrom(id, accepted, log, c.last);
    LegalIsSequenced(id, accepted, log);
    RestCatchesUp(c, id, log, after, Suffix(log, c.last));
  }

  lemma RestCatchesUp(c: Cursor, id: SubmissionId, log: seq<Event>, after: nat, batch: seq<Event>)
    requires Sequenced(id, log) && Agrees(c, after, log)
    requires batch == if c.last <= |log| then log[c.last..] else []
    ensures var r := Delivered(c, batch); Agrees(r, after, log) && c.last <= r.last && r.last >= |log|
  {
    if c.last <= |log| {
      DeliverRest(c, id, log, after);
      AllAgrees(log, after);
    }
  }

  lemma AllAgrees(log: seq<Event>, after: nat)
    requires after <= |log|
    ensures Agrees(Cursor(|log|, log[after..]), after, log)
  {
    assert log[after..|log|] == log[after..];
  }

  lemma OneMoreAgrees(c: Cursor, after: nat, log: seq<Event>)
    requires Agrees(c, after, log) && c.last < |log|
    ensures Agrees(Cursor(c.last + 1, c.out + [log[c.last]]), after, log)
  {
    assert log[after..c.last + 1] == log[after..c.last] + [log[c.last]];
  }

  /** One item keeps the agreement; unless it was old news or foreign, it leads to the end of the log. */
  lemma ReceivedAgrees(c: Cursor, id: SubmissionId, accepted: Scheduling, log: seq<Event>, after: nat, item: Item)
    requires LegalLog(id, accepted, log) && Agrees(c, after, log)
    requires item.Message? && item.event.submission == id ==> Persisted(log, item.event)
    ensures var r := Received(c, id, log, item);
      && Agrees(r, after, log)
      && c.last <= r.last
      && (r.last >= |log| || (item.Message? && item.event != log[|log| - 1]))
  {
    if item.Message? && item.event.submission != id {
      LegalIsSequenced(id, accepted, log);
    } else if item.Message? && item.event.sequence <= c.last {
    } else if item.Message? && item.event.sequence == c.last + 1 {
      OneMoreAgrees(c, after, log);
      LegalIsSequenced(id, accepted, log);
    } else {
      CatchesUp(c, id, accepted, log, after);
    }
  }

  lemma CommitPersists(f: Feed, entries: seq<Event>, e: Event)
    requires LegalLog(f.id, f.accepted, f.log + entries)
    requires Persisted(f.log, e) || e in entries
    ensures Persisted(f.log + entries, e)
  {
    if e in entries {
      LegalIsSequenced(f.id, f.accepted, f.log + entries);
      var i :| 0 <= i < |entries| && entries[i] == e;
      assert (f.log + entries)[|f.log| + i] == e;
    }
  }

  lemma CommitAgrees(c: Cursor, after: nat, log: seq<Event>, entries: seq<Event>)
    requires Agrees(c, after, log)
    ensures Agrees(c, after, log + entries)
  {
    if c.last <= |log| {
      assert (log + entries)[after..c.last] == log[after..c.last];
    } else if c.last <= |log + entries| {
      assert (log + entries)[after..c.last] == [];
    }
  }

  /** Committing news makes it pending. */
  lemma CommitAnnounces(f: Feed, entries: seq<Event>)
    requires f.cursor.last < |f.log| ==> NewsPending(f)
    ensures var g := f.(log := f.log + entries, unsent := f.unsent + (set e | e in entries));
            f.cursor.last < |g.log| ==> NewsPending(g)
  {
    if entries == [] {
      assert f.log + entries == f.log;
    } else {
      assert (f.log + entries)[|f.log + entries| - 1] == entries[|entries| - 1];
    }
  }

  lemma CommitIsSound(f: Feed, entries: seq<Event>)
    requires Sound(f)
    ensures Sound(Next(f, Commit(entries)))
  {
    if LegalLog(f.id, f.accepted, f.log + entries) {
      var g := f.(log := f.log + entries, unsent := f.unsent + (set e | e in entries));
      forall e | e in g.unsent ensures Persisted(g.log, e) { CommitPersists(f, entries, e); }
      forall i | 0 <= i < |g.queue| && g.queue[i].Message? && g.queue[i].event.submission == g.id
        ensures Persisted(g.log, g.queue[i].event)
      {
        CommitPersists(f, entries, g.queue[i].event);
      }
      if !f.phase.Closed? { CommitAgrees(f.cursor, f.after, f.log, entries); }
      if f.phase.Streaming? { CommitAnnounces(f, entries); }
    }
  }

  lemma ReceiveIsSound(f: Feed)
    requires Sound(f)
    ensures Sound(Next(f, Receive))
  {
    if f.phase.Streaming? && f.queue != [] {
      ReceivedAgrees(f.cursor, f.id, f.accepted, f.log, f.after, f.queue[0]);
      AfterItem(f, Received(f.cursor, f.id, f.log, f.queue[0]));
    }
  }

  lemma AfterItem(f: Feed, c: Cursor)
    requires Sound(f) && f.phase.Streaming? && f.queue != [] && Agrees(c, f.after, f.log) && c.last >= f.cursor.last
    requires c.last >= |f.log| || (f.queue[0].Message? && f.queue[0].event != f.log[|f.log| - 1])
    ensures Sound(f.(queue := f.queue[1..], cursor := c))
  {
    assert f.queue == [f.queue[0]] + f.queue[1..];
  }

  lemma BroadcastIsSound(f: Feed, e: Event)
    requires Sound(f)
    ensures Sound(Next(f, Broadcast(e)))
  {
  }

  lemma ForeignIsSound(f: Feed, e: Event)
    requires Sound(f)
    ensures Sound(Next(f, Foreign(e)))
  {
  }

  lemma OverflowIsSound(f: Feed, lost: nat)
    requires Sound(f)
    ensures Sound(Next(f, Overflow(lost)))
  {
    if !f.phase.Closed? && 0 < lost <= |f.queue| {
      assert ([Lagged] + f.queue[lost..])[0] == Lagged;
    }
  }

  lemma NextIsSound(f: Feed, h: Happening)
    requires Sound(f)
    ensures Sound(Next(f, h))
  {
    match h
    case Commit(entries) => CommitIsSound(f, entries);
    case Broadcast(e) => BroadcastIsSound(f, e);
    case Foreign(e) => ForeignIsSound(f, e);
    case Subscribe(after) => if after <= |f.log| { assert f.log[after..after] == []; }
    case ReadLog => if f.phase.Subscribed? { CatchesUp(f.cursor, f.id, f.accepted, f.log, f.after); }
    case Overflow(lost) => OverflowIsSound(f, lost);
    case Receive => ReceiveIsSound(f);
    case Disconnect =>
  }

  lemma {:induction false} HappenIsSound(f: Feed, hs: seq<Happening>)
    requires Sound(f)
    ensures Sound(Happen(f, hs))
  {
    if hs != [] {
      HappenIsSound(f, hs[..|hs| - 1]);
      NextIsSound(Happen(f, hs[..|hs| - 1]), hs[|hs| - 1]);
    }
  }

  /** The newest entry has been broadcast, whatever became of the older ones. */
  predicate NewestSent(f: Feed) {
    f.log == [] || f.log[|f.log| - 1] !in f.unsent
  }

  /**
    The stream agrees with the log. Whatever commits, broadcasts, losses and reconnections happen, an
    open stream has yielded exactly the log after its cursor, each entry once and in order, and once
    its receiver is drained and the newest entry was broadcast it has reached the end of the log.
  */
  lemma StreamAgreesWithLog(f: Feed, hs: seq<Happening>)
    requires Sound(f) && !Happen(f, hs).phase.Closed?
    ensures var g := Happen(f, hs);
      && Agrees(g.cursor, g.after, g.log)
      && (g.phase.Streaming? && g.queue == [] && NewestSent(g) ==> g.cursor.last >= |g.log|)
  {
    HappenIsSound(f, hs);
  }

  /** Every step of the daemon looks like one commit to a stream, so the results above apply to its logs. */
  lemma DaemonStepsAreCommits(d: Daemon.Daemon, act: Daemon.Action, id: SubmissionId)
    requires DaemonSafety.Safe(d) && id in d.db.subs
    ensures var e := Daemon.Step(d, act);
      && id in e.db.subs
      && exists entries :: Log(e.db, id) == Log(d.db, id) + entries
           && LegalLog(id, d.db.subs[id].frozen.accepted, Log(d.db, id) + entries)
  {
    DaemonSafety.StepIsSafe(d, act);
    DaemonRuns.StepEvolves(d, act);
    GrowthIsACommit(d.db, Daemon.Step(d, act).db, id);
  }

  lemma GrowthIsACommit(x: Db, y: Db, id: SubmissionId)
    requires Inv(y) && Evolution.Evolves(x, y) && id in x.subs
    ensures id in y.subs
    ensures exists entries :: Log(y, id) == Log(x, id) + entries
              && LegalLog(id, x.subs[id].frozen.accepted, Log(x, id) + entries)
  {
    assert Evolution.RowStep(x, y, id) && RowInv(y, id);
    assert Log(y, id) == Log(x, id) + Log(y, id)[|Log(x, id)|..];
  }
}
