/** The client side: `watch` follows a submission across any number of connections. */
module Watch {
  import opened Prelude
  import opened Protocol
  import opened EventLog
  import opened StoreModel
  import opened StoreProofs
  import opened Delivery

  /** The generator's cursor, what it has yielded, and whether it has returned. */
  datatype Client = Client(cursor: nat, output: seq<Event>, done: bool)

  function Take(c: Client, e: Event, untilTerminal: bool): Client {
    if c.done || e.sequence <= c.cursor then c
    else Client(e.sequence, c.output + [e], untilTerminal && e.EndsSubmission())
  }

  function TakeAll(c: Client, events: seq<Event>, untilTerminal: bool): Client {
    if events == [] then c
    else Take(TakeAll(c, events[..|events| - 1], untilTerminal), events[|events| - 1], untilTerminal)
  }

  class Watcher {
    const untilTerminal: bool
    var cursor: nat
    var output: seq<Event>

    constructor (afterSequence: nat, untilTerminal: bool)
      ensures this.untilTerminal == untilTerminal && cursor == afterSequence && output == []
    {
      this.untilTerminal := untilTerminal;
      cursor, output := afterSequence, [];
    }

    /** Reads one connection until it ends or the generator returns. */
    method Consume(events: seq<Event>) returns (done: bool)
      modifies this
      ensures Client(cursor, output, done) == TakeAll(Client(old(cursor), old(output), false), events, untilTerminal)
    {
      ghost var start := Client(cursor, output, false);
      for i := 0 to |events|
        invariant Client(cursor, output, false) == TakeAll(start, events[..i], untilTerminal)
      {
        assert events[..i + 1][..i] == events[..i];
        var e := events[i];
        if e.sequence <= cursor { continue; }
        cursor := e.sequence;
        output := output + [e];
        if untilTerminal && e.EndsSubmission() {
          DoneIsDone(start, events, i + 1, untilTerminal);
          return true;
        }
      }
      assert events[..|events|] == events;
      return false;
    }
  }

  lemma {:induction false} DoneIsDone(c: Client, events: seq<Event>, i: nat, untilTerminal: bool)
    requires i <= |events| && TakeAll(c, events[..i], untilTerminal).done
    ensures TakeAll(c, events, untilTerminal) == TakeAll(c, events[..i], untilTerminal)
    decreases |events|
  {
    if i < |events| {
      assert events[..|events| - 1][..i] == events[..i];
      DoneIsDone(c, events[..|events| - 1], i, untilTerminal);
    } else {
      assert events[..i] == events;
    }
  }

  /** What the client has made of the entries a connection brought. */
  predicate Took(from: nat, events: seq<Event>, untilTerminal: bool, c: Client) {
    && Rising(from, c.output, c.cursor)
    && (forall i :: 0 <= i < |c.output| ==> c.output[i] in events)
    && (!c.done ==> forall i :: 0 <= i < |events| ==> events[i].sequence <= c.cursor)
    && (forall i :: 0 <= i < |c.output| && untilTerminal && c.output[i].EndsSubmission() ==> i == |c.output| - 1)
    && (c.done <==> untilTerminal && c.output != [] && c.output[|c.output| - 1].EndsSubmission())
  }

  /**
    Whatever a connection brings, the client yields entries in rising order only, until it returns it has
    seen all there was, and it returns on the first ending if asked to and otherwise never.
  */
  lemma {:induction false} TakenRises(from: nat, events: seq<Event>, untilTerminal: bool)
    ensures Took(from, events, untilTerminal, TakeAll(Client(from, [], false), events, untilTerminal))
  {
    if events != [] {
      var front, last := events[..|events| - 1], events[|events| - 1];
      TakenRises(from, front, untilTerminal);
      OneMoreTaken(from, front, last, untilTerminal, TakeAll(Client(from, [], false), front, untilTerminal));
      assert front + [last] == events;
    }
  }

  lemma OneMoreTaken(from: nat, front: seq<Event>, e: Event, untilTerminal: bool, c: Client)
    requires Took(from, front, untilTerminal, c)
    ensures Took(from, front + [e], untilTerminal, Take(c, e, untilTerminal))
  {
    var d := Take(c, e, untilTerminal);
    if d != c {
      OneMoreRises(from, c.output, c.cursor, e);
      forall i | 0 <= i < |d.output| ensures d.output[i] in front + [e] {
        if i < |c.output| { assert d.output[i] == c.output[i]; }
      }
    }
  }

  lemma OneMoreRises(from: nat, out: seq<Event>, last: nat, e: Event)
    requires Rising(from, out, last) && e.sequence > last
    ensures Rising(from, out + [e], e.sequence)
  {
  }

  // ----- composed with the server -----

  /** `taken` counts the entries of the current connection that have reached the client. */
  datatype Session = Session(from: nat, untilTerminal: bool, client: Client, feed: Feed, taken: nat)

  datatype Act =
    | Server(happening: Happening)
    | Connect
    | Fetch

  function Do(s: Session, act: Act): Session {
    match act
    case Server(h) => if h.Subscribe? then s else s.(feed := Next(s.feed, h))
    case Connect =>
      if s.client.done || !s.feed.phase.Closed? then s
      else s.(feed := Next(s.feed, Subscribe(s.client.cursor)), taken := 0)
    case Fetch =>
      if s.client.done || s.feed.phase.Closed? || s.taken >= |s.feed.cursor.out| then s
      else s.(client := Take(s.client, s.feed.cursor.out[s.taken], s.untilTerminal), taken := s.taken + 1)
  }

  function Go(s: Session, acts: seq<Act>): Session {
    if acts == [] then s else Do(Go(s, acts[..|acts| - 1]), acts[|acts| - 1])
  }

  function Fetches(k: nat): seq<Act> {
    if k == 0 then [] else Fetches(k - 1) + [Fetch]
  }

  /** `t` is the session after `k` fetches from `s`. */
  predicate Fetched(s: Session, t: Session, k: nat)
    requires s.taken + k <= |s.feed.cursor.out|
  {
    && t == s.(client := t.client, taken := t.taken)
    && (t.client.done || t.taken == s.taken + k)
    && t.client == TakeAll(s.client, s.feed.cursor.out[s.taken..s.taken + k], s.untilTerminal)
  }

  /** Fetching `k` entries is taking the next `k` entries of the connection. */
  lemma {:induction false} FetchesTake(s: Session, k: nat)
    requires !s.feed.phase.Closed? && s.taken + k <= |s.feed.cursor.out|
    ensures Fetched(s, Go(s, Fetches(k)), k)
  {
    if k == 0 {
      assert s.feed.cursor.out[s.taken..s.taken] == [];
    } else {
      FetchesTake(s, k - 1);
      GoMore(s, Fetches(k - 1), Fetch);
      NextFetch(s, Go(s, Fetches(k - 1)), k - 1, k);
    }
  }

  lemma NextFetch(s: Session, t: Session, k: nat, next: nat)
    requires !s.feed.phase.Closed? && next == k + 1 && s.taken + next <= |s.feed.cursor.out| && Fetched(s, t, k)
    ensures Fetched(s, Do(t, Fetch), next)
  {
    var out := s.feed.cursor.out;
    assert out[s.taken..s.taken + next] == out[s.taken..s.taken + k] + [out[s.taken + k]];
    TakeMore(s.client, out[s.taken..s.taken + k], out[s.taken + k], s.untilTerminal);
  }

  lemma GoMore(s: Session, acts: seq<Act>, act: Act)
    ensures Go(s, acts + [act]) == Do(Go(s, acts), act)
  {
    assert (acts + [act])[..|acts|] == acts;
  }

  lemma TakeMore(c: Client, events: seq<Event>, e: Event, untilTerminal: bool)
    ensures TakeAll(c, events + [e], untilTerminal) == Take(TakeAll(c, events, untilTerminal), e, untilTerminal)
  {
    assert (events + [e])[..|events|] == events;
  }

  predicate Fresh(s: Session) {
    s.client == Client(s.from, [], false) && s.feed.phase.Closed?
  }

  predicate LogEnds(log: seq<Event>) {
    log != [] && log[|log| - 1].EndsSubmission()
  }

  ghost predicate InStep(s: Session) {
    && Sound(s.feed)
    && Agrees(Cursor(s.client.cursor, s.client.output), s.from, s.feed.log)
    && (!s.feed.phase.Closed? ==> s.taken <= |s.feed.cursor.out| && s.client.cursor == s.feed.after + s.taken)
    && (s.client.done ==> s.untilTerminal && s.from < |s.feed.log| == s.client.cursor && LogEnds(s.feed.log))
    && (s.untilTerminal && !s.client.done && LogEnds(s.feed.log) && s.from < |s.feed.log| ==>
          s.client.cursor < |s.feed.log|)
  }

  lemma EndedLogIsFull(f: Feed, entries: seq<Event>)
    requires LegalLog(f.id, f.accepted, f.log + entries) && LogEnds(f.log)
    ensures entries == []
  {
    TerminalIsLast(f.id, f.accepted, f.log + entries);
    assert (f.log + entries)[|f.log| - 1].EndsSubmission();
  }

  lemma CommitKeepsInStep(s: Session, entries: seq<Event>)
    requires InStep(s)
    ensures InStep(Do(s, Server(Commit(entries))))
  {
    var f := s.feed;
    NextIsSound(f, Commit(entries));
    if LegalLog(f.id, f.accepted, f.log + entries) {
      if LogEnds(f.log) { EndedLogIsFull(f, entries); }
      CommitAgrees(Cursor(s.client.cursor, s.client.output), s.from, f.log, entries);
      LongerLogKeepsInStep(s, Next(f, Commit(entries)), entries);
    }
  }

  lemma LongerLogKeepsInStep(s: Session, g: Feed, entries: seq<Event>)
    requires InStep(s) && Sound(g) && g.log == s.feed.log + entries && (LogEnds(s.feed.log) ==> entries == [])
    requires g.phase == s.feed.phase && g.after == s.feed.after && g.cursor == s.feed.cursor
    requires Agrees(Cursor(s.client.cursor, s.client.output), s.from, g.log)
    ensures InStep(s.(feed := g))
  {
    if entries == [] { assert g.log == s.feed.log; }
  }

  lemma FetchKeepsInStep(s: Session)
    requires InStep(s)
    ensures InStep(Do(s, Fetch))
  {
    var f, c := s.feed, s.client;
    if !c.done && !f.phase.Closed? && s.taken < |f.cursor.out| {
      LegalIsSequenced(f.id, f.accepted, f.log);
      TerminalIsLast(f.id, f.accepted, f.log);
      assert f.cursor.out[s.taken] == f.log[c.cursor];
      OneMoreAgrees(Cursor(c.cursor, c.output), s.from, f.log);
    }
  }

  lemma ServerKeepsInStep(s: Session, h: Happening)
    requires InStep(s) && !h.Commit? && !h.Subscribe?
    ensures InStep(Do(s, Server(h)))
  {
    ServerKeepsLog(s.feed, h);
    if !s.feed.phase.Closed? { PositionsGrow(s.feed, h); }
    GrownKeepsInStep(s, Next(s.feed, h));
  }

  lemma ServerKeepsLog(f: Feed, h: Happening)
    requires Sound(f) && !h.Commit? && !h.Subscribe?
    ensures var g := Next(f, h); Sound(g) && g.log == f.log && g.id == f.id && (f.phase.Closed? ==> g.phase.Closed?)
  {
    NextIsSound(f, h);
  }

  lemma GrownKeepsInStep(s: Session, g: Feed)
    requires InStep(s) && Sound(g) && g.log == s.feed.log
    requires !g.phase.Closed? ==>
               && !s.feed.phase.Closed? && g.after == s.feed.after && g.cursor.last >= s.feed.cursor.last
               && |g.cursor.out| >= |s.feed.cursor.out|
    ensures InStep(s.(feed := g))
  {
  }

  /** A stream never takes anything back. */
  lemma PositionsGrow(f: Feed, h: Happening)
    requires Sound(f) && !f.phase.Closed? && !h.Subscribe? && !h.Commit?
    ensures var g := Next(f, h);
      && g.after == f.after && g.cursor.last >= f.cursor.last
      && |g.cursor.out| >= |f.cursor.out|
  {
    if h.ReadLog? && f.phase.Subscribed? {
      CatchesUp(f.cursor, f.id, f.accepted, f.log, f.after);
      OutputGrows(f.cursor, Next(f, h).cursor, f.after, f.log);
    }
    if h.Receive? && f.phase.Streaming? && f.queue != [] {
      ReceivedAgrees(f.cursor, f.id, f.accepted, f.log, f.after, f.queue[0]);
      OutputGrows(f.cursor, Next(f, h).cursor, f.after, f.log);
    }
  }

  lemma OutputGrows(c: Cursor, d: Cursor, after: nat, log: seq<Event>)
    requires Agrees(c, after, log) && Agrees(d, after, log) && c.last <= d.last
    ensures |d.out| >= |c.out|
  {
  }

  lemma DoKeepsInStep(s: Session, act: Act)
    requires InStep(s)
    ensures InStep(Do(s, act))
  {
    match act
    case Server(h) =>
      if h.Commit? {
        CommitKeepsInStep(s, h.entries);
      } else if !h.Subscribe? {
        ServerKeepsInStep(s, h);
      }
    case Connect => NextIsSound(s.feed, Subscribe(s.client.cursor));
    case Fetch => FetchKeepsInStep(s);
  }

  lemma {:induction false} GoKeepsInStep(s: Session, acts: seq<Act>)
    requires InStep(s)
    ensures InStep(Go(s, acts))
  {
    if acts != [] {
      GoKeepsInStep(s, acts[..|acts| - 1]);
      DoKeepsInStep(Go(s, acts[..|acts| - 1]), acts[|acts| - 1]);
    }
  }

  /** The receiver is drained, the newest entry was broadcast, and the client has taken what was yielded. */
  predicate Quiet(s: Session) {
    s.feed.phase.Streaming? && s.feed.queue == [] && NewestSent(s.feed) && s.taken == |s.feed.cursor.out|
  }

  /** In the quiet the client is at the end of the log, and has returned if that is what it was waiting for. */
  predicate CaughtUp(s: Session) {
    && s.client.cursor >= |s.feed.log|
    && (s.untilTerminal ==> (s.client.done <==> LogEnds(s.feed.log) && s.from < |s.feed.log|))
  }

  lemma QuietHasCaughtUp(s: Session)
    requires InStep(s) && Quiet(s)
    ensures CaughtUp(s)
  {
  }

  /**
    End-to-end resume. Across any disconnections and losses `watch` yields afterSequence + 1, + 2, …,
    each once. With `untilTerminal` it returns only on the last entry of a finished log, and when
    everything is quiet it has returned exactly if the log is finished and did not end before the
    cursor it was given.
  */
  lemma EndToEndResume(s: Session, acts: seq<Act>)
    requires Fresh(s) && Sound(s.feed)
    ensures var t := Go(s, acts); var c, log := t.client, t.feed.log;
      && t.from == s.from && t.untilTerminal == s.untilTerminal
      && s.from <= c.cursor
      && (forall i :: 0 <= i < |c.output| ==>
        c.output[i].sequence == s.from + i + 1
        && c.output[i].submission == t.feed.id)
      && |c.output| == c.cursor - s.from
      && (c.output != [] ==> c.cursor <= |log| && c.output == log[s.from..c.cursor])
      && (c.done ==> s.untilTerminal && LogEnds(log) && c.cursor == |log| && s.from < |log|)
      && (Quiet(t) ==> CaughtUp(t))
  {
    if s.from <= |s.feed.log| { assert s.feed.log[s.from..s.from] == []; }
    GoKeepsInStep(s, acts);
    GoKeepsSetup(s, acts);
    var t := Go(s, acts);
    LegalIsSequenced(t.feed.id, t.feed.accepted, t.feed.log);
    if Quiet(t) { QuietHasCaughtUp(t); }
  }

  lemma {:induction false} GoKeepsSetup(s: Session, acts: seq<Act>)
    ensures var t := Go(s, acts); t.from == s.from && t.untilTerminal == s.untilTerminal
  {
    if acts != [] { GoKeepsSetup(s, acts[..|acts| - 1]); }
  }
  // ----- an end that is not broadcast -----

  /** The item neither is nor announces an entry beyond `last`. */
  predicate OldNews(id: SubmissionId, last: nat, item: Item) {
    item.Message? && (item.event.submission != id || item.event.sequence <= last)
  }

  /** The log has ended beyond what the stream has yielded, and nothing in its queue tells it so. */
  predicate EndUnannounced(f: Feed) {
    && f.phase.Streaming? && LogEnds(f.log) && f.cursor.last < |f.log|
    && forall i :: 0 <= i < |f.queue| ==> OldNews(f.id, f.cursor.last, f.queue[i])
  }

  lemma UnannouncedIsUndone(s: Session)
    requires InStep(s) && EndUnannounced(s.feed)
    ensures !s.client.done
  {
  }

  /** What could tell: a broadcast of one of the missing entries, a lag, or a new connection. */
  predicate Tells(last: nat, act: Act) {
    && act.Server?
    && (|| act.happening.Overflow? || act.happening.Disconnect?
        || (act.happening.Broadcast? && act.happening.event.sequence > last))
  }

  lemma EndedLogStays(f: Feed, h: Happening)
    requires LogEnds(f.log) && !h.Subscribe?
    ensures Next(f, h).log == f.log
  {
    if h.Commit? && LegalLog(f.id, f.accepted, f.log + h.entries) {
      EndedLogIsFull(f, h.entries);
      assert f.log + h.entries == f.log;
    }
  }

  lemma UnannouncedStays(f: Feed, h: Happening)
    requires Sound(f) && EndUnannounced(f) && !h.Subscribe? && !Tells(f.cursor.last, Server(h))
    ensures EndUnannounced(Next(f, h)) && Next(f, h).log == f.log && Next(f, h).cursor == f.cursor
  {
    EndedLogStays(f, h);
    if h.Receive? && f.queue != [] { assert OldNews(f.id, f.cursor.last, f.queue[0]); }
  }

  lemma StillUnannounced(s: Session, act: Act)
    requires InStep(s) && EndUnannounced(s.feed) && !Tells(s.feed.cursor.last, act)
    ensures EndUnannounced(Do(s, act).feed) && Do(s, act).feed.cursor == s.feed.cursor
  {
    if act.Server? && !act.happening.Subscribe? { UnannouncedStays(s.feed, act.happening); }
  }

  /**
    A handler that dies before it broadcasts the last entries leaves such a client waiting: it does not
    return until a broadcast, a lag or a new connection tells it, whatever else happens.
  */
  lemma {:induction false} LostEndKeepsTheClientWaiting(s: Session, acts: seq<Act>)
    requires InStep(s) && EndUnannounced(s.feed)
    requires forall i :: 0 <= i < |acts| ==> !Tells(s.feed.cursor.last, acts[i])
    ensures var t := Go(s, acts);
      && InStep(t) && EndUnannounced(t.feed) && t.feed.cursor == s.feed.cursor && !t.client.done
  {
    if acts == [] {
      UnannouncedIsUndone(s);
    } else {
      var prefix, act := acts[..|acts| - 1], acts[|acts| - 1];
      LostEndKeepsTheClientWaiting(s, prefix);
      DoKeepsInStep(Go(s, prefix), act);
      StillUnannounced(Go(s, prefix), act);
      UnannouncedIsUndone(Go(s, acts));
    }
  }

  const ACCEPTED := Scheduling(0, None, None)
  const BEGINNING := Event(1, None, 1, Created)
  const ENDING := Event(1, None, 2, StateChanged(Queued, Cancelled, Some(CancelledByClient)))
  const WAITING := Feed(1, ACCEPTED, [BEGINNING], {}, Closed, 0, [], Cursor(0, []))
  const WATCHING := Session(0, true, Client(0, [], false), WAITING, 0)
  const UNTOLD: seq<Act> := [Connect] + [Server(ReadLog)] + [Server(Commit([ENDING]))]

  lemma ShortLogsAreLegal()
    ensures LegalLog(1, ACCEPTED, [BEGINNING]) && LegalLog(1, ACCEPTED, [BEGINNING] + [ENDING])
  {
    var none: seq<Event> := [];
    assert none + [BEGINNING] == [BEGINNING];
    Extend(1, ACCEPTED, none, BEGINNING);
    Extend(1, ACCEPTED, [BEGINNING], ENDING);
  }

  /** It does happen: a submission is cancelled while its client watches, and the handler dies at the commit. */
  lemma AClientIsLeftWaiting()
    ensures Fresh(WATCHING) && Sound(WATCHING.feed) && WATCHING.untilTerminal
    ensures EndUnannounced(Go(WATCHING, UNTOLD).feed)
  {
    var none: seq<Act> := [];
    ShortLogsAreLegal();
    assert [Connect] == none + [Connect];
    GoMore(WATCHING, none, Connect);
    GoMore(WATCHING, [Connect], Server(ReadLog));
    GoMore(WATCHING, [Connect] + [Server(ReadLog)], Server(Commit([ENDING])));
    ReadsTheBeginning(Do(WATCHING, Connect).feed);
  }

  lemma ReadsTheBeginning(f: Feed)
    requires f.log == [BEGINNING] && f.phase.Subscribed? && f.cursor == Cursor(0, []) && f.queue == []
    ensures Next(f, ReadLog) == f.(phase := Streaming, cursor := Cursor(1, [BEGINNING]))
  {
    ShortLogsAreLegal();
    SuffixFrom(1, ACCEPTED, [BEGINNING], 0);
    assert [BEGINNING][0..] == [BEGINNING];
    DeliversOne();
  }

  lemma DeliversOne()
    ensures Delivered(Cursor(0, []), [BEGINNING]) == Cursor(1, [BEGINNING])
  {
    var none: seq<Event> := [];
    assert [BEGINNING][..0] == none && none + [BEGINNING] == [BEGINNING];
    assert Delivered(Cursor(0, []), none) == Cursor(0, []);
  }

  /** A client that has not yet returned connects anew and reads the log. */
  function Reconnected(s: Session): Session {
    Do(Do(Do(s, Server(Disconnect)), Connect), Server(ReadLog))
  }

  lemma ReconnectingKeepsInStep(s: Session)
    requires InStep(s)
    ensures InStep(Reconnected(s))
  {
    DoKeepsInStep(s, Server(Disconnect));
    DoKeepsInStep(Do(s, Server(Disconnect)), Connect);
    DoKeepsInStep(Do(Do(s, Server(Disconnect)), Connect), Server(ReadLog));
  }

  lemma ReconnectedShape(s: Session)
    requires !s.client.done && s.client.cursor <= I64_MAX
    ensures var t := Reconnected(s);
      && t == s.(feed := t.feed, taken := 0) && t.feed.log == s.feed.log && t.feed.phase.Streaming?
      && t.feed.cursor == Delivered(Cursor(s.client.cursor, []), Suffix(s.feed.log, s.client.cursor))
  {
  }

  lemma ReconnectingReadsTheRest(s: Session)
    requires InStep(s) && !s.client.done && s.client.cursor <= I64_MAX && s.client.cursor <= |s.feed.log|
    ensures Reconnected(s).feed.cursor.out == s.feed.log[s.client.cursor..]
  {
    var after := s.client.cursor;
    ReconnectedShape(s);
    assert s.feed.log[after..after] == [];
    SuffixFrom(s.feed.id, s.feed.accepted, s.feed.log, after);
    LegalIsSequenced(s.feed.id, s.feed.accepted, s.feed.log);
    DeliverRest(Cursor(after, []), s.feed.id, s.feed.log, after);
  }

  /** Whatever was lost, a new connection on which everything is fetched makes a waiting client return. */
  lemma ReconnectingFinishes(s: Session)
    requires InStep(s) && s.untilTerminal && !s.client.done && s.client.cursor <= I64_MAX
    requires LogEnds(s.feed.log) && s.from < |s.feed.log|
    ensures Go(Reconnected(s), Fetches(|Reconnected(s).feed.cursor.out|)).client.done
  {
    var t := Reconnected(s);
    var k := |t.feed.cursor.out|;
    ReconnectingKeepsInStep(s);
    ReconnectedShape(s);
    ReconnectingReadsTheRest(s);
    FetchesTake(t, k);
    GoKeepsInStep(t, Fetches(k));
  }
}
