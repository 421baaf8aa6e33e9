/** One scheduling pass: the order of the queue, the choice of a source, and what the pass achieves. */
module Scheduler {
  import opened Prelude
  import opened Protocol
  import opened StoreModel
  import opened Sorting
  import opened Store
  import opened Capacity

  const NANOS_PER_MINUTE := 60 * NANOS_PER_SECOND
  const U16_MAX := 0xFFFF
  const LOCAL := "local"

  // ----- order -----

  function Age(item: QueuedItem, now: Time): nat {
    var minutes := Truncated(now - item.frozen.createdAt, NANOS_PER_MINUTE);
    var aged := if minutes < 0 then 0 else minutes;
    var clamped := if aged > U16_MAX then U16_MAX else aged;
    if clamped < 50 then clamped else 50
  }

  function EffectivePriority(item: QueuedItem, now: Time): nat {
    Capped(item.schedule.priority + Age(item, now))
  }

  function ByEffectivePriority(now: Time): (QueuedItem, QueuedItem) -> bool {
    (x: QueuedItem, y: QueuedItem) => EffectivePriority(x, now) >= EffectivePriority(y, now)
  }

  function PassOrder(queue: seq<QueuedItem>, now: Time): seq<QueuedItem> {
    Sort(ByEffectivePriority(now), queue)
  }

  lemma AgeIsMonotone(older: QueuedItem, younger: QueuedItem, now: Time)
    requires older.frozen.createdAt <= younger.frozen.createdAt
    ensures Age(younger, now) <= Age(older, now)
  {
    var x, y := now - younger.frozen.createdAt, now - older.frozen.createdAt;
    if x >= 0 {
      assert x / NANOS_PER_MINUTE <= y / NANOS_PER_MINUTE;
    }
  }

  /** Aging adds at most one point a minute and fifty in all, and never lifts anything above one hundred. */
  lemma AgingCurve(item: QueuedItem, now: Time, later: Time)
    requires now <= later <= now + NANOS_PER_MINUTE && item.schedule.priority <= 100
    ensures Age(item, item.frozen.createdAt) == 0
    ensures Age(item, now) <= Age(item, later) <= Age(item, now) + 1
    ensures Age(item, now) == 50 <==> now - item.frozen.createdAt >= 50 * NANOS_PER_MINUTE
    ensures item.schedule.priority <= EffectivePriority(item, now) <= EffectivePriority(item, later) <= 100
    ensures EffectivePriority(item, now) <= item.schedule.priority + 50
  {
    var x, y := now - item.frozen.createdAt, later - item.frozen.createdAt;
    if x >= 0 {
      assert x / NANOS_PER_MINUTE <= y / NANOS_PER_MINUTE <= (x + NANOS_PER_MINUTE) / NANOS_PER_MINUTE
          == x / NANOS_PER_MINUTE + 1;
    } else if y >= 0 {
      assert y / NANOS_PER_MINUTE <= 1;
    }
  }

  /** The effective priority in numbers: one point for each whole minute of age up to fifty, and at most one hundred. */
  lemma EffectivePriorityIs(item: QueuedItem, now: Time, minutes: nat)
    requires var age := now - item.frozen.createdAt;
      if age < 60_000_000_000 then minutes == 0
      else minutes * 60_000_000_000 <= age < (minutes + 1) * 60_000_000_000
    ensures var aged := item.schedule.priority + (if minutes < 50 then minutes else 50);
            EffectivePriority(item, now) == if aged < 100 then aged else 100
  {
  }

  lemma EffectiveOrderIsTotal(now: Time)
    ensures TotalPreorder(ByEffectivePriority(now))
  {
  }

  /** What the order of a pass comes to for two submissions of different age. */
  predicate OlderComesFirst(older: QueuedItem, younger: QueuedItem, now: Time) {
    || EffectivePriority(older, now) > EffectivePriority(younger, now)
    || (EffectivePriority(older, now) == EffectivePriority(younger, now)
        && older.schedule.priority >= younger.schedule.priority)
  }

  /** The stored order decides between an older and a younger submission by the raw priority alone. */
  lemma StoredOrder(db: Db, queue: seq<QueuedItem>, older: QueuedItem, younger: QueuedItem)
    requires IsQueue(db, queue) && older.frozen.createdAt < younger.frozen.createdAt
    ensures Precedes(queue, older, younger) ==> older.schedule.priority >= younger.schedule.priority
    ensures Precedes(queue, younger, older) ==> younger.schedule.priority > older.schedule.priority
  {
    if Precedes(queue, older, younger) {
      var i, j :| 0 <= i < j < |queue| && queue[i] == older && queue[j] == younger;
      assert QueueOrder(queue[i], queue[j]);
    }
    if Precedes(queue, younger, older) {
      var i, j :| 0 <= i < j < |queue| && queue[i] == younger && queue[j] == older;
      assert QueueOrder(queue[i], queue[j]);
    }
  }

  /**
    The order of a pass, exactly: it visits a permutation of the queue, and of two submissions the older
    comes first if and only if its effective priority is higher, or equal with no lower raw priority.
  */
  lemma OlderIsVisitedFirstIff(db: Db, queue: seq<QueuedItem>, now: Time, i: nat, j: nat)
    requires IsQueue(db, queue) && i < |PassOrder(queue, now)| && j < |PassOrder(queue, now)|
    requires PassOrder(queue, now)[i].frozen.createdAt < PassOrder(queue, now)[j].frozen.createdAt
    ensures multiset(PassOrder(queue, now)) == multiset(queue)
    ensures i < j <==> OlderComesFirst(PassOrder(queue, now)[i], PassOrder(queue, now)[j], now)
  {
    EffectiveOrderIsTotal(now);
    SortCorrect(ByEffectivePriority(now), queue);
    StoredOrder(db, queue, PassOrder(queue, now)[i], PassOrder(queue, now)[j]);
  }

  /** `first` is served before `second`: higher effective priority, then higher priority, then earlier creation. */
  predicate ServedBefore(first: QueuedItem, second: QueuedItem, now: Time) {
    var x, y := EffectivePriority(first, now), EffectivePriority(second, now);
    || x > y
    || (x == y && first.schedule.priority > second.schedule.priority)
    || (x == y && first.schedule.priority == second.schedule.priority
        && first.frozen.createdAt <= second.frozen.createdAt)
  }

  /** The submissions of a pass are in the order in which they are to be served. */
  lemma OrderServes(db: Db, queue: seq<QueuedItem>, now: Time, i: nat, j: nat)
    requires IsQueue(db, queue) && i < j < |PassOrder(queue, now)|
    ensures ServedBefore(PassOrder(queue, now)[i], PassOrder(queue, now)[j], now)
  {
    var first, second := PassOrder(queue, now)[i], PassOrder(queue, now)[j];
    EffectiveOrderIsTotal(now);
    SortCorrect(ByEffectivePriority(now), queue);
    if EffectivePriority(first, now) == EffectivePriority(second, now) {
      var k, l :| 0 <= k < l < |queue| && queue[k] == first && queue[l] == second;
      assert QueueOrder(queue[k], queue[l]);
    }
  }

  /**
    Non-overtaking: the pass visits a permutation of the queue, and a younger submission comes before
    an older one only if its own priority is strictly higher.
  */
  lemma NonOvertaking(db: Db, queue: seq<QueuedItem>, now: Time, i: nat, j: nat)
    requires IsQueue(db, queue)
    requires i < j < |PassOrder(queue, now)|
    ensures multiset(PassOrder(queue, now)) == multiset(queue)
    ensures var first, second := PassOrder(queue, now)[i], PassOrder(queue, now)[j];
            first.frozen.createdAt > second.frozen.createdAt ==> first.schedule.priority > second.schedule.priority
  {
    var first, second := PassOrder(queue, now)[i], PassOrder(queue, now)[j];
    if first.frozen.createdAt > second.frozen.createdAt {
      OlderIsVisitedFirstIff(db, queue, now, j, i);
      AgeIsMonotone(second, first, now);
    } else {
      EffectiveOrderIsTotal(now);
      SortCorrect(ByEffectivePriority(now), queue);
    }
  }

  function Capped(priority: nat): nat {
    if priority < 100 then priority else 100
  }

  const FIFTY_MINUTES := 50 * NANOS_PER_MINUTE

  /**
    A newcomer is preferred to a fully aged submission exactly if its raw priority is higher and reaches the
    aged one.
  */
  lemma NewcomerIsPreferredIff(older: QueuedItem, newcomer: QueuedItem, now: Time)
    requires older.schedule.priority <= 100 && newcomer.schedule.priority <= 100
    requires newcomer.frozen.createdAt == now && now - older.frozen.createdAt >= FIFTY_MINUTES
    ensures !OlderComesFirst(older, newcomer, now) <==>
              && newcomer.schedule.priority > older.schedule.priority
              && newcomer.schedule.priority >= Capped(older.schedule.priority + 50)
  {
    assert Age(newcomer, now) == 0 && Age(older, now) == 50;
  }

  /** Whenever it is looked at, a submission created just then with raw priority `q` is preferred to this one. */
  ghost predicate OvertakenForEver(item: QueuedItem, q: nat) {
    forall newcomer: QueuedItem, now: Time {:trigger OlderComesFirst(item, newcomer, now)} ::
      newcomer.schedule.priority == q && newcomer.frozen.createdAt == now > item.frozen.createdAt ==>
        !OlderComesFirst(item, newcomer, now)
  }

  /**
    Aging does not exclude starvation: a submission can be overtaken for ever by ever new arrivals if and
    only if its own priority is below one hundred.
  */
  lemma StarvationIff(item: QueuedItem)
    requires item.schedule.priority <= 100
    ensures (exists q: nat :: q <= 100 && OvertakenForEver(item, q)) <==> item.schedule.priority < 100
  {
    if item.schedule.priority < 100 {
      assert OvertakenForEver(item, 100);
    }
    forall q: nat | q <= 100 && OvertakenForEver(item, q) ensures item.schedule.priority < 100 {
      var now := item.frozen.createdAt + FIFTY_MINUTES;
      var newcomer := QueuedItem(0, item.frozen.(createdAt := now), Scheduling(q, None, None));
      NewcomerIsPreferredIff(item, newcomer, now);
      assert !OlderComesFirst(item, newcomer, now);
    }
  }

  const PATIENT := QueuedItem(1, Frozen("", "", "", "", "", Scheduling(50, None, None), None, None, false, 0),
      Scheduling(50, None, None))
  const URGENT := QueuedItem(2,
      Frozen("", "", "", "", "", Scheduling(100, None, None), None, None, false, 1_000 * FIFTY_MINUTES),
      Scheduling(100, None, None))

  /** For example, after a thousand times fifty minutes of waiting at priority fifty. */
  lemma OvertakenAfterAll()
    ensures Age(PATIENT, URGENT.frozen.createdAt) == 50
    ensures !OlderComesFirst(PATIENT, URGENT, URGENT.frozen.createdAt)
  {
    NewcomerIsPreferredIff(PATIENT, URGENT, URGENT.frozen.createdAt);
  }

  // ----- choice -----

  datatype Config = Config(sources: map<string, Source>, outputLimit: nat)

  datatype Decision = Blocked(code: BlockerCode) | Ready(route: string, source: string)

  /** What the scheduler reads to decide about one submission. */
  datatype World = World(config: Config, observations: map<string, Observation>, now: Time)

  predicate Local(route: Route) {
    route.targetId == LOCAL
  }

  predicate SourceOpen(w: World, db: Db, source: string) {
    source in w.config.sources && Open(w.config.sources[source], w.observations, ActiveForSource(db, source), w.now)
  }

  /** The source is not configured, was never observed, or its observation is too old. */
  predicate SourceUnknown(w: World, source: string) {
    source !in w.config.sources || Available(w.config.sources[source], w.observations, 0, w.now).None?
  }

  predicate AnyLocal(routes: seq<Route>) {
    exists i :: 0 <= i < |routes| && Local(routes[i])
  }

  predicate RouteOpen(w: World, db: Db, route: Route) {
    Local(route) && exists k :: 0 <= k < |route.sourceIds| && SourceOpen(w, db, route.sourceIds[k])
  }

  predicate RouteUnknown(w: World, route: Route) {
    Local(route) && exists k :: 0 <= k < |route.sourceIds| && SourceUnknown(w, route.sourceIds[k])
  }

  predicate AnyOpen(w: World, db: Db, routes: seq<Route>) {
    exists i :: 0 <= i < |routes| && RouteOpen(w, db, routes[i])
  }

  predicate AnyUnknown(w: World, routes: seq<Route>) {
    exists i :: 0 <= i < |routes| && RouteUnknown(w, routes[i])
  }

  /** `source` is the first open one, in route order and then in the order of the route's pool. */
  ghost predicate FirstOpen(w: World, db: Db, routes: seq<Route>, route: string, source: string) {
    exists i, k :: 0 <= i < |routes| && Local(routes[i]) && 0 <= k < |routes[i].sourceIds|
      && routes[i].id == route && routes[i].sourceIds[k] == source && SourceOpen(w, db, source)
      && !AnyOpen(w, db, routes[..i])
      && (forall l :: 0 <= l < k ==> !SourceOpen(w, db, routes[i].sourceIds[l]))
  }

  /** The blocker of a submission none of whose local sources is open. */
  function ClosedCode(w: World, routes: seq<Route>): BlockerCode {
    if !AnyLocal(routes) then RouteUnsatisfied
    else if AnyUnknown(w, routes) then CapacityUnknown
    else CapacityUnavailable
  }

  /** A pool source of a local route that is not configured, or of which no fresh observation is known. */
  predicate UnknownAt(w: World, routes: seq<Route>, i: int, k: int) {
    && 0 <= i < |routes| && routes[i].targetId == "local" && 0 <= k < |routes[i].sourceIds|
    && var id := routes[i].sourceIds[k];
       id !in w.config.sources || Available(w.config.sources[id], w.observations, 0, w.now).None?
  }

  /** What each code says about the routes. */
  ghost predicate Explains(w: World, routes: seq<Route>, code: BlockerCode) {
    && (code.RouteUnsatisfied? <==> forall i :: 0 <= i < |routes| ==> routes[i].targetId != "local")
    && (code.CapacityUnknown? <==> exists i, k :: UnknownAt(w, routes, i, k))
    && (code.RouteUnsatisfied? || code.CapacityUnknown? || code.CapacityUnavailable?)
  }

  lemma ClosedCodeExplains(w: World, routes: seq<Route>)
    ensures Explains(w, routes, ClosedCode(w, routes))
  {
    if AnyUnknown(w, routes) {
      var i :| 0 <= i < |routes| && RouteUnknown(w, routes[i]);
      var k :| 0 <= k < |routes[i].sourceIds| && SourceUnknown(w, routes[i].sourceIds[k]);
      assert UnknownAt(w, routes, i, k);
    }
    forall i, k | UnknownAt(w, routes, i, k) ensures AnyUnknown(w, routes) && AnyLocal(routes) {
      assert SourceUnknown(w, routes[i].sourceIds[k]);
      assert RouteUnknown(w, routes[i]) && Local(routes[i]);
    }
  }

  method SelectDispatch(w: World, store: Store, routes: seq<Route>) returns (d: Decision)
    ensures d.Blocked? <==> !AnyOpen(w, store.Tables(), routes)
    ensures d.Blocked? ==> d.code == ClosedCode(w, routes) && Explains(w, routes, d.code)
    ensures d.Ready? ==>
              FirstOpen(w, store.Tables(), routes, d.route, d.source)
              && SourceOpen(w, store.Tables(), d.source)
  {
    ghost var db := store.Tables();
    var sawUnknown, sawRoute := false, false;
    for i := 0 to |routes|
      invariant sawRoute <==> AnyLocal(routes[..i])
      invariant sawUnknown <==> AnyUnknown(w, routes[..i])
      invariant !AnyOpen(w, db, routes[..i])
    {
      var route := routes[i];
      ghost var before := sawUnknown;
      if Local(route) {
        sawRoute := true;
        for k := 0 to |route.sourceIds|
          invariant sawUnknown <==> before || exists l :: 0 <= l < k && SourceUnknown(w, route.sourceIds[l])
          invariant forall l :: 0 <= l < k ==> !SourceOpen(w, db, route.sourceIds[l])
        {
          var id := route.sourceIds[k];
          if id !in w.config.sources {
            sawUnknown := true;
          } else {
            var active := store.ActiveForSource(id);
            var available := Available(w.config.sources[id], w.observations, active, w.now);
            OpenIsAntitone(w.config.sources[id], w.observations, 0, active, w.now);
            if available.Some? && available.value > 0 {
              assert SourceOpen(w, db, id);
              assert routes[i].sourceIds[k] == id;
              return Ready(route.id, id);
            }
            if available.None? { sawUnknown := true; }
          }
        }
      }
      OneMoreRoute(w, db, routes, i);
    }
    assert routes[..|routes|] == routes;
    ClosedCodeExplains(w, routes);
    if !sawRoute { return Blocked(RouteUnsatisfied); }
    return Blocked(if sawUnknown then CapacityUnknown else CapacityUnavailable);
  }

  lemma OneMoreRoute(w: World, db: Db, routes: seq<Route>, i: nat)
    requires i < |routes|
    ensures AnyLocal(routes[..i + 1]) <==> AnyLocal(routes[..i]) || Local(routes[i])
    ensures AnyUnknown(w, routes[..i + 1]) <==> AnyUnknown(w, routes[..i]) || RouteUnknown(w, routes[i])
    ensures AnyOpen(w, db, routes[..i + 1]) <==> AnyOpen(w, db, routes[..i]) || RouteOpen(w, db, routes[i])
  {
    var a, b := routes[..i], routes[..i + 1];
    assert b[i] == routes[i];
    forall j | 0 <= j < |a| ensures a[j] == b[j] {}
  }

  // ----- one pass -----

  predicate Overdue(item: QueuedItem, now: Time) {
    item.schedule.startDeadline.Some? && item.schedule.startDeadline.value <= now
  }

  predicate TooEarly(item: QueuedItem, now: Time) {
    item.schedule.notBefore.Some? && item.schedule.notBefore.value > now
  }

  predicate Shows(row: Submission, code: BlockerCode) {
    row.state.Queued? && row.blocker == Some(Blocker(code, None))
  }

  function RoutesOf(item: QueuedItem): seq<Route> {
    if item.frozen.routes.Some? then item.frozen.routes.value else []
  }

  /** The submission runs on a source from the pool of one of its local routes. */
  ghost predicate RunsInPool(db: Db, item: QueuedItem) {
    exists a :: a in db.attempts && db.attempts[a].submission == item.id
        && InPool(RoutesOf(item), db.attempts[a].source)
  }

  predicate InPool(routes: seq<Route>, source: string) {
    exists i :: 0 <= i < |routes| && Local(routes[i]) && source in routes[i].sourceIds
  }

  /** The slots held on a configured source fit beside its reserve. */
  predicate Roomy(w: World, db: Db, source: string) {
    source in w.config.sources ==>
      ActiveForSource(db, source) + w.config.sources[source].reserve <= w.config.sources[source].limit
  }

  /** How a pass may leave a submission it has visited, judged in the current tables. */
  ghost predicate Resolved(w: World, db: Db, item: QueuedItem) {
    && item.id in db.subs
    && var row := db.subs[item.id];
       && row.frozen == item.frozen
       && (if Overdue(item, w.now) then row.state.Expired?
           else if TooEarly(item, w.now) then Shows(row, NotBefore)
           else
             || (row.state.Running? && RunsInPool(db, item))
             || (Shows(row, BusyWorkspace) && Busy(db, item.id))
             || (Shows(row, ClosedCode(w, RoutesOf(item))) && !AnyOpen(w, db, RoutesOf(item))))
  }

  /**
    In terms of the row alone: an overdue submission has expired, one that may not start yet waits for that,
    and any other runs or shows why it does not.
  */
  lemma ResolvedMeans(w: World, db: Db, item: QueuedItem)
    requires Resolved(w, db, item)
    ensures item.id in db.subs
    ensures var row, s := db.subs[item.id], item.schedule;
      if s.startDeadline.Some? && s.startDeadline.value <= w.now then row.state == Expired
      else if s.notBefore.Some? && w.now < s.notBefore.value then
        row.state == Queued && row.blocker == Some(Blocker(NotBefore, None))
      else
        || row.state == Running
        || (row.state == Queued && row.blocker == Some(Blocker(BusyWorkspace, None)))
        || (row.state == Queued && row.blocker.Some? && row.blocker.value.detail.None?
            && Explains(w, RoutesOf(item), row.blocker.value.code))
  {
    ClosedCodeExplains(w, RoutesOf(item));
  }

  /** A step of the pass on another submission: held slots and locks only grow, other rows stay. */
  ghost predicate PassStep(before: Db, after: Db, id: SubmissionId) {
    && after.subs.Keys == before.subs.Keys
    && (forall x :: x in before.subs && x != id ==> after.subs[x] == before.subs[x])
    && (forall x :: x in before.subs ==>
      after.subs[x].frozen == before.subs[x].frozen
      && (Locks(before, x) ==> Locks(after, x)))
    && (forall a :: a in before.attempts ==> a in after.attempts && after.attempts[a] == before.attempts[a])
  }

  lemma HeldGrows(before: Db, after: Db, id: SubmissionId, source: string)
    requires PassStep(before, after, id)
    ensures ActiveForSource(before, source) <= ActiveForSource(after, source)
  {
    assert HeldBy(before, source) <= HeldBy(after, source);
    SubsetSize(HeldBy(before, source), HeldBy(after, source));
  }

  lemma {:induction false} SubsetSize<T>(a: set<T>, b: set<T>)
    requires a <= b
    ensures |a| <= |b|
  {
    if a != {} {
      var x :| x in a;
      SubsetSize(a - {x}, b - {x});
    }
  }

  lemma ClosedStaysClosed(w: World, before: Db, after: Db, id: SubmissionId, routes: seq<Route>)
    requires PassStep(before, after, id) && !AnyOpen(w, before, routes)
    ensures !AnyOpen(w, after, routes)
  {
    forall i, k | 0 <= i < |routes| && Local(routes[i]) && 0 <= k < |routes[i].sourceIds|
      ensures !SourceOpen(w, after, routes[i].sourceIds[k])
    {
      var source := routes[i].sourceIds[k];
      assert !RouteOpen(w, before, routes[i]);
      if source in w.config.sources {
        HeldGrows(before, after, id, source);
        OpenIsAntitone(w.config.sources[source], w.observations, ActiveForSource(before, source),
            ActiveForSource(after, source), w.now);
      }
    }
  }

  /** What was decided about a visited submission still stands after any later step of the pass. */
  lemma ResolvedIsStable(w: World, before: Db, after: Db, id: SubmissionId, item: QueuedItem)
    requires PassStep(before, after, id) && Resolved(w, before, item) && item.id != id
    ensures Resolved(w, after, item)
  {
    if !AnyOpen(w, before, RoutesOf(item)) { ClosedStaysClosed(w, before, after, id, RoutesOf(item)); }
    if Busy(before, item.id) {
      var other :| other in before.subs && other != item.id && Locks(before, other)
                   && Shares(before.subs[item.id].frozen, before.subs[other].frozen);
      assert Locks(after, other);
    }
  }

  lemma {:induction false} OrderIsDistinct(le: (QueuedItem, QueuedItem) -> bool, queue: seq<QueuedItem>)
    requires TotalPreorder(le)
    requires forall i, j :: 0 <= i < j < |queue| ==> queue[i].id != queue[j].id
    ensures forall i, j :: 0 <= i < j < |Sort(le, queue)| ==> Sort(le, queue)[i].id != Sort(le, queue)[j].id
  {
    if queue != [] {
      var rest := Sort(le, queue[1..]);
      OrderIsDistinct(le, queue[1..]);
      SortCorrect(le, queue[1..]);
      forall k | 0 <= k < |rest| ensures rest[k].id != queue[0].id {
        assert rest[k] in multiset(queue[1..]);
        var l :| 0 <= l < |queue[1..]| && queue[1..][l] == rest[k];
        assert queue[l + 1] == rest[k];
      }
      forall i, j | 0 <= i < j < |Sort(le, queue)| ensures Sort(le, queue)[i].id != Sort(le, queue)[j].id {
        InsertDistinct(le, queue[0], rest, i, j);
      }
    }
  }

  /** `order` lists the queued rows of `before`, each once. */
  ghost predicate Lists(before: Db, order: seq<QueuedItem>) {
    && (forall i :: 0 <= i < |order| ==>
          order[i].id in before.subs && before.subs[order[i].id].state.Queued?
              && order[i] == ItemOf(before, order[i].id))
    && (forall i, j :: 0 <= i < j < |order| ==> order[i].id != order[j].id)
    && (forall id :: id in before.subs && before.subs[id].state.Queued? ==> InQueue(order, id))
  }

  lemma OrderHasQueue(db: Db, queue: seq<QueuedItem>, now: Time)
    requires IsQueue(db, queue)
    ensures Lists(db, PassOrder(queue, now))
  {
    var order := PassOrder(queue, now);
    EffectiveOrderIsTotal(now);
    SortCorrect(ByEffectivePriority(now), queue);
    OrderIsDistinct(ByEffectivePriority(now), queue);
    forall i | 0 <= i < |order|
      ensures order[i].id in db.subs && db.subs[order[i].id].state.Queued? && order[i] == ItemOf(db, order[i].id)
    {
      assert order[i] in multiset(queue);
      var k :| 0 <= k < |queue| && queue[k] == order[i];
    }
    forall id | id in db.subs && db.subs[id].state.Queued? ensures InQueue(order, id) {
      var k :| 0 <= k < |queue| && queue[k].id == id;
      assert queue[k] in multiset(order);
    }
  }

  /** Every attempt so far has a smaller identifier, as ULIDs grow with time. */
  ghost predicate Below(db: Db, n: AttemptId) {
    forall a :: a in db.attempts ==> a < n
  }

  /** `item` describes a queued row. */
  predicate Current(db: Db, item: QueuedItem) {
    item.id in db.subs && db.subs[item.id].state.Queued? && item == ItemOf(db, item.id)
  }

  ghost predicate ServedFirst(w: World, db: Db, routes: seq<Route>, source: string) {
    exists route :: FirstOpen(w, db, routes, route, source)
  }

  /** One attempt is new, for `item` on the first open source of its routes. */
  ghost predicate OneStarted(w: World, before: Db, after: Db, item: QueuedItem, attempt: AttemptId) {
    && attempt !in before.attempts && attempt in after.attempts
    && after.attempts == before.attempts[attempt := after.attempts[attempt]]
    && after.attempts[attempt].submission == item.id
    && after.attempts[attempt].state.Starting?
    && ServedFirst(w, before, RoutesOf(item), after.attempts[attempt].source)
  }

  /** Either no attempt was made, or exactly one. */
  ghost predicate Dispatched(w: World, before: Db, after: Db, item: QueuedItem, attempt: AttemptId) {
    after.attempts == before.attempts || OneStarted(w, before, after, item, attempt)
  }

  ghost predicate VisitOutcome(w: World, before: Db, after: Db, item: QueuedItem, attempt: AttemptId) {
    && PassStep(before, after, item.id)
    && Below(after, attempt + 1)
    && Resolved(w, after, item)
    && Dispatched(w, before, after, item, attempt)
  }

  /** A dispatch takes at most one slot, and only of a source that had one to spare. */
  lemma DispatchKeepsRoom(w: World, before: Db, after: Db, item: QueuedItem, attempt: AttemptId, source: string)
    requires Dispatched(w, before, after, item, attempt) && Roomy(w, before, source)
    requires source in w.config.sources ==> w.config.sources[source].Fits() && w.config.sources[source].id == source
    ensures Roomy(w, after, source)
  {
    if source in w.config.sources && after.attempts != before.attempts {
      if after.attempts[attempt].source == source {
        assert SourceOpen(w, before, source);
        OpenMeansRoomForOneMore(w.config.sources[source], w.observations, ActiveForSource(before, source), w.now);
      }
      assert HeldBy(after, source) <= HeldBy(before, source)
          + (if after.attempts[attempt].source == source then {attempt} else {});
      SubsetSize(HeldBy(after, source),
          HeldBy(before, source) + (if after.attempts[attempt].source == source then {attempt} else {}));
    }
  }

  lemma OverdueVisit(w: World, db: Db, item: QueuedItem, attempt: AttemptId)
    requires Current(db, item) && Below(db, attempt) && Overdue(item, w.now)
    ensures VisitOutcome(w, db, Expire(db, item.id, w.now).db, item, attempt)
  {
  }

  lemma BlockedVisit(db: Db, item: QueuedItem, attempt: AttemptId, code: BlockerCode)
    requires Current(db, item) && Below(db, attempt)
    ensures var after := SetBlocker(db, item.id, Blocker(code, None)).db;
      && PassStep(db, after, item.id) && Below(after, attempt + 1)
      && after.attempts == db.attempts
      && after.subs[item.id].frozen == item.frozen && Shows(after.subs[item.id], code)
  {
  }

  lemma ClosedVisit(w: World, db: Db, item: QueuedItem, attempt: AttemptId)
    requires Current(db, item) && Below(db, attempt) && !Overdue(item, w.now) && !TooEarly(item, w.now)
    requires !AnyOpen(w, db, RoutesOf(item))
    ensures VisitOutcome(w, db, SetBlocker(db, item.id, Blocker(ClosedCode(w, RoutesOf(item)), None)).db, item, attempt)
  {
    var code := ClosedCode(w, RoutesOf(item));
    BlockedVisit(db, item, attempt, code);
    ClosedStaysClosed(w, db, SetBlocker(db, item.id, Blocker(code, None)).db, item.id, RoutesOf(item));
  }

  lemma BusyVisit(w: World, db: Db, item: QueuedItem, attempt: AttemptId)
    requires Current(db, item) && Below(db, attempt) && !Overdue(item, w.now) && !TooEarly(item, w.now)
    requires Busy(db, item.id)
    ensures VisitOutcome(w, db, SetBlocker(db, item.id, Blocker(BusyWorkspace, None)).db, item, attempt)
  {
    BlockedVisit(db, item, attempt, BusyWorkspace);
    BusyStays(db, SetBlocker(db, item.id, Blocker(BusyWorkspace, None)).db, item.id, item.id);
  }

  lemma ClaimedVisit(w: World, db: Db, item: QueuedItem, attempt: AttemptId, route: string, source: string)
    requires Current(db, item) && Below(db, attempt) && !Overdue(item, w.now) && !TooEarly(item, w.now)
    requires FirstOpen(w, db, RoutesOf(item), route, source)
    ensures var out := Claim(db, ClaimSpec(item.id, attempt, source), 1);
      && (out.reply.Ok? ==> VisitOutcome(w, db, out.db, item, attempt))
      && (out.reply.Err? ==> Busy(db, item.id) && out.db == db)
  {
    var out := Claim(db, ClaimSpec(item.id, attempt, source), 1);
    if out.reply.Ok? { MovedVisit(w, db, out.db, item, attempt, route, source); }
  }

  lemma MovedVisit(w: World, db: Db, after: Db, item: QueuedItem, attempt: AttemptId, route: string, source: string)
    requires Current(db, item) && Below(db, attempt) && !Overdue(item, w.now) && !TooEarly(item, w.now)
    requires FirstOpen(w, db, RoutesOf(item), route, source)
    requires item.id in after.subs && after.subs == db.subs[item.id := after.subs[item.id]]
    requires after.subs[item.id].frozen == item.frozen && after.subs[item.id].state.Running?
    requires attempt in after.attempts && after.attempts == db.attempts[attempt := after.attempts[attempt]]
    requires var t := after.attempts[attempt]; t.submission == item.id && t.state.Starting? && t.source == source
    ensures VisitOutcome(w, db, after, item, attempt)
  {
    assert attempt !in db.attempts;
    assert InPool(RoutesOf(item), source);
  }

  /**
    Decides one submission. `attempt` is fresh. The error paths of the service, a vanished or no
    longer queued row, need a concurrent writer.
  */
  method Visit(w: World, store: Store, item: QueuedItem, attempt: AttemptId)
    requires store.Valid() && Below(store.Tables(), attempt) && Current(store.Tables(), item)
    modifies store
    ensures store.Valid() && VisitOutcome(w, old(store.Tables()), store.Tables(), item, attempt)
  {
    ghost var db := store.Tables();
    if Overdue(item, w.now) {
      OverdueVisit(w, db, item, attempt);
      var _ := store.Expire(item.id, w.now);
      return;
    }
    if TooEarly(item, w.now) {
      BlockedVisit(db, item, attempt, NotBefore);
      store.SetBlocker(item.id, Blocker(NotBefore, None));
      return;
    }
    var decision := SelectDispatch(w, store, RoutesOf(item));
    if decision.Blocked? {
      ClosedVisit(w, db, item, attempt);
      store.SetBlocker(item.id, Blocker(decision.code, None));
      return;
    }
    ClaimedVisit(w, db, item, attempt, decision.route, decision.source);
    var claimed := store.Claim(ClaimSpec(item.id, attempt, decision.source));
    if claimed.Err? {
      BusyVisit(w, db, item, attempt);
      store.SetBlocker(item.id, Blocker(BusyWorkspace, None));
    }
  }

  lemma BusyStays(before: Db, after: Db, touched: SubmissionId, id: SubmissionId)
    requires PassStep(before, after, touched) && id in before.subs && Busy(before, id)
    ensures Busy(after, id)
  {
    var other :| other in before.subs && other != id && Locks(before, other)
                 && Shares(before.subs[id].frozen, before.subs[other].frozen);
    assert Locks(after, other);
  }

  /** After `i` visits: those are resolved, the later ones and everything not queued are as before. */
  ghost predicate Visited(w: World, before: Db, db: Db, order: seq<QueuedItem>, i: nat) {
    && i <= |order|
    && db.subs.Keys == before.subs.Keys
    && (forall j :: 0 <= j < i ==> Resolved(w, db, order[j]))
    && (forall j :: i <= j < |order| ==> order[j].id in db.subs && db.subs[order[j].id] == before.subs[order[j].id])
    && (forall id :: id in before.subs && !before.subs[id].state.Queued? ==> db.subs[id] == before.subs[id])
  }

  /** No source that had room for what it holds has lost it. */
  ghost predicate RoomKept(w: World, before: Db, db: Db) {
    forall source {:trigger ActiveForSource(db, source)} :: Roomy(w, before, source) ==> Roomy(w, db, source)
  }

  /** Facts `Config::validate` establishes. */
  predicate ValidConfig(config: Config) {
    forall id :: id in config.sources ==> config.sources[id].Fits() && config.sources[id].id == id
  }

  lemma VisitedStep(w: World, before: Db, here: Db, after: Db, order: seq<QueuedItem>, i: nat, attempt: AttemptId)
    requires Lists(before, order) && i < |order| && Visited(w, before, here, order, i)
    requires VisitOutcome(w, here, after, order[i], attempt)
    ensures Visited(w, before, after, order, i + 1)
  {
    forall j | 0 <= j < i + 1 ensures Resolved(w, after, order[j]) {
      if j < i { ResolvedIsStable(w, here, after, order[i].id, order[j]); }
    }
  }

  /** What a pass achieves for a submission that was queued when it began; `item` is its old row. */
  ghost predicate PassResult(w: World, db: Db, item: QueuedItem) {
    && Resolved(w, db, item)
    && (!Overdue(item, w.now) && !TooEarly(item, w.now) && db.subs[item.id].state.Queued? ==>
          !(AnyOpen(w, db, RoutesOf(item)) && !Busy(db, item.id)))
  }

  /**
    One whole pass with nothing interleaved. Attempt identifiers are taken from `base` on, above every
    existing one. It fails exactly when some queued row has no snapshots. Otherwise it is maximal:
    a submission that was time-eligible is not left queued with both an open source and a free
    workspace, a blocked one names the reason, rows that were not queued stay as they were, and no
    source is taken beyond its limit less its reserve.
  */
  method Pass(w: World, store: Store, base: AttemptId) returns (r: Result<(), StoreError>)
    requires store.Valid() && Below(store.Tables(), base) && ValidConfig(w.config)
    modifies store
    ensures store.Valid()
    ensures r.Ok? <==> AllFrozen(old(store.Tables()))
    ensures r.Err? ==> store.Tables() == old(store.Tables())
    ensures store.submissions.Keys == old(store.submissions.Keys)
    ensures r.Ok? ==> forall id :: id in old(store.submissions) ==>
              if old(store.submissions)[id].state.Queued?
                  then PassResult(w, store.Tables(), ItemOf(old(store.Tables()), id))
              else store.submissions[id] == old(store.submissions)[id]
    ensures RoomKept(w, old(store.Tables()), store.Tables())
    ensures AttemptsInOrder(w, old(store.Tables()), store.Tables(), base)
  {
    ghost var before := store.Tables();
    var queued := store.ListQueued();
    if queued.Err? { return Err(queued.error); }
    var order := PassOrder(queued.value, w.now);
    OrderHasQueue(before, queued.value, w.now);
    VisitAll(w, store, order, base);
    AllVisited(w, before, store.Tables(), order);
    NumberedInOrder(w, before, store.Tables(), queued.value, base);
    return Ok(());
  }

  lemma RoomStep(w: World, before: Db, here: Db, after: Db, item: QueuedItem, attempt: AttemptId)
    requires ValidConfig(w.config) && RoomKept(w, before, here) && Dispatched(w, here, after, item, attempt)
    ensures RoomKept(w, before, after)
  {
    forall source | Roomy(w, before, source) ensures Roomy(w, after, source) {
      assert Roomy(w, here, source);
      DispatchKeepsRoom(w, here, after, item, attempt, source);
    }
  }

  predicate MadeInTurn(db: Db, order: seq<QueuedItem>, base: AttemptId, i: nat, a: AttemptId) {
    a in db.attempts && a >= base ==> a - base < i <= |order| && db.attempts[a].submission == order[a - base].id
  }

  /** Each attempt from `base` on was made for the submission at its place in the order. */
  ghost predicate Numbered(db: Db, order: seq<QueuedItem>, base: AttemptId, i: nat) {
    forall a: AttemptId {:trigger MadeInTurn(db, order, base, i, a)} :: MadeInTurn(db, order, base, i, a)
  }

  /** Of two attempts of a pass the earlier one went to the submission that was to be served before. */
  ghost predicate AttemptsInOrder(w: World, before: Db, db: Db, base: AttemptId) {
    forall a, b :: a in db.attempts && b in db.attempts && base <= a < b ==>
      var x, y := db.attempts[a].submission, db.attempts[b].submission;
      x in before.subs && y in before.subs && ServedBefore(ItemOf(before, x), ItemOf(before, y), w.now)
  }

  lemma NumberedInOrder(w: World, before: Db, db: Db, queue: seq<QueuedItem>, base: AttemptId)
    requires IsQueue(before, queue) && Numbered(db, PassOrder(queue, w.now), base, |PassOrder(queue, w.now)|)
    ensures AttemptsInOrder(w, before, db, base)
  {
    OrderHasQueue(before, queue, w.now);
    forall a, b | a in db.attempts && b in db.attempts && base <= a < b
      ensures var x, y := db.attempts[a].submission, db.attempts[b].submission;
        x in before.subs && y in before.subs && ServedBefore(ItemOf(before, x), ItemOf(before, y), w.now)
    {
      var order := PassOrder(queue, w.now);
      assert MadeInTurn(db, order, base, |order|, a) && MadeInTurn(db, order, base, |order|, b);
      OrderServes(before, queue, w.now, a - base, b - base);
    }
  }

  lemma NumberedStep(w: World, here: Db, db: Db, order: seq<QueuedItem>, base: AttemptId, i: nat, next: AttemptId)
    requires i < |order| && next == base + i
    requires Numbered(here, order, base, i) && Dispatched(w, here, db, order[i], next)
    ensures Numbered(db, order, base, i + 1)
  {
    var n := i + 1;
    forall a: AttemptId ensures MadeInTurn(db, order, base, n, a) {
      assert MadeInTurn(here, order, base, i, a);
    }
  }

  /**
    The state of a pass over `order` that began in `before`, after `i` visits: its attempts are numbered
    from `base` on in the order of the visits.
  */
  ghost predicate Underway(w: World, before: Db, db: Db, order: seq<QueuedItem>, i: nat, base: AttemptId) {
    Visited(w, before, db, order, i) && Below(db, base + i) && RoomKept(w, before, db) && Numbered(db, order, base, i)
  }

  lemma PassBegins(w: World, db: Db, order: seq<QueuedItem>, base: AttemptId)
    requires Lists(db, order) && Below(db, base)
    ensures Underway(w, db, db, order, 0, base)
  {
  }

  lemma PassGoesOn(w: World, before: Db, here: Db, db: Db, order: seq<QueuedItem>, i: nat, base: AttemptId,
                   next: AttemptId)
    requires ValidConfig(w.config) && Lists(before, order) && i < |order| && next == base + i
    requires Underway(w, before, here, order, i, base) && VisitOutcome(w, here, db, order[i], next)
    ensures Underway(w, before, db, order, i + 1, base)
  {
    VisitedStep(w, before, here, db, order, i, next);
    RoomStep(w, before, here, db, order[i], next);
    NumberedStep(w, here, db, order, base, i, next);
  }

  method VisitNext(w: World, store: Store, order: seq<QueuedItem>, i: nat, next: AttemptId,
                   ghost base: AttemptId, ghost before: Db)
    requires store.Valid() && ValidConfig(w.config) && Lists(before, order) && i < |order| && next == base + i
    requires Underway(w, before, store.Tables(), order, i, base)
    modifies store
    ensures store.Valid() && Underway(w, before, store.Tables(), order, i + 1, base)
  {
    ghost var here := store.Tables();
    NextItem(w, before, here, order, i);
    Visit(w, store, order[i], next);
    PassGoesOn(w, before, here, store.Tables(), order, i, base, next);
  }

  method VisitAll(w: World, store: Store, order: seq<QueuedItem>, base: AttemptId)
    requires store.Valid() && Below(store.Tables(), base) && ValidConfig(w.config)
    requires Lists(store.Tables(), order)
    modifies store
    ensures store.Valid() && Underway(w, old(store.Tables()), store.Tables(), order, |order|, base)
  {
    ghost var before := store.Tables();
    PassBegins(w, before, order, base);
    for i := 0 to |order|
      invariant store.Valid() && Underway(w, before, store.Tables(), order, i, base)
    {
      VisitNext(w, store, order, i, base + i, base, before);
    }
  }

  lemma NextItem(w: World, before: Db, here: Db, order: seq<QueuedItem>, i: nat)
    requires Lists(before, order) && i < |order| && Visited(w, before, here, order, i)
    ensures Current(here, order[i])
  {
  }

  lemma AllVisited(w: World, before: Db, db: Db, order: seq<QueuedItem>)
    requires Lists(before, order) && Visited(w, before, db, order, |order|)
    ensures forall id :: id in before.subs && before.subs[id].state.Queued? ==> PassResult(w, db, ItemOf(before, id))
  {
    forall id | id in before.subs && before.subs[id].state.Queued? ensures PassResult(w, db, ItemOf(before, id)) {
      var i :| 0 <= i < |order| && order[i].id == id;
      assert Resolved(w, db, order[i]);
    }
  }
}
