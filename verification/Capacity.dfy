/** Source capacity: probe observations, their freshness, and how many attempts may still start. */
module Capacity {
  import opened Prelude
  import opened Protocol

  const NANOS_PER_SECOND := 1_000_000_000
  const U32_MAX := 0xFFFF_FFFF

  datatype Health = Healthy | Unavailable

  datatype UsageKind = TotalInUse | ExternalInUse

  datatype Usage = Usage(kind: UsageKind, count: nat)

  datatype Probe = Probe(health: Health, usage: Option<Usage>)

  datatype Monitor = Static | Command(intervalSeconds: nat, maxAgeSeconds: nat)

  datatype Source = Source(id: string, limit: nat, reserve: nat, monitor: Monitor) {
    /** The unsigned 32-bit fields of the configuration. */
    predicate Fits() {
      limit <= U32_MAX && reserve <= limit
    }
  }

  /** `nextPoll` is a reading of the monotonic clock, in seconds. */
  datatype Observation = Observation(probe: Probe, receivedAt: Time, nextPoll: int)

  function Truncated(n: int, unit: int): int
    requires unit > 0
  {
    if n >= 0 then n / unit else -((-n) / unit)
  }

  function SaturatingSub(x: nat, y: nat): nat {
    if x < y then 0 else x - y
  }

  function SaturatingAdd32(x: nat, y: nat): nat {
    if x + y > U32_MAX then U32_MAX else x + y
  }

  function Max(x: nat, y: nat): nat {
    if x < y then y else x
  }

  predicate Stale(source: Source, o: Observation, now: Time) {
    source.monitor.Command? &&
    (source.monitor.maxAgeSeconds > I64_MAX
     || Truncated(now - o.receivedAt, NANOS_PER_SECOND) > source.monitor.maxAgeSeconds)
  }

  function Used(o: Observation, active: nat): nat {
    if o.probe.usage.None? then active
    else if o.probe.usage.value.kind.TotalInUse? then Max(active, o.probe.usage.value.count)
    else SaturatingAdd32(active, o.probe.usage.value.count)
  }

  /** None means unknown; a source that is not healthy has nothing available, even when stale. */
  function Available(source: Source, observations: map<string, Observation>, active: nat, now: Time): Option<nat> {
    if source.id !in observations then None
    else
      var o := observations[source.id];
      if !o.probe.health.Healthy? then Some(0)
      else if Stale(source, o, now) then None
      else Some(SaturatingSub(SaturatingSub(source.limit, Used(o, active)), source.reserve))
  }

  predicate Open(source: Source, observations: map<string, Observation>, active: nat, now: Time) {
    var a := Available(source, observations, active, now);
    a.Some? && a.value > 0
  }

  /** The load the documentation counts against the limit, without any machine arithmetic. */
  function ObservedLoad(o: Observation, active: nat): nat {
    match o.probe.usage
    case None => active
    case Some(Usage(TotalInUse, n)) => if n > active then n else active
    case Some(Usage(ExternalInUse, n)) => active + n
  }

  /**
    A source is open exactly when its healthy and fresh observation leaves room, beside everything
    already in use, for one more attempt outside the safety reserve. Saturation never matters.
  */
  lemma OpenMeansRoomForOneMore(source: Source, observations: map<string, Observation>, active: nat, now: Time)
    requires source.Fits()
    ensures Open(source, observations, active, now) <==>
              && source.id in observations
              && observations[source.id].probe.health.Healthy?
              && !Stale(source, observations[source.id], now)
              && ObservedLoad(observations[source.id], active) + 1 + source.reserve <= source.limit
    ensures Open(source, observations, active, now) ==> active + 1 + source.reserve <= source.limit
  {
    if source.id in observations {
      var o := observations[source.id];
      assert Used(o, active) == ObservedLoad(o, active) || (Used(o, active) == U32_MAX < ObservedLoad(o, active));
    }
  }

  /** The exact room: what the limit leaves beside the load and the reserve, or nothing. */
  lemma AvailableIs(source: Source, observations: map<string, Observation>, active: nat, now: Time)
    requires source.Fits()
    ensures var available := Available(source, observations, active, now);
      if source.id !in observations then available == None
      else
        var o := observations[source.id];
        if o.probe.health.Unavailable? then available == Some(0)
        else if Stale(source, o, now) then available == None
        else
          && available.Some?
          && var room := source.limit - ObservedLoad(o, active) - source.reserve;
          && available.value == if room < 0 then 0 else room
  {
  }

  /** An answer grows stale after its maximal age in whole seconds; one too long for the clock is never fresh. */
  lemma StaleIff(source: Source, o: Observation, now: Time)
    ensures Stale(source, o, now) <==>
              && source.monitor.Command?
              && (|| source.monitor.maxAgeSeconds > 9_223_372_036_854_775_807
                  || now - o.receivedAt >= (source.monitor.maxAgeSeconds + 1) * 1_000_000_000)
  {
  }

  /** More attempts never open a closed source, and whether the capacity is known does not depend on them. */
  lemma OpenIsAntitone(source: Source, observations: map<string, Observation>, less: nat, more: nat, now: Time)
    requires less <= more
    ensures Open(source, observations, more, now) ==> Open(source, observations, less, now)
    ensures Available(source, observations, more, now).None? <==> Available(source, observations, less, now).None?
  {
  }

  predicate DistinctIds(sources: seq<Source>) {
    forall i, j :: 0 <= i < j < |sources| ==> sources[i].id != sources[j].id
  }

  function Ids(sources: seq<Source>): set<string> {
    set i | 0 <= i < |sources| :: sources[i].id
  }

  predicate StaticId(sources: seq<Source>, id: string) {
    exists i :: 0 <= i < |sources| && sources[i].id == id && sources[i].monitor.Static?
  }

  /** What one refresh leaves in the table for `source`; a failed probe closes the source. */
  function Refreshed(source: Source, previous: map<string, Observation>, probes: map<string, Probe>, now: Time,
                     tick: int): Option<Observation> {
    var had := if source.id in previous then Some(previous[source.id]) else None;
    if source.monitor.Static? || (had.Some? && had.value.nextPoll > tick) then had
    else if source.id in probes then Some(Observation(probes[source.id], now, tick + source.monitor.intervalSeconds))
    else Some(Observation(Probe(Unavailable, None), now, tick + source.monitor.intervalSeconds))
  }

  class CapacityManager {
    const sources: seq<Source>
    var observations: map<string, Observation>

    constructor (sources: seq<Source>)
      requires DistinctIds(sources)
      ensures this.sources == sources && observations == map[]
    {
      this.sources := sources;
      observations := map[];
    }

    /** Static sources are healthy without any usage of their own for ever after. */
    method Initialize(now: Time, tick: int)
      requires DistinctIds(sources)
      modifies this
      ensures forall i :: 0 <= i < |sources| && sources[i].monitor.Static? ==>
                sources[i].id in observations
                && observations[sources[i].id] == Observation(Probe(Healthy, None), now, tick + 86_400)
      ensures forall id :: id in old(observations) && !StaticId(sources, id) ==>
                id in observations && observations[id] == old(observations)[id]
    {
      for i := 0 to |sources|
        invariant forall j :: 0 <= j < i && sources[j].monitor.Static? ==>
                    sources[j].id in observations
                    && observations[sources[j].id] == Observation(Probe(Healthy, None), now, tick + 86_400)
        invariant forall id :: id in old(observations) && !StaticId(sources, id) ==>
                    id in observations && observations[id] == old(observations)[id]
      {
        if sources[i].monitor.Static? {
          observations := observations[sources[i].id := Observation(Probe(Healthy, None), now, tick + 86_400)];
        }
      }
    }

    /** The source was never observed, or its next poll has come. */
    predicate Due(source: Source, tick: int)
      reads this
    {
      source.monitor.Command? && (source.id in observations ==> observations[source.id].nextPoll <= tick)
    }

    /** `probes` holds the answers of the probe commands that succeeded. */
    method RefreshDue(probes: map<string, Probe>, now: Time, tick: int)
      requires DistinctIds(sources)
      modifies this
      ensures forall i :: 0 <= i < |sources| ==>
                Refreshed(sources[i], old(observations), probes, now, tick)
                == (if sources[i].id in observations then Some(observations[sources[i].id]) else None)
      ensures forall i :: 0 <= i < |sources| && old(Due(sources[i], tick)) ==>
                && sources[i].id in observations
                && var o := observations[sources[i].id];
                && o.receivedAt == now && o.nextPoll == tick + sources[i].monitor.intervalSeconds
                && o.probe == if sources[i].id in probes then probes[sources[i].id] else Probe(Unavailable, None)
      ensures forall i :: 0 <= i < |sources| && !old(Due(sources[i], tick)) ==>
                && (sources[i].id in observations <==> sources[i].id in old(observations))
                && (sources[i].id in observations ==> observations[sources[i].id] == old(observations)[sources[i].id])
      ensures forall id :: id !in Ids(sources) ==>
                && (id in observations <==> id in old(observations))
                && (id in observations ==> observations[id] == old(observations)[id])
    {
      ghost var before := observations;
      for i := 0 to |sources|
        invariant forall j :: 0 <= j < i ==>
                    Refreshed(sources[j], before, probes, now, tick)
                    == (if sources[j].id in observations then Some(observations[sources[j].id]) else None)
        invariant forall j :: i <= j < |sources| ==>
                    (sources[j].id in observations <==> sources[j].id in before)
                    && (sources[j].id in before ==> observations[sources[j].id] == before[sources[j].id])
        invariant forall id :: id !in Ids(sources) ==>
                    && (id in observations <==> id in before)
                    && (id in observations ==> observations[id] == before[id])
      {
        var source := sources[i];
        assert source.id in Ids(sources);
        if source.monitor.Command? {
          var due := source.id !in observations || observations[source.id].nextPoll <= tick;
          if due {
            var next := tick + source.monitor.intervalSeconds;
            if source.id in probes {
              observations := observations[source.id := Observation(probes[source.id], now, next)];
            } else {
              observations := observations[source.id := Observation(Probe(Unavailable, None), now, next)];
            }
          }
        }
      }
    }
  }

  /**
    A probe's answer leaves its source open exactly while it is fresh, if it was healthy and the usage it
    reported, together with the running attempts, leaves room for one more beside the reserve.
  */
  lemma AnswerOpensIff(source: Source, p: Probe, receivedAt: Time, nextPoll: int,
                       observations: map<string, Observation>, active: nat, later: Time)
    requires source.Fits() && source.monitor.Command? && source.monitor.maxAgeSeconds <= 9_223_372_036_854_775_807
    requires source.id in observations && observations[source.id] == Observation(p, receivedAt, nextPoll)
    ensures var load := match p.usage
                        case None => active
                        case Some(Usage(TotalInUse, n)) => if n > active then n else active
                        case Some(Usage(ExternalInUse, n)) => active + n;
      Open(source, observations, active, later) <==>
        && p.health == Healthy
        && later - receivedAt < (source.monitor.maxAgeSeconds + 1) * 1_000_000_000
        && load + 1 + source.reserve <= source.limit
  {
    StaleIff(source, observations[source.id], later);
    OpenMeansRoomForOneMore(source, observations, active, later);
  }

  /** After a refresh a due source whose probe failed is closed whatever else is running. */
  lemma FailedProbeCloses(source: Source, previous: map<string, Observation>, probes: map<string, Probe>,
                          after: map<string, Observation>, now: Time, later: Time, tick: int, active: nat)
    requires source.monitor.Command? && source.id !in probes
    requires source.id in previous ==> previous[source.id].nextPoll <= tick
    requires source.id in after && Refreshed(source, previous, probes, now, tick) == Some(after[source.id])
    ensures Available(source, after, active, later) == Some(0)
  {
  }
}
