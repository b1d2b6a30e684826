/**
  The historical seeder: one deterministic sequence of events, written in batches, with every way out
  of the run accounted for.
 */
module Seeder {
  import opened Wrappers
  import opened EventStore
  import opened BatchIngest
  import opened Store
  import opened Words
  import LoadShape

  const NANOS_PER_SECOND := 1_000_000_000
  const NANOS_PER_HOUR := 3_600_000_000_000
  const DEFAULT_BATCH_SIZE := 8000

  type Unit = r: real | 0.0 <= r < 1.0 witness 0.0

  datatype SeedItem = SeedItem(id: int, name: string)

  /** The random numbers one event consumes: its offset in the hour, its item, its type. */
  datatype Draw = Draw(offset: Unit, item: nat, kind: Unit)

  datatype Config = Config(days: int, refTime: int, batchSize: int)

  /** Everything that determines the generated events; `rate` stands for the load shape at this run's reference and scale. */
  datatype Plan = Plan(windowStart: int, items: seq<SeedItem>, rate: real -> real, rng: nat -> Draw)

  // ------------------------------------------------------------------ the generated sequence

  function WindowEnd(refTime: int): int {
    refTime / NANOS_PER_HOUR * NANOS_PER_HOUR
  }

  /** The Duration from the window's end back to its start, in int64 nanoseconds: each product wraps. */
  function WindowOffset(days: int): (d: int)
    ensures IsInt64(d)
  {
    Wrap(Wrap(Wrap(-days) * 24) * NANOS_PER_HOUR)
  }

  function PlanOf(cfg: Config, items: seq<SeedItem>, rate: real -> real, rng: nat -> Draw): Plan {
    Plan(WindowEnd(cfg.refTime) + WindowOffset(cfg.days), items, rate, rng)
  }

  /** Time.Sub saturates. */
  function Elapsed(offset: int): int {
    if -offset >= TWO_63 then TWO_63 - 1 else -offset
  }

  /** int(d.Hours()): truncated toward zero. */
  function WholeHours(d: int): int {
    if d >= 0 then d / NANOS_PER_HOUR else -((-d) / NANOS_PER_HOUR)
  }

  /** How many hours the run loops over; a negative count is none. */
  function TotalHours(days: int): nat {
    var hours := WholeHours(Elapsed(WindowOffset(days)));
    if hours > 0 then hours else 0
  }

  /** The most days whose nanoseconds fit in an int64. */
  const MAX_DAYS := 106_751

  const NANOS_PER_DAY := 86_400_000_000_000

  lemma OffsetIsOneWrap(days: int)
    ensures WindowOffset(days) == Wrap(-days * NANOS_PER_DAY)
  {
    var back := -days;
    WrapOfProduct(back, 24);
    WrapOfProduct(back * 24, NANOS_PER_HOUR);
    assert back * 24 * NANOS_PER_HOUR == back * NANOS_PER_DAY;
  }

  /** A day count that fits is not wrapped. */
  lemma FittingDays(days: int)
    requires 0 < days <= MAX_DAYS
    ensures WindowOffset(days) == -days * NANOS_PER_DAY
    ensures TotalHours(days) == days * 24
  {
    OffsetIsOneWrap(days);
    assert IsInt64(-days * NANOS_PER_DAY);
    assert days * NANOS_PER_DAY == days * 24 * NANOS_PER_HOUR;
  }

  lemma HoursAreBounded(offset: int)
    requires IsInt64(offset)
    ensures WholeHours(Elapsed(offset)) <= 2_562_047
  {
  }

  /** The window is the requested number of days, in whole UTC hours, exactly up to 106751 days. */
  lemma WindowIsTheRequestedOne(cfg: Config, items: seq<SeedItem>, rate: real -> real, rng: nat -> Draw)
    requires cfg.days > 0
    ensures TotalHours(cfg.days) == cfg.days * 24 <==> cfg.days <= MAX_DAYS
    ensures cfg.days <= MAX_DAYS ==>
              PlanOf(cfg, items, rate, rng).windowStart == (cfg.refTime / NANOS_PER_HOUR - cfg.days * 24) * NANOS_PER_HOUR
  {
    if cfg.days <= MAX_DAYS {
      FittingDays(cfg.days);
    } else {
      HoursAreBounded(WindowOffset(cfg.days));
    }
  }

  /** One day more: the window starts in the future and nothing is generated. */
  lemma OneDayTooMany()
    ensures WindowOffset(MAX_DAYS + 1) > 0 && TotalHours(MAX_DAYS + 1) == 0
  {
    OffsetIsOneWrap(MAX_DAYS + 1);
  }

  function HourStart(p: Plan, h: int): int {
    p.windowStart + h * NANOS_PER_HOUR
  }

  /** The Unix second of the hour's midpoint. */
  function MidUnix(p: Plan, h: int): int {
    (HourStart(p, h) + NANOS_PER_HOUR / 2) / NANOS_PER_SECOND
  }

  /** math.Round: half goes away from zero. */
  function Round(x: real): int {
    if x >= 0.0 then (x + 0.5).Floor else -((-x + 0.5).Floor)
  }

  /** How often the hour's inner loop runs. */
  function HourCount(p: Plan, h: int): nat {
    var n := Round(p.rate(MidUnix(p, h) as real) * 3600.0);
    if n > 0 then n else 0
  }

  function DrawEventType(kind: Unit): string {
    if kind < 0.5 then "created" else "deleted"
  }

  /** A number below `bound` from an arbitrary one: those below it stand for themselves, others wrap around. */
  function IntN(draw: nat, bound: nat): (i: nat)
    requires bound > 0
    ensures i < bound
    ensures draw < bound ==> i == draw
  {
    if draw < bound then draw else IntN(draw - bound, bound)
  }

  /** The event made from the n-th draw, in hour h. */
  function EventAt(p: Plan, h: int, n: nat): EventRecord
    requires p.items != []
  {
    var d := p.rng(n);
    var item := p.items[IntN(d.item, |p.items|)];
    EventRecord(item.id, item.name, DrawEventType(d.kind),
                HourStart(p, h) + (d.offset * 3600.0 * NANOS_PER_SECOND as real).Floor)
  }

  /** The first k events of hour h, whose draws start at n. */
  function HourEvents(p: Plan, h: int, n: nat, k: nat): (s: seq<EventRecord>)
    requires p.items != []
    ensures |s| == k
  {
    if k == 0 then [] else HourEvents(p, h, n, k - 1) + [EventAt(p, h, n + k - 1)]
  }

  /** The events of the first `hours` hours, in generation order. */
  function Generated(p: Plan, hours: nat): seq<EventRecord>
    requires p.items != []
  {
    if hours == 0 then []
    else
      var before := Generated(p, hours - 1);
      before + HourEvents(p, hours - 1, |before|, HourCount(p, hours - 1))
  }

  ghost predicate InHour(p: Plan, h: int, e: EventRecord) {
    HourStart(p, h) <= e.eventTime < HourStart(p, h + 1)
  }

  /** Every event falls inside its hour, belongs to a real item, and is a creation or a deletion. */
  lemma EventStaysInItsHour(p: Plan, h: int, n: nat)
    requires p.items != []
    ensures InHour(p, h, EventAt(p, h, n))
    ensures SeedItem(EventAt(p, h, n).itemId, EventAt(p, h, n).itemName) in p.items
    ensures EventAt(p, h, n).eventType == "created" || EventAt(p, h, n).eventType == "deleted"
    ensures KnownType(EventAt(p, h, n).eventType)
  {
    var offset: real := p.rng(n).offset;
    var scaled := offset * 3600.0 * NANOS_PER_SECOND as real;
    assert 0.0 <= scaled < NANOS_PER_HOUR as real;
    assert 0 <= scaled.Floor < NANOS_PER_HOUR;
  }

  /** The nearest whole number, halves away from zero. */
  lemma RoundIsNearest(x: real)
    ensures x >= 0.0 ==> x - 0.5 < Round(x) as real <= x + 0.5
    ensures x <= 0.0 ==> x - 0.5 <= Round(x) as real < x + 0.5
  {
  }

  /** An hour holds the rate at its half hour times 3600, rounded; none for a rate that is not positive. */
  lemma HourCountFollowsTheRate(p: Plan, h: int, startUnix: int)
    requires p.windowStart == startUnix * 1_000_000_000
    ensures var x := p.rate((startUnix + 3600 * h + 1800) as real) * 3600.0;
            && (x >= 0.0 ==> x - 0.5 < HourCount(p, h) as real <= x + 0.5)
            && (x <= 0.0 ==> HourCount(p, h) == 0)
  {
    assert HourStart(p, h) + 1_800_000_000_000 == (startUnix + 3600 * h + 1800) * 1_000_000_000;
    assert MidUnix(p, h) == startUnix + 3600 * h + 1800;
    RoundIsNearest(p.rate((startUnix + 3600 * h + 1800) as real) * 3600.0);
  }

  /** What a draw decides: the item by its index, the type by the half of the unit interval, the time to the nanosecond. */
  lemma EventFollowsItsDraw(p: Plan, h: int, n: nat)
    requires p.items != []
    ensures var d, e := p.rng(n), EventAt(p, h, n);
            && (d.item < |p.items| ==> e.itemId == p.items[d.item].id && e.itemName == p.items[d.item].name)
            && e.eventType == (if d.kind < 0.5 then "created" else "deleted")
            && 0.0 <= d.offset * 3_600_000_000_000.0 - (e.eventTime - (p.windowStart + h * 3_600_000_000_000)) as real < 1.0
  {
    var offset: real := p.rng(n).offset;
    assert offset * 3600.0 * NANOS_PER_SECOND as real == offset * 3_600_000_000_000.0;
  }

  /** Every listed item can be drawn. */
  lemma EveryItemCanBeDrawn(p: Plan, h: int, n: nat, i: nat)
    requires i < |p.items|
    ensures var q := p.(rng := (m: nat) => if m == n then p.rng(n).(item := i) else p.rng(m));
            EventAt(q, h, n).itemId == p.items[i].id && EventAt(q, h, n).itemName == p.items[i].name
  {
    var q := p.(rng := (m: nat) => if m == n then p.rng(n).(item := i) else p.rng(m));
    EventFollowsItsDraw(q, h, n);
  }

  lemma {:induction false} HourEventAt(p: Plan, h: int, n: nat, k: nat, i: nat)
    requires p.items != [] && i < k
    ensures HourEvents(p, h, n, k)[i] == EventAt(p, h, n + i)
    decreases k
  {
    if i < k - 1 {
      HourEventAt(p, h, n, k - 1, i);
    }
  }

  /** How many events the first hours hold. */
  function EventsBefore(p: Plan, hours: nat): nat {
    if hours == 0 then 0 else EventsBefore(p, hours - 1) + HourCount(p, hours - 1)
  }

  lemma {:induction false} GeneratedLength(p: Plan, hours: nat)
    requires p.items != []
    ensures |Generated(p, hours)| == EventsBefore(p, hours)
    decreases hours
  {
    if hours > 0 {
      GeneratedLength(p, hours - 1);
    }
  }

  lemma PartOf<T>(whole: seq<T>, a: seq<T>, b: seq<T>, i: nat)
    requires whole == a + b && i < |whole|
    ensures whole[i] == if i < |a| then a[i] else b[i - |a|]
  {
  }

  /** The last hour's events follow those of the hours before. */
  lemma LastHour(p: Plan, h: nat, i: nat, whole: seq<EventRecord>, before: seq<EventRecord>)
    requires p.items != [] && whole == Generated(p, h + 1) && before == Generated(p, h) && i < |whole|
    ensures whole[i] == if i < |before| then before[i] else EventAt(p, h, i)
  {
    var last := HourEvents(p, h, |before|, HourCount(p, h));
    HourCompletes(p, h);
    PartOf(whole, before, last, i);
    if i >= |before| {
      HourEventAt(p, h, |before|, HourCount(p, h), i - |before|);
    }
  }

  /** The i-th generated event is made from the i-th draw, in the hour that the counts of the hours before it leave for it. */
  lemma {:induction false} GeneratedInOrder(p: Plan, hours: nat, i: nat) returns (h: nat)
    requires p.items != [] && i < EventsBefore(p, hours)
    ensures h < hours && EventsBefore(p, h) <= i < EventsBefore(p, h + 1)
    ensures |Generated(p, hours)| == EventsBefore(p, hours) && Generated(p, hours)[i] == EventAt(p, h, i)
    decreases hours
  {
    h := hours - 1;
    var whole, before := Generated(p, hours), Generated(p, h);
    GeneratedLength(p, hours);
    GeneratedLength(p, h);
    LastHour(p, h, i, whole, before);
    if i < EventsBefore(p, h) {
      h := GeneratedInOrder(p, h, i);
    }
  }

  ghost function CountInHour(p: Plan, s: seq<EventRecord>, h: int): nat {
    if s == [] then 0
    else CountInHour(p, s[..|s| - 1], h) + (if InHour(p, h, s[|s| - 1]) then 1 else 0)
  }

  lemma {:induction false} CountInHourConcat(p: Plan, a: seq<EventRecord>, b: seq<EventRecord>, h: int)
    ensures CountInHour(p, a + b, h) == CountInHour(p, a, h) + CountInHour(p, b, h)
    decreases |b|
  {
    if b == [] {
      assert a + b == a;
    } else {
      assert (a + b)[..|a + b| - 1] == a + b[..|b| - 1];
      CountInHourConcat(p, a, b[..|b| - 1], h);
    }
  }

  lemma HoursAreDisjoint(p: Plan, g: int, h: int, e: EventRecord)
    requires InHour(p, g, e) && InHour(p, h, e)
    ensures g == h
  {
  }

  lemma {:induction false} HourEventsCount(p: Plan, g: int, n: nat, k: nat, h: int)
    requires p.items != []
    ensures CountInHour(p, HourEvents(p, g, n, k), h) == if g == h then k else 0
    decreases k
  {
    if k > 0 {
      var s := HourEvents(p, g, n, k);
      assert s[..|s| - 1] == HourEvents(p, g, n, k - 1);
      HourEventsCount(p, g, n, k - 1, h);
      EventStaysInItsHour(p, g, n + k - 1);
      if g != h && InHour(p, h, EventAt(p, g, n + k - 1)) {
        HoursAreDisjoint(p, g, h, EventAt(p, g, n + k - 1));
      }
    }
  }

  /** Each hour of the window holds round(rate at its midpoint times 3600) events; no other hour holds any. */
  lemma {:induction false} EachHourHoldsItsCount(p: Plan, hours: nat, h: int)
    requires p.items != []
    ensures CountInHour(p, Generated(p, hours), h) == if 0 <= h < hours then HourCount(p, h) else 0
    decreases hours
  {
    if hours > 0 {
      var before := Generated(p, hours - 1);
      EachHourHoldsItsCount(p, hours - 1, h);
      CountInHourConcat(p, before, HourEvents(p, hours - 1, |before|, HourCount(p, hours - 1)), h);
      HourEventsCount(p, hours - 1, |before|, HourCount(p, hours - 1), h);
    }
  }

  /** An hour whose midpoint lies in the wall-clock window of a zero-multiplier outage is generated empty. */
  lemma OutageHoursAreEmpty(p: Plan, h: int, wave: real -> real, profile: LoadShape.Profile, i: nat, ref: real, scale: real)
    requires profile.Parsed() && scale > 0.0 && i < |profile.anomalies|
    requires p.rate(MidUnix(p, h) as real) == LoadShape.RateAt(wave, profile, MidUnix(p, h) as real, ref, scale)
    requires profile.anomalies[i].kind == "outage" && profile.anomalies[i].multiplier == 0.0
    requires LoadShape.InRealWindow(profile.anomalies[i], MidUnix(p, h) as real, ref, scale)
    ensures HourCount(p, h) == 0
  {
    LoadShape.OutageIsSilent(wave, profile, i, MidUnix(p, h) as real, ref, scale);
  }

  /** A window of at most 106751 days is whole UTC hours, so an hour's events are counted in the bucket of that hour. */
  lemma HourIsItsBucket(cfg: Config, items: seq<SeedItem>, rate: real -> real, rng: nat -> Draw, h: int, e: EventRecord)
    requires 0 < cfg.days <= MAX_DAYS && InHour(PlanOf(cfg, items, rate, rng), h, e)
    ensures Bucket(Stored(e).key).start == DbTime(HourStart(PlanOf(cfg, items, rate, rng), h))
  {
    var p := PlanOf(cfg, items, rate, rng);
    var whole := cfg.refTime / NANOS_PER_HOUR - cfg.days * 24 + h;
    WindowIsTheRequestedOne(cfg, items, rate, rng);
    assert HourStart(p, h) == whole * NANOS_PER_HOUR;
    HourBoundary(whole, e.eventTime);
  }

  lemma HourBoundary(whole: int, t: int)
    requires whole * NANOS_PER_HOUR <= t < (whole + 1) * NANOS_PER_HOUR
    ensures DbTime(t) / DB_TICKS_PER_HOUR == whole
    ensures DbTime(whole * NANOS_PER_HOUR) == whole * DB_TICKS_PER_HOUR
  {
  }

  lemma {:induction false} HourEventsKnown(p: Plan, h: int, n: nat, k: nat)
    requires p.items != []
    ensures AllKnown(HourEvents(p, h, n, k))
    decreases k
  {
    if k > 0 {
      HourEventsKnown(p, h, n, k - 1);
      EventStaysInItsHour(p, h, n + k - 1);
    }
  }

  lemma {:induction false} HourPrefix(p: Plan, h: int, n: nat, k: nat, m: nat)
    requires p.items != [] && k <= m
    ensures HourEvents(p, h, n, k) <= HourEvents(p, h, n, m)
    decreases m
  {
    if k < m {
      HourPrefix(p, h, n, k, m - 1);
    }
  }

  lemma {:induction false} GeneratedPrefix(p: Plan, h: nat, hours: nat)
    requires p.items != [] && h <= hours
    ensures Generated(p, h) <= Generated(p, hours)
    decreases hours
  {
    if h < hours {
      GeneratedPrefix(p, h, hours - 1);
    }
  }

  lemma PrefixUnder(a: seq<EventRecord>, b: seq<EventRecord>, c: seq<EventRecord>, whole: seq<EventRecord>)
    requires b <= c && a + c <= whole
    ensures a + b <= whole
  {
  }

  /** What is generated so far is a prefix of everything. */
  lemma GeneratedGrows(p: Plan, h: nat, hours: nat, k: nat)
    requires p.items != [] && h < hours && k <= HourCount(p, h)
    ensures Generated(p, h) + HourEvents(p, h, |Generated(p, h)|, k) <= Generated(p, hours)
  {
    var n := |Generated(p, h)|;
    GeneratedPrefix(p, h + 1, hours);
    HourPrefix(p, h, n, k, HourCount(p, h));
    PrefixUnder(Generated(p, h), HourEvents(p, h, n, k), HourEvents(p, h, n, HourCount(p, h)), Generated(p, hours));
  }

  lemma HourGrows(p: Plan, h: nat, k: nat)
    requires p.items != []
    ensures var before := Generated(p, h);
            before + HourEvents(p, h, |before|, k + 1)
            == before + HourEvents(p, h, |before|, k) + [EventAt(p, h, |before + HourEvents(p, h, |before|, k)|)]
  {
  }

  lemma HourCompletes(p: Plan, h: nat)
    requires p.items != []
    ensures Generated(p, h + 1) == Generated(p, h) + HourEvents(p, h, |Generated(p, h)|, HourCount(p, h))
  {
  }

  // ------------------------------------------------------------------ the run

  /**
    What the run cannot choose: whether the context is cancelled at the top of hour h, whether the
    k-th batch commits, whether its failure came from a cancellation, and whether the one flush on a
    detached context commits.
   */
  datatype Environment = Environment(
    cancelledAtHour: nat -> bool,
    commits: nat -> bool,
    cancelledAtFlush: nat -> bool,
    detachedCommits: bool)

  datatype Exit = Refused | Completed | Cancelled | Failed

  // ------------------------------------------------------------------ where a run stops

  /** The size of k full batches; the k-th call, counted from 0, is made if more than that is generated. */
  function Full(k: nat, batchSize: nat): nat {
    if k == 0 then 0 else Full(k - 1, batchSize) + batchSize
  }

  lemma {:induction false} FullIsTheProduct(k: nat, batchSize: nat)
    ensures Full(k, batchSize) == k * batchSize
    decreases k
  {
    if k > 0 {
      FullIsTheProduct(k - 1, batchSize);
    }
  }

  lemma FullOneMore(k: nat, batchSize: nat)
    ensures Full(k + 1, batchSize) == Full(k, batchSize) + batchSize
    ensures Full(0, batchSize) == 0
  {
  }

  lemma {:induction false} FullIsMonotone(a: nat, b: nat, batchSize: nat)
    requires a <= b
    ensures Full(a, batchSize) <= Full(b, batchSize)
    decreases b
  {
    if a < b {
      FullIsMonotone(a, b - 1, batchSize);
    }
  }

  /** No hour is cancelled and every call commits. */
  ghost predicate RunsThrough(env: Environment, p: Plan, total: nat, batchSize: nat)
    requires p.items != []
  {
    && (forall h: nat :: h < total ==> !env.cancelledAtHour(h))
    && (forall k: nat :: Full(k, batchSize) < |Generated(p, total)| ==> env.commits(k))
  }

  /** Hour h is the first cancelled one, and every call made before it commits. */
  ghost predicate StopsAtHour(env: Environment, p: Plan, total: nat, batchSize: nat, h: nat)
    requires p.items != []
  {
    && h < total && env.cancelledAtHour(h)
    && (forall g: nat :: g < h ==> !env.cancelledAtHour(g))
    && (forall k: nat :: Full(k + 1, batchSize) <= |Generated(p, h)| ==> env.commits(k))
  }

  /** Call k is made, is the first that does not commit, and no hour up to the one it falls in is cancelled. */
  ghost predicate StopsAtCall(env: Environment, p: Plan, total: nat, batchSize: nat, k: nat)
    requires p.items != []
  {
    && Full(k, batchSize) < |Generated(p, total)| && !env.commits(k)
    && (forall j: nat :: j < k ==> env.commits(j))
    && (forall g: nat :: g < total && |Generated(p, g)| < Full(k + 1, batchSize) ==> !env.cancelledAtHour(g))
  }

  datatype Stop = AtEnd | AtHour(h: nat) | AtCall(k: nat)

  ghost predicate StopsThere(env: Environment, p: Plan, total: nat, batchSize: nat, stop: Stop, exit: Exit)
    requires p.items != []
  {
    match stop
    case AtEnd => RunsThrough(env, p, total, batchSize) && exit == Completed
    case AtHour(h) => StopsAtHour(env, p, total, batchSize, h) && exit == Cancelled
    case AtCall(k) => StopsAtCall(env, p, total, batchSize, k) && exit == if env.cancelledAtFlush(k) then Cancelled else Failed
  }

  /** A run stops in one place only. */
  lemma OneStop(env: Environment, p: Plan, total: nat, batchSize: nat, a: Stop, b: Stop, x: Exit, y: Exit)
    requires p.items != []
    requires StopsThere(env, p, total, batchSize, a, x) && StopsThere(env, p, total, batchSize, b, y)
    ensures a == b && x == y
  {
    match (a, b)
    case (AtHour(h), AtCall(k)) => HourOrCall(env, p, total, batchSize, h, k);
    case (AtCall(k), AtHour(h)) => HourOrCall(env, p, total, batchSize, h, k);
    case _ =>
  }

  lemma HourOrCall(env: Environment, p: Plan, total: nat, batchSize: nat, h: nat, k: nat)
    requires p.items != []
    requires StopsAtHour(env, p, total, batchSize, h)
    ensures !StopsAtCall(env, p, total, batchSize, k)
  {
  }

  ghost predicate CompletesIff(env: Environment, p: Plan, total: nat, batchSize: nat, exit: Exit)
    requires p.items != []
  {
    && (exit == Completed <==> RunsThrough(env, p, total, batchSize))
    && (exit == Failed <==> exists k: nat :: StopsAtCall(env, p, total, batchSize, k) && !env.cancelledAtFlush(k))
    && (exit == Cancelled <==>
          || (exists h: nat :: StopsAtHour(env, p, total, batchSize, h))
          || (exists k: nat :: StopsAtCall(env, p, total, batchSize, k) && env.cancelledAtFlush(k)))
  }

  /** How a run ends, from what it meets: the three exits exclude each other. */
  lemma ExitIsDetermined(env: Environment, p: Plan, total: nat, batchSize: nat, stop: Stop, exit: Exit)
    requires p.items != [] && StopsThere(env, p, total, batchSize, stop, exit)
    ensures CompletesIff(env, p, total, batchSize, exit)
  {
    if RunsThrough(env, p, total, batchSize) {
      OneStop(env, p, total, batchSize, stop, AtEnd, exit, Completed);
    }
    forall k: nat | StopsAtCall(env, p, total, batchSize, k)
      ensures stop == AtCall(k)
    {
      OneStop(env, p, total, batchSize, stop, AtCall(k), exit, if env.cancelledAtFlush(k) then Cancelled else Failed);
    }
    forall h: nat | StopsAtHour(env, p, total, batchSize, h)
      ensures stop == AtHour(h)
    {
      OneStop(env, p, total, batchSize, stop, AtHour(h), exit, Cancelled);
    }
  }

  /** Between calls: every acknowledged batch is a full one, every call so far committed. */
  ghost predicate OnTrack(env: Environment, batchSize: nat, acked: seq<seq<EventRecord>>, pending: seq<EventRecord>,
                          generated: seq<EventRecord>, calls: nat) {
    && AllFull(acked, batchSize) && |acked| == calls && CommitsBefore(env, calls)
    && |generated| == Full(calls, batchSize) + |pending|
  }

  ghost predicate AllFull(acked: seq<seq<EventRecord>>, batchSize: nat) {
    forall i :: 0 <= i < |acked| ==> |acked[i]| == batchSize
  }

  ghost predicate CommitsBefore(env: Environment, calls: nat) {
    forall k: nat :: k < calls ==> env.commits(k)
  }

  ghost predicate NotCancelledBefore(env: Environment, h: nat) {
    forall g: nat :: g < h ==> !env.cancelledAtHour(g)
  }

  /** After the last call: only the last acknowledged batch may be short, and only if the detached flush or the final one sent it. */
  ghost predicate WoundUp(env: Environment, batchSize: nat, acked: seq<seq<EventRecord>>, calls: nat, exit: Exit) {
    && calls <= |acked| <= calls + 1 && AllFull(acked[..calls], batchSize)
    && (exit == Failed || (exit == Cancelled && !env.detachedCommits) ==> |acked| == calls)
  }

  lemma OnTrackWindsUp(env: Environment, batchSize: nat, acked: seq<seq<EventRecord>>, pending: seq<EventRecord>,
                       generated: seq<EventRecord>, calls: nat, acked': seq<seq<EventRecord>>, exit: Exit)
    requires OnTrack(env, batchSize, acked, pending, generated, calls)
    requires acked' == acked || (acked' == acked + [pending] && (exit == Completed || (exit == Cancelled && env.detachedCommits)))
    ensures WoundUp(env, batchSize, acked', calls, exit)
  {
    assert acked'[..calls] == acked;
  }

  lemma FullCallKeepsTrack(env: Environment, batchSize: nat, acked: seq<seq<EventRecord>>, pending: seq<EventRecord>,
                           generated: seq<EventRecord>, calls: nat)
    requires OnTrack(env, batchSize, acked, pending, generated, calls) && |pending| == batchSize && env.commits(calls)
    ensures OnTrack(env, batchSize, acked + [pending], [], generated, calls + 1)
  {
    FullOneMore(calls, batchSize);
  }

  lemma DrawKeepsTrack(env: Environment, batchSize: nat, acked: seq<seq<EventRecord>>, pending: seq<EventRecord>,
                       generated: seq<EventRecord>, calls: nat, e: EventRecord)
    requires OnTrack(env, batchSize, acked, pending, generated, calls)
    ensures OnTrack(env, batchSize, acked, pending + [e], generated + [e], calls)
  {
  }

  lemma GeneratedLonger(p: Plan, g: nat, h: nat)
    requires p.items != [] && g <= h
    ensures |Generated(p, g)| <= |Generated(p, h)|
  {
    GeneratedPrefix(p, g, h);
  }

  /** Stopping at the top of an hour. */
  lemma HourStop(env: Environment, p: Plan, total: nat, batchSize: nat, h: nat, acked: seq<seq<EventRecord>>,
                 pending: seq<EventRecord>, calls: nat)
    requires p.items != [] && h < total && env.cancelledAtHour(h) && NotCancelledBefore(env, h)
    requires OnTrack(env, batchSize, acked, pending, Generated(p, h), calls) && |pending| < batchSize
    ensures StopsAtHour(env, p, total, batchSize, h)
  {
    forall k: nat | Full(k + 1, batchSize) <= |Generated(p, h)|
      ensures env.commits(k)
    {
      FullOneMore(calls, batchSize);
      if k >= calls {
        FullIsMonotone(calls + 1, k + 1, batchSize);
      }
    }
  }

  /** Stopping at a full batch inside hour h. */
  lemma CallStop(env: Environment, p: Plan, total: nat, batchSize: nat, h: nat, calls: nat)
    requires p.items != [] && h < total && NotCancelledBefore(env, h + 1) && batchSize > 0
    requires CommitsBefore(env, calls) && !env.commits(calls) && Full(calls + 1, batchSize) <= |Generated(p, h + 1)|
    ensures StopsAtCall(env, p, total, batchSize, calls)
  {
    FullOneMore(calls, batchSize);
    GeneratedLonger(p, h + 1, total);
    forall g: nat | g < total && |Generated(p, g)| < Full(calls + 1, batchSize)
      ensures !env.cancelledAtHour(g)
    {
      if g > h {
        GeneratedLonger(p, h + 1, g);
      }
    }
  }

  /** The final flush. */
  lemma FinalStop(env: Environment, p: Plan, total: nat, batchSize: nat, acked: seq<seq<EventRecord>>,
                  pending: seq<EventRecord>, calls: nat)
    requires p.items != [] && NotCancelledBefore(env, total)
    requires OnTrack(env, batchSize, acked, pending, Generated(p, total), calls) && |pending| < batchSize
    ensures pending != [] && !env.commits(calls) ==> StopsAtCall(env, p, total, batchSize, calls)
    ensures pending == [] || env.commits(calls) ==> RunsThrough(env, p, total, batchSize)
  {
    if pending == [] || env.commits(calls) {
      forall k: nat | Full(k, batchSize) < |Generated(p, total)|
        ensures env.commits(k)
      {
        FullOneMore(calls, batchSize);
        if k > calls {
          FullIsMonotone(calls + 1, k, batchSize);
        } else if k == calls {
          assert pending != [];
        }
      }
    }
  }

  /**
    The books of a run that started from tables `t`: acknowledged batches followed by what is still
    pending are the events generated so far, the store holds those batches, and `written` adds up
    what they inserted.
   */
  ghost predicate Balanced(t: Tables, now: Tables, acked: seq<seq<EventRecord>>, pending: seq<EventRecord>,
                           generated: seq<EventRecord>, written: nat, batchSize: nat) {
    && Flatten(acked) + pending == generated
    && now == RunBatches(t, acked)
    && written == BatchInserts(t, acked)
    && AllKnown(pending)
    && forall i :: 0 <= i < |acked| ==> 0 < |acked[i]| <= batchSize
  }

  lemma AckKeepsBooks(t: Tables, now: Tables, acked: seq<seq<EventRecord>>, pending: seq<EventRecord>,
                      generated: seq<EventRecord>, written: nat, batchSize: nat)
    requires Balanced(t, now, acked, pending, generated, written, batchSize) && 0 < |pending| <= batchSize
    ensures Balanced(t, BatchTables(now, pending), acked + [pending], [], generated,
                     written + SerialInserts(now, StoredAll(pending)), batchSize)
  {
    AckTables(t, acked, pending);
    AckSequence(acked, pending);
    AckSizes(acked, pending, batchSize);
  }

  lemma AckSizes(acked: seq<seq<EventRecord>>, batch: seq<EventRecord>, batchSize: nat)
    requires forall i :: 0 <= i < |acked| ==> 0 < |acked[i]| <= batchSize
    requires 0 < |batch| <= batchSize
    ensures forall i :: 0 <= i < |acked + [batch]| ==> 0 < |(acked + [batch])[i]| <= batchSize
  {
  }

  lemma AckTables(t: Tables, acked: seq<seq<EventRecord>>, batch: seq<EventRecord>)
    ensures RunBatches(t, acked + [batch]) == BatchTables(RunBatches(t, acked), batch)
    ensures BatchInserts(t, acked + [batch]) == BatchInserts(t, acked) + SerialInserts(RunBatches(t, acked), StoredAll(batch))
  {
    assert (acked + [batch])[..|acked|] == acked;
    BucketsAfter(RunBatches(t, acked), StoredAll(batch));
  }

  lemma AckSequence(acked: seq<seq<EventRecord>>, batch: seq<EventRecord>)
    ensures Flatten(acked + [batch]) + [] == Flatten(acked) + batch
  {
    assert (acked + [batch])[..|acked|] == acked;
  }

  lemma DrawKeepsBooks(t: Tables, now: Tables, acked: seq<seq<EventRecord>>, pending: seq<EventRecord>,
                       generated: seq<EventRecord>, written: nat, batchSize: nat, e: EventRecord)
    requires Balanced(t, now, acked, pending, generated, written, batchSize) && KnownType(e.eventType)
    ensures Balanced(t, now, acked, pending + [e], generated + [e], written, batchSize)
  {
    assert Flatten(acked) + (pending + [e]) == (Flatten(acked) + pending) + [e];
  }

  /** The flush closure: one batch out of everything pending, or no call at all. */
  method Flush(store: AnalyticsStore, pending: seq<EventRecord>, written: nat, commits: bool,
               ghost t: Tables, ghost acked: seq<seq<EventRecord>>, ghost generated: seq<EventRecord>, ghost batchSize: nat)
    returns (ok: bool, pending': seq<EventRecord>, written': nat, ghost acked': seq<seq<EventRecord>>)
    requires Balanced(t, store.Contents(), acked, pending, generated, written, batchSize) && |pending| <= batchSize
    modifies store
    ensures Balanced(t, store.Contents(), acked', pending', generated, written', batchSize)
    ensures ok <==> pending == [] || commits
    ensures pending' == if ok then [] else pending
    ensures acked' == if ok && pending != [] then acked + [pending] else acked
  {
    ok, pending', written', acked' := true, pending, written, acked;
    if |pending| > 0 {
      ok, pending', written', acked' := FlushSome(store, pending, written, commits, t, acked, generated, batchSize);
    }
  }

  method FlushSome(store: AnalyticsStore, pending: seq<EventRecord>, written: nat, commits: bool,
                   ghost t: Tables, ghost acked: seq<seq<EventRecord>>, ghost generated: seq<EventRecord>, ghost batchSize: nat)
    returns (ok: bool, pending': seq<EventRecord>, written': nat, ghost acked': seq<seq<EventRecord>>)
    requires Balanced(t, store.Contents(), acked, pending, generated, written, batchSize) && 0 < |pending| <= batchSize
    modifies store
    ensures Balanced(t, store.Contents(), acked', pending', generated, written', batchSize)
    ensures pending' == (if ok then [] else pending) && acked' == (if ok then acked + [pending] else acked)
    ensures ok <==> commits
  {
    AckKeepsBooks(t, store.Contents(), acked, pending, generated, written, batchSize);
    ghost var before := store.Contents();
    var inserted;
    ok, inserted := IngestBatch(store, pending, commits);
    if ok {
      pending', written', acked' := [], written + inserted, acked + [pending];
    } else {
      pending', written', acked' := pending, written, acked;
    }
  }

  method IngestBatch(store: AnalyticsStore, batch: seq<EventRecord>, commits: bool) returns (ok: bool, inserted: nat)
    requires AllKnown(batch) && batch != []
    modifies store
    ensures ok <==> commits
    ensures store.Contents() == if ok then BatchTables(old(store.Contents()), batch) else old(store.Contents())
    ensures ok ==> inserted == SerialInserts(old(store.Contents()), StoredAll(batch))
  {
    var res := store.IngestEventsBatch(batch, commits);
    ok := res.Ok?;
    inserted := if res.Ok? then res.value.inserted else 0;
  }

  /** A failed flush: after a cancellation everything pending gets one more chance on a detached context. */
  method AfterFailedFlush(env: Environment, call: nat, store: AnalyticsStore, pending: seq<EventRecord>, written: nat,
                          ghost t: Tables, ghost acked: seq<seq<EventRecord>>, ghost generated: seq<EventRecord>, ghost batchSize: nat)
    returns (exit: Exit, written': nat, ghost acked': seq<seq<EventRecord>>, lost: seq<EventRecord>)
    requires Balanced(t, store.Contents(), acked, pending, generated, written, batchSize) && |pending| <= batchSize
    modifies store
    ensures Balanced(t, store.Contents(), acked', lost, generated, written', batchSize)
    ensures exit == if env.cancelledAtFlush(call) then Cancelled else Failed
    ensures exit == Cancelled && env.detachedCommits ==> lost == []
    ensures acked' == acked || (acked' == acked + [pending] && exit == Cancelled && env.detachedCommits)
  {
    if env.cancelledAtFlush(call) {
      var ok, rest, total;
      ok, rest, total, acked' := Flush(store, pending, written, env.detachedCommits, t, acked, generated, batchSize);
      return Cancelled, total, acked', rest;
    }
    return Failed, written, acked, pending;
  }

  /** One hour's inner loop; `exit` is None when the run goes on. */
  method RunHour(env: Environment, p: Plan, h: nat, batchSize: nat, store: AnalyticsStore,
                 pending: seq<EventRecord>, written: nat, calls: nat, drawn: nat,
                 ghost t: Tables, ghost acked: seq<seq<EventRecord>>, ghost generated: seq<EventRecord>)
    returns (exit: Option<Exit>, pending': seq<EventRecord>, written': nat, calls': nat, drawn': nat,
             ghost acked': seq<seq<EventRecord>>, ghost generated': seq<EventRecord>, ghost k: nat)
    requires p.items != [] && generated == Generated(p, h) && drawn == |generated|
    requires Balanced(t, store.Contents(), acked, pending, generated, written, batchSize) && |pending| < batchSize
    requires OnTrack(env, batchSize, acked, pending, generated, calls)
    modifies store
    ensures Balanced(t, store.Contents(), acked', pending', generated', written', batchSize)
    ensures k <= HourCount(p, h) && generated' == Generated(p, h) + HourEvents(p, h, |Generated(p, h)|, k)
    ensures exit.None? ==> k == HourCount(p, h) && drawn' == |generated'| && |pending'| < batchSize
    ensures exit.None? ==> OnTrack(env, batchSize, acked', pending', generated', calls')
    ensures exit.Some? ==> FailsAtCall(env, batchSize, acked', generated', calls', exit.value)
    ensures exit == Some(Cancelled) && env.detachedCommits ==> pending' == []
  {
    exit, pending', written', calls', drawn', acked', generated' := None, pending, written, calls, drawn, acked, generated;
    k := 0;
    var i := 0;
    while i < HourCount(p, h)
      invariant i == k <= HourCount(p, h)
      invariant Balanced(t, store.Contents(), acked', pending', generated', written', batchSize)
      invariant OnTrack(env, batchSize, acked', pending', generated', calls')
      invariant generated' == Generated(p, h) + HourEvents(p, h, |Generated(p, h)|, k)
      invariant drawn' == |generated'| && |pending'| < batchSize && exit.None?
    {
      HourGrows(p, h, k);
      exit, pending', written', calls', acked', generated' :=
        DrawAndFlush(env, p, h, batchSize, store, pending', written', calls', drawn', t, acked', generated');
      drawn', i, k := drawn' + 1, i + 1, k + 1;
      if exit.Some? {
        return;
      }
    }
  }

  /** One turn of the hour's loop. */
  method DrawAndFlush(env: Environment, p: Plan, h: nat, batchSize: nat, store: AnalyticsStore,
                      pending: seq<EventRecord>, written: nat, calls: nat, drawn: nat,
                      ghost t: Tables, ghost acked: seq<seq<EventRecord>>, ghost generated: seq<EventRecord>)
    returns (exit: Option<Exit>, pending': seq<EventRecord>, written': nat, calls': nat,
             ghost acked': seq<seq<EventRecord>>, ghost generated': seq<EventRecord>)
    requires p.items != []
    requires Balanced(t, store.Contents(), acked, pending, generated, written, batchSize) && |pending| < batchSize
    requires OnTrack(env, batchSize, acked, pending, generated, calls)
    modifies store
    ensures generated' == generated + [EventAt(p, h, drawn)]
    ensures Balanced(t, store.Contents(), acked', pending', generated', written', batchSize)
    ensures exit.None? ==> |pending'| < batchSize && OnTrack(env, batchSize, acked', pending', generated', calls')
    ensures exit.Some? ==> FailsAtCall(env, batchSize, acked', generated', calls', exit.value)
    ensures exit == Some(Cancelled) && env.detachedCommits ==> pending' == []
  {
    var e := EventAt(p, h, drawn);
    EventStaysInItsHour(p, h, drawn);
    DrawKeepsBooks(t, store.Contents(), acked, pending, generated, written, batchSize, e);
    DrawKeepsTrack(env, batchSize, acked, pending, generated, calls, e);
    generated' := generated + [e];
    exit, pending', written', calls', acked' :=
      FlushIfFull(env, batchSize, store, pending + [e], written, calls, t, acked, generated');
  }

  /** The call that a full batch brings about was not committed. */
  ghost predicate FailsAtCall(env: Environment, batchSize: nat, acked: seq<seq<EventRecord>>, generated: seq<EventRecord>,
                              calls: nat, exit: Exit) {
    && CommitsBefore(env, calls) && !env.commits(calls) && |generated| == Full(calls + 1, batchSize)
    && exit == (if env.cancelledAtFlush(calls) then Cancelled else Failed)
    && WoundUp(env, batchSize, acked, calls, exit)
  }

  /** The size check after each event. */
  method FlushIfFull(env: Environment, batchSize: nat, store: AnalyticsStore,
                     pending: seq<EventRecord>, written: nat, calls: nat,
                     ghost t: Tables, ghost acked: seq<seq<EventRecord>>, ghost generated: seq<EventRecord>)
    returns (exit: Option<Exit>, pending': seq<EventRecord>, written': nat, calls': nat, ghost acked': seq<seq<EventRecord>>)
    requires Balanced(t, store.Contents(), acked, pending, generated, written, batchSize) && 0 < |pending| <= batchSize
    requires OnTrack(env, batchSize, acked, pending, generated, calls)
    modifies store
    ensures Balanced(t, store.Contents(), acked', pending', generated, written', batchSize)
    ensures exit.None? ==> |pending'| < batchSize && OnTrack(env, batchSize, acked', pending', generated, calls')
    ensures exit.Some? ==> FailsAtCall(env, batchSize, acked', generated, calls', exit.value)
    ensures exit == Some(Cancelled) && env.detachedCommits ==> pending' == []
  {
    exit, pending', written', calls', acked' := None, pending, written, calls, acked;
    if |pending| >= batchSize {
      var ok;
      ok, pending', written', acked' := Flush(store, pending, written, env.commits(calls), t, acked, generated, batchSize);
      if !ok {
        var how, lost;
        how, written', acked', lost := AfterFailedFlush(env, calls, store, pending', written', t, acked', generated, batchSize);
        pending', exit := lost, Some(how);
        FullOneMore(calls, batchSize);
        OnTrackWindsUp(env, batchSize, acked, pending, generated, calls, acked', how);
        return;
      }
      FullCallKeepsTrack(env, batchSize, acked, pending, generated, calls);
      calls' := calls + 1;
    }
  }

  /** What a run leaves, by where it stops: how much it generated and which batches were acknowledged. */
  ghost predicate Ends(env: Environment, p: Plan, total: nat, batchSize: nat, stop: Stop, exit: Exit,
                       acked: seq<seq<EventRecord>>, lost: seq<EventRecord>, generated: seq<EventRecord>)
    requires p.items != []
  {
    && StopsThere(env, p, total, batchSize, stop, exit)
    && generated <= Generated(p, total)
    && (exists calls: nat :: WoundUp(env, batchSize, acked, calls, exit) && (stop.AtCall? ==> calls == stop.k))
    && (match stop
        case AtEnd => generated == Generated(p, total) && lost == []
        case AtHour(h) => generated == Generated(p, h)
        case AtCall(k) =>
          |generated| == if Full(k + 1, batchSize) <= |Generated(p, total)| then Full(k + 1, batchSize) else |Generated(p, total)|)
    && (exit == Cancelled && env.detachedCommits ==> lost == [])
  }

  /**
    The run ends exactly as what it meets says: it completes when no hour of the window is cancelled and
    every call it makes commits; it is cancelled at the first cancelled hour, or at the first call that
    does not commit for a cancellation, and fails at the first that does not commit for another reason.
    However it ends, acknowledged batches followed by the events it lost are what it generated up to
    there, the store holds exactly those batches, and the reported count is what they inserted. A
    completed run generated every hour of the window, which is the one asked for up to 106751 days; a
    cancelled run whose detached flush committed lost nothing.
   */
  method Run(env: Environment, cfg: Config, items: seq<SeedItem>, rate: real -> real, rng: nat -> Draw, store: AnalyticsStore)
    returns (exit: Exit, written: nat, ghost stop: Stop, ghost acked: seq<seq<EventRecord>>, ghost lost: seq<EventRecord>,
             ghost generated: seq<EventRecord>)
    modifies store
    ensures exit == Refused <==> items == [] || cfg.days <= 0
    ensures exit == Refused ==> store.Contents() == old(store.Contents()) && written == 0
    ensures exit != Refused ==>
              Balanced(old(store.Contents()), store.Contents(), acked, lost, generated, written, BatchSize(cfg))
    ensures exit != Refused ==>
              CompletesIff(env, PlanOf(cfg, items, rate, rng), TotalHours(cfg.days), BatchSize(cfg), exit)
    ensures exit != Refused ==>
              Ends(env, PlanOf(cfg, items, rate, rng), TotalHours(cfg.days), BatchSize(cfg), stop, exit, acked, lost, generated)
    ensures exit == Completed && cfg.days <= MAX_DAYS ==> generated == Generated(PlanOf(cfg, items, rate, rng), cfg.days * 24)
  {
    if |items| == 0 || cfg.days <= 0 {
      return Refused, 0, AtEnd, [], [], [];
    }
    WindowIsTheRequestedOne(cfg, items, rate, rng);
    exit, written, stop, acked, lost, generated :=
      RunHours(env, PlanOf(cfg, items, rate, rng), TotalHours(cfg.days), BatchSize(cfg), store);
    ExitIsDetermined(env, PlanOf(cfg, items, rate, rng), TotalHours(cfg.days), BatchSize(cfg), stop, exit);
  }

  lemma NothingYet(env: Environment, p: Plan, batchSize: nat, t: Tables)
    requires p.items != []
    ensures Balanced(t, t, [], [], [], 0, batchSize) && OnTrack(env, batchSize, [], [], [], 0)
    ensures Generated(p, 0) == [] && NotCancelledBefore(env, 0)
  {
    FullOneMore(0, batchSize);
  }

  method RunHours(env: Environment, p: Plan, totalHours: nat, batchSize: nat, store: AnalyticsStore)
    returns (exit: Exit, written: nat, ghost stop: Stop, ghost acked: seq<seq<EventRecord>>, ghost lost: seq<EventRecord>,
             ghost generated: seq<EventRecord>)
    requires p.items != [] && batchSize > 0
    modifies store
    ensures exit != Refused && Balanced(old(store.Contents()), store.Contents(), acked, lost, generated, written, batchSize)
    ensures Ends(env, p, totalHours, batchSize, stop, exit, acked, lost, generated)
  {
    var pending: seq<EventRecord>, calls: nat, drawn: nat := [], 0, 0;
    ghost var t := store.Contents();
    written, acked, lost, generated := 0, [], [], [];
    NothingYet(env, p, batchSize, t);
    var h := 0;
    while h < totalHours
      invariant 0 <= h <= totalHours && NotCancelledBefore(env, h)
      invariant Balanced(t, store.Contents(), acked, pending, generated, written, batchSize)
      invariant OnTrack(env, batchSize, acked, pending, generated, calls)
      invariant generated == Generated(p, h) && drawn == |generated| && |pending| < batchSize
    {
      var end;
      end, pending, written, calls, drawn, stop, acked, generated :=
        EnterHour(env, p, h, totalHours, batchSize, store, pending, written, calls, drawn, t, acked, generated);
      if end.Some? {
        return end.value, written, stop, acked, pending, generated;
      }
      h := h + 1;
    }
    exit, written, stop, acked, lost :=
      FinalFlush(env, p, totalHours, calls, store, pending, written, t, acked, generated, batchSize);
  }

  /** The cancellation check at the top of an hour, then the hour. */
  method EnterHour(env: Environment, p: Plan, h: nat, ghost totalHours: nat, batchSize: nat, store: AnalyticsStore,
                   pending: seq<EventRecord>, written: nat, calls: nat, drawn: nat,
                   ghost t: Tables, ghost acked: seq<seq<EventRecord>>, ghost generated: seq<EventRecord>)
    returns (exit: Option<Exit>, pending': seq<EventRecord>, written': nat, calls': nat, drawn': nat,
             ghost stop: Stop, ghost acked': seq<seq<EventRecord>>, ghost generated': seq<EventRecord>)
    requires p.items != [] && generated == Generated(p, h) && drawn == |generated| && h < totalHours
    requires Balanced(t, store.Contents(), acked, pending, generated, written, batchSize) && |pending| < batchSize
    requires OnTrack(env, batchSize, acked, pending, generated, calls) && NotCancelledBefore(env, h)
    modifies store
    ensures Balanced(t, store.Contents(), acked', pending', generated', written', batchSize)
    ensures exit.None? ==> generated' == Generated(p, h + 1) && drawn' == |generated'| && |pending'| < batchSize
    ensures exit.None? ==> OnTrack(env, batchSize, acked', pending', generated', calls') && NotCancelledBefore(env, h + 1)
    ensures exit.Some? ==>
              exit.value != Refused && Ends(env, p, totalHours, batchSize, stop, exit.value, acked', pending', generated')
  {
    if env.cancelledAtHour(h) {
      calls', drawn', generated' := calls, drawn, generated;
      pending', written', acked' := CancelHour(env, p, h, totalHours, batchSize, store, pending, written, calls, t, acked, generated);
      exit, stop := Some(Cancelled), AtHour(h);
    } else {
      exit, pending', written', calls', drawn', stop, acked', generated' :=
        WorkHour(env, p, h, totalHours, batchSize, store, pending, written, calls, drawn, t, acked, generated);
    }
  }

  /** An hour that is not cancelled at its top. */
  method WorkHour(env: Environment, p: Plan, h: nat, ghost totalHours: nat, batchSize: nat, store: AnalyticsStore,
                  pending: seq<EventRecord>, written: nat, calls: nat, drawn: nat,
                  ghost t: Tables, ghost acked: seq<seq<EventRecord>>, ghost generated: seq<EventRecord>)
    returns (exit: Option<Exit>, pending': seq<EventRecord>, written': nat, calls': nat, drawn': nat,
             ghost stop: Stop, ghost acked': seq<seq<EventRecord>>, ghost generated': seq<EventRecord>)
    requires p.items != [] && generated == Generated(p, h) && drawn == |generated| && h < totalHours
    requires Balanced(t, store.Contents(), acked, pending, generated, written, batchSize) && |pending| < batchSize
    requires OnTrack(env, batchSize, acked, pending, generated, calls)
    requires NotCancelledBefore(env, h) && !env.cancelledAtHour(h)
    modifies store
    ensures Balanced(t, store.Contents(), acked', pending', generated', written', batchSize)
    ensures exit.None? ==> generated' == Generated(p, h + 1) && drawn' == |generated'| && |pending'| < batchSize
    ensures exit.None? ==> OnTrack(env, batchSize, acked', pending', generated', calls') && NotCancelledBefore(env, h + 1)
    ensures exit.Some? ==>
              exit.value != Refused && Ends(env, p, totalHours, batchSize, stop, exit.value, acked', pending', generated')
  {
    ghost var k: nat;
    exit, pending', written', calls', drawn', acked', generated', k :=
      RunHour(env, p, h, batchSize, store, pending, written, calls, drawn, t, acked, generated);
    stop := AtCall(calls');
    NotCancelledYet(env, h);
    if exit.Some? {
      FailedInHour(env, p, h, totalHours, batchSize, k, acked', pending', generated', calls', exit.value);
    } else {
      HourIsDone(p, h, k, generated');
    }
  }

  lemma NotCancelledYet(env: Environment, h: nat)
    requires NotCancelledBefore(env, h) && !env.cancelledAtHour(h)
    ensures NotCancelledBefore(env, h + 1)
  {
  }

  lemma HourIsDone(p: Plan, h: nat, k: nat, generated: seq<EventRecord>)
    requires p.items != []
    requires k == HourCount(p, h) && generated == Generated(p, h) + HourEvents(p, h, |Generated(p, h)|, k)
    ensures generated == Generated(p, h + 1)
  {
    HourCompletes(p, h);
  }

  /** A cancelled hour: what is pending is flushed on its own. */
  method CancelHour(env: Environment, ghost p: Plan, ghost h: nat, ghost totalHours: nat, ghost batchSize: nat,
                    store: AnalyticsStore, pending: seq<EventRecord>, written: nat, ghost calls: nat,
                    ghost t: Tables, ghost acked: seq<seq<EventRecord>>, ghost generated: seq<EventRecord>)
    returns (lost: seq<EventRecord>, written': nat, ghost acked': seq<seq<EventRecord>>)
    requires p.items != [] && generated == Generated(p, h) && h < totalHours
    requires Balanced(t, store.Contents(), acked, pending, generated, written, batchSize) && |pending| < batchSize
    requires OnTrack(env, batchSize, acked, pending, generated, calls)
    requires NotCancelledBefore(env, h) && env.cancelledAtHour(h)
    modifies store
    ensures Balanced(t, store.Contents(), acked', lost, generated, written', batchSize)
    ensures Ends(env, p, totalHours, batchSize, AtHour(h), Cancelled, acked', lost, generated)
  {
    var ok;
    ok, lost, written', acked' := Flush(store, pending, written, env.detachedCommits, t, acked, generated, batchSize);
    CancelledInHour(env, p, h, totalHours, batchSize, acked, pending, calls, acked', lost);
  }

  /** A cancelled hour ends the run before its first event. */
  lemma CancelledInHour(env: Environment, p: Plan, h: nat, totalHours: nat, batchSize: nat, acked: seq<seq<EventRecord>>,
                        pending: seq<EventRecord>, calls: nat, acked': seq<seq<EventRecord>>, lost: seq<EventRecord>)
    requires p.items != [] && h < totalHours && env.cancelledAtHour(h) && NotCancelledBefore(env, h)
    requires OnTrack(env, batchSize, acked, pending, Generated(p, h), calls) && |pending| < batchSize
    requires if env.detachedCommits || pending == []
             then lost == [] && acked' == if pending == [] then acked else acked + [pending]
             else lost == pending && acked' == acked
    ensures Ends(env, p, totalHours, batchSize, AtHour(h), Cancelled, acked', lost, Generated(p, h))
  {
    HourStop(env, p, totalHours, batchSize, h, acked, pending, calls);
    OnTrackWindsUp(env, batchSize, acked, pending, Generated(p, h), calls, acked', Cancelled);
    GeneratedPrefix(p, h, totalHours);
  }

  /** A failed full batch ends the run as its call says. */
  lemma FailedInHour(env: Environment, p: Plan, h: nat, totalHours: nat, batchSize: nat, k: nat, acked: seq<seq<EventRecord>>,
                     lost: seq<EventRecord>, generated: seq<EventRecord>, calls: nat, exit: Exit)
    requires p.items != [] && h < totalHours && NotCancelledBefore(env, h + 1) && k <= HourCount(p, h) && batchSize > 0
    requires generated == Generated(p, h) + HourEvents(p, h, |Generated(p, h)|, k)
    requires FailsAtCall(env, batchSize, acked, generated, calls, exit)
    requires exit == Cancelled && env.detachedCommits ==> lost == []
    ensures Ends(env, p, totalHours, batchSize, AtCall(calls), exit, acked, lost, generated)
  {
    GeneratedGrows(p, h, totalHours, k);
    GeneratedGrows(p, h, h + 1, k);
    CallStop(env, p, totalHours, batchSize, h, calls);
  }

  method FinalFlush(env: Environment, ghost p: Plan, ghost totalHours: nat, call: nat, store: AnalyticsStore,
                    pending: seq<EventRecord>, written: nat,
                    ghost t: Tables, ghost acked: seq<seq<EventRecord>>, ghost generated: seq<EventRecord>, ghost batchSize: nat)
    returns (exit: Exit, written': nat, ghost stop: Stop, ghost acked': seq<seq<EventRecord>>, lost: seq<EventRecord>)
    requires p.items != [] && generated == Generated(p, totalHours) && NotCancelledBefore(env, totalHours)
    requires Balanced(t, store.Contents(), acked, pending, generated, written, batchSize) && |pending| < batchSize
    requires OnTrack(env, batchSize, acked, pending, generated, call)
    modifies store
    ensures Balanced(t, store.Contents(), acked', lost, generated, written', batchSize)
    ensures exit != Refused && Ends(env, p, totalHours, batchSize, stop, exit, acked', lost, generated)
  {
    var ok;
    ok, lost, written', acked' := Flush(store, pending, written, env.commits(call), t, acked, generated, batchSize);
    exit, stop := Completed, AtEnd;
    if !ok {
      exit, written', acked', lost := AfterFailedFlush(env, call, store, lost, written', t, acked', generated, batchSize);
      stop := AtCall(call);
    }
    EndsAtTheFinalFlush(env, p, totalHours, batchSize, acked, pending, call, stop, exit, acked', lost);
  }

  /** The end of the window: everything is written, or the last call ends the run. */
  lemma EndsAtTheFinalFlush(env: Environment, p: Plan, total: nat, batchSize: nat, acked: seq<seq<EventRecord>>,
                            pending: seq<EventRecord>, call: nat, stop: Stop, exit: Exit,
                            acked': seq<seq<EventRecord>>, lost: seq<EventRecord>)
    requires p.items != [] && NotCancelledBefore(env, total)
    requires OnTrack(env, batchSize, acked, pending, Generated(p, total), call) && |pending| < batchSize
    requires if pending == [] || env.commits(call)
             then stop == AtEnd && exit == Completed && lost == []
             else stop == AtCall(call) && exit == if env.cancelledAtFlush(call) then Cancelled else Failed
    requires acked' == acked || (acked' == acked + [pending] && (exit == Completed || (exit == Cancelled && env.detachedCommits)))
    requires exit == Cancelled && env.detachedCommits ==> lost == []
    ensures Ends(env, p, total, batchSize, stop, exit, acked', lost, Generated(p, total))
  {
    FinalStop(env, p, total, batchSize, acked, pending, call);
    FullOneMore(call, batchSize);
    OnTrackWindsUp(env, batchSize, acked, pending, Generated(p, total), call, acked', exit);
  }

  function BatchSize(cfg: Config): (n: nat)
    ensures n > 0
    ensures cfg.batchSize > 0 ==> n == cfg.batchSize
    ensures cfg.batchSize <= 0 ==> n == 8000
  {
    if cfg.batchSize <= 0 then DEFAULT_BATCH_SIZE else cfg.batchSize
  }

  // ------------------------------------------------------------------ what does not depend on the batches

  /**
    Two completed runs of one plan, with any batch sizes, agree on raw rows, counters and
    EventsWritten. They agree on every table, from every starting store, exactly when they settle each
    item on the same payload; and all ways to batch the plan agree, with each other and with serial
    ingestion, exactly when every event some batching could settle on has the serial winner's payload.
   */
  lemma BatchSizeDoesNotMatter(t: Tables, p: Plan, hours: nat, a: seq<seq<EventRecord>>, b: seq<seq<EventRecord>>)
    requires p.items != [] && Flatten(a) == Generated(p, hours) == Flatten(b)
    ensures RunBatches(t, a).events == RunBatches(t, b).events
    ensures RunBatches(t, a).buckets == RunBatches(t, b).buckets
    ensures BatchInserts(t, a) == BatchInserts(t, b)
    ensures SameOutcome(a, b) <==> forall id :: SameWinner(a, b, id)
    ensures CutsNeverMatter(Generated(p, hours)) <==> CutProof(Generated(p, hours))
    ensures EveryCutIsSerial(Generated(p, hours)) <==> CutProof(Generated(p, hours))
  {
    CutsShareRowsAndCounters(t, a, b);
    CutIndependence(a, b);
    CutsNeverMatterIff(Generated(p, hours));
  }

  /** Two draws inside one microsecond, in descending order and of different kinds. */
  function DescendingDraws(n: nat): Draw {
    if n == 0 then Draw(500.0 / 3_600_000_000_000.0, 0, 0.0) else Draw(200.0 / 3_600_000_000_000.0, 0, 0.75)
  }

  const ONE_HOUR := Plan(0, [SeedItem(7, "w")], _ => 2.0 / 3600.0, DescendingDraws)

  lemma OneHourEvents()
    ensures HourCount(ONE_HOUR, 0) == 2
    ensures Generated(ONE_HOUR, 1) == [EventRecord(7, "w", "created", 500), EventRecord(7, "w", "deleted", 200)]
  {
    var p := ONE_HOUR;
    assert p.rate(MidUnix(p, 0) as real) * 3600.0 == 2.0;
    assert EventAt(p, 0, 0) == EventRecord(7, "w", "created", 500);
    assert EventAt(p, 0, 1) == EventRecord(7, "w", "deleted", 200);
    assert HourEvents(p, 0, 0, 0) == [];
    assert HourEvents(p, 0, 0, 1) == HourEvents(p, 0, 0, 0) + [EventAt(p, 0, 0)];
    assert HourEvents(p, 0, 0, 2) == HourEvents(p, 0, 0, 1) + [EventAt(p, 0, 1)];
    assert Generated(p, 0) == [];
  }

  /** The batch size can matter: a plan whose generated sequence two batchings leave in different tables. */
  lemma BatchSizeCanMatter() returns (p: Plan)
    ensures p.items != [] && |Generated(p, 1)| == 2
    ensures !CutProof(Generated(p, 1)) && !CutsNeverMatter(Generated(p, 1))
    ensures !SameOutcome([Generated(p, 1)], Singles(Generated(p, 1)))
  {
    p := ONE_HOUR;
    OneHourEvents();
    var c, d := EventRecord(7, "w", "created", 500), EventRecord(7, "w", "deleted", 200);
    var g := Generated(p, 1);
    PairWinners(c, d);
    OneBatch(EMPTY, g, 7);
    SinglesAreSerial(g, 7);
    CutIndependence([g], Singles(g));
    assert !SameWinner([g], Singles(g), 7);
    assert !SameOutcome([g], Singles(g));
    CutsNeverMatterIff(g);
  }

  /** An interrupted run, however far it got and however it batched, leaves no trace after a completed re-run of its plan. */
  lemma InterruptedThenRerun(t: Tables, p: Plan, hours: nat, interrupted: seq<seq<EventRecord>>, lost: seq<EventRecord>,
                             full: seq<seq<EventRecord>>)
    requires p.items != [] && Flatten(interrupted) + lost <= Generated(p, hours) && Flatten(full) == Generated(p, hours)
    ensures RunBatches(RunBatches(t, interrupted), full) == RunBatches(t, full)
    ensures BatchInserts(t, interrupted) + BatchInserts(RunBatches(t, interrupted), full) == BatchInserts(t, full)
  {
    var g, q := Generated(p, hours), Flatten(interrupted);
    assert q <= g by {
      assert q <= q + lost;
    }
    SafeRerun(t, interrupted, full);
    RowsAndCountersAfterBatches(t, interrupted);
    RowsAndCountersAfterBatches(t, full);
    RowsAndCountersAfterBatches(RunBatches(t, interrupted), full);
    RerunInserts(t, RunBatches(t, interrupted), StoredAll(q), StoredAll(g));
  }

  /** Inserts of a prefix and of the whole afterwards add up to the inserts of the whole alone. */
  lemma RerunInserts(t: Tables, mid: Tables, s: seq<DbEvent>, whole: seq<DbEvent>)
    requires s <= whole && mid.events == ApplyAll(t, s).events
    ensures SerialInserts(t, s) + SerialInserts(mid, whole) == SerialInserts(t, whole)
  {
    BucketsAfter(t, s);
    BucketsAfter(t, whole);
    BucketsAfter(mid, whole);
    EventsAfter(t, s);
    PrefixKeys(s, whole);
    SplitKeys(KeysOf(s), KeysOf(whole), t.events.Keys, mid.events.Keys);
  }

  lemma SplitKeys(s: set<EventKey>, whole: set<EventKey>, before: set<EventKey>, mid: set<EventKey>)
    requires s <= whole && mid == before + s
    ensures |s - before| + |whole - mid| == |whole - before|
  {
    DisjointSum(s - before, whole - mid, whole - before);
  }

  lemma PrefixKeys(s: seq<DbEvent>, whole: seq<DbEvent>)
    requires s <= whole
    ensures KeysOf(s) <= KeysOf(whole)
  {
    forall k | k in KeysOf(s)
      ensures k in KeysOf(whole)
    {
      var i :| 0 <= i < |s| && s[i].key == k;
      assert whole[i].key == k;
    }
  }

  lemma DisjointSum(a: set<EventKey>, b: set<EventKey>, c: set<EventKey>)
    requires a !! b && c == a + b
    ensures |c| == |a| + |b|
  {
  }
}
