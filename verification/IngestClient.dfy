/**
  The analytics ingest client: the same-event retry of one stream, the reconnect loop's attempt
  counter, and its backoff in wrapping 64-bit arithmetic.
 */
module IngestClient {
  import opened BatchIngest
  import Broadcaster
  import opened EventStore
  import IngestProtocol
  import opened Store
  import opened Words
  import opened Wrappers

  // ------------------------------------------------------------------ consuming a stream

  datatype WireType = Created | Updated | Deleted | Unrecognized(number: int)

  datatype WireEvent = WireEvent(wireType: WireType, itemId: int, itemName: string, eventTime: int)

  datatype HandleError = MalformedEvent | PersistFailed

  function TypeName(t: WireType): Option<string> {
    match t
    case Created => Some("created")
    case Updated => Some("updated")
    case Deleted => Some("deleted")
    case Unrecognized(_) => None
  }

  /** The events of a stream that can be persisted at all, in order. */
  function WellFormed(received: seq<WireEvent>): seq<EventRecord> {
    if received == [] then []
    else
      var e := received[|received| - 1];
      var name := TypeName(e.wireType);
      WellFormed(received[..|received| - 1])
      + (if name.Some? then [EventRecord(e.itemId, e.itemName, name.value, e.eventTime)] else [])
  }

  /** The word the tables use for an event type. */
  predicate Spelled(t: WireType, word: string) {
    match t
    case Created => word == "created"
    case Updated => word == "updated"
    case Deleted => word == "deleted"
    case Unrecognized(_) => false
  }

  /**
    What one event shows in the tables: its raw row under its own type and microsecond, one more in its
    hour's counter if the key was new, and, unless the item's row is newer, an item that is live under
    the event's name or gone.
   */
  ghost predicate Shown(before: Tables, after: Tables, e: WireEvent) {
    exists word | Spelled(e.wireType, word) ::
      var k := EventKey(e.itemId, word, e.eventTime / 1000);
      && after.events == (if k in before.events then before.events else before.events[k := e.itemName])
      && (forall b :: CountOf(after.buckets, b) == CountOf(before.buckets, b)
            + (if k !in before.events && b == BucketKey(k.time / 3_600_000_000 * 3_600_000_000, word) then 1 else 0))
      && (e.itemId in before.items && before.items[e.itemId].lastSeen > k.time ==>
            Live(after.items) == Live(before.items))
      && (!(e.itemId in before.items && before.items[e.itemId].lastSeen > k.time) ==>
            Live(after.items) == if e.wireType.Deleted? then Live(before.items) - {e.itemId}
                                 else Live(before.items)[e.itemId := e.itemName])
  }

  lemma AppliedIsShown(before: Tables, e: WireEvent, word: string)
    requires Spelled(e.wireType, word)
    ensures Shown(before, Apply(before, DbEvent(EventKey(e.itemId, word, e.eventTime / 1000), e.itemName)), e)
  {
    var d := DbEvent(EventKey(e.itemId, word, e.eventTime / 1000), e.itemName);
    LiveAfter(before.items, d);
  }

  /** The live rows after one upsert. */
  lemma LiveAfter(items: map<int, ItemRow>, d: DbEvent)
    ensures var after, id := Upsert(items, d.key.itemId, EventRow(d)), d.key.itemId;
            if id in items && items[id].lastSeen > d.key.time then Live(after) == Live(items)
            else Live(after) == if d.key.eventType == "deleted" then Live(items) - {id} else Live(items)[id := d.name]
  {
  }

  lemma LandedIsShown(t: Tables, e: WireEvent)
    requires !e.wireType.Unrecognized?
    ensures Shown(t, Landed(t, e), e)
  {
    AppliedIsShown(t, e, TypeName(e.wireType).value);
  }

  // ------------------------------------------------------------------ what the backend sends

  /** The enum value the backend puts on the wire; another type has none. */
  function ToProto(eventType: string): Option<WireType> {
    if eventType == "created" then Some(Created)
    else if eventType == "updated" then Some(Updated)
    else if eventType == "deleted" then Some(Deleted)
    else None
  }

  /** The message of a published event. A Python datetime is at microseconds, a Timestamp at nanoseconds. */
  function Encode(e: Broadcaster.ItemEvent): Option<WireEvent> {
    var t := ToProto(e.eventType);
    if t.Some? then Some(WireEvent(t.value, e.itemId, e.itemName, e.eventTime * 1000)) else None
  }

  /** A published event arrives as itself: one type word on both sides of the wire, and its own time. */
  lemma PublishedEventArrives(t: Tables, e: Broadcaster.ItemEvent)
    requires Encode(e).Some?
    ensures Landed(t, Encode(e).value) == Apply(t, IngestProtocol.Db(e))
  {
  }

  method HandleEvent(store: AnalyticsStore, e: WireEvent, commit: Commit) returns (r: Result<bool, HandleError>)
    modifies store
    ensures r == Err(MalformedEvent) <==> e.wireType.Unrecognized?
    ensures r == Err(PersistFailed) <==> !e.wireType.Unrecognized? && !commit.Acknowledged?
    ensures store.Contents() == if commit.RolledBack? then old(store.Contents()) else Landed(old(store.Contents()), e)
    ensures if e.wireType.Unrecognized? || commit.RolledBack? then store.Contents() == old(store.Contents())
            else Shown(old(store.Contents()), store.Contents(), e)
  {
    if !e.wireType.Unrecognized? {
      LandedIsShown(store.Contents(), e);
    }
    var name := TypeName(e.wireType);
    if name.None? {
      return Err(MalformedEvent);
    }
    var ingested := store.IngestEvent(EventRecord(e.itemId, e.itemName, name.value, e.eventTime), commit);
    if ingested.Err? {
      return Err(PersistFailed);
    }
    return Ok(ingested.value);
  }

  /** What one received event does to the store in the end. */
  function Landed(t: Tables, e: WireEvent): Tables {
    if e.wireType.Unrecognized? then t
    else Apply(t, Stored(EventRecord(e.itemId, e.itemName, TypeName(e.wireType).value, e.eventTime)))
  }

  /** The tables once the first `n` events of a stream are ingested. */
  function Ingested(t: Tables, received: seq<WireEvent>, n: nat): Tables
    requires n <= |received|
  {
    ApplyAll(t, StoredAll(WellFormed(received[..n])))
  }

  lemma IngestedNothing(t: Tables, received: seq<WireEvent>)
    ensures Ingested(t, received, 0) == t
  {
    assert StoredAll(WellFormed(received[..0])) == [];
  }

  lemma IngestedOneMore(t: Tables, received: seq<WireEvent>, n: nat)
    requires n < |received|
    ensures Ingested(t, received, n + 1) == Landed(Ingested(t, received, n), received[n])
  {
    var before := WellFormed(received[..n]);
    assert received[..n + 1][..n] == received[..n];
    if received[n].wireType.Unrecognized? {
      assert WellFormed(received[..n + 1]) == before;
    } else {
      var all := WellFormed(received[..n + 1]);
      assert StoredAll(all)[..|all| - 1] == StoredAll(before);
    }
  }

  /** One event of a stream, as the tables will know it. */
  lemma WellFormedOne(e: WireEvent)
    ensures e.wireType.Unrecognized? ==> WellFormed([e]) == []
    ensures forall word :: Spelled(e.wireType, word) ==> WellFormed([e]) == [EventRecord(e.itemId, e.itemName, word, e.eventTime)]
  {
    assert [e][..0] == [];
  }

  /** Order is kept and nothing is added: the well-formed events of two parts are those of the whole. */
  lemma {:induction false} WellFormedConcat(a: seq<WireEvent>, b: seq<WireEvent>)
    ensures WellFormed(a + b) == WellFormed(a) + WellFormed(b)
    decreases |b|
  {
    if b == [] {
      assert a + b == a;
    } else {
      assert (a + b)[..|a + b| - 1] == a + b[..|b| - 1];
      WellFormedConcat(a, b[..|b| - 1]);
    }
  }

  /** The dedup guard: landing an event again changes nothing. */
  lemma LandedTwice(t: Tables, e: WireEvent)
    ensures Landed(Landed(t, e), e) == Landed(t, e)
  {
    if !e.wireType.Unrecognized? {
      var d := Stored(EventRecord(e.itemId, e.itemName, TypeName(e.wireType).value, e.eventTime));
      ReplayIsNoOp(t, [d]);
      assert forall u :: ApplyAll(u, [d]) == Apply(u, d) by {
        assert [d][..0] == [];
      }
    }
  }

  /**
    How persisting one event goes before it succeeds: each failed try may or may not have taken effect;
    `cancelled` says that the wait after the last of them ends in a cancellation instead of a retry.
   */
  datatype Trouble = Trouble(tookEffect: seq<bool>, cancelled: bool)

  /** The event is malformed, or its retries end in a success. */
  predicate Overcome(e: WireEvent, trouble: Trouble) {
    e.wireType.Unrecognized? || trouble.tookEffect == [] || !trouble.cancelled
  }

  /** The tables after some tries of which any took effect. */
  function AfterTries(t: Tables, e: WireEvent, tookEffect: seq<bool>): Tables {
    if true in tookEffect then Landed(t, e) else t
  }

  lemma OneMoreTry(t: Tables, e: WireEvent, tookEffect: seq<bool>, n: nat)
    requires n < |tookEffect|
    ensures AfterTries(t, e, tookEffect[..n + 1])
         == if tookEffect[n] then Landed(AfterTries(t, e, tookEffect[..n]), e) else AfterTries(t, e, tookEffect[..n])
  {
    LandedTwice(t, e);
    assert tookEffect[..n + 1] == tookEffect[..n] + [tookEffect[n]];
  }

  /**
    The retry loop: each failure retries the same event. When it is done the event has landed once,
    even if a try whose acknowledgement was lost had landed it before.
   */
  method HandleUntilDone(store: AnalyticsStore, e: WireEvent, trouble: Trouble) returns (done: bool)
    modifies store
    ensures done <==> Overcome(e, trouble)
    ensures store.Contents() == if done then Landed(old(store.Contents()), e)
                                else AfterTries(old(store.Contents()), e, trouble.tookEffect)
  {
    ghost var t := store.Contents();
    LandedTwice(t, e);
    var n := 0;
    while n < |trouble.tookEffect|
      invariant 0 <= n <= |trouble.tookEffect|
      invariant n > 0 ==> !e.wireType.Unrecognized? && (n == |trouble.tookEffect| ==> !trouble.cancelled)
      invariant store.Contents() == AfterTries(t, e, trouble.tookEffect[..n])
    {
      OneMoreTry(t, e, trouble.tookEffect, n);
      var handled := HandleEvent(store, e, if trouble.tookEffect[n] then AckLost else RolledBack);
      if handled.error.MalformedEvent? {
        return true;
      }
      n := n + 1;
      if n == |trouble.tookEffect| && trouble.cancelled {
        assert trouble.tookEffect[..n] == trouble.tookEffect;
        return false;
      }
    }
    var handled := HandleEvent(store, e, Acknowledged);
    return true;
  }

  /**
    The receive loop over the events a stream delivered before it ended. Every well-formed event is
    ingested once, in order, however often persisting it fails first or fails to be acknowledged, and a
    malformed one is dropped. The loop stops early exactly at the first event whose retry is cancelled;
    that drops the event in hand, unless one of its tries had taken effect, and everything behind it.
   */
  method ConsumeStream(store: AnalyticsStore, received: seq<WireEvent>, trouble: nat -> Trouble) returns (n: nat)
    modifies store
    ensures n <= |received|
    ensures forall i :: 0 <= i < n ==> Overcome(received[i], trouble(i))
    ensures n < |received| ==> !Overcome(received[n], trouble(n))
    ensures n == |received| ==> store.Contents() == ApplyAll(old(store.Contents()), StoredAll(WellFormed(received)))
    ensures n < |received| ==>
              store.Contents() == AfterTries(Ingested(old(store.Contents()), received, n), received[n], trouble(n).tookEffect)
  {
    ghost var t := store.Contents();
    IngestedNothing(t, received);
    n := 0;
    while n < |received|
      invariant 0 <= n <= |received|
      invariant forall i :: 0 <= i < n ==> Overcome(received[i], trouble(i))
      invariant store.Contents() == Ingested(t, received, n)
    {
      IngestedOneMore(t, received, n);
      var done := HandleUntilDone(store, received[n], trouble(n));
      if !done {
        return;
      }
      n := n + 1;
    }
    assert received[..n] == received;
  }

  // ------------------------------------------------------------------ backoff arithmetic

  const SECOND := 1_000_000_000
  function Base(base: int): int {
    if base <= 0 then SECOND else base
  }

  function Cap(maxDelay: int): int {
    if maxDelay <= 0 then 30 * SECOND else maxDelay
  }

  function Shift(attempt: int): nat {
    if attempt < 1 then 0 else if attempt - 1 < 30 then attempt - 1 else 30
  }

  function Min(a: int, b: int): int {
    if a <= b then a else b
  }

  /** The delay before jitter, as computed. */
  function Delay(attempt: int, base: int, maxDelay: int): int {
    var wrapped := Wrap(Base(base) * Pow2(Shift(attempt)));
    if wrapped <= 0 || wrapped > Cap(maxDelay) then Cap(maxDelay) else wrapped
  }

  /** `draw` stands for the random source: `draw % (half + 1)` takes every value Int64N(half + 1) can. */
  method BackoffDuration(attempt: int, base: int, maxDelay: int, draw: nat) returns (wait: int)
    requires IsInt64(attempt) && IsInt64(base) && IsInt64(maxDelay)
    ensures 0 <= wait <= Cap(maxDelay)
    ensures Delay(attempt, base, maxDelay) / 2 <= wait <= Delay(attempt, base, maxDelay)
    ensures wait == Delay(attempt, base, maxDelay) / 2 + draw % (Delay(attempt, base, maxDelay) / 2 + 1)
    ensures IsInt64(wait)
  {
    var attempt', base', maxDelay' := attempt, base, maxDelay;
    if attempt' < 1 {
      attempt' := 1;
    }
    if base' <= 0 {
      base' := SECOND;
    }
    if maxDelay' <= 0 {
      maxDelay' := 30 * SECOND;
    }
    var shift := if attempt' - 1 < 30 then attempt' - 1 else 30;
    var delay := Wrap(base' * Pow2(shift));
    if delay <= 0 || delay > maxDelay' {
      delay := maxDelay';
    }
    var half := delay / 2;
    wait := half + draw % (half + 1);
  }

  /**
    The delay is the capped exponential exactly when the product fits in int64, or its wrapped value
    is one the cap catches anyway.
   */
  lemma DelayIsCappedExponential(attempt: int, base: int, maxDelay: int)
    requires IsInt64(base) && IsInt64(maxDelay)
    ensures var exact := Base(base) * Pow2(Shift(attempt));
            Delay(attempt, base, maxDelay) == Min(exact, Cap(maxDelay))
            <==> exact < TWO_63 || Wrap(exact) <= 0 || Wrap(exact) >= Cap(maxDelay)
  {
    ProductIsPositive(Base(base), Shift(attempt));
  }

  lemma ProductIsPositive(base: int, shift: nat)
    requires base > 0
    ensures base * Pow2(shift) > 0
  {
    MulIsPositive(base, Pow2(shift));
  }

  lemma MulIsPositive(a: int, b: int)
    requires a > 0 && b > 0
    ensures a * b > 0
  {
  }

  /** When the largest product fits, every product does. */
  lemma ProductFits(attempt: int, base: int)
    requires base > 0 && base * Pow2(30) < TWO_63
    ensures 0 < base * Pow2(Shift(attempt)) < TWO_63
  {
    ProductIsPositive(base, Shift(attempt));
    Pow2Monotone(Shift(attempt), 30);
    ScaleMonotone(base, Pow2(Shift(attempt)), Pow2(30));
  }

  /** A product that fits is not wrapped. */
  lemma FittingDelay(attempt: int, base: int, maxDelay: int)
    requires 0 < Base(base) * Pow2(Shift(attempt)) < TWO_63
    ensures Delay(attempt, base, maxDelay) == Min(Base(base) * Pow2(Shift(attempt)), Cap(maxDelay))
  {
  }

  lemma ProductsGrow(attempt: int, later: int, base: int)
    requires base > 0 && attempt <= later
    ensures base * Pow2(Shift(attempt)) <= base * Pow2(Shift(later))
  {
    Pow2Monotone(Shift(attempt), Shift(later));
    ScaleMonotone(base, Pow2(Shift(attempt)), Pow2(Shift(later)));
  }

  /** When the largest product fits, delays are exact and never shrink from one attempt to the next. */
  lemma DelaysGrow(attempt: int, later: int, base: int, maxDelay: int)
    requires IsInt64(base) && IsInt64(maxDelay) && Base(base) * Pow2(30) < TWO_63
    requires attempt <= later
    ensures Delay(attempt, base, maxDelay) == Min(Base(base) * Pow2(Shift(attempt)), Cap(maxDelay))
    ensures Delay(attempt, base, maxDelay) <= Delay(later, base, maxDelay)
  {
    ProductFits(attempt, Base(base));
    ProductFits(later, Base(base));
    FittingDelay(attempt, base, maxDelay);
    FittingDelay(later, base, maxDelay);
    ProductsGrow(attempt, later, Base(base));
  }

  /** What an unset base or cap stands for: one second and thirty. */
  lemma Defaults(x: int)
    ensures Base(x) == if x <= 0 then 1_000_000_000 else x
    ensures Cap(x) == if x <= 0 then 30_000_000_000 else x
  {
  }

  lemma ShiftDoubles(attempt: int)
    ensures attempt <= 1 ==> Pow2(Shift(attempt)) == 1
    ensures 1 <= attempt <= 30 ==> Pow2(Shift(attempt + 1)) == 2 * Pow2(Shift(attempt))
    ensures attempt >= 31 ==> Pow2(Shift(attempt)) == Pow2(Shift(31))
  {
    assert Pow2(0) == 1;
  }

  lemma DoubleProduct(base: int, a: int, b: int)
    requires b == 2 * a
    ensures base * b == 2 * (base * a)
  {
  }

  /**
    When the largest product fits, the first delay is the base, each further one up to attempt 31 is
    twice the one before, later ones stay, and none exceeds the cap.
   */
  lemma DelayDoubles(attempt: int, base: int, maxDelay: int)
    requires (if base <= 0 then 1_000_000_000 else base) * 0x4000_0000 < TWO_63
    ensures var b, c := if base <= 0 then 1_000_000_000 else base, if maxDelay <= 0 then 30_000_000_000 else maxDelay;
            && (attempt <= 1 ==> Delay(attempt, base, maxDelay) == Min(b, c))
            && (1 <= attempt <= 30 ==> Delay(attempt + 1, base, maxDelay) == Min(2 * Delay(attempt, base, maxDelay), c))
            && (attempt >= 31 ==> Delay(attempt, base, maxDelay) == Delay(31, base, maxDelay))
  {
    Pow2Of30();
    Defaults(base);
    Defaults(maxDelay);
    ShiftDoubles(attempt);
    DelayFits(attempt, base, maxDelay);
    if 1 <= attempt <= 30 {
      NextDelay(attempt, base, maxDelay);
    }
  }

  lemma DelayFits(attempt: int, base: int, maxDelay: int)
    requires Base(base) * Pow2(30) < TWO_63
    ensures Delay(attempt, base, maxDelay) == Min(Base(base) * Pow2(Shift(attempt)), Cap(maxDelay))
  {
    ProductFits(attempt, Base(base));
    FittingDelay(attempt, base, maxDelay);
  }

  lemma NextDelay(attempt: int, base: int, maxDelay: int)
    requires Base(base) * Pow2(30) < TWO_63 && 1 <= attempt <= 30
    ensures Delay(attempt + 1, base, maxDelay) == Min(2 * Delay(attempt, base, maxDelay), Cap(maxDelay))
  {
    DelayFits(attempt, base, maxDelay);
    DelayFits(attempt + 1, base, maxDelay);
    ShiftDoubles(attempt);
    DoubleProduct(Base(base), Pow2(Shift(attempt)), Pow2(Shift(attempt + 1)));
    ProductIsPositive(Base(base), Shift(attempt));
  }

  lemma ScaleMonotone(base: int, a: int, b: int)
    requires base > 0 && a <= b
    ensures base * a <= base * b
  {
  }

  /** Without that bound a wrapped product can undercut the base: a base of 2^34 + 1 ns waits 2^30 ns at attempt 31. */
  lemma WrappedDelayShrinks()
    ensures var base := 0x4_0000_0001;
            Delay(31, base, TWO_63 - 1) == 0x4000_0000 < base == Delay(1, base, TWO_63 - 1)
  {
    Pow2Of30();
    assert Pow2(0) == 1;
  }

  // ------------------------------------------------------------------ the reconnect loop

  /** The last cycle before `i` that opened a stream, or 0. */
  function LastConnected(connected: seq<bool>, i: nat): (j: nat)
    requires i <= |connected|
    ensures j <= i && (i > 0 ==> j < i)
    ensures forall k :: j < k < i ==> !connected[k]
    ensures j > 0 ==> connected[j]
  {
    if i == 0 then 0 else if connected[i - 1] then i - 1 else if i == 1 then 0 else LastConnected(connected, i - 1)
  }

  /** The wait before cycle i: none before the first, otherwise drawn for the attempt. */
  predicate WaitFits(i: nat, attempt: int, wait: int, base: int, maxDelay: int) {
    if i == 0 then wait == 0
    else Delay(attempt, base, maxDelay) / 2 <= wait <= Delay(attempt, base, maxDelay)
  }

  method Wait(i: nat, attempt: int, base: int, maxDelay: int, draw: nat) returns (wait: int)
    requires IsInt64(attempt) && IsInt64(base) && IsInt64(maxDelay) && (attempt > 0 <==> i > 0)
    ensures WaitFits(i, attempt, wait, base, maxDelay)
  {
    wait := 0;
    if attempt > 0 {
      wait := BackoffDuration(attempt, base, maxDelay, draw);
    }
  }

  /** Attempts count the cycles since the last one that connected, and each wait is drawn for its attempt. */
  ghost predicate Paced(connected: seq<bool>, attempts: seq<int>, waits: seq<int>, base: int, maxDelay: int) {
    && |attempts| == |waits| <= |connected|
    && (forall i :: 0 <= i < |attempts| ==> attempts[i] == i - LastConnected(connected, i))
    && (forall i :: 0 <= i < |attempts| ==> WaitFits(i, attempts[i], waits[i], base, maxDelay))
  }

  lemma PacedSnoc(connected: seq<bool>, attempts: seq<int>, waits: seq<int>, attempt: int, wait: int, base: int, maxDelay: int)
    requires Paced(connected, attempts, waits, base, maxDelay) && |attempts| < |connected|
    requires attempt == |attempts| - LastConnected(connected, |attempts|)
    requires WaitFits(|attempts|, attempt, wait, base, maxDelay)
    ensures Paced(connected, attempts + [attempt], waits + [wait], base, maxDelay)
  {
  }

  lemma NextAttempt(connected: seq<bool>, i: nat)
    requires i < |connected|
    ensures i + 1 - LastConnected(connected, i + 1) == (if connected[i] then 0 else i - LastConnected(connected, i)) + 1
  {
  }

  /** The loop over the cycles that run before cancellation. */
  method Run(connected: seq<bool>, base: int, maxDelay: int, draws: seq<nat>) returns (attempts: seq<int>, waits: seq<int>)
    requires IsInt64(base) && IsInt64(maxDelay) && |connected| <= |draws| && |connected| < TWO_63
    ensures |attempts| == |waits| == |connected|
    ensures Paced(connected, attempts, waits, base, maxDelay)
  {
    attempts, waits := [], [];
    var attempt := 0;
    for i := 0 to |connected|
      invariant |attempts| == |waits| == i
      invariant attempt == i - LastConnected(connected, i)
      invariant Paced(connected, attempts, waits, base, maxDelay)
    {
      var wait := Wait(i, attempt, base, maxDelay, draws[i]);
      PacedSnoc(connected, attempts, waits, attempt, wait, base, maxDelay);
      NextAttempt(connected, i);
      attempts, waits := attempts + [attempt], waits + [wait];
      if connected[i] {
        attempt := 0;
      }
      attempt := attempt + 1;
    }
  }

  /** After a cycle that connected, the next wait starts again from the base delay. */
  lemma ReconnectStartsOver(connected: seq<bool>, i: nat, base: int, maxDelay: int)
    requires IsInt64(base) && IsInt64(maxDelay) && 0 < i < |connected| && connected[i - 1]
    ensures Delay(i - LastConnected(connected, i), base, maxDelay) == Min(Base(base), Cap(maxDelay))
  {
    assert LastConnected(connected, i) == i - 1;
    assert Pow2(0) == 1;
  }
}
