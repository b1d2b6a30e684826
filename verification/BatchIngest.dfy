/**
  `IngestEventsBatch` as a function of the tables, statement by statement, and when it is the same
  as calling `IngestEvent` once per event.
 */
module BatchIngest {
  import opened Wrappers
  import opened EventStore
  import opened CurrentItems

  /** The multi-row insert: within the statement, too, the first row of a key is the one kept. */
  function InsertAll(events: map<EventKey, string>, s: seq<DbEvent>): map<EventKey, string> {
    if s == [] then events else InsertRaw(InsertAll(events, s[..|s| - 1]), s[|s| - 1])
  }

  /** GROUP BY hour and type over the returned rows. */
  function Deltas(added: set<EventKey>): map<BucketKey, nat> {
    map b | b in BucketsOf(added) :: |KeysIn(added, b)|
  }

  function AddDeltas(buckets: map<BucketKey, nat>, deltas: map<BucketKey, nat>): map<BucketKey, nat> {
    map b | b in buckets.Keys + deltas.Keys :: CountOf(buckets, b) + CountOf(deltas, b)
  }

  function IdsOf(ev: seq<EventRecord>): set<int> {
    set i | 0 <= i < |ev| :: ev[i].itemId
  }

  /** One upsert per item of the batch, offering the folded row. */
  function UpsertFolded(items: map<int, ItemRow>, ev: seq<EventRecord>): map<int, ItemRow> {
    map id | id in items.Keys + IdsOf(ev) && Join(RowAt(items, id), FoldRow(ev, id)).Some?
      :: Join(RowAt(items, id), FoldRow(ev, id)).value
  }

  function BatchTables(t: Tables, ev: seq<EventRecord>): Tables {
    var s := StoredAll(ev);
    Tables(
      InsertAll(t.events, s),
      AddDeltas(t.buckets, Deltas(NewKeys(t.events, s))),
      UpsertFolded(t.items, ev))
  }

  function Flatten(bs: seq<seq<EventRecord>>): seq<EventRecord> {
    if bs == [] then [] else Flatten(bs[..|bs| - 1]) + bs[|bs| - 1]
  }

  /** One transaction per batch. */
  function RunBatches(t: Tables, bs: seq<seq<EventRecord>>): Tables {
    if bs == [] then t else BatchTables(RunBatches(t, bs[..|bs| - 1]), bs[|bs| - 1])
  }

  /** The sum of the Inserted counts the batches report. */
  function BatchInserts(t: Tables, bs: seq<seq<EventRecord>>): nat {
    if bs == [] then 0
    else
      var before := bs[..|bs| - 1];
      BatchInserts(t, before) + |NewKeys(RunBatches(t, before).events, StoredAll(bs[|bs| - 1]))|
  }

  // ------------------------------------------------------------------ raw rows and counters

  lemma {:induction false} InsertAllIsSerial(t: Tables, s: seq<DbEvent>)
    ensures InsertAll(t.events, s) == ApplyAll(t, s).events
    decreases |s|
  {
    if s != [] {
      InsertAllIsSerial(t, s[..|s| - 1]);
    }
  }

  lemma TouchedIff(added: set<EventKey>, b: BucketKey)
    ensures b in BucketsOf(added) <==> |KeysIn(added, b)| != 0
  {
    if b in BucketsOf(added) {
      var k :| k in added && Bucket(k) == b;
      assert k in KeysIn(added, b);
    }
  }

  lemma DeltasRaise(buckets: map<BucketKey, nat>, added: set<EventKey>)
    ensures Raised(buckets, added, AddDeltas(buckets, Deltas(added)))
  {
    var after := AddDeltas(buckets, Deltas(added));
    forall b
      ensures CountOf(after, b) == CountOf(buckets, b) + |KeysIn(added, b)|
    {
      TouchedIff(added, b);
    }
  }

  /** Raw rows and counters never depend on how events were grouped into a transaction. */
  lemma BatchRowsAndCounters(t: Tables, ev: seq<EventRecord>)
    ensures BatchTables(t, ev).events == ApplyAll(t, StoredAll(ev)).events
    ensures BatchTables(t, ev).buckets == ApplyAll(t, StoredAll(ev)).buckets
  {
    var s := StoredAll(ev);
    var added := NewKeys(t.events, s);
    InsertAllIsSerial(t, s);
    BucketsAfter(t, s);
    DeltasRaise(t.buckets, added);
    RaisedIsUnique(t.buckets, added, AddDeltas(t.buckets, Deltas(added)), ApplyAll(t, s).buckets);
  }

  /** The counters a step from `before` to `after` changed. */
  function Touched(before: Tables, after: Tables): set<BucketKey> {
    set b | b in after.buckets && CountOf(after.buckets, b) != CountOf(before.buckets, b)
  }

  /**
    What the batch reports: as many inserted rows as serial calls returning true, and one delta for
    each counter those calls change.
   */
  lemma BatchReport(t: Tables, ev: seq<EventRecord>)
    ensures |NewKeys(t.events, StoredAll(ev))| == SerialInserts(t, StoredAll(ev))
    ensures Deltas(NewKeys(t.events, StoredAll(ev))).Keys == Touched(t, ApplyAll(t, StoredAll(ev)))
  {
    var added := NewKeys(t.events, StoredAll(ev));
    var after := ApplyAll(t, StoredAll(ev));
    BucketsAfter(t, StoredAll(ev));
    forall b
      ensures b in Deltas(added) <==> b in Touched(t, after)
    {
      TouchedIff(added, b);
    }
  }

  // ------------------------------------------------------------------ current_items over several batches

  /** The event that decides an item after several batches: folds compare nanoseconds, upserts microseconds. */
  function BatchWinner(bs: seq<seq<EventRecord>>, id: int): Option<EventRecord> {
    if bs == [] then None
    else Newer(BatchWinner(bs[..|bs| - 1], id), Winner(bs[|bs| - 1], id, 1), NANOS_PER_DB_TICK)
  }

  lemma BatchItem(t: Tables, ev: seq<EventRecord>, id: int)
    ensures RowAt(BatchTables(t, ev).items, id) == Join(RowAt(t.items, id), FoldRow(ev, id))
  {
    WinnerPosition(ev, id, 1);
    if FoldRow(ev, id).Some? {
      var w :| LastAtLatest(ev, id, 1, w) && ev[w] == Winner(ev, id, 1).value;
      assert ev[w].itemId in IdsOf(ev);
    }
  }

  lemma {:induction false} BatchWinnerTick(bs: seq<seq<EventRecord>>, id: int)
    ensures BatchWinner(bs, id).Some? <==> Winner(Flatten(bs), id, NANOS_PER_DB_TICK).Some?
    ensures BatchWinner(bs, id).Some? ==>
              Tick(BatchWinner(bs, id).value, NANOS_PER_DB_TICK)
              == Tick(Winner(Flatten(bs), id, NANOS_PER_DB_TICK).value, NANOS_PER_DB_TICK)
    ensures First(Flatten(bs), id).Some? <==> BatchWinner(bs, id).Some?
    decreases |bs|
  {
    if bs != [] {
      var init, b := bs[..|bs| - 1], bs[|bs| - 1];
      BatchWinnerTick(init, id);
      WinnerConcat(Flatten(init), b, id, NANOS_PER_DB_TICK);
      WinnersShareTheTick(b, id);
    }
  }

  /** The rows of two consecutive parts join to the row of the whole. */
  lemma RowsOfPartsJoin(f: Option<EventRecord>, w: Option<EventRecord>, f': Option<EventRecord>, w': Option<EventRecord>)
    requires (f.Some? <==> w.Some?) && (f'.Some? <==> w'.Some?)
    ensures Join(RowOf(f, w), RowOf(f', w')) == RowOf(if f.Some? then f else f', Newer(w, w', NANOS_PER_DB_TICK))
  {
  }

  lemma {:induction false} ItemAfterBatches(t: Tables, bs: seq<seq<EventRecord>>, id: int)
    ensures RowAt(RunBatches(t, bs).items, id)
         == Join(RowAt(t.items, id), RowOf(First(Flatten(bs), id), BatchWinner(bs, id)))
    decreases |bs|
  {
    if bs != [] {
      var init, b := bs[..|bs| - 1], bs[|bs| - 1];
      ItemAfterBatches(t, init, id);
      BatchItem(RunBatches(t, init), b, id);
      BatchWinnerTick(init, id);
      WinnersShareTheTick(b, id);
      WinnerConcat(Flatten(init), b, id, NANOS_PER_DB_TICK);
      ItemStep(RowAt(t.items, id), First(Flatten(init), id), BatchWinner(init, id), First(b, id), Winner(b, id, 1));
    }
  }

  lemma ItemStep(cur: Option<ItemRow>, f: Option<EventRecord>, w: Option<EventRecord>, f': Option<EventRecord>, w': Option<EventRecord>)
    requires (f.Some? <==> w.Some?) && (f'.Some? <==> w'.Some?)
    ensures Join(Join(cur, RowOf(f, w)), RowOf(f', w'))
         == Join(cur, RowOf(if f.Some? then f else f', Newer(w, w', NANOS_PER_DB_TICK)))
  {
    JoinAssociates(cur, RowOf(f, w), RowOf(f', w'));
    RowsOfPartsJoin(f, w, f', w');
  }

  lemma StoredConcat(a: seq<EventRecord>, b: seq<EventRecord>)
    ensures StoredAll(a + b) == StoredAll(a) + StoredAll(b)
  {
  }

  lemma {:induction false} RowsAndCountersAfterBatches(t: Tables, bs: seq<seq<EventRecord>>)
    ensures RunBatches(t, bs).events == ApplyAll(t, StoredAll(Flatten(bs))).events
    ensures RunBatches(t, bs).buckets == ApplyAll(t, StoredAll(Flatten(bs))).buckets
    ensures BatchInserts(t, bs) == SerialInserts(t, StoredAll(Flatten(bs)))
    decreases |bs|
  {
    if bs == [] {
      assert StoredAll(Flatten(bs)) == [];
    } else {
      var init, b := bs[..|bs| - 1], bs[|bs| - 1];
      RowsAndCountersAfterBatches(t, init);
      StoredConcat(Flatten(init), b);
      ConcatStep(t, StoredAll(Flatten(init)), StoredAll(b));
      BatchStep(RunBatches(t, init), ApplyAll(t, StoredAll(Flatten(init))), b);
    }
  }

  lemma ConcatStep(t: Tables, a: seq<DbEvent>, b: seq<DbEvent>)
    ensures ApplyAll(t, a + b) == ApplyAll(ApplyAll(t, a), b)
    ensures SerialInserts(t, a + b) == SerialInserts(t, a) + SerialInserts(ApplyAll(t, a), b)
  {
    ApplyAllConcat(t, a, b);
    SerialInsertsConcat(t, a, b);
  }

  lemma BatchStep(x: Tables, y: Tables, b: seq<EventRecord>)
    requires x.events == y.events && x.buckets == y.buckets
    ensures BatchTables(x, b).events == ApplyAll(y, StoredAll(b)).events
    ensures BatchTables(x, b).buckets == ApplyAll(y, StoredAll(b)).buckets
    ensures |NewKeys(x.events, StoredAll(b))| == SerialInserts(y, StoredAll(b))
  {
    BatchRowsAndCounters(x, b);
    SameRowsSameEffect(x, y, StoredAll(b));
    BucketsAfter(y, StoredAll(b));
  }

  /** Raw rows and counters evolve independently of current_items. */
  lemma {:induction false} SameRowsSameEffect(x: Tables, y: Tables, s: seq<DbEvent>)
    requires x.events == y.events && x.buckets == y.buckets
    ensures ApplyAll(x, s).events == ApplyAll(y, s).events
    ensures ApplyAll(x, s).buckets == ApplyAll(y, s).buckets
    decreases |s|
  {
    if s != [] {
      SameRowsSameEffect(x, y, s[..|s| - 1]);
    }
  }

  lemma {:induction false} SerialInsertsConcat(t: Tables, a: seq<DbEvent>, b: seq<DbEvent>)
    ensures SerialInserts(t, a + b) == SerialInserts(t, a) + SerialInserts(ApplyAll(t, a), b)
    decreases |b|
  {
    if b == [] {
      assert a + b == a;
    } else {
      var init := b[..|b| - 1];
      assert (a + b)[..|a + b| - 1] == a + init;
      SerialInsertsConcat(t, a, init);
      ApplyAllConcat(t, a, init);
    }
  }

  // ------------------------------------------------------------------ batches against serial ingestion

  predicate Agree(a: Option<EventRecord>, b: Option<EventRecord>) {
    a.Some? && b.Some? ==> SamePayload(a.value, b.value)
  }

  ghost predicate SettledAt(bs: seq<seq<EventRecord>>, id: int) {
    Agree(BatchWinner(bs, id), Winner(Flatten(bs), id, NANOS_PER_DB_TICK))
  }

  /**
    For every item, the event the batches settle on and the last event of the item's latest
    microsecond carry the same name and the same deleted-ness. The input alone decides this.
   */
  ghost predicate Settled(bs: seq<seq<EventRecord>>) {
    forall id :: SettledAt(bs, id)
  }

  /** From every starting store, the batches end where serial ingestion of the same events ends. */
  ghost predicate RefinesSerial(bs: seq<seq<EventRecord>>) {
    forall t :: RunBatches(t, bs) == ApplyAll(t, StoredAll(Flatten(bs)))
  }

  /** Two winners of one microsecond leave the same row, whatever was stored, exactly when they share a payload. */
  lemma PayloadDecidesTheRow(cur: Option<ItemRow>, f: Option<EventRecord>, a: Option<EventRecord>, b: Option<EventRecord>)
    requires (a.Some? <==> f.Some?) && (b.Some? <==> f.Some?)
    requires f.Some? ==> Tick(a.value, NANOS_PER_DB_TICK) == Tick(b.value, NANOS_PER_DB_TICK)
    ensures Agree(a, b) ==> RowOf(f, a) == RowOf(f, b)
    ensures cur.None? && Join(cur, RowOf(f, a)) == Join(cur, RowOf(f, b)) ==> Agree(a, b)
  {
  }

  lemma ItemsMatchSerial(t: Tables, bs: seq<seq<EventRecord>>, id: int)
    ensures SettledAt(bs, id) ==>
              RowAt(RunBatches(t, bs).items, id) == RowAt(ApplyAll(t, StoredAll(Flatten(bs))).items, id)
    ensures t == EMPTY && RowAt(RunBatches(t, bs).items, id) == RowAt(ApplyAll(t, StoredAll(Flatten(bs))).items, id) ==>
              SettledAt(bs, id)
  {
    ItemAfterBatches(t, bs, id);
    ItemAfter(t, StoredAll(Flatten(bs)), id);
    SerialDigest(Flatten(bs), id);
    BatchWinnerTick(bs, id);
    PayloadDecidesTheRow(RowAt(t.items, id), First(Flatten(bs), id), BatchWinner(bs, id),
      Winner(Flatten(bs), id, NANOS_PER_DB_TICK));
  }

  /**
    Any way of cutting a sequence into batches ends, from every starting store, in the tables that
    serial ingestion of the sequence reaches, exactly when the cut is settled.
   */
  lemma CutsRefineSerial(bs: seq<seq<EventRecord>>)
    ensures RefinesSerial(bs) <==> Settled(bs)
  {
    if Settled(bs) {
      forall t
        ensures RunBatches(t, bs) == ApplyAll(t, StoredAll(Flatten(bs)))
      {
        forall id {
          ItemsMatchSerial(t, bs, id);
        }
        SameRowsSameItems(RunBatches(t, bs).items, ApplyAll(t, StoredAll(Flatten(bs))).items);
        RowsAndCountersAfterBatches(t, bs);
      }
    }
    if RefinesSerial(bs) {
      assert RunBatches(EMPTY, bs) == ApplyAll(EMPTY, StoredAll(Flatten(bs)));
      forall id {
        ItemsMatchSerial(EMPTY, bs, id);
      }
    }
  }

  lemma OneBatch(t: Tables, ev: seq<EventRecord>, id: int)
    ensures RunBatches(t, [ev]) == BatchTables(t, ev)
    ensures Flatten([ev]) == ev
    ensures BatchWinner([ev], id) == Winner(ev, id, 1)
  {
    assert [ev][..0] == [];
    assert Flatten([ev]) == Flatten([]) + ev;
  }

  /** From every starting store, one batch ends where serial ingestion ends. */
  ghost predicate BatchIsSerial(ev: seq<EventRecord>) {
    forall t :: BatchTables(t, ev) == ApplyAll(t, StoredAll(ev))
  }

  ghost predicate ClocksAgree(ev: seq<EventRecord>, id: int) {
    Agree(Winner(ev, id, 1), Winner(ev, id, NANOS_PER_DB_TICK))
  }

  /** The same for one batch, in terms of the two clocks' winners. */
  lemma BatchRefinesSerial(ev: seq<EventRecord>)
    ensures BatchIsSerial(ev) <==> forall id :: ClocksAgree(ev, id)
  {
    CutsRefineSerial([ev]);
    forall id
      ensures SettledAt([ev], id) <==> ClocksAgree(ev, id)
    {
      OneBatch(EMPTY, ev, id);
    }
    OneBatchRefines(ev);
  }

  lemma OneBatchRefines(ev: seq<EventRecord>)
    ensures RefinesSerial([ev]) <==> BatchIsSerial(ev)
  {
    forall t
      ensures RunBatches(t, [ev]) == BatchTables(t, ev) && Flatten([ev]) == ev
    {
      OneBatch(t, ev, 0);
    }
    OneBatch(EMPTY, ev, 0);
    if RefinesSerial([ev]) {
      forall t
        ensures BatchTables(t, ev) == ApplyAll(t, StoredAll(ev))
      {
        assert RunBatches(t, [ev]) == ApplyAll(t, StoredAll(Flatten([ev])));
      }
    }
  }

  /** Whatever the times, a batch can differ from serial ingestion in name and tombstone only. */
  lemma BatchKeepsTheTimes(t: Tables, ev: seq<EventRecord>, id: int)
    ensures var b, s := BatchTables(t, ev), ApplyAll(t, StoredAll(ev));
            && (id in b.items <==> id in s.items)
            && (id in b.items ==>
                 && b.items[id].firstSeen == s.items[id].firstSeen
                 && b.items[id].lastSeen == s.items[id].lastSeen)
  {
    BatchItem(t, ev, id);
    ItemAfter(t, StoredAll(ev), id);
    SerialDigest(ev, id);
    WinnersShareTheTick(ev, id);
  }

  /** Listed as `a`, `b`; stored at one instant; really in the order `b`, `a`. */
  predicate HiddenOrder(a: EventRecord, b: EventRecord) {
    a.itemId == b.itemId && DbTime(a.eventTime) == DbTime(b.eventTime) && b.eventTime < a.eventTime
  }

  /**
    No event is earlier, by less than a stored microsecond, than an earlier-listed event of the same
    item with another payload.
   */
  ghost predicate NoHiddenInversion(ev: seq<EventRecord>) {
    forall i, j | 0 <= i < j < |ev| && HiddenOrder(ev[i], ev[j]) :: SamePayload(ev[i], ev[j])
  }

  predicate AtDbPrecision(ev: seq<EventRecord>) {
    forall i :: 0 <= i < |ev| ==> ev[i].eventTime % NANOS_PER_DB_TICK == 0
  }

  lemma AlignedTimesHideNothing(ev: seq<EventRecord>)
    requires AtDbPrecision(ev)
    ensures NoHiddenInversion(ev)
  {
  }

  /** The nanosecond winner and the microsecond winner are one event, or a hidden inversion. */
  lemma WinnersAreInverted(ev: seq<EventRecord>, id: int, v: int, w: int)
    requires LastAtLatest(ev, id, 1, v) && LastAtLatest(ev, id, NANOS_PER_DB_TICK, w) && v != w
    ensures v < w && HiddenOrder(ev[v], ev[w])
  {
    assert Tick(ev[w], 1) <= Tick(ev[v], 1) && (v < w ==> Tick(ev[w], 1) < Tick(ev[v], 1));
    assert Tick(ev[v], NANOS_PER_DB_TICK) <= Tick(ev[w], NANOS_PER_DB_TICK);
  }

  lemma WinnersAgreeWithoutInversion(ev: seq<EventRecord>, id: int)
    requires NoHiddenInversion(ev)
    ensures Agree(Winner(ev, id, 1), Winner(ev, id, NANOS_PER_DB_TICK))
  {
    WinnerPosition(ev, id, 1);
    WinnerPosition(ev, id, NANOS_PER_DB_TICK);
    if Mentions(ev, id) {
      var v :| LastAtLatest(ev, id, 1, v) && ev[v] == Winner(ev, id, 1).value;
      var w :| LastAtLatest(ev, id, NANOS_PER_DB_TICK, w) && ev[w] == Winner(ev, id, NANOS_PER_DB_TICK).value;
      if v != w {
        WinnersAreInverted(ev, id, v, w);
      }
    }
  }

  /** Without a hidden inversion every cut into batches is settled. */
  lemma {:induction false} NoInversionSettles(bs: seq<seq<EventRecord>>)
    requires NoHiddenInversion(Flatten(bs))
    ensures Settled(bs)
    decreases |bs|
  {
    if bs != [] {
      var init, b := bs[..|bs| - 1], bs[|bs| - 1];
      PartsHideNothing(Flatten(init), b);
      NoInversionSettles(init);
      forall id
        ensures SettledAt(bs, id)
      {
        assert SettledAt(init, id);
        WinnerConcat(Flatten(init), b, id, NANOS_PER_DB_TICK);
        BatchWinnerTick(init, id);
        WinnersShareTheTick(b, id);
        WinnersAgreeWithoutInversion(b, id);
      }
    }
  }

  lemma PartsHideNothing(a: seq<EventRecord>, b: seq<EventRecord>)
    requires NoHiddenInversion(a + b)
    ensures NoHiddenInversion(a) && NoHiddenInversion(b)
  {
    var ab := a + b;
    forall i, j | 0 <= i < j < |a| && HiddenOrder(a[i], a[j])
      ensures SamePayload(a[i], a[j])
    {
      assert ab[i] == a[i] && ab[j] == a[j];
    }
    forall i, j | 0 <= i < j < |b| && HiddenOrder(b[i], b[j])
      ensures SamePayload(b[i], b[j])
    {
      assert ab[|a| + i] == b[i] && ab[|a| + j] == b[j];
    }
  }

  // ------------------------------------------------------------------ one cut against another

  /** From every starting store, two lists of batches end in the same tables. */
  ghost predicate SameOutcome(a: seq<seq<EventRecord>>, b: seq<seq<EventRecord>>) {
    forall t :: RunBatches(t, a) == RunBatches(t, b)
  }

  ghost predicate SameWinner(a: seq<seq<EventRecord>>, b: seq<seq<EventRecord>>, id: int) {
    Agree(BatchWinner(a, id), BatchWinner(b, id))
  }

  /** Raw rows, counters and insert counts never depend on the cut. */
  lemma CutsShareRowsAndCounters(t: Tables, a: seq<seq<EventRecord>>, b: seq<seq<EventRecord>>)
    requires Flatten(a) == Flatten(b)
    ensures RunBatches(t, a).events == RunBatches(t, b).events
    ensures RunBatches(t, a).buckets == RunBatches(t, b).buckets
    ensures BatchInserts(t, a) == BatchInserts(t, b) == SerialInserts(t, StoredAll(Flatten(a)))
  {
    RowsAndCountersAfterBatches(t, a);
    RowsAndCountersAfterBatches(t, b);
  }

  lemma RowsOfCuts(t: Tables, a: seq<seq<EventRecord>>, b: seq<seq<EventRecord>>, id: int)
    requires Flatten(a) == Flatten(b)
    ensures SameWinner(a, b, id) ==> RowAt(RunBatches(t, a).items, id) == RowAt(RunBatches(t, b).items, id)
    ensures t == EMPTY && RowAt(RunBatches(t, a).items, id) == RowAt(RunBatches(t, b).items, id) ==> SameWinner(a, b, id)
  {
    ItemAfterBatches(t, a, id);
    ItemAfterBatches(t, b, id);
    BatchWinnerTick(a, id);
    BatchWinnerTick(b, id);
    PayloadDecidesTheRow(RowAt(t.items, id), First(Flatten(a), id), BatchWinner(a, id), BatchWinner(b, id));
  }

  /**
    Two ways to cut one sequence end, from every starting store, in the same tables exactly when for
    each item the two events they settle on carry the same payload.
   */
  lemma CutIndependence(a: seq<seq<EventRecord>>, b: seq<seq<EventRecord>>)
    requires Flatten(a) == Flatten(b)
    ensures SameOutcome(a, b) <==> forall id :: SameWinner(a, b, id)
  {
    if forall id :: SameWinner(a, b, id) {
      forall t
        ensures RunBatches(t, a) == RunBatches(t, b)
      {
        forall id {
          RowsOfCuts(t, a, b, id);
        }
        SameRowsSameItems(RunBatches(t, a).items, RunBatches(t, b).items);
        CutsShareRowsAndCounters(t, a, b);
      }
    }
    if SameOutcome(a, b) {
      assert RunBatches(EMPTY, a) == RunBatches(EMPTY, b);
      forall id {
        RowsOfCuts(EMPTY, a, b, id);
      }
    }
  }

  // ------------------------------------------------------------------ every cut

  /**
    Event `i` lies in its item's latest microsecond and is newer, in nanoseconds, than every later
    event of the item: a batch that starts with it settles on it.
   */
  ghost predicate CanDecide(ev: seq<EventRecord>, id: int, i: int) {
    && 0 <= i < |ev| && ev[i].itemId == id
    && forall j :: 0 <= j < |ev| && ev[j].itemId == id ==>
         && Tick(ev[j], NANOS_PER_DB_TICK) <= Tick(ev[i], NANOS_PER_DB_TICK)
         && (i < j ==> ev[j].eventTime < ev[i].eventTime)
  }

  ghost predicate HarmlessAt(ev: seq<EventRecord>, id: int, i: int) {
    CanDecide(ev, id, i) ==> Agree(Some(ev[i]), Winner(ev, id, NANOS_PER_DB_TICK))
  }

  /** Every event that some cut could settle on carries the payload serial ingestion settles on. */
  ghost predicate CutProof(ev: seq<EventRecord>) {
    forall id, i :: HarmlessAt(ev, id, i)
  }

  ghost predicate EveryCutIsSerial(ev: seq<EventRecord>) {
    forall bs :: Flatten(bs) == ev ==> RefinesSerial(bs)
  }

  ghost predicate CutsNeverMatter(ev: seq<EventRecord>) {
    forall a, b :: Flatten(a) == ev && Flatten(b) == ev ==> SameOutcome(a, b)
  }

  lemma DeciderStays(a: seq<EventRecord>, b: seq<EventRecord>, id: int, i: int)
    requires CanDecide(a, id, i)
    requires forall j :: 0 <= j < |b| && b[j].itemId == id ==> Tick(b[j], NANOS_PER_DB_TICK) < Tick(a[i], NANOS_PER_DB_TICK)
    ensures CanDecide(a + b, id, i) && (a + b)[i] == a[i]
  {
  }

  lemma DeciderMoves(a: seq<EventRecord>, b: seq<EventRecord>, id: int, w: int)
    requires CanDecide(b, id, w)
    requires forall j :: 0 <= j < |a| && a[j].itemId == id ==> Tick(a[j], NANOS_PER_DB_TICK) <= Tick(b[w], NANOS_PER_DB_TICK)
    ensures CanDecide(a + b, id, |a| + w) && (a + b)[|a| + w] == b[w]
  {
    var ab := a + b;
    forall j | 0 <= j < |ab| && ab[j].itemId == id
      ensures Tick(ab[j], NANOS_PER_DB_TICK) <= Tick(b[w], NANOS_PER_DB_TICK)
      ensures |a| + w < j ==> ab[j].eventTime < b[w].eventTime
    {
      assert ab[j] == if j < |a| then a[j] else b[j - |a|];
    }
  }

  /** A batch settles on an event that can decide it. */
  lemma WinnerCanDecide(ev: seq<EventRecord>, id: int) returns (w: int)
    requires Winner(ev, id, 1).Some?
    ensures CanDecide(ev, id, w) && ev[w] == Winner(ev, id, 1).value
  {
    WinnerPosition(ev, id, 1);
    w :| LastAtLatest(ev, id, 1, w) && ev[w] == Winner(ev, id, 1).value;
    forall j | 0 <= j < |ev| && ev[j].itemId == id
      ensures Tick(ev[j], NANOS_PER_DB_TICK) <= Tick(ev[w], NANOS_PER_DB_TICK)
      ensures w < j ==> ev[j].eventTime < ev[w].eventTime
    {
      assert Tick(ev[j], 1) <= Tick(ev[w], 1);
    }
  }

  /** Of two deciders the one that is newer to the database decides the whole, the second on a tie. */
  lemma DecidersCombine(a: seq<EventRecord>, b: seq<EventRecord>, id: int, i: int, w: int)
    requires CanDecide(a, id, i) && CanDecide(b, id, w)
    ensures var k := if Tick(b[w], NANOS_PER_DB_TICK) >= Tick(a[i], NANOS_PER_DB_TICK) then |a| + w else i;
            CanDecide(a + b, id, k) && Some((a + b)[k]) == Newer(Some(a[i]), Some(b[w]), NANOS_PER_DB_TICK)
  {
    if Tick(b[w], NANOS_PER_DB_TICK) >= Tick(a[i], NANOS_PER_DB_TICK) {
      DeciderMoves(a, b, id, w);
    } else {
      DeciderStays(a, b, id, i);
    }
  }

  /** What `a` settled on, if it mentions the item at all, followed by one more batch. */
  lemma DeciderOfBoth(a: seq<EventRecord>, before: Option<EventRecord>, i: int, b: seq<EventRecord>, id: int) returns (k: int)
    requires if before.Some? then CanDecide(a, id, i) && a[i] == before.value else !Mentions(a, id)
    requires before.Some? || Winner(b, id, 1).Some?
    ensures CanDecide(a + b, id, k) && Some((a + b)[k]) == Newer(before, Winner(b, id, 1), NANOS_PER_DB_TICK)
  {
    if Winner(b, id, 1).None? {
      WinnerPosition(b, id, 1);
      DeciderStays(a, b, id, i);
      return i;
    }
    var w := WinnerCanDecide(b, id);
    if before.None? {
      DeciderMoves(a, b, id, w);
      return |a| + w;
    }
    DecidersCombine(a, b, id, i, w);
    k := if Tick(b[w], NANOS_PER_DB_TICK) >= Tick(a[i], NANOS_PER_DB_TICK) then |a| + w else i;
  }

  lemma UnmentionedInBatches(bs: seq<seq<EventRecord>>, id: int)
    requires BatchWinner(bs, id).None?
    ensures !Mentions(Flatten(bs), id)
  {
    BatchWinnerTick(bs, id);
    WinnerPosition(Flatten(bs), id, NANOS_PER_DB_TICK);
  }

  /** So do several batches. */
  lemma {:induction false} BatchWinnerCanDecide(bs: seq<seq<EventRecord>>, id: int) returns (k: int)
    requires BatchWinner(bs, id).Some?
    ensures CanDecide(Flatten(bs), id, k) && Flatten(bs)[k] == BatchWinner(bs, id).value
    decreases |bs|
  {
    var init, b, i := bs[..|bs| - 1], bs[|bs| - 1], 0;
    if BatchWinner(init, id).Some? {
      i := BatchWinnerCanDecide(init, id);
    } else {
      UnmentionedInBatches(init, id);
    }
    k := DeciderOfBoth(Flatten(init), BatchWinner(init, id), i, b, id);
  }

  lemma TwoBatches(a: seq<EventRecord>, b: seq<EventRecord>, id: int)
    ensures Flatten([a, b]) == a + b
    ensures BatchWinner([a, b], id) == Newer(Winner(a, id, 1), Winner(b, id, 1), NANOS_PER_DB_TICK)
  {
    var two := [a, b];
    OneBatch(EMPTY, a, id);
    assert two[..1] == [a];
  }

  /** Cutting right before an event that can decide makes the batches settle on it. */
  lemma CutBefore(ev: seq<EventRecord>, id: int, i: int)
    requires CanDecide(ev, id, i)
    ensures Flatten([ev[..i], ev[i..]]) == ev
    ensures BatchWinner([ev[..i], ev[i..]], id) == Some(ev[i])
  {
    var head, tail := ev[..i], ev[i..];
    TwoBatches(head, tail, id);
    assert head + tail == ev;
    WinnerPosition(tail, id, 1);
    assert tail[0].itemId == id;
    var v :| LastAtLatest(tail, id, 1, v) && tail[v] == Winner(tail, id, 1).value;
    assert tail[v] == ev[i + v] && Tick(tail[0], 1) <= Tick(tail[v], 1);
    assert v == 0;
    WinnerPosition(head, id, 1);
    if Mentions(head, id) {
      var u :| LastAtLatest(head, id, 1, u) && head[u] == Winner(head, id, 1).value;
      assert head[u] == ev[u];
    }
  }

  /** One batch per event. */
  function Singles(ev: seq<EventRecord>): seq<seq<EventRecord>> {
    if ev == [] then [] else Singles(ev[..|ev| - 1]) + [[ev[|ev| - 1]]]
  }

  lemma {:induction false} SinglesAreSerial(ev: seq<EventRecord>, id: int)
    ensures Flatten(Singles(ev)) == ev
    ensures BatchWinner(Singles(ev), id) == Winner(ev, id, NANOS_PER_DB_TICK)
    decreases |ev|
  {
    if ev != [] {
      var init, e := ev[..|ev| - 1], ev[|ev| - 1];
      SinglesAreSerial(init, id);
      assert Singles(ev)[..|Singles(ev)| - 1] == Singles(init);
      WinnerOfOne(e, id, 1);
    }
  }

  lemma WinnerOfOne(e: EventRecord, id: int, unit: int)
    requires unit > 0
    ensures Winner([e], id, unit) == Only(e, id)
  {
    assert [e][..0] == [];
  }

  lemma CutProofSettles(ev: seq<EventRecord>, bs: seq<seq<EventRecord>>)
    requires CutProof(ev) && Flatten(bs) == ev
    ensures RefinesSerial(bs)
  {
    forall id
      ensures SettledAt(bs, id)
    {
      if BatchWinner(bs, id).Some? {
        var i := BatchWinnerCanDecide(bs, id);
        assert HarmlessAt(ev, id, i);
      }
    }
    CutsRefineSerial(bs);
  }

  /**
    The final tables never depend on how the sequence is cut exactly when every cut ends in the
    tables of serial ingestion, and exactly when every event some cut could settle on carries the
    payload of the serial winner.
   */
  lemma CutsNeverMatterIff(ev: seq<EventRecord>)
    ensures CutsNeverMatter(ev) <==> CutProof(ev)
    ensures EveryCutIsSerial(ev) <==> CutProof(ev)
  {
    if CutProof(ev) {
      forall bs | Flatten(bs) == ev
        ensures RefinesSerial(bs)
      {
        CutProofSettles(ev, bs);
      }
      forall a, b | Flatten(a) == ev && Flatten(b) == ev
        ensures SameOutcome(a, b)
      {
        SerialCutsAgree(a, b);
      }
    }
    if CutsNeverMatter(ev) || EveryCutIsSerial(ev) {
      forall id, i
        ensures HarmlessAt(ev, id, i)
      {
        if CanDecide(ev, id, i) {
          DecidersAreHarmless(ev, id, i);
        }
      }
    }
  }

  lemma SerialCutsAgree(a: seq<seq<EventRecord>>, b: seq<seq<EventRecord>>)
    requires RefinesSerial(a) && RefinesSerial(b) && Flatten(a) == Flatten(b)
    ensures SameOutcome(a, b)
  {
    forall t
      ensures RunBatches(t, a) == RunBatches(t, b)
    {
      assert RunBatches(t, a) == ApplyAll(t, StoredAll(Flatten(a)));
      assert RunBatches(t, b) == ApplyAll(t, StoredAll(Flatten(b)));
    }
  }

  lemma DecidersAreHarmless(ev: seq<EventRecord>, id: int, i: int)
    requires CanDecide(ev, id, i) && (CutsNeverMatter(ev) || EveryCutIsSerial(ev))
    ensures HarmlessAt(ev, id, i)
  {
    var cut := [ev[..i], ev[i..]];
    CutBefore(ev, id, i);
    assert Flatten(cut) == ev;
    if CutsNeverMatter(ev) {
      SameOutcomeAsSingles(ev, cut, id);
    } else {
      SerialCutSettles(cut, id);
    }
  }

  lemma SameOutcomeAsSingles(ev: seq<EventRecord>, cut: seq<seq<EventRecord>>, id: int)
    requires CutsNeverMatter(ev) && Flatten(cut) == ev
    ensures Agree(BatchWinner(cut, id), Winner(ev, id, NANOS_PER_DB_TICK))
  {
    SinglesAreSerial(ev, id);
    assert SameOutcome(cut, Singles(ev));
    CutIndependence(cut, Singles(ev));
    assert SameWinner(cut, Singles(ev), id);
  }

  lemma SerialCutSettles(cut: seq<seq<EventRecord>>, id: int)
    requires RefinesSerial(cut)
    ensures Agree(BatchWinner(cut, id), Winner(Flatten(cut), id, NANOS_PER_DB_TICK))
  {
    CutsRefineSerial(cut);
    assert SettledAt(cut, id);
  }

  /** A sequence without a hidden inversion is one of them. */
  lemma NoInversionIsCutProof(ev: seq<EventRecord>)
    requires NoHiddenInversion(ev)
    ensures CutProof(ev)
  {
    forall id, i
      ensures HarmlessAt(ev, id, i)
    {
      if CanDecide(ev, id, i) {
        CutBefore(ev, id, i);
        NoInversionSettles([ev[..i], ev[i..]]);
        assert SettledAt([ev[..i], ev[i..]], id);
      }
    }
  }

  /**
    The nanosecond comparison is visible: half a microsecond of disorder inside one microsecond makes
    the batch keep an item that serial ingestion tombstones, and makes the cut matter.
   */
  lemma HiddenInversionIsVisible() returns (ev: seq<EventRecord>)
    ensures |ev| == 2
    ensures RowAt(ApplyAll(EMPTY, StoredAll(ev)).items, 7) == Some(ItemRow("w", 1, 1, Some(1)))
    ensures RowAt(BatchTables(EMPTY, ev).items, 7) == Some(ItemRow("w", 1, 1, None))
    ensures !SameOutcome([ev], Singles(ev))
  {
    var c, d := EventRecord(7, "w", "created", 1_500), EventRecord(7, "w", "deleted", 1_200);
    ev := [c, d];
    PairWinners(c, d);
    SerialDigest(ev, 7);
    ItemAfter(EMPTY, StoredAll(ev), 7);
    BatchItem(EMPTY, ev, 7);
    OneBatch(EMPTY, ev, 7);
    SinglesAreSerial(ev, 7);
    CutIndependence([ev], Singles(ev));
    assert !SameWinner([ev], Singles(ev), 7);
  }

  /** Of two events of one item the first wins at a resolution where it is later, the second otherwise. */
  lemma PairWinners(c: EventRecord, d: EventRecord)
    requires c.itemId == d.itemId
    ensures First([c, d], c.itemId) == Some(c)
    ensures forall unit :: unit > 0 ==> Winner([c, d], c.itemId, unit) == if Tick(d, unit) >= Tick(c, unit) then Some(d) else Some(c)
  {
    var ev := [c, d];
    assert ev[..1] == [c] && [c][..0] == [];
    assert First([c], c.itemId) == Some(c);
    forall unit | unit > 0
      ensures Winner(ev, c.itemId, unit) == if Tick(d, unit) >= Tick(c, unit) then Some(d) else Some(c)
    {
      WinnerOfOne(c, c.itemId, unit);
    }
  }

  // ------------------------------------------------------------------ replay

  /** Ingesting a sequence again right after itself changes no table and inserts nothing. */
  lemma ReplayIsNoOp(t: Tables, s: seq<DbEvent>)
    ensures ApplyAll(ApplyAll(t, s), s) == ApplyAll(t, s)
    ensures SerialInserts(ApplyAll(t, s), s) == 0
  {
    var once := ApplyAll(t, s);
    forall id
      ensures RowAt(ApplyAll(once, s).items, id) == RowAt(once.items, id)
    {
      ItemAfter(t, s, id);
      ItemAfter(once, s, id);
    }
    SameRowsSameItems(ApplyAll(once, s).items, once.items);
    ReplayAddsNothing(t, s);
  }

  lemma ReplayAddsNothing(t: Tables, s: seq<DbEvent>)
    ensures ApplyAll(ApplyAll(t, s), s).events == ApplyAll(t, s).events
    ensures ApplyAll(ApplyAll(t, s), s).buckets == ApplyAll(t, s).buckets
    ensures SerialInserts(ApplyAll(t, s), s) == 0
  {
    var once := ApplyAll(t, s);
    EventsAfter(t, s);
    assert NewKeys(once.events, s) == {};
    NothingNewChangesNothing(once, s);
  }

  lemma NothingNewChangesNothing(t: Tables, s: seq<DbEvent>)
    requires NewKeys(t.events, s) == {}
    ensures ApplyAll(t, s).events == t.events && ApplyAll(t, s).buckets == t.buckets && SerialInserts(t, s) == 0
  {
    EventsAfter(t, s);
    BucketsAfter(t, s);
    RaisedByNothing(t.buckets);
    RaisedIsUnique(t.buckets, {}, ApplyAll(t, s).buckets, t.buckets);
  }

  /**
    A run cut off after any prefix, however that prefix was batched, followed by a full run ends in
    the tables of the full run alone. No condition on the times is needed.
   */
  lemma SafeRerun(t: Tables, partial: seq<seq<EventRecord>>, full: seq<seq<EventRecord>>)
    requires Flatten(partial) <= Flatten(full)
    ensures RunBatches(RunBatches(t, partial), full) == RunBatches(t, full)
  {
    var done, alone := RunBatches(RunBatches(t, partial), full), RunBatches(t, full);
    forall id {
      RerunItem(t, partial, full, id);
    }
    SameRowsSameItems(done.items, alone.items);
    RerunRows(t, partial, full);
  }

  /** A batch that took effect without being acknowledged can be sent again. */
  lemma BatchRetryIsNoOp(t: Tables, ev: seq<EventRecord>)
    ensures BatchTables(BatchTables(t, ev), ev) == BatchTables(t, ev)
  {
    SafeRerun(t, [ev], [ev]);
    OneBatch(t, ev, 0);
    OneBatch(BatchTables(t, ev), ev, 0);
  }

  lemma RerunItem(t: Tables, partial: seq<seq<EventRecord>>, full: seq<seq<EventRecord>>, id: int)
    requires Flatten(partial) <= Flatten(full)
    ensures RowAt(RunBatches(RunBatches(t, partial), full).items, id) == RowAt(RunBatches(t, full).items, id)
  {
    ItemAfterBatches(t, partial, id);
    ItemAfterBatches(RunBatches(t, partial), full, id);
    ItemAfterBatches(t, full, id);
    PrefixIsDominated(partial, full, id);
    DominatedRowIsAbsorbed(RowAt(t.items, id),
      RowOf(First(Flatten(partial), id), BatchWinner(partial, id)), RowOf(First(Flatten(full), id), BatchWinner(full, id)));
  }

  lemma PrefixIsDominated(partial: seq<seq<EventRecord>>, full: seq<seq<EventRecord>>, id: int)
    requires Flatten(partial) <= Flatten(full)
    ensures Dominated(RowOf(First(Flatten(partial), id), BatchWinner(partial, id)),
                      RowOf(First(Flatten(full), id), BatchWinner(full, id)))
  {
    var p, g := Flatten(partial), Flatten(full);
    assert g == p + g[|p|..];
    BatchWinnerTick(partial, id);
    BatchWinnerTick(full, id);
    WinnerConcat(p, g[|p|..], id, NANOS_PER_DB_TICK);
  }

  /** `b` starts at the same event as `a` and is no older. */
  predicate Dominated(a: Option<ItemRow>, b: Option<ItemRow>) {
    a.Some? ==> b.Some? && a.value.firstSeen == b.value.firstSeen && a.value.lastSeen <= b.value.lastSeen
  }

  /** A row followed by one that is no older and starts at the same event leaves no trace. */
  lemma DominatedRowIsAbsorbed(cur: Option<ItemRow>, a: Option<ItemRow>, b: Option<ItemRow>)
    requires Dominated(a, b)
    ensures Join(Join(cur, a), b) == Join(cur, b)
  {
  }

  lemma RerunRows(t: Tables, partial: seq<seq<EventRecord>>, full: seq<seq<EventRecord>>)
    requires Flatten(partial) <= Flatten(full)
    ensures RunBatches(RunBatches(t, partial), full).events == RunBatches(t, full).events
    ensures RunBatches(RunBatches(t, partial), full).buckets == RunBatches(t, full).buckets
  {
    var p, g := Flatten(partial), Flatten(full);
    var sp, sg, sr := StoredAll(p), StoredAll(g), StoredAll(g[|p|..]);
    assert sg == sp + sr;
    RowsAndCountersAfterBatches(t, partial);
    RowsAndCountersAfterBatches(RunBatches(t, partial), full);
    RowsAndCountersAfterBatches(t, full);
    SameRowsSameEffect(RunBatches(t, partial), ApplyAll(t, sp), sg);
    ReplayIsNoOp(t, sp);
    ApplyAllConcat(ApplyAll(t, sp), sp, sr);
    ApplyAllConcat(t, sp, sr);
  }
}
