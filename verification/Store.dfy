/**
  The analytics store as it is written: an object whose methods change three tables in one
  transaction each. `commits` stands for the database carrying the transaction through; when it
  does not, or a CHECK fails, the deferred rollback leaves every table as it was. For a single event
  the third ending, a commit whose acknowledgement is lost, is modelled too.
 */
module Store {
  import opened Wrappers
  import opened EventStore
  import opened CurrentItems
  import opened BatchIngest

  datatype StoreError = TransactionFailed

  /** How a commit ends: it takes effect and is acknowledged, it is rolled back, or it takes effect and the acknowledgement is lost. */
  datatype Commit = Acknowledged | RolledBack | AckLost

  datatype BatchResult = BatchResult(inserted: nat, bucketsTouched: nat)

  datatype ReconcileResult = ReconcileResult(upserted: nat, tombstoned: nat)

  datatype CurrentItem = CurrentItem(itemId: int, name: string, firstSeen: int, lastSeen: int, tombstoned: bool)

  /** One row folded from a batch; its times are still Go times. */
  datatype FoldedItem = FoldedItem(itemId: int, name: string, firstSeen: int, lastSeen: int, tombstonedAt: Option<int>)

  // ------------------------------------------------------------------ folding a batch

  /** The item ids of a batch in order of first appearance. */
  function Order(ev: seq<EventRecord>): seq<int> {
    if ev == [] then []
    else
      var before, id := Order(ev[..|ev| - 1]), ev[|ev| - 1].itemId;
      if id in before then before else before + [id]
  }

  ghost predicate Distinct(ids: seq<int>) {
    forall i, j :: 0 <= i < j < |ids| ==> ids[i] != ids[j]
  }

  lemma {:induction false} OrderListsEachItemOnce(ev: seq<EventRecord>)
    ensures Distinct(Order(ev))
    ensures forall id :: id in Order(ev) <==> id in IdsOf(ev)
    ensures forall id :: id in Order(ev) <==> Mentions(ev, id)
    decreases |ev|
  {
    if ev != [] {
      var n := |ev| - 1;
      OrderListsEachItemOnce(ev[..n]);
      assert forall i :: 0 <= i < n ==> ev[i] == ev[..n][i];
      forall id
        ensures id in Order(ev) <==> Mentions(ev, id)
      {
        if id in Order(ev) && id != ev[n].itemId {
          var i :| 0 <= i < n && ev[..n][i].itemId == id;
          assert ev[i].itemId == id;
        }
      }
    }
  }

  /** The folded item a winner stands for, before first_seen is filled in. */
  function FoldedWinner(w: EventRecord): FoldedItem {
    FoldedItem(w.itemId, w.itemName, 0, w.eventTime, if w.eventType == "deleted" then Some(w.eventTime) else None)
  }

  function DbRow(f: FoldedItem): ItemRow {
    ItemRow(f.name, DbTime(f.firstSeen), DbTime(f.lastSeen),
            if f.tombstonedAt.Some? then Some(DbTime(f.tombstonedAt.value)) else None)
  }

  /** What the fold's maps hold for one item after a prefix of the batch. */
  ghost predicate FoldedAt(done: seq<EventRecord>, id: int, firstSeen: map<int, int>, winners: map<int, FoldedItem>) {
    var first, winner := First(done, id), Winner(done, id, 1);
    && (id in firstSeen <==> first.Some?)
    && (id in winners <==> winner.Some?)
    && (first.Some? <==> winner.Some?)
    && (first.Some? ==> firstSeen[id] == first.value.eventTime)
    && (winner.Some? ==> winners[id] == FoldedWinner(winner.value))
  }

  /** One event keeps the fold state, whichever of the two branches it takes. */
  lemma FoldStep(done: seq<EventRecord>, e: EventRecord, id: int, firstSeen: map<int, int>, winners: map<int, FoldedItem>)
    requires FoldedAt(done, id, firstSeen, winners)
    requires FoldedAt(done, e.itemId, firstSeen, winners)
    ensures FoldedAt(done + [e], id,
              if e.itemId in firstSeen then firstSeen else firstSeen[e.itemId := e.eventTime],
              if e.itemId !in winners || e.eventTime >= winners[e.itemId].lastSeen
              then winners[e.itemId := FoldedWinner(e)] else winners)
  {
    assert (done + [e])[..|done|] == done;
  }

  method FoldCurrentItems(ev: seq<EventRecord>) returns (folded: seq<FoldedItem>)
    ensures |folded| == |Order(ev)|
    ensures forall i :: 0 <= i < |folded| ==> folded[i].itemId == Order(ev)[i]
    ensures forall i :: 0 <= i < |folded| ==> FoldRow(ev, folded[i].itemId) == Some(DbRow(folded[i]))
  {
    var order: seq<int>, firstSeen: map<int, int>, winners: map<int, FoldedItem> := [], map[], map[];
    for n := 0 to |ev|
      invariant order == Order(ev[..n])
      invariant forall id :: id in order <==> id in firstSeen
      invariant forall id :: FoldedAt(ev[..n], id, firstSeen, winners)
    {
      var e := ev[n];
      assert ev[..n + 1] == ev[..n] + [e];
      ghost var firstSeen0, winners0, done := firstSeen, winners, ev[..n + 1];
      if e.itemId !in firstSeen {
        firstSeen := firstSeen[e.itemId := e.eventTime];
        order := order + [e.itemId];
      }
      if e.itemId !in winners || e.eventTime >= winners[e.itemId].lastSeen {
        winners := winners[e.itemId := FoldedWinner(e)];
      }
      forall id
        ensures FoldedAt(done, id, firstSeen, winners)
      {
        FoldStep(ev[..n], e, id, firstSeen0, winners0);
      }
    }
    assert ev[..|ev|] == ev;
    WinnersKeepTheirItem(ev);
    folded := [];
    for n := 0 to |order|
      invariant |folded| == n
      invariant forall i :: 0 <= i < n ==> folded[i].itemId == order[i]
      invariant forall i :: 0 <= i < n ==> FoldRow(ev, folded[i].itemId) == Some(DbRow(folded[i]))
    {
      var id := order[n];
      assert id in order && FoldedAt(ev, id, firstSeen, winners);
      folded := folded + [winners[id].(firstSeen := firstSeen[id])];
    }
  }

  lemma WinnersKeepTheirItem(ev: seq<EventRecord>)
    ensures forall id :: Winner(ev, id, 1).Some? ==> Winner(ev, id, 1).value.itemId == id
  {
    forall id {
      WinnerPosition(ev, id, 1);
    }
  }

  // ------------------------------------------------------------------ the statements of the batch

  /** GROUP BY hour and type over the rows the insert returned. */
  method GroupByBucket(added: set<EventKey>) returns (deltas: map<BucketKey, nat>)
    ensures deltas == Deltas(added)
  {
    deltas := map[];
    var rest, seen: set<EventKey> := added, {};
    RaisedByNothing(map[]);
    while rest != {}
      invariant seen + rest == added && seen !! rest
      invariant Raised(map[], seen, deltas)
      decreases |rest|
    {
      var k :| k in rest;
      RaisedOneMore(map[], seen, deltas, k);
      deltas := CountUp(deltas, Bucket(k), 1);
      rest, seen := rest - {k}, seen + {k};
    }
    assert seen == added;
    DeltasRaise(map[], added);
    RaisedIsUnique(map[], added, deltas, AddDeltas(map[], Deltas(added)));
    assert AddDeltas(map[], Deltas(added)) == Deltas(added);
  }

  /** One upsert per delta. */
  method UpsertBuckets(buckets: map<BucketKey, nat>, deltas: map<BucketKey, nat>) returns (after: map<BucketKey, nat>)
    ensures after == AddDeltas(buckets, deltas)
  {
    after := buckets;
    var rest, done: map<BucketKey, nat> := deltas.Keys, map[];
    while rest != {}
      invariant rest <= deltas.Keys && done.Keys == deltas.Keys - rest
      invariant forall b :: b in done ==> done[b] == deltas[b]
      invariant after == AddDeltas(buckets, done)
      decreases |rest|
    {
      var b :| b in rest;
      AddOneDelta(buckets, done, b, deltas[b]);
      after := CountUp(after, b, deltas[b]);
      rest, done := rest - {b}, done[b := deltas[b]];
    }
    assert done == deltas;
  }

  lemma AddOneDelta(buckets: map<BucketKey, nat>, done: map<BucketKey, nat>, b: BucketKey, n: nat)
    requires b !in done
    ensures CountUp(AddDeltas(buckets, done), b, n) == AddDeltas(buckets, done[b := n])
  {
    var after := AddDeltas(buckets, done);
    assert CountOf(after, b) == CountOf(buckets, b);
    assert CountUp(after, b, n).Keys == AddDeltas(buckets, done[b := n]).Keys;
  }

  /** The multi-row insert and the keys it returns. */
  method InsertRows(events: map<EventKey, string>, rows: seq<DbEvent>) returns (after: map<EventKey, string>, added: set<EventKey>)
    ensures after == InsertAll(events, rows)
    ensures added == NewKeys(events, rows)
  {
    after, added := events, {};
    for i := 0 to |rows|
      invariant after == InsertAll(events, rows[..i])
      invariant after.Keys == events.Keys + KeysOf(rows[..i])
      invariant added == NewKeys(events, rows[..i])
    {
      assert rows[..i + 1][..i] == rows[..i];
      KeysOfSnoc(rows[..i + 1]);
      if rows[i].key !in after {
        after := after[rows[i].key := rows[i].name];
        added := added + {rows[i].key};
      }
    }
    assert rows[..|rows|] == rows;
  }

  /** The parameter slices of the batch, as rows at database precision. */
  method FillRows(ev: seq<EventRecord>) returns (rows: seq<DbEvent>)
    ensures rows == StoredAll(ev)
  {
    rows := [];
    for i := 0 to |ev|
      invariant |rows| == i
      invariant forall j :: 0 <= j < i ==> rows[j] == Stored(ev[j])
    {
      rows := rows + [Stored(ev[i])];
    }
  }

  /** One upsert per folded row; no id occurs twice, so no row is affected a second time. */
  method UpsertItems(items: map<int, ItemRow>, ev: seq<EventRecord>, folded: seq<FoldedItem>) returns (after: map<int, ItemRow>)
    requires |folded| == |Order(ev)|
    requires forall i :: 0 <= i < |folded| ==> folded[i].itemId == Order(ev)[i]
    requires forall i :: 0 <= i < |folded| ==> FoldRow(ev, folded[i].itemId) == Some(DbRow(folded[i]))
    ensures after == UpsertFolded(items, ev)
  {
    after := items;
    ghost var ids := Order(ev);
    OrderListsEachItemOnce(ev);
    for n := 0 to |folded|
      invariant forall id :: id in ids[..n] ==> RowAt(after, id) == Join(RowAt(items, id), FoldRow(ev, id))
      invariant forall id :: id !in ids[..n] ==> RowAt(after, id) == RowAt(items, id)
    {
      assert ids[..n + 1] == ids[..n] + [ids[n]];
      assert ids[n] !in ids[..n];
      after := Upsert(after, folded[n].itemId, DbRow(folded[n]));
    }
    assert ids[..|folded|] == ids;
    forall id
      ensures RowAt(after, id) == RowAt(UpsertFolded(items, ev), id)
    {
      if id !in ids {
        WinnerPosition(ev, id, 1);
        assert FoldRow(ev, id) == None;
      }
    }
    SameRowsSameItems(after, UpsertFolded(items, ev));
  }

  /** The statements of one batch in order, from the tables the transaction sees to the ones it commits. */
  method BatchTransaction(t: Tables, ev: seq<EventRecord>) returns (after: Tables, result: BatchResult)
    ensures after == BatchTables(t, ev)
    ensures result.inserted == SerialInserts(t, StoredAll(ev))
    ensures result.bucketsTouched == |Touched(t, after)|
  {
    var rows := FillRows(ev);
    var events, added := InsertRows(t.events, rows);
    var deltas := GroupByBucket(added);
    var buckets := UpsertBuckets(t.buckets, deltas);
    var folded := FoldCurrentItems(ev);
    var items := UpsertItems(t.items, ev, folded);
    after, result := Tables(events, buckets, items), BatchResult(|added|, |deltas|);
    BatchFacts(t, ev);
  }

  // ------------------------------------------------------------------ the statements of the reconcile

  method UpsertSnapshot(items: map<int, ItemRow>, snap: seq<SnapshotItem>, at: int)
    returns (after: map<int, ItemRow>, ids: set<int>, upserted: nat)
    ensures after == SnapshotUpserts(items, snap, at)
    ensures ids == SnapshotIds(snap)
    ensures upserted == |snap|
    ensures forall id :: id !in ids ==> RowAt(after, id) == RowAt(items, id)
    ensures forall id :: id in ids ==> id in after && after[id].tombstonedAt.None?
  {
    after, ids, upserted := items, {}, 0;
    for i := 0 to |snap|
      invariant after == SnapshotUpserts(items, snap[..i], at)
      invariant ids == SnapshotIds(snap[..i])
      invariant upserted == i
      invariant forall id :: id !in ids ==> RowAt(after, id) == RowAt(items, id)
      invariant forall id :: id in ids ==> id in after && after[id].tombstonedAt.None?
    {
      assert snap[..i + 1][..i] == snap[..i];
      SnapshotIdsSnoc(snap[..i + 1]);
      after := SnapshotUpsert(after, snap[i], at);
      ids := ids + {snap[i].itemId};
      upserted := upserted + 1;
    }
    assert snap[..|snap|] == snap;
  }

  /** UPDATE .. WHERE tombstoned_at IS NULL AND item_id is not in the snapshot. */
  method TombstoneRows(items: map<int, ItemRow>, ids: set<int>, at: int) returns (after: map<int, ItemRow>, affected: nat)
    ensures after == TombstoneMissing(items, ids, at)
    ensures affected == |Live(items).Keys - ids|
  {
    var missing := set id | id in items && items[id].tombstonedAt.None? && id !in ids;
    MissingIsUnlistedLive(items, ids, missing);
    after, affected := MarkRows(items, missing, at), |missing|;
  }

  /** The rows of `ids` with a tombstone. */
  function MarkRows(items: map<int, ItemRow>, ids: set<int>, at: int): map<int, ItemRow> {
    map id | id in items :: if id in ids then items[id].(tombstonedAt := Some(at)) else items[id]
  }

  lemma MissingIsUnlistedLive(items: map<int, ItemRow>, ids: set<int>, missing: set<int>)
    requires forall id :: id in missing <==> id in items && items[id].tombstonedAt.None? && id !in ids
    ensures missing == Live(items).Keys - ids
    ensures forall at :: MarkRows(items, missing, at) == TombstoneMissing(items, ids, at)
  {
    forall id
      ensures id in missing <==> id in Live(items).Keys - ids
    {
    }
  }

  // ------------------------------------------------------------------ the store

  class AnalyticsStore {
    var itemEvents: map<EventKey, string>
    var eventBuckets: map<BucketKey, nat>
    var currentItems: map<int, ItemRow>

    ghost function Contents(): Tables
      reads this
    {
      Tables(itemEvents, eventBuckets, currentItems)
    }

    constructor ()
      ensures Contents() == EMPTY
    {
      itemEvents, eventBuckets, currentItems := map[], map[], map[];
    }

    method IngestEvent(ev: EventRecord, commit: Commit) returns (r: Result<bool, StoreError>)
      modifies this
      ensures r.Ok? <==> KnownType(ev.eventType) && commit.Acknowledged?
      ensures commit.Acknowledged? ==>
                (r.Ok? <==> ev.eventType == "created" || ev.eventType == "updated" || ev.eventType == "deleted")
      ensures Contents() == if KnownType(ev.eventType) && !commit.RolledBack? then Apply(old(Contents()), Stored(ev)) else old(Contents())
      ensures r.Ok? ==> (r.value <==> Stored(ev).key !in old(Contents()).events)
    {
      if !KnownType(ev.eventType) || commit.RolledBack? {
        return Err(TransactionFailed);
      }
      var d := Stored(ev);
      var inserted := d.key !in itemEvents;
      if inserted {
        itemEvents := itemEvents[d.key := d.name];
        eventBuckets := CountUp(eventBuckets, Bucket(d.key), 1);
      }
      var tombstonedAt := None;
      if ev.eventType == "deleted" {
        tombstonedAt := Some(d.key.time);
      }
      currentItems := Upsert(currentItems, ev.itemId, ItemRow(ev.itemName, d.key.time, d.key.time, tombstonedAt));
      if commit.AckLost? {
        return Err(TransactionFailed);
      }
      return Ok(inserted);
    }

    method IngestEventsBatch(ev: seq<EventRecord>, commits: bool) returns (r: Result<BatchResult, StoreError>)
      modifies this
      ensures r.Ok? <==> ev == [] || (AllKnown(ev) && commits)
      ensures r.Ok? ==> Contents() == BatchTables(old(Contents()), ev)
      ensures r.Ok? ==> r.value.inserted == SerialInserts(old(Contents()), StoredAll(ev))
      ensures r.Ok? ==> r.value.bucketsTouched == |Touched(old(Contents()), Contents())|
      ensures r.Ok? && NoHiddenInversion(ev) ==> Contents() == ApplyAll(old(Contents()), StoredAll(ev))
      ensures r.Ok? && AtDbPrecision(ev) ==> Contents() == ApplyAll(old(Contents()), StoredAll(ev))
      ensures r.Err? ==> Contents() == old(Contents())
    {
      if AtDbPrecision(ev) {
        AlignedTimesHideNothing(ev);
      }
      if NoHiddenInversion(ev) {
        NoInversionIsSerial(Contents(), ev);
      }
      if |ev| == 0 {
        EmptyBatchIsNoOp(Contents());
        return Ok(BatchResult(0, 0));
      }
      if !(forall e | e in ev :: KnownType(e.eventType)) || !commits {
        return Err(TransactionFailed);
      }
      var t, result := BatchTransaction(Tables(itemEvents, eventBuckets, currentItems), ev);
      itemEvents, eventBuckets, currentItems := t.events, t.buckets, t.items;
      return Ok(result);
    }

    /** `now` is a Go time. */
    method ReconcileSnapshot(snap: seq<SnapshotItem>, now: int, commits: bool) returns (r: Result<ReconcileResult, StoreError>)
      modifies this
      ensures r.Ok? <==> commits
      ensures r.Ok? ==> Contents() == old(Contents()).(items := ReconcileItems(old(currentItems), snap, DbTime(now)))
      ensures r.Ok? ==> r.value.upserted == |snap|
      ensures r.Ok? ==> r.value.tombstoned == |Live(old(currentItems)).Keys - SnapshotIds(snap)|
      ensures r.Err? ==> Contents() == old(Contents())
    {
      if !commits {
        return Err(TransactionFailed);
      }
      var at := DbTime(now);
      var items, ids, upserted := UpsertSnapshot(currentItems, snap, at);
      var swept, tombstoned := TombstoneRows(items, ids, at);
      MissingRows(items, currentItems, ids);
      currentItems := swept;
      return Ok(ReconcileResult(upserted, tombstoned));
    }

    /** `cutoff` is at database precision. */
    method DeleteEventsOlderThan(cutoff: int, commits: bool) returns (r: Result<nat, StoreError>)
      modifies this`itemEvents
      ensures r.Ok? <==> commits
      ensures r.Ok? ==> itemEvents == Expire(old(itemEvents), cutoff)
      ensures r.Ok? ==> forall k :: k in itemEvents <==> k in old(itemEvents) && k.time >= cutoff
      ensures r.Ok? ==> forall k :: k in itemEvents ==> itemEvents[k] == old(itemEvents)[k]
      ensures r.Ok? ==> r.value == |old(itemEvents)| - |itemEvents|
      ensures r.Err? ==> itemEvents == old(itemEvents)
    {
      if !commits {
        return Err(TransactionFailed);
      }
      var gone := set k | k in itemEvents && k.time < cutoff;
      var kept := map k | k in itemEvents && k !in gone :: itemEvents[k];
      assert itemEvents.Keys == kept.Keys + gone;
      assert |itemEvents| == |itemEvents.Keys| && |kept| == |kept.Keys|;
      itemEvents := kept;
      return Ok(|gone|);
    }

    method GetCurrentItem(itemId: int) returns (item: Option<CurrentItem>)
      ensures item.Some? <==> itemId in currentItems
      ensures item.Some? && !item.value.tombstoned <==> itemId in Live(currentItems)
      ensures item.Some? ==>
                var row := currentItems[itemId];
                item.value == CurrentItem(itemId, row.name, row.firstSeen, row.lastSeen, row.tombstonedAt.Some?)
    {
      if itemId !in currentItems {
        return None;
      }
      var row := currentItems[itemId];
      return Some(CurrentItem(itemId, row.name, row.firstSeen, row.lastSeen, row.tombstonedAt.Some?));
    }
  }

  lemma BatchFacts(t: Tables, ev: seq<EventRecord>)
    ensures |NewKeys(t.events, StoredAll(ev))| == SerialInserts(t, StoredAll(ev))
    ensures |Deltas(NewKeys(t.events, StoredAll(ev)))| == |Touched(t, BatchTables(t, ev))|
  {
    BatchReport(t, ev);
    BatchRowsAndCounters(t, ev);
    var deltas := Deltas(NewKeys(t.events, StoredAll(ev)));
    assert |deltas| == |deltas.Keys|;
    assert Touched(t, BatchTables(t, ev)) == Touched(t, ApplyAll(t, StoredAll(ev)));
  }

  lemma NoInversionIsSerial(t: Tables, ev: seq<EventRecord>)
    requires NoHiddenInversion(ev)
    ensures BatchTables(t, ev) == ApplyAll(t, StoredAll(ev))
  {
    forall id
      ensures ClocksAgree(ev, id)
    {
      WinnersAgreeWithoutInversion(ev, id);
    }
    BatchRefinesSerial(ev);
  }

  lemma EmptyBatchIsNoOp(t: Tables)
    ensures BatchTables(t, []) == t
    ensures SerialInserts(t, StoredAll([])) == 0
    ensures |Touched(t, t)| == 0
  {
    assert StoredAll([]) == [];
    NoInversionIsSerial(t, []);
    assert Touched(t, t) == {};
  }

  lemma MissingRows(items: map<int, ItemRow>, before: map<int, ItemRow>, ids: set<int>)
    requires forall id :: id !in ids ==> RowAt(items, id) == RowAt(before, id)
    ensures Live(items).Keys - ids == Live(before).Keys - ids
  {
    forall id | id !in ids
      ensures id in Live(items) <==> id in Live(before)
    {
      assert RowAt(items, id) == RowAt(before, id);
    }
  }
}
