/**
  The analytics database as a value: the three tables that ingestion writes, and what one
  event, one ListItems snapshot and one retention pass do to them.

  Two clocks meet here. A Go `time.Time` counts nanoseconds; a Postgres `timestamptz` keeps
  microseconds, so a time loses its last three digits when it is stored. `EventRecord` is what
  the Go code holds, `DbEvent` is what reaches the tables.
 */
module EventStore {
  import opened Wrappers

  const NANOS_PER_DB_TICK := 1_000
  const DB_TICKS_PER_HOUR := 3_600_000_000

  /** One event as the Go code holds it; `eventTime` is in nanoseconds since the epoch. */
  datatype EventRecord = EventRecord(itemId: int, itemName: string, eventType: string, eventTime: int)

  /** The unique key of a raw event row; `time` is in microseconds since the epoch. */
  datatype EventKey = EventKey(itemId: int, eventType: string, time: int)

  datatype DbEvent = DbEvent(key: EventKey, name: string)

  /** The primary key of an hourly counter: the hour's first microsecond and the event type. */
  datatype BucketKey = BucketKey(start: int, eventType: string)

  datatype ItemRow = ItemRow(name: string, firstSeen: int, lastSeen: int, tombstonedAt: Option<int>)

  datatype SnapshotItem = SnapshotItem(itemId: int, name: string)

  /** item_events, event_buckets and current_items. */
  datatype Tables = Tables(
    events: map<EventKey, string>,
    buckets: map<BucketKey, nat>,
    items: map<int, ItemRow>)

  const EMPTY := Tables(map[], map[], map[])

  // ------------------------------------------------------------------ from Go values to rows

  /** The CHECK constraint on event_type. */
  predicate KnownType(eventType: string) {
    eventType == "created" || eventType == "updated" || eventType == "deleted"
  }

  predicate AllKnown(ev: seq<EventRecord>) {
    forall e :: e in ev ==> KnownType(e.eventType)
  }

  function DbTime(nanos: int): int {
    nanos / NANOS_PER_DB_TICK
  }

  function Stored(e: EventRecord): DbEvent {
    DbEvent(EventKey(e.itemId, e.eventType, DbTime(e.eventTime)), e.itemName)
  }

  function StoredAll(ev: seq<EventRecord>): (s: seq<DbEvent>)
    ensures |s| == |ev|
    ensures forall i :: 0 <= i < |ev| ==> s[i] == Stored(ev[i])
  {
    seq(|ev|, i requires 0 <= i < |ev| => Stored(ev[i]))
  }

  function Bucket(k: EventKey): BucketKey {
    BucketKey(k.time / DB_TICKS_PER_HOUR * DB_TICKS_PER_HOUR, k.eventType)
  }

  // ------------------------------------------------------------------ one statement at a time

  /** INSERT .. ON CONFLICT DO NOTHING. */
  function InsertRaw(events: map<EventKey, string>, d: DbEvent): map<EventKey, string> {
    if d.key in events then events else events[d.key := d.name]
  }

  function CountOf(buckets: map<BucketKey, nat>, b: BucketKey): nat {
    if b in buckets then buckets[b] else 0
  }

  function CountUp(buckets: map<BucketKey, nat>, b: BucketKey, n: nat): map<BucketKey, nat> {
    buckets[b := CountOf(buckets, b) + n]
  }

  function Tombstone(d: DbEvent): Option<int> {
    if d.key.eventType == "deleted" then Some(d.key.time) else None
  }

  /** The VALUES tuple one event offers to current_items. */
  function EventRow(d: DbEvent): ItemRow {
    ItemRow(d.name, d.key.time, d.key.time, Tombstone(d))
  }

  /** The ON CONFLICT DO UPDATE of current_items: GREATEST, and CASE on the newer last_seen. */
  function Merge(cur: ItemRow, excluded: ItemRow): ItemRow {
    var wins := excluded.lastSeen >= cur.lastSeen;
    ItemRow(
      if wins then excluded.name else cur.name,
      cur.firstSeen,
      if wins then excluded.lastSeen else cur.lastSeen,
      if wins then excluded.tombstonedAt else cur.tombstonedAt)
  }

  function Upsert(items: map<int, ItemRow>, id: int, row: ItemRow): map<int, ItemRow> {
    items[id := if id in items then Merge(items[id], row) else row]
  }

  // ------------------------------------------------------------------ whole transactions

  /** What `IngestEvent` commits. */
  function Apply(t: Tables, d: DbEvent): Tables {
    Tables(
      InsertRaw(t.events, d),
      if d.key in t.events then t.buckets else CountUp(t.buckets, Bucket(d.key), 1),
      Upsert(t.items, d.key.itemId, EventRow(d)))
  }

  /** Calling `IngestEvent` once per event, in order. */
  function ApplyAll(t: Tables, s: seq<DbEvent>): Tables {
    if s == [] then t else Apply(ApplyAll(t, s[..|s| - 1]), s[|s| - 1])
  }

  /** How many of those calls report `inserted == true`. */
  function SerialInserts(t: Tables, s: seq<DbEvent>): nat {
    if s == [] then 0
    else
      var before := s[..|s| - 1];
      SerialInserts(t, before) + (if s[|s| - 1].key in ApplyAll(t, before).events then 0 else 1)
  }

  /** The upsert of one snapshot item. */
  function SnapshotUpsert(items: map<int, ItemRow>, item: SnapshotItem, now: int): map<int, ItemRow> {
    items[item.itemId :=
        if item.itemId in items then
          var cur := items[item.itemId];
          ItemRow(item.name, cur.firstSeen, if now > cur.lastSeen then now else cur.lastSeen, None)
        else ItemRow(item.name, now, now, None)]
  }

  function SnapshotUpserts(items: map<int, ItemRow>, snap: seq<SnapshotItem>, now: int): map<int, ItemRow> {
    if snap == [] then items
    else SnapshotUpsert(SnapshotUpserts(items, snap[..|snap| - 1], now), snap[|snap| - 1], now)
  }

  function SnapshotIds(snap: seq<SnapshotItem>): set<int> {
    set i | 0 <= i < |snap| :: snap[i].itemId
  }

  /** Tombstones every live row whose id the snapshot does not list. */
  function TombstoneMissing(items: map<int, ItemRow>, ids: set<int>, now: int): map<int, ItemRow> {
    map id | id in items :: if items[id].tombstonedAt.None? && id !in ids
      then items[id].(tombstonedAt := Some(now)) else items[id]
  }

  /** What `ReconcileSnapshot` commits to current_items. */
  function ReconcileItems(items: map<int, ItemRow>, snap: seq<SnapshotItem>, now: int): map<int, ItemRow> {
    TombstoneMissing(SnapshotUpserts(items, snap, now), SnapshotIds(snap), now)
  }

  /** What `DeleteEventsOlderThan` commits; `cutoff` is at database precision. */
  function Expire(events: map<EventKey, string>, cutoff: int): map<EventKey, string> {
    map k | k in events && k.time >= cutoff :: events[k]
  }

  /** The rows the read API reports as present. */
  function Live(items: map<int, ItemRow>): map<int, string> {
    map id | id in items && items[id].tombstonedAt.None? :: items[id].name
  }

  // ------------------------------------------------------------------ sets of keys

  function KeysOf(s: seq<DbEvent>): set<EventKey> {
    set i | 0 <= i < |s| :: s[i].key
  }

  /** The distinct keys of `s` that `events` does not hold yet. */
  function NewKeys(events: map<EventKey, string>, s: seq<DbEvent>): set<EventKey> {
    KeysOf(s) - events.Keys
  }

  function KeysIn(keys: set<EventKey>, b: BucketKey): set<EventKey> {
    set k | k in keys && Bucket(k) == b
  }

  function BucketsOf(keys: set<EventKey>): set<BucketKey> {
    set k | k in keys :: Bucket(k)
  }

  // ------------------------------------------------------------------ basic facts

  /** Retention keeps the rows from the cutoff on, each with its name, and no other. */
  lemma ExpireKeeps(events: map<EventKey, string>, cutoff: int, k: EventKey)
    ensures k in Expire(events, cutoff) <==> k in events && k.time >= cutoff
    ensures k in Expire(events, cutoff) ==> Expire(events, cutoff)[k] == events[k]
  {
  }

  /** A bucket is the whole UTC hour around its events, before and after the epoch, and keeps their type. */
  lemma BucketIsTheHour(k: EventKey)
    ensures Bucket(k).start % DB_TICKS_PER_HOUR == 0
    ensures Bucket(k).start <= k.time < Bucket(k).start + DB_TICKS_PER_HOUR
    ensures Bucket(k).eventType == k.eventType
  {
    var q := k.time / DB_TICKS_PER_HOUR;
    assert k.time == q * DB_TICKS_PER_HOUR + k.time % DB_TICKS_PER_HOUR;
  }

  lemma {:induction false} ApplyAllConcat(t: Tables, a: seq<DbEvent>, b: seq<DbEvent>)
    ensures ApplyAll(t, a + b) == ApplyAll(ApplyAll(t, a), b)
    decreases |b|
  {
    if b == [] {
      assert a + b == a;
    } else {
      var init := b[..|b| - 1];
      assert (a + b)[..|a + b| - 1] == a + init;
      ApplyAllConcat(t, a, init);
    }
  }

  lemma KeysOfSnoc(s: seq<DbEvent>)
    requires s != []
    ensures KeysOf(s) == KeysOf(s[..|s| - 1]) + {s[|s| - 1].key}
  {
    var n := |s| - 1;
    forall k | k in KeysOf(s)
      ensures k in KeysOf(s[..n]) + {s[n].key}
    {
      var i :| 0 <= i < |s| && s[i].key == k;
      if i < n {
        assert s[..n][i].key == k;
      }
    }
    forall k | k in KeysOf(s[..n])
      ensures k in KeysOf(s)
    {
      var i :| 0 <= i < n && s[..n][i].key == k;
      assert s[i].key == k;
    }
  }

  lemma SnapshotIdsSnoc(snap: seq<SnapshotItem>)
    requires snap != []
    ensures SnapshotIds(snap) == SnapshotIds(snap[..|snap| - 1]) + {snap[|snap| - 1].itemId}
  {
    var n := |snap| - 1;
    forall id | id in SnapshotIds(snap)
      ensures id in SnapshotIds(snap[..n]) + {snap[n].itemId}
    {
      var i :| 0 <= i < |snap| && snap[i].itemId == id;
      if i < n {
        assert snap[..n][i].itemId == id;
      }
    }
    forall id | id in SnapshotIds(snap[..n])
      ensures id in SnapshotIds(snap)
    {
      var i :| 0 <= i < n && snap[..n][i].itemId == id;
      assert snap[i].itemId == id;
    }
  }

  /** The raw rows after a sequence: everything offered is present, nothing old is overwritten. */
  lemma {:induction false} EventsAfter(t: Tables, s: seq<DbEvent>)
    ensures ApplyAll(t, s).events.Keys == t.events.Keys + KeysOf(s)
    ensures forall k :: k in t.events ==> ApplyAll(t, s).events[k] == t.events[k]
    ensures forall k :: k in KeysOf(s) && k !in t.events ==>
              exists i :: 0 <= i < |s| && s[i] == DbEvent(k, ApplyAll(t, s).events[k])
    decreases |s|
  {
    if s != [] {
      var n := |s| - 1;
      EventsAfter(t, s[..n]);
      KeysOfSnoc(s);
      var before := ApplyAll(t, s[..n]).events;
      forall k | k in KeysOf(s) && k !in t.events
        ensures exists i :: 0 <= i < |s| && s[i] == DbEvent(k, ApplyAll(t, s).events[k])
      {
        if k in before {
          var i :| 0 <= i < n && s[..n][i] == DbEvent(k, before[k]);
          assert s[i] == DbEvent(k, ApplyAll(t, s).events[k]);
        } else {
          assert s[n] == DbEvent(k, ApplyAll(t, s).events[k]);
        }
      }
    }
  }

  lemma KeysInAdd(keys: set<EventKey>, k: EventKey, b: BucketKey)
    requires k !in keys
    ensures |KeysIn(keys + {k}, b)| == |KeysIn(keys, b)| + (if Bucket(k) == b then 1 else 0)
  {
    if Bucket(k) == b {
      assert KeysIn(keys + {k}, b) == KeysIn(keys, b) + {k};
    } else {
      assert KeysIn(keys + {k}, b) == KeysIn(keys, b);
    }
  }

  lemma KeysInUnion(a: set<EventKey>, c: set<EventKey>, b: BucketKey)
    requires a !! c
    ensures |KeysIn(a + c, b)| == |KeysIn(a, b)| + |KeysIn(c, b)|
  {
    assert KeysIn(a + c, b) == KeysIn(a, b) + KeysIn(c, b);
    assert KeysIn(a, b) !! KeysIn(c, b);
  }

  /** One more event adds its key to the new keys exactly when the table does not hold it by then. */
  lemma NewKeysSnoc(t: Tables, s: seq<DbEvent>)
    requires s != []
    ensures var added, k := NewKeys(t.events, s[..|s| - 1]), s[|s| - 1].key;
            if k in ApplyAll(t, s[..|s| - 1]).events then NewKeys(t.events, s) == added
            else k !in added && NewKeys(t.events, s) == added + {k}
  {
    EventsAfter(t, s[..|s| - 1]);
    KeysOfSnoc(s);
  }

  /** `after` holds every counter of `before`, each raised by the number of `added` keys it covers. */
  ghost predicate Raised(before: map<BucketKey, nat>, added: set<EventKey>, after: map<BucketKey, nat>) {
    && after.Keys == before.Keys + BucketsOf(added)
    && forall b :: CountOf(after, b) == CountOf(before, b) + |KeysIn(added, b)|
  }

  lemma RaisedOneMore(before: map<BucketKey, nat>, added: set<EventKey>, after: map<BucketKey, nat>, k: EventKey)
    requires Raised(before, added, after) && k !in added
    ensures Raised(before, added + {k}, CountUp(after, Bucket(k), 1))
  {
    var up := CountUp(after, Bucket(k), 1);
    assert BucketsOf(added + {k}) == BucketsOf(added) + {Bucket(k)};
    forall b
      ensures CountOf(up, b) == CountOf(before, b) + |KeysIn(added + {k}, b)|
    {
      KeysInAdd(added, k, b);
    }
  }

  lemma RaisedByNothing(before: map<BucketKey, nat>)
    ensures Raised(before, {}, before)
  {
    forall b
      ensures |KeysIn({}, b)| == 0
    {
      assert KeysIn({}, b) == {};
    }
  }

  /** Counters with the same keys and counts are the same table. */
  lemma RaisedIsUnique(before: map<BucketKey, nat>, added: set<EventKey>, a: map<BucketKey, nat>, b: map<BucketKey, nat>)
    requires Raised(before, added, a) && Raised(before, added, b)
    ensures a == b
  {
    forall k | k in a
      ensures a[k] == b[k]
    {
      assert CountOf(a, k) == CountOf(b, k);
    }
  }

  /** One more event raises the counters by its key exactly when that key is new. */
  lemma BucketsStep(before: map<BucketKey, nat>, t: Tables, d: DbEvent, added: set<EventKey>)
    requires Raised(before, added, t.buckets) && (d.key !in t.events ==> d.key !in added)
    ensures Raised(before, if d.key in t.events then added else added + {d.key}, Apply(t, d).buckets)
  {
    if d.key !in t.events {
      RaisedOneMore(before, added, t.buckets, d.key);
    }
  }

  /**
    The counters after a sequence, read off the set of new keys alone: each grows by the number of
    distinct new keys in its hour and type, and the number of calls that inserted is the number of
    distinct new keys.
   */
  lemma {:induction false} BucketsAfter(t: Tables, s: seq<DbEvent>)
    ensures Raised(t.buckets, NewKeys(t.events, s), ApplyAll(t, s).buckets)
    ensures SerialInserts(t, s) == |NewKeys(t.events, s)|
    decreases |s|
  {
    if s == [] {
      assert NewKeys(t.events, s) == {};
      RaisedByNothing(t.buckets);
    } else {
      BucketsAfter(t, s[..|s| - 1]);
      NewKeysSnoc(t, s);
      BucketsStep(t.buckets, ApplyAll(t, s[..|s| - 1]), s[|s| - 1], NewKeys(t.events, s[..|s| - 1]));
    }
  }
}
