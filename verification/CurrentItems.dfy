/**
  current_items as a monoid action.

  The ON CONFLICT clause combines the stored row with the offered one. With "no row" as unit this
  combination is associative, so a whole sequence of events, or of batches, acts on an item through
  one digest row. Every result about current_items (batch against serial, replay, re-run,
  convergence) is then a fact about digests.
 */
module CurrentItems {
  import opened Wrappers
  import opened EventStore

  function RowAt(items: map<int, ItemRow>, id: int): Option<ItemRow> {
    if id in items then Some(items[id]) else None
  }

  function Join(a: Option<ItemRow>, b: Option<ItemRow>): Option<ItemRow> {
    if a.None? then b else if b.None? then a else Some(Merge(a.value, b.value))
  }

  lemma JoinAssociates(a: Option<ItemRow>, b: Option<ItemRow>, c: Option<ItemRow>)
    ensures Join(Join(a, b), c) == Join(a, Join(b, c))
  {
  }

  lemma SameRowsSameItems(x: map<int, ItemRow>, y: map<int, ItemRow>)
    requires forall id :: RowAt(x, id) == RowAt(y, id)
    ensures x == y
  {
    forall id
      ensures id in x <==> id in y
      ensures id in x ==> x[id] == y[id]
    {
      assert RowAt(x, id) == RowAt(y, id);
    }
  }

  // ------------------------------------------------------------------ serial ingestion

  function Offered(d: DbEvent, id: int): Option<ItemRow> {
    if d.key.itemId == id then Some(EventRow(d)) else None
  }

  /** The single row whose upsert has the effect of the whole sequence on item `id`. */
  function Digest(s: seq<DbEvent>, id: int): Option<ItemRow> {
    if s == [] then None else Join(Digest(s[..|s| - 1], id), Offered(s[|s| - 1], id))
  }

  lemma {:induction false} ItemAfter(t: Tables, s: seq<DbEvent>, id: int)
    ensures RowAt(ApplyAll(t, s).items, id) == Join(RowAt(t.items, id), Digest(s, id))
    decreases |s|
  {
    if s != [] {
      var init, d := s[..|s| - 1], s[|s| - 1];
      ItemAfter(t, init, id);
      JoinAssociates(RowAt(t.items, id), Digest(init, id), Offered(d, id));
    }
  }

  /** What a digest is: absent with no event, otherwise a newest event and the first one's time. */
  lemma {:induction false} DigestWitness(s: seq<DbEvent>, id: int)
    ensures Digest(s, id).None? <==> forall i :: 0 <= i < |s| ==> s[i].key.itemId != id
    ensures Digest(s, id).Some? ==>
              var r := Digest(s, id).value;
              && (exists i :: 0 <= i < |s| && s[i].key.itemId == id && EventRow(s[i]) == r.(firstSeen := s[i].key.time))
              && (forall i :: 0 <= i < |s| && s[i].key.itemId == id ==> s[i].key.time <= r.lastSeen)
              && (exists i :: 0 <= i < |s| && s[i].key.itemId == id && s[i].key.time == r.firstSeen
                    && forall j :: 0 <= j < i ==> s[j].key.itemId != id)
    decreases |s|
  {
    if s != [] {
      var n := |s| - 1;
      var init := s[..n];
      DigestWitness(init, id);
      assert forall i :: 0 <= i < n ==> s[i] == init[i];
      if Digest(s, id).Some? {
        var r := Digest(s, id).value;
        if Digest(init, id).Some? {
          var f :| 0 <= f < n && init[f].key.itemId == id && init[f].key.time == Digest(init, id).value.firstSeen
            && forall j :: 0 <= j < f ==> init[j].key.itemId != id;
          assert s[f].key.time == r.firstSeen;
          var w :| 0 <= w < n && init[w].key.itemId == id
            && EventRow(init[w]) == Digest(init, id).value.(firstSeen := init[w].key.time);
          if s[n].key.itemId == id && s[n].key.time >= Digest(init, id).value.lastSeen {
            assert EventRow(s[n]) == r.(firstSeen := s[n].key.time);
          } else {
            assert EventRow(s[w]) == r.(firstSeen := s[w].key.time);
          }
        } else {
          assert s[n].key.itemId == id;
          assert EventRow(s[n]) == r.(firstSeen := s[n].key.time);
        }
      } else {
        assert s[n].key.itemId != id;
      }
    }
  }

  // ------------------------------------------------------------------ winners inside one batch

  /**
    The last event of item `id` whose time, counted in units of `unit` nanoseconds, is the greatest:
    what a running maximum with "not before" leaves at the end.
   */
  function Winner(ev: seq<EventRecord>, id: int, unit: int): Option<EventRecord>
    requires unit > 0
  {
    if ev == [] then None
    else Newer(Winner(ev[..|ev| - 1], id, unit), Only(ev[|ev| - 1], id), unit)
  }

  function Tick(e: EventRecord, unit: int): int
    requires unit > 0
  {
    e.eventTime / unit
  }

  function Only(e: EventRecord, id: int): Option<EventRecord> {
    if e.itemId == id then Some(e) else None
  }

  /** The later of two candidates at resolution `unit`; a tie goes to the second. */
  function Newer(a: Option<EventRecord>, b: Option<EventRecord>, unit: int): Option<EventRecord>
    requires unit > 0
  {
    if a.None? then b
    else if b.None? then a
    else if Tick(b.value, unit) >= Tick(a.value, unit) then b else a
  }

  function First(ev: seq<EventRecord>, id: int): Option<EventRecord> {
    if ev == [] then None
    else
      var before := First(ev[..|ev| - 1], id);
      if before.Some? then before else Only(ev[|ev| - 1], id)
  }

  lemma NewerAssociates(a: Option<EventRecord>, b: Option<EventRecord>, c: Option<EventRecord>, unit: int)
    requires unit > 0
    ensures Newer(Newer(a, b, unit), c, unit) == Newer(a, Newer(b, c, unit), unit)
  {
  }

  /** Position `w` holds an event of `id` at the greatest time, and no later event of `id` reaches that time. */
  ghost predicate LastAtLatest(ev: seq<EventRecord>, id: int, unit: int, w: int)
    requires unit > 0
  {
    && 0 <= w < |ev| && ev[w].itemId == id
    && forall j :: 0 <= j < |ev| && ev[j].itemId == id ==>
         && Tick(ev[j], unit) <= Tick(ev[w], unit)
         && (w < j ==> Tick(ev[j], unit) < Tick(ev[w], unit))
  }

  ghost predicate Mentions(ev: seq<EventRecord>, id: int) {
    exists i :: 0 <= i < |ev| && ev[i].itemId == id
  }

  /** An event that is older, or of another item, leaves the latest position where it is. */
  lemma LatestStays(init: seq<EventRecord>, e: EventRecord, id: int, unit: int, w: int)
    requires unit > 0 && LastAtLatest(init, id, unit, w)
    requires e.itemId == id ==> Tick(e, unit) < Tick(init[w], unit)
    ensures LastAtLatest(init + [e], id, unit, w)
  {
  }

  lemma LatestMoves(init: seq<EventRecord>, e: EventRecord, id: int, unit: int)
    requires unit > 0 && e.itemId == id
    requires forall j :: 0 <= j < |init| && init[j].itemId == id ==> Tick(init[j], unit) <= Tick(e, unit)
    ensures LastAtLatest(init + [e], id, unit, |init|)
  {
  }

  lemma MentionsSnoc(init: seq<EventRecord>, e: EventRecord, id: int)
    ensures Mentions(init + [e], id) <==> Mentions(init, id) || e.itemId == id
  {
    var ev := init + [e];
    assert ev[|init|] == e;
    forall i | 0 <= i < |init|
      ensures ev[i] == init[i]
    {
    }
  }

  lemma {:induction false} WinnerPosition(ev: seq<EventRecord>, id: int, unit: int)
    requires unit > 0
    ensures Winner(ev, id, unit).Some? <==> Mentions(ev, id)
    ensures Winner(ev, id, unit).Some? ==>
              exists w :: LastAtLatest(ev, id, unit, w) && ev[w] == Winner(ev, id, unit).value
    decreases |ev|
  {
    if ev != [] {
      var init, e := ev[..|ev| - 1], ev[|ev| - 1];
      WinnerPosition(init, id, unit);
      assert ev == init + [e];
      MentionsSnoc(init, e, id);
      if Winner(init, id, unit).Some? {
        var w :| LastAtLatest(init, id, unit, w) && init[w] == Winner(init, id, unit).value;
        if e.itemId == id && Tick(e, unit) >= Tick(init[w], unit) {
          LatestMoves(init, e, id, unit);
        } else {
          LatestStays(init, e, id, unit, w);
        }
      } else if e.itemId == id {
        LatestMoves(init, e, id, unit);
      }
    }
  }

  lemma {:induction false} FirstPosition(ev: seq<EventRecord>, id: int)
    ensures First(ev, id).Some? <==> Mentions(ev, id)
    ensures First(ev, id).Some? ==>
              exists f :: 0 <= f < |ev| && ev[f] == First(ev, id).value && ev[f].itemId == id
                && forall j :: 0 <= j < f ==> ev[j].itemId != id
    decreases |ev|
  {
    if ev != [] {
      var n := |ev| - 1;
      var init := ev[..n];
      FirstPosition(init, id);
      assert forall i :: 0 <= i < n ==> ev[i] == init[i];
      if First(init, id).Some? {
        var f :| 0 <= f < n && init[f] == First(init, id).value && init[f].itemId == id
          && forall j :: 0 <= j < f ==> init[j].itemId != id;
        assert ev[f] == First(ev, id).value;
      } else if ev[n].itemId == id {
        assert ev[n] == First(ev, id).value;
      }
    }
  }

  lemma {:induction false} WinnerConcat(a: seq<EventRecord>, b: seq<EventRecord>, id: int, unit: int)
    requires unit > 0
    ensures Winner(a + b, id, unit) == Newer(Winner(a, id, unit), Winner(b, id, unit), unit)
    ensures First(a + b, id) == if First(a, id).Some? then First(a, id) else First(b, id)
    decreases |b|
  {
    if b == [] {
      assert a + b == a;
    } else {
      var init, e := b[..|b| - 1], b[|b| - 1];
      assert (a + b)[..|a + b| - 1] == a + init;
      WinnerConcat(a, init, id, unit);
      NewerAssociates(Winner(a, id, unit), Winner(init, id, unit), Only(e, id), unit);
    }
  }

  /** The row a first event and a winning event make, at database precision. */
  function RowOf(first: Option<EventRecord>, winner: Option<EventRecord>): Option<ItemRow> {
    if first.None? || winner.None? then None
    else
      var w := Stored(winner.value);
      Some(ItemRow(w.name, DbTime(first.value.eventTime), w.key.time, Tombstone(w)))
  }

  /** Serial ingestion compares times after they were stored. */
  lemma {:induction false} SerialDigest(ev: seq<EventRecord>, id: int)
    ensures Digest(StoredAll(ev), id) == RowOf(First(ev, id), Winner(ev, id, NANOS_PER_DB_TICK))
    decreases |ev|
  {
    if ev == [] {
      assert StoredAll(ev) == [];
    } else {
      var n := |ev| - 1;
      var s := StoredAll(ev);
      assert s[..n] == StoredAll(ev[..n]);
      SerialDigest(ev[..n], id);
      WinnerPosition(ev[..n], id, NANOS_PER_DB_TICK);
      FirstPosition(ev[..n], id);
    }
  }

  /** The folded row compares them before. */
  function FoldRow(ev: seq<EventRecord>, id: int): Option<ItemRow> {
    RowOf(First(ev, id), Winner(ev, id, 1))
  }

  /** Both pick an event of the item's latest microsecond, so their times agree in any case. */
  lemma WinnersShareTheTick(ev: seq<EventRecord>, id: int)
    ensures Winner(ev, id, 1).Some? <==> Winner(ev, id, NANOS_PER_DB_TICK).Some?
    ensures Winner(ev, id, 1).Some? ==>
              DbTime(Winner(ev, id, 1).value.eventTime) == DbTime(Winner(ev, id, NANOS_PER_DB_TICK).value.eventTime)
    ensures First(ev, id).Some? <==> Winner(ev, id, 1).Some?
  {
    WinnerPosition(ev, id, 1);
    WinnerPosition(ev, id, NANOS_PER_DB_TICK);
    FirstPosition(ev, id);
    if Mentions(ev, id) {
      var v :| LastAtLatest(ev, id, 1, v) && ev[v] == Winner(ev, id, 1).value;
      var w :| LastAtLatest(ev, id, NANOS_PER_DB_TICK, w) && ev[w] == Winner(ev, id, NANOS_PER_DB_TICK).value;
      assert Tick(ev[w], 1) <= Tick(ev[v], 1) && Tick(ev[v], NANOS_PER_DB_TICK) <= Tick(ev[w], NANOS_PER_DB_TICK);
    }
  }

  /** The part of an event that decides name and tombstone. */
  predicate SamePayload(a: EventRecord, b: EventRecord) {
    a.itemName == b.itemName && (a.eventType == "deleted" <==> b.eventType == "deleted")
  }
}
