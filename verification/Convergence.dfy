/** Order and repetition of events do not matter to the store, except for first_seen. */
module Convergence {
  import opened Wrappers
  import opened EventStore
  import opened CurrentItems

  /** The same events, in any order and any number of times each; a permutation is a special case. */
  ghost predicate SameEvents(a: seq<DbEvent>, b: seq<DbEvent>) {
    (forall d :: d in a ==> d in b) && (forall d :: d in b ==> d in a)
  }

  /** Events offered under one key carry one name. */
  ghost predicate KeysNameOnce(s: seq<DbEvent>) {
    forall d, e | d in s && e in s && d.key == e.key :: d.name == e.name
  }

  ghost predicate NoneNewer(s: seq<DbEvent>, d: DbEvent) {
    forall e | e in s && e.key.itemId == d.key.itemId :: e.key.time <= d.key.time
  }

  /** One of its item's newest events. */
  ghost predicate Latest(s: seq<DbEvent>, d: DbEvent) {
    d in s && NoneNewer(s, d)
  }

  predicate SameEffect(d: DbEvent, e: DbEvent) {
    d.name == e.name && (d.key.eventType == "deleted" <==> e.key.eventType == "deleted")
  }

  /** The events at an item's greatest time agree on the name and on being a deletion. */
  ghost predicate LatestAgree(s: seq<DbEvent>) {
    forall d, e | Latest(s, d) && Latest(s, e) && d.key.itemId == e.key.itemId :: SameEffect(d, e)
  }

  /** Equality of rows up to first_seen. */
  predicate SameState(a: Option<ItemRow>, b: Option<ItemRow>) {
    && (a.Some? <==> b.Some?)
    && (a.Some? ==> a.value == b.value.(firstSeen := a.value.firstSeen))
  }

  /** The event a digest takes its name and tombstone from is one of the item's latest. */
  lemma DigestIsLatest(s: seq<DbEvent>, id: int) returns (d: DbEvent)
    requires Digest(s, id).Some?
    ensures Latest(s, d) && d.key.itemId == id && EventRow(d) == Digest(s, id).value.(firstSeen := d.key.time)
  {
    DigestWitness(s, id);
    var i :| 0 <= i < |s| && s[i].key.itemId == id && EventRow(s[i]) == Digest(s, id).value.(firstSeen := s[i].key.time);
    d := s[i];
  }

  lemma SameEventsSameLatest(a: seq<DbEvent>, b: seq<DbEvent>, d: DbEvent)
    requires SameEvents(a, b) && Latest(b, d)
    ensures Latest(a, d)
  {
  }

  lemma DigestsExistTogether(a: seq<DbEvent>, b: seq<DbEvent>, id: int)
    requires SameEvents(a, b) && Digest(a, id).None?
    ensures Digest(b, id).None?
  {
    DigestWitness(a, id);
    DigestWitness(b, id);
    forall i | 0 <= i < |b|
      ensures b[i].key.itemId != id
    {
      assert b[i] in a;
    }
  }

  lemma DigestsConverge(a: seq<DbEvent>, b: seq<DbEvent>, id: int)
    requires SameEvents(a, b) && LatestAgree(a)
    ensures SameState(Digest(a, id), Digest(b, id))
  {
    if Digest(a, id).None? {
      DigestsExistTogether(a, b, id);
    } else if Digest(b, id).None? {
      DigestsExistTogether(b, a, id);
    } else {
      var d := DigestIsLatest(a, id);
      var e := DigestIsLatest(b, id);
      SameEventsSameLatest(a, b, e);
      SameRowState(d, e, Digest(a, id).value, Digest(b, id).value);
    }
  }

  lemma SameRowState(d: DbEvent, e: DbEvent, r: ItemRow, q: ItemRow)
    requires d.key.time == e.key.time && SameEffect(d, e)
    requires EventRow(d) == r.(firstSeen := d.key.time) && EventRow(e) == q.(firstSeen := e.key.time)
    ensures SameState(Some(r), Some(q))
  {
  }

  lemma SameEventsSameKeys(a: seq<DbEvent>, b: seq<DbEvent>)
    requires SameEvents(a, b)
    ensures KeysOf(a) == KeysOf(b)
  {
    forall k | k in KeysOf(a)
      ensures k in KeysOf(b)
    {
      var i :| 0 <= i < |a| && a[i].key == k;
      assert a[i] in b;
    }
    forall k | k in KeysOf(b)
      ensures k in KeysOf(a)
    {
      var i :| 0 <= i < |b| && b[i].key == k;
      assert b[i] in a;
    }
  }

  /** The name a raw row keeps: the old one, or that of some event offered under its key. */
  lemma RawRowName(t: Tables, s: seq<DbEvent>, k: EventKey)
    requires k in ApplyAll(t, s).events
    ensures k in t.events ==> ApplyAll(t, s).events[k] == t.events[k]
    ensures k !in t.events ==> DbEvent(k, ApplyAll(t, s).events[k]) in s
  {
    EventsAfter(t, s);
    if k !in t.events {
      var i :| 0 <= i < |s| && s[i] == DbEvent(k, ApplyAll(t, s).events[k]);
    }
  }

  lemma RawRowsConverge(t: Tables, a: seq<DbEvent>, b: seq<DbEvent>)
    requires SameEvents(a, b) && KeysNameOnce(a)
    ensures ApplyAll(t, a).events == ApplyAll(t, b).events
  {
    var x, y := ApplyAll(t, a).events, ApplyAll(t, b).events;
    assert x.Keys == y.Keys by {
      EventsAfter(t, a);
      EventsAfter(t, b);
      SameEventsSameKeys(a, b);
    }
    forall k | k in x
      ensures x[k] == y[k]
    {
      RawRowName(t, a, k);
      RawRowName(t, b, k);
    }
  }

  /** From every starting store, every delivery of the same events reaches the same raw rows and item states as `a`. */
  ghost predicate OrderDoesNotMatter(a: seq<DbEvent>) {
    forall t, b | SameEvents(a, b) :: Converged(t, a, b)
  }

  ghost predicate Converged(t: Tables, a: seq<DbEvent>, b: seq<DbEvent>) {
    && ApplyAll(t, a).events == ApplyAll(t, b).events
    && forall id :: SameState(RowAt(ApplyAll(t, a).items, id), RowAt(ApplyAll(t, b).items, id))
  }

  /** Counters and insert counts never depend on order or repetition. */
  lemma CountersConverge(t: Tables, a: seq<DbEvent>, b: seq<DbEvent>)
    requires SameEvents(a, b)
    ensures ApplyAll(t, a).buckets == ApplyAll(t, b).buckets
    ensures SerialInserts(t, a) == SerialInserts(t, b)
  {
    SameEventsSameKeys(a, b);
    BucketsAfter(t, a);
    BucketsAfter(t, b);
    RaisedIsUnique(t.buckets, NewKeys(t.events, a), ApplyAll(t, a).buckets, ApplyAll(t, b).buckets);
  }

  lemma DeliveryConverges(t: Tables, a: seq<DbEvent>, b: seq<DbEvent>)
    requires SameEvents(a, b) && KeysNameOnce(a) && LatestAgree(a)
    ensures Converged(t, a, b)
    ensures Live(ApplyAll(t, a).items) == Live(ApplyAll(t, b).items)
  {
    RawRowsConverge(t, a, b);
    forall id
      ensures SameState(RowAt(ApplyAll(t, a).items, id), RowAt(ApplyAll(t, b).items, id))
    {
      ItemAfter(t, a, id);
      ItemAfter(t, b, id);
      DigestsConverge(a, b, id);
      SameStateAfterJoin(RowAt(t.items, id), Digest(a, id), Digest(b, id));
    }
    SameStateSameLive(ApplyAll(t, a).items, ApplyAll(t, b).items);
  }

  lemma SameStateAfterJoin(cur: Option<ItemRow>, a: Option<ItemRow>, b: Option<ItemRow>)
    requires SameState(a, b)
    ensures SameState(Join(cur, a), Join(cur, b))
  {
  }

  // ------------------------------------------------------------------ and when it does

  /** A key's name is the first one to arrive. */
  lemma FirstNameWins(d: DbEvent, s: seq<DbEvent>)
    ensures d.key in ApplyAll(EMPTY, [d] + s).events && ApplyAll(EMPTY, [d] + s).events[d.key] == d.name
  {
    assert [d][..0] == [];
    assert ApplyAll(EMPTY, []) == EMPTY;
    ApplyAllConcat(EMPTY, [d], s);
    EventsAfter(ApplyAll(EMPTY, [d]), s);
  }

  /** Of the newest events, an item's state is that of the last one to arrive. */
  lemma LastLatestWins(s: seq<DbEvent>, d: DbEvent)
    requires NoneNewer(s, d)
    ensures SameState(RowAt(ApplyAll(EMPTY, s + [d]).items, d.key.itemId), Some(EventRow(d)))
  {
    var id := d.key.itemId;
    ItemAfter(EMPTY, s + [d], id);
    assert (s + [d])[..|s|] == s;
    if Digest(s, id).Some? {
      var e := DigestIsLatest(s, id);
    }
  }

  lemma RepeatsAreSameEvents(s: seq<DbEvent>, d: DbEvent)
    requires d in s
    ensures SameEvents(s, [d] + s) && SameEvents(s, s + [d])
  {
  }

  lemma ConvergenceNamesKeysOnce(a: seq<DbEvent>, d: DbEvent, e: DbEvent)
    requires OrderDoesNotMatter(a) && d in a && e in a && d.key == e.key
    ensures d.name == e.name
  {
    RepeatsAreSameEvents(a, d);
    RepeatsAreSameEvents(a, e);
    FirstNameWins(d, a);
    FirstNameWins(e, a);
    assert Converged(EMPTY, a, [d] + a) && Converged(EMPTY, a, [e] + a);
  }

  lemma ConvergenceMakesLatestAgree(a: seq<DbEvent>, d: DbEvent, e: DbEvent)
    requires OrderDoesNotMatter(a) && Latest(a, d) && Latest(a, e) && d.key.itemId == e.key.itemId
    ensures SameEffect(d, e)
  {
    var id := d.key.itemId;
    RepeatsAreSameEvents(a, d);
    RepeatsAreSameEvents(a, e);
    LastLatestWins(a, d);
    LastLatestWins(a, e);
    assert Converged(EMPTY, a, a + [d]) && Converged(EMPTY, a, a + [e]);
    assert SameState(RowAt(ApplyAll(EMPTY, a).items, id), RowAt(ApplyAll(EMPTY, a + [d]).items, id));
    assert SameState(RowAt(ApplyAll(EMPTY, a).items, id), RowAt(ApplyAll(EMPTY, a + [e]).items, id));
  }

  /**
    Order and repetition of a list of events do not matter to raw rows and item states exactly when
    events under one key carry one name and the latest events of each item agree. A conflict below an
    item's latest time is harmless.
   */
  lemma DeliveriesConverge(a: seq<DbEvent>)
    ensures OrderDoesNotMatter(a) <==> KeysNameOnce(a) && LatestAgree(a)
  {
    if KeysNameOnce(a) && LatestAgree(a) {
      forall t, b | SameEvents(a, b)
        ensures Converged(t, a, b)
      {
        DeliveryConverges(t, a, b);
      }
    }
    if OrderDoesNotMatter(a) {
      forall d, e | d in a && e in a && d.key == e.key
        ensures d.name == e.name
      {
        ConvergenceNamesKeysOnce(a, d, e);
      }
      forall d, e | Latest(a, d) && Latest(a, e) && d.key.itemId == e.key.itemId
        ensures SameEffect(d, e)
      {
        ConvergenceMakesLatestAgree(a, d, e);
      }
    }
  }

  lemma SameStateSameLive(x: map<int, ItemRow>, y: map<int, ItemRow>)
    requires forall id :: SameState(RowAt(x, id), RowAt(y, id))
    ensures Live(x) == Live(y)
  {
    forall id
      ensures id in Live(x) <==> id in Live(y)
      ensures id in Live(x) ==> Live(x)[id] == Live(y)[id]
    {
      assert SameState(RowAt(x, id), RowAt(y, id));
    }
  }

  /** first_seen is the one column that remembers the order: a known item keeps it, a new item takes its first event's time. */
  lemma FirstSeenRemembersArrival(t: Tables, s: seq<DbEvent>, id: int)
    requires id in ApplyAll(t, s).items
    ensures id in t.items ==> ApplyAll(t, s).items[id].firstSeen == t.items[id].firstSeen
    ensures id !in t.items ==>
              exists i :: 0 <= i < |s| && s[i].key.itemId == id
                && s[i].key.time == ApplyAll(t, s).items[id].firstSeen
                && forall j :: 0 <= j < i ==> s[j].key.itemId != id
  {
    ItemAfter(t, s, id);
    DigestWitness(s, id);
  }

  /** At one instant, a create and a delete leave what came last. */
  lemma ConflictKeepsTheLastArrival(created: DbEvent, deleted: DbEvent)
    requires created.key.itemId == deleted.key.itemId && created.key.time == deleted.key.time
    requires created.key.eventType == "created" && deleted.key.eventType == "deleted"
    ensures SameEvents([created, deleted], [deleted, created])
    ensures !LatestAgree([created, deleted])
    ensures var id := created.key.itemId;
            !SameState(RowAt(ApplyAll(EMPTY, [created, deleted]).items, id),
                       RowAt(ApplyAll(EMPTY, [deleted, created]).items, id))
  {
    var a, b := [created, deleted], [deleted, created];
    assert a == [created] + [deleted] && b == [deleted] + [created];
    LastLatestWins([created], deleted);
    LastLatestWins([deleted], created);
    assert Latest(a, created) && Latest(a, deleted) by {
      assert created in a && deleted in a;
    }
  }
}
