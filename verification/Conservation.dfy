/**
  Whole runs of the store: what the hourly counters count.

  A ledger keeps, beside the tables, what the tables forget: the keys retention deleted, and the
  keys that were inserted again after retention had deleted them.
 */
module Conservation {
  import opened Wrappers
  import opened EventStore
  import opened CurrentItems
  import opened BatchIngest

  datatype Step =
    | IngestOne(e: EventRecord)
    | IngestBatch(ev: seq<EventRecord>)
    | Reconcile(snap: seq<SnapshotItem>, now: int)
    | Retain(cutoff: int)

  datatype Ledger = Ledger(
    t: Tables,
    offered: set<EventKey>,
    deleted: seq<set<EventKey>>,
    revived: seq<set<EventKey>>,
    horizon: Option<int>)

  const START := Ledger(EMPTY, {}, [], [], None)

  function OfferedBy(step: Step): seq<EventRecord> {
    match step
    case IngestOne(e) => [e]
    case IngestBatch(ev) => ev
    case _ => []
  }

  /** The tables after one transaction; an unknown event type violates a CHECK and rolls it back. */
  function StepTables(t: Tables, step: Step): Tables {
    match step
    case IngestOne(e) => if KnownType(e.eventType) then Apply(t, Stored(e)) else t
    case IngestBatch(ev) => if AllKnown(ev) then BatchTables(t, ev) else t
    case Reconcile(snap, now) => t.(items := ReconcileItems(t.items, snap, now))
    case Retain(cutoff) => t.(events := Expire(t.events, cutoff))
  }

  function KeysOffered(step: Step): set<EventKey> {
    if AllKnown(OfferedBy(step)) then KeysOf(StoredAll(OfferedBy(step))) else {}
  }

  function Later(h: Option<int>, cutoff: int): int {
    if h.Some? && h.value > cutoff then h.value else cutoff
  }

  function Next(l: Ledger, step: Step): Ledger {
    var keys := KeysOffered(step);
    Ledger(
      StepTables(l.t, step),
      l.offered + keys,
      if step.Retain? then l.deleted + [set k | k in l.t.events && k.time < step.cutoff] else l.deleted,
      l.revived + [(keys - l.t.events.Keys) * l.offered],
      if step.Retain? then Some(Later(l.horizon, step.cutoff)) else l.horizon)
  }

  function Run(steps: seq<Step>): Ledger {
    if steps == [] then START else Next(Run(steps[..|steps| - 1]), steps[|steps| - 1])
  }

  /** How often keys of bucket `b` occur in a list of key sets. */
  function Tally(sets: seq<set<EventKey>>, b: BucketKey): nat {
    if sets == [] then 0 else Tally(sets[..|sets| - 1], b) + |KeysIn(sets[|sets| - 1], b)|
  }

  /**
    A counter is the raw rows still there plus the rows retention deleted; and it is the distinct
    keys ever offered plus the keys that came back after deletion.
   */
  ghost predicate BalancedAt(l: Ledger, b: BucketKey) {
    && CountOf(l.t.buckets, b) == |KeysIn(l.t.events.Keys, b)| + Tally(l.deleted, b)
    && CountOf(l.t.buckets, b) == |KeysIn(l.offered, b)| + Tally(l.revived, b)
  }

  ghost predicate Conserved(l: Ledger) {
    && (forall b :: BalancedAt(l, b))
    && l.t.events.Keys <= l.offered
    && (forall k :: k in l.offered && k !in l.t.events ==> l.horizon.Some? && k.time < l.horizon.value)
  }

  lemma IngestOneAdds(t: Tables, e: EventRecord)
    requires KnownType(e.eventType)
    ensures ApplyAll(t, StoredAll([e])) == Apply(t, Stored(e))
  {
    assert StoredAll([e]) == [Stored(e)] && [Stored(e)][..0] == [];
    assert ApplyAll(t, []) == t;
  }

  lemma SerialAdds(t: Tables, ev: seq<EventRecord>)
    ensures ApplyAll(t, StoredAll(ev)).events.Keys == t.events.Keys + KeysOf(StoredAll(ev))
    ensures Raised(t.buckets, KeysOf(StoredAll(ev)) - t.events.Keys, ApplyAll(t, StoredAll(ev)).buckets)
  {
    EventsAfter(t, StoredAll(ev));
    BucketsAfter(t, StoredAll(ev));
  }

  /** What ingestion, serial or batched, does to rows and counters. */
  lemma IngestAdds(t: Tables, step: Step)
    requires step.IngestOne? || step.IngestBatch?
    ensures StepTables(t, step).events.Keys == t.events.Keys + KeysOffered(step)
    ensures Raised(t.buckets, KeysOffered(step) - t.events.Keys, StepTables(t, step).buckets)
  {
    var ev := OfferedBy(step);
    if AllKnown(ev) {
      SerialAdds(t, ev);
      if step.IngestOne? {
        assert step.e in ev;
        IngestOneAdds(t, step.e);
      } else {
        BatchRowsAndCounters(t, ev);
      }
    } else {
      RolledBack(t, step);
    }
  }

  lemma RolledBack(t: Tables, step: Step)
    requires (step.IngestOne? || step.IngestBatch?) && !AllKnown(OfferedBy(step))
    ensures StepTables(t, step) == t && KeysOffered(step) == {}
    ensures Raised(t.buckets, KeysOffered(step) - t.events.Keys, t.buckets)
  {
    if step.IngestOne? {
      assert OfferedBy(step) == [step.e];
    }
    assert KeysOffered(step) - t.events.Keys == {};
    RaisedByNothing(t.buckets);
  }

  lemma TallySnoc(sets: seq<set<EventKey>>, s: set<EventKey>, b: BucketKey)
    ensures Tally(sets + [s], b) == Tally(sets, b) + |KeysIn(s, b)|
  {
    assert (sets + [s])[..|sets|] == sets;
  }

  /** New keys split into those never offered before and those that come back. */
  lemma SplitOffer(rows: set<EventKey>, offered: set<EventKey>, keys: set<EventKey>, b: BucketKey)
    requires rows <= offered
    ensures |KeysIn(rows + keys, b)| == |KeysIn(rows, b)| + |KeysIn(keys - rows, b)|
    ensures |KeysIn(offered + keys, b)| + |KeysIn((keys - rows) * offered, b)|
         == |KeysIn(offered, b)| + |KeysIn(keys - rows, b)|
  {
    assert rows + keys == rows + (keys - rows);
    KeysInUnion(rows, keys - rows, b);
    assert offered + keys == offered + (keys - offered);
    KeysInUnion(offered, keys - offered, b);
    assert keys - rows == (keys - rows) * offered + (keys - offered);
    KeysInUnion((keys - rows) * offered, keys - offered, b);
  }

  lemma IngestBalances(l: Ledger, step: Step, b: BucketKey)
    requires Conserved(l) && (step.IngestOne? || step.IngestBatch?)
    ensures BalancedAt(Next(l, step), b)
  {
    var keys := KeysOffered(step);
    assert BalancedAt(l, b);
    IngestAdds(l.t, step);
    SplitOffer(l.t.events.Keys, l.offered, keys, b);
    TallySnoc(l.revived, (keys - l.t.events.Keys) * l.offered, b);
  }

  /** A step that offers nothing leaves the books on offered keys as they are. */
  lemma QuietStep(l: Ledger, step: Step, b: BucketKey)
    requires step.Retain? || step.Reconcile?
    ensures KeysOffered(step) == {}
    ensures Next(l, step).offered == l.offered
    ensures Tally(Next(l, step).revived, b) == Tally(l.revived, b)
  {
    assert StoredAll(OfferedBy(step)) == [];
    var back := (KeysOffered(step) - l.t.events.Keys) * l.offered;
    assert back == {};
    assert KeysIn(back, b) == {};
    TallySnoc(l.revived, back, b);
  }

  lemma RetainBalances(l: Ledger, step: Step, b: BucketKey)
    requires Conserved(l) && step.Retain?
    ensures BalancedAt(Next(l, step), b)
  {
    var kept := Next(l, step).t.events.Keys;
    var gone := set k | k in l.t.events && k.time < step.cutoff;
    assert BalancedAt(l, b);
    assert l.t.events.Keys == kept + gone && kept !! gone;
    KeysInUnion(kept, gone, b);
    TallySnoc(l.deleted, gone, b);
    QuietStep(l, step, b);
  }

  lemma ReconcileBalances(l: Ledger, step: Step, b: BucketKey)
    requires Conserved(l) && step.Reconcile?
    ensures BalancedAt(Next(l, step), b)
  {
    assert BalancedAt(l, b);
    QuietStep(l, step, b);
  }

  lemma StepConserves(l: Ledger, step: Step)
    requires Conserved(l)
    ensures Conserved(Next(l, step))
  {
    forall b
      ensures BalancedAt(Next(l, step), b)
    {
      match step
      case IngestOne(_) => IngestBalances(l, step, b);
      case IngestBatch(_) => IngestBalances(l, step, b);
      case Reconcile(_, _) => ReconcileBalances(l, step, b);
      case Retain(_) => RetainBalances(l, step, b);
    }
    if step.IngestOne? || step.IngestBatch? {
      IngestAdds(l.t, step);
    } else {
      QuietStep(l, step, Bucket(EventKey(0, "", 0)));
    }
  }

  /** Every run from an empty database conserves events. */
  lemma {:induction false} RunsConserve(steps: seq<Step>)
    ensures Conserved(Run(steps))
    decreases |steps|
  {
    if steps == [] {
      forall b
        ensures BalancedAt(START, b)
      {
        assert KeysIn({}, b) == {};
      }
    } else {
      RunsConserve(steps[..|steps| - 1]);
      StepConserves(Run(steps[..|steps| - 1]), steps[|steps| - 1]);
    }
  }

  // ------------------------------------------------------------------ counters as distinct events

  ghost predicate AllEmpty(sets: seq<set<EventKey>>) {
    forall i :: 0 <= i < |sets| ==> sets[i] == {}
  }

  ghost predicate NothingRevived(l: Ledger) {
    AllEmpty(l.revived)
  }

  ghost predicate CountsDistinctEvents(l: Ledger) {
    forall b :: CountOf(l.t.buckets, b) == |KeysIn(l.offered, b)|
  }

  lemma {:induction false} EmptySetsTallyZero(sets: seq<set<EventKey>>, b: BucketKey)
    requires AllEmpty(sets)
    ensures Tally(sets, b) == 0
    decreases |sets|
  {
    if sets != [] {
      EmptySetsTallyZero(sets[..|sets| - 1], b);
      assert KeysIn({}, b) == {};
    }
  }

  lemma {:induction false} TallySees(sets: seq<set<EventKey>>, i: nat, k: EventKey)
    requires i < |sets| && k in sets[i]
    ensures Tally(sets, Bucket(k)) > 0
    decreases |sets|
  {
    var n := |sets| - 1;
    if i < n {
      TallySees(sets[..n], i, k);
    } else {
      assert k in KeysIn(sets[n], Bucket(k));
    }
  }

  /**
    After any run the counters are the numbers of distinct events ever offered exactly when no key
    was ever inserted again after retention had deleted it.
   */
  lemma DistinctUnlessRevived(steps: seq<Step>)
    ensures CountsDistinctEvents(Run(steps)) <==> NothingRevived(Run(steps))
  {
    var l := Run(steps);
    RunsConserve(steps);
    if NothingRevived(l) {
      forall b
        ensures CountOf(l.t.buckets, b) == |KeysIn(l.offered, b)|
      {
        assert BalancedAt(l, b);
        EmptySetsTallyZero(l.revived, b);
      }
    } else {
      var i :| 0 <= i < |l.revived| && l.revived[i] != {};
      var k :| k in l.revived[i];
      TallySees(l.revived, i, k);
      assert BalancedAt(l, Bucket(k));
    }
  }

  /** The step offers no event older than a cutoff already applied. */
  predicate OnTime(l: Ledger, step: Step) {
    l.horizon.Some? ==> forall k :: k in KeysOffered(step) ==> k.time >= l.horizon.value
  }

  predicate RespectsHorizon(steps: seq<Step>) {
    steps != [] ==>
      RespectsHorizon(steps[..|steps| - 1]) && OnTime(Run(steps[..|steps| - 1]), steps[|steps| - 1])
  }

  lemma OnTimeRevivesNothing(l: Ledger, step: Step)
    requires Conserved(l) && OnTime(l, step)
    ensures (KeysOffered(step) - l.t.events.Keys) * l.offered == {}
  {
  }

  /** A run that never reaches behind its retention horizon counts every distinct event once. */
  lemma {:induction false} HorizonPreventsRevival(steps: seq<Step>)
    requires RespectsHorizon(steps)
    ensures NothingRevived(Run(steps)) && CountsDistinctEvents(Run(steps))
    decreases |steps|
  {
    if steps != [] {
      var init := steps[..|steps| - 1];
      HorizonPreventsRevival(init);
      RunsConserve(init);
      OnTimeRevivesNothing(Run(init), steps[|steps| - 1]);
    }
    DistinctUnlessRevived(steps);
  }
}
