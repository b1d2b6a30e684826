/**
  Backend and analytics client together, as a labelled transition system: item commits with their
  publish, the client's cycle of ListItems, reconcile and subscribe, delivery, same-event retries,
  stream loss and restarts, interleaved in any order.

  A commit and its publish are one step. Times are at database precision.
 */
module IngestProtocol {
  import opened Wrappers
  import opened EventStore
  import opened CurrentItems
  import opened Broadcaster
  import Store

  datatype Phase = Idle | Listed(snap: seq<SnapshotItem>) | Reconciled | Streaming

  /**
    `listed` is the backend at the last ListItems read and `missed` records a stream that was opened
    over a backend that is no longer that; `overflowed` records a publish that found the queue full and
    `outrun` a commit whose event lost against a newer row, both since the last ListItems. `high` bounds
    every time seen so far and `regressed` records a commit on an open stream below it.
   */
  datatype State = State(
    backend: map<int, string>,
    tables: Tables,
    phase: Phase,
    queue: seq<Message>,
    transit: seq<ItemEvent>,
    inHand: Option<ItemEvent>,
    listed: map<int, string>,
    missed: bool,
    overflowed: bool,
    outrun: bool,
    high: int,
    regressed: bool)

  datatype Label =
    | Commit(e: ItemEvent)
    | ListItems(snap: seq<SnapshotItem>)
    | Reconcile(now: int)
    | Subscribe
    | Pump
    | Recv
    | Persist(ending: Store.Commit)
    | LoseStream
    | Restart

  // ------------------------------------------------------------------ pieces of the state

  function Db(e: ItemEvent): DbEvent {
    DbEvent(EventKey(e.itemId, e.eventType, e.eventTime), e.itemName)
  }

  function IngestItem(items: map<int, ItemRow>, e: ItemEvent): map<int, ItemRow> {
    Upsert(items, e.itemId, EventRow(Db(e)))
  }

  function IngestItems(items: map<int, ItemRow>, es: seq<ItemEvent>): map<int, ItemRow> {
    if es == [] then items else IngestItem(IngestItems(items, es[..|es| - 1]), es[|es| - 1])
  }

  function Payloads(q: seq<Message>): seq<ItemEvent> {
    if q == [] then []
    else Payloads(q[..|q| - 1]) + (if q[|q| - 1].Event? then [q[|q| - 1].event] else [])
  }

  function InHand(s: State): seq<ItemEvent> {
    if s.inHand.Some? then [s.inHand.value] else []
  }

  /** Events on their way to the store, oldest first. */
  function Pending(s: State): seq<ItemEvent> {
    InHand(s) + s.transit + Payloads(s.queue)
  }

  /** current_items once everything on its way has arrived. */
  function Arriving(s: State): map<int, ItemRow> {
    IngestItems(s.tables.items, Pending(s))
  }

  /** The snapshot lists exactly the backend's rows, each once. */
  ghost predicate Represents(snap: seq<SnapshotItem>, items: map<int, string>) {
    && SnapshotIds(snap) == items.Keys
    && (forall i :: 0 <= i < |snap| ==> snap[i].itemId in items && items[snap[i].itemId] == snap[i].name)
  }

  /** The event takes effect on its item: it is no older than the row it meets. */
  predicate Wins(items: map<int, ItemRow>, e: ItemEvent) {
    e.itemId in items ==> e.eventTime >= items[e.itemId].lastSeen
  }

  function BackendAfter(items: map<int, string>, e: ItemEvent): map<int, string> {
    if e.eventType == "created" then items[e.itemId := e.itemName] else items - {e.itemId}
  }

  function Max(a: int, b: int): int {
    if a >= b then a else b
  }

  // ------------------------------------------------------------------ steps

  ghost predicate Enabled(s: State, l: Label) {
    match l
    case Commit(e) =>
      || (e.eventType == "created" && e.itemId !in s.backend)
      || (e.eventType == "deleted" && e.itemId in s.backend && s.backend[e.itemId] == e.itemName)
    case ListItems(snap) => s.phase.Idle? && Represents(snap, s.backend)
    case Reconcile(_) => s.phase.Listed?
    case Subscribe => s.phase.Reconciled?
    case Pump => s.phase.Streaming? && s.queue != [] && s.queue[0].Event?
    case Recv => s.inHand.None? && s.transit != []
    case Persist(_) => s.inHand.Some?
    case LoseStream => !s.phase.Idle? && s.inHand.None?
    case Restart => true
  }

  /** The transaction of one event; when its acknowledgement is lost the client keeps the event in hand and retries. */
  function Land(s: State, e: ItemEvent): State {
    s.(tables := Apply(s.tables, Db(e)))
  }

  function PersistStep(s: State, ending: Store.Commit): State
    requires s.inHand.Some?
  {
    match ending
    case RolledBack => s
    case AckLost => Land(s, s.inHand.value)
    case Acknowledged => Land(s, s.inHand.value).(inHand := None)
  }

  function PumpStep(s: State): State
    requires s.queue != [] && s.queue[0].Event?
  {
    s.(queue := s.queue[1..], transit := s.transit + [s.queue[0].event])
  }

  function RecvStep(s: State): State
    requires s.transit != []
  {
    s.(transit := s.transit[1..], inHand := Some(s.transit[0]))
  }

  function Disconnected(s: State): State {
    s.(phase := Idle, queue := [], transit := [], inHand := None)
  }

  function CommitStep(s: State, maxsize: int, e: ItemEvent): State {
    var full := Full(s.queue, maxsize);
    var streaming := s.phase.Streaming? && !s.overflowed;
    s.(backend := BackendAfter(s.backend, e),
       queue := if streaming then AfterPublish(s.queue, maxsize, e) else s.queue,
       overflowed := s.overflowed || (streaming && full),
       outrun := s.outrun || (streaming && !Wins(Arriving(s), e)),
       high := Max(s.high, e.eventTime),
       regressed := s.regressed || (s.phase.Streaming? && e.eventTime < s.high))
  }

  ghost function Step(s: State, maxsize: int, l: Label): State {
    if !Enabled(s, l) then s
    else match l
      case Commit(e) => CommitStep(s, maxsize, e)
      case ListItems(snap) =>
        s.(phase := Listed(snap), listed := s.backend, missed := false, overflowed := false, outrun := false, regressed := false)
      case Reconcile(now) =>
        s.(phase := Phase.Reconciled, tables := s.tables.(items := ReconcileItems(s.tables.items, s.phase.snap, now)), high := Max(s.high, now))
      case Subscribe => s.(phase := Streaming, queue := [], missed := s.backend != s.listed)
      case Pump => PumpStep(s)
      case Recv => RecvStep(s)
      case Persist(ending) => PersistStep(s, ending)
      case LoseStream => Disconnected(s)
      case Restart => Disconnected(s)
  }

  ghost function Run(s: State, maxsize: int, ls: seq<Label>): State {
    if ls == [] then s else Step(Run(s, maxsize, ls[..|ls| - 1]), maxsize, ls[|ls| - 1])
  }

  ghost predicate SeenBy(items: map<int, ItemRow>, high: int) {
    forall id :: id in items ==> items[id].lastSeen <= high
  }

  /** A client that has not connected yet, over any store and any backend. */
  ghost predicate Initial(s: State) {
    && s.phase.Idle? && s.queue == [] && s.transit == [] && s.inHand.None?
    && SeenBy(s.tables.items, s.high)
  }

  // ------------------------------------------------------------------ the invariant

  ghost predicate Agreement(s: State) {
    Live(Arriving(s)) == s.backend
  }

  /**
    Before the stream is open, the snapshot and then the live rows are the backend as it was listed.
    While it is up and nothing was missed, dropped or outrun since the last ListItems, current_items
    plus everything on its way is the backend's item map.
   */
  ghost predicate InSync(s: State) {
    match s.phase
    case Idle => true
    case Listed(snap) => Represents(snap, s.listed)
    case Reconciled => Live(s.tables.items) == s.listed
    case Streaming => !s.missed && !s.overflowed && !s.outrun ==> Agreement(s)
  }

  /** No stored row and no event on its way is newer than the clock's high-water mark. */
  ghost predicate Seen(s: State) {
    && SeenBy(s.tables.items, s.high)
    && (forall m :: m in s.queue && m.Event? ==> m.event.eventTime <= s.high)
    && (forall e :: e in s.transit ==> e.eventTime <= s.high)
    && (s.inHand.Some? ==> s.inHand.value.eventTime <= s.high)
  }

  ghost predicate Inv(s: State) {
    && InSync(s)
    && (!s.phase.Streaming? ==> s.queue == [] && s.transit == [] && s.inHand.None?)
    && (s.phase.Listed? || s.phase.Reconciled? ==> !s.overflowed && !s.outrun)
    && (Disconnect in s.queue ==> s.overflowed)
    && Seen(s)
    && (!s.phase.Idle? && !s.regressed ==> !s.outrun)
  }

  // ------------------------------------------------------------------ reconcile

  lemma {:induction false} SnapshotRows(items: map<int, ItemRow>, snap: seq<SnapshotItem>, now: int, id: int)
    ensures id !in SnapshotIds(snap) ==> RowAt(SnapshotUpserts(items, snap, now), id) == RowAt(items, id)
    ensures id in SnapshotIds(snap) ==>
              var after := SnapshotUpserts(items, snap, now);
              && id in after && after[id].tombstonedAt.None?
              && exists i :: 0 <= i < |snap| && snap[i] == SnapshotItem(id, after[id].name)
    ensures forall high :: SeenBy(items, high) && now <= high ==> SeenBy(SnapshotUpserts(items, snap, now), high)
    decreases |snap|
  {
    if snap != [] {
      var n := |snap| - 1;
      var init := snap[..n];
      SnapshotRows(items, init, now, id);
      SnapshotIdsSnoc(snap);
      assert forall i :: 0 <= i < n ==> init[i] == snap[i];
      var after := SnapshotUpserts(items, snap, now);
      if id == snap[n].itemId {
        assert snap[n] == SnapshotItem(id, after[id].name);
      } else if id in SnapshotIds(init) {
        var i :| 0 <= i < n && init[i] == SnapshotItem(id, after[id].name);
        assert snap[i] == SnapshotItem(id, after[id].name);
      }
    }
  }

  lemma {:induction false} SnapshotRowTimes(items: map<int, ItemRow>, snap: seq<SnapshotItem>, now: int, id: int)
    requires id in SnapshotIds(snap)
    ensures var after := SnapshotUpserts(items, snap, now);
            && id in after && after[id].tombstonedAt.None?
            && after[id].firstSeen == (if id in items then items[id].firstSeen else now)
            && after[id].lastSeen == (if id in items then Max(items[id].lastSeen, now) else now)
    decreases |snap|
  {
    var n := |snap| - 1;
    var init := snap[..n];
    SnapshotRows(items, init, now, id);
    SnapshotIdsSnoc(snap);
    if id in SnapshotIds(init) {
      SnapshotRowTimes(items, init, now, id);
    }
  }

  /**
    Row by row: a listed item is live, first_seen is kept and last_seen only rises to the observation
    time; an unlisted live row gets a tombstone of that time and changes in nothing else; every other
    row is untouched.
   */
  lemma ReconcileRowByRow(items: map<int, ItemRow>, snap: seq<SnapshotItem>, now: int, id: int)
    ensures var after := ReconcileItems(items, snap, now);
            if id in SnapshotIds(snap) then
              && id in after && after[id].tombstonedAt.None?
              && after[id].firstSeen == (if id in items then items[id].firstSeen else now)
              && after[id].lastSeen == (if id in items then Max(items[id].lastSeen, now) else now)
            else if id in Live(items) then id in after && after[id] == items[id].(tombstonedAt := Some(now))
            else RowAt(after, id) == RowAt(items, id)
  {
    SnapshotRows(items, snap, now, id);
    if id in SnapshotIds(snap) {
      SnapshotRowTimes(items, snap, now, id);
    }
  }

  /** Whatever the store held before, after a reconcile its live rows are exactly the snapshot. */
  lemma ReconcileRecoversTheSnapshot(items: map<int, ItemRow>, snap: seq<SnapshotItem>, now: int, backend: map<int, string>)
    requires Represents(snap, backend)
    ensures Live(ReconcileItems(items, snap, now)) == backend
  {
    var live := Live(ReconcileItems(items, snap, now));
    forall id
      ensures id in live <==> id in backend
      ensures id in live ==> live[id] == backend[id]
    {
      SnapshotRows(items, snap, now, id);
    }
  }

  // ------------------------------------------------------------------ events on their way

  lemma {:induction false} IngestConcat(items: map<int, ItemRow>, a: seq<ItemEvent>, b: seq<ItemEvent>)
    ensures IngestItems(items, a + b) == IngestItems(IngestItems(items, a), b)
    decreases |b|
  {
    if b == [] {
      assert a + b == a;
    } else {
      assert (a + b)[..|a + b| - 1] == a + b[..|b| - 1];
      IngestConcat(items, a, b[..|b| - 1]);
    }
  }

  lemma IngestOne(items: map<int, ItemRow>, e: ItemEvent)
    ensures IngestItems(items, [e]) == IngestItem(items, e)
  {
    assert [e][..0] == [];
  }

  lemma {:induction false} PayloadsConcat(a: seq<Message>, b: seq<Message>)
    ensures Payloads(a + b) == Payloads(a) + Payloads(b)
    decreases |b|
  {
    if b == [] {
      assert a + b == a;
    } else {
      assert (a + b)[..|a + b| - 1] == a + b[..|b| - 1];
      PayloadsConcat(a, b[..|b| - 1]);
    }
  }

  lemma PayloadsOne(m: Message)
    ensures Payloads([m]) == if m.Event? then [m.event] else []
  {
    assert [m][..0] == [];
  }

  /** Pump, Recv and a committed Persist move an event along without changing what will arrive. */
  lemma PumpKeepsPending(s: State)
    requires s.queue != [] && s.queue[0].Event?
    ensures Pending(PumpStep(s)) == Pending(s)
  {
    assert s.queue == [s.queue[0]] + s.queue[1..];
    PayloadsConcat([s.queue[0]], s.queue[1..]);
    PayloadsOne(s.queue[0]);
  }

  lemma PersistKeepsArriving(s: State)
    requires s.inHand.Some?
    ensures forall ending :: Arriving(PersistStep(s, ending)) == Arriving(s)
  {
    var e, rest := s.inHand.value, s.transit + Payloads(s.queue);
    var t := Land(s, e);
    assert t.tables.items == IngestItem(s.tables.items, e);
    assert Pending(s) == Pending(t) == [e] + rest;
    assert Pending(t.(inHand := None)) == rest;
    IngestConcat(s.tables.items, [e], rest);
    IngestConcat(t.tables.items, [e], rest);
    IngestOne(s.tables.items, e);
    IngestOne(t.tables.items, e);
    IngestTwice(s.tables.items, e);
  }

  lemma IngestTwice(items: map<int, ItemRow>, e: ItemEvent)
    ensures IngestItem(IngestItem(items, e), e) == IngestItem(items, e)
  {
  }

  lemma QueueGrowsByOne(q: seq<Message>, e: ItemEvent)
    ensures Payloads(q + [Event(e)]) == Payloads(q) + [e]
  {
    PayloadsConcat(q, [Event(e)]);
    PayloadsOne(Event(e));
  }

  lemma AppendLast<T>(a: seq<T>, b: seq<T>, c: seq<T>, x: T)
    ensures a + b + (c + [x]) == (a + b + c) + [x]
  {
  }

  lemma PublishExtendsPending(s: State, maxsize: int, e: ItemEvent)
    requires !Full(s.queue, maxsize)
    ensures Pending(s.(queue := AfterPublish(s.queue, maxsize, e))) == Pending(s) + [e]
  {
    QueueGrowsByOne(s.queue, e);
    AppendLast(InHand(s), s.transit, Payloads(s.queue), e);
  }

  lemma PublishExtendsArriving(s: State, maxsize: int, e: ItemEvent)
    requires !Full(s.queue, maxsize)
    ensures Arriving(s.(queue := AfterPublish(s.queue, maxsize, e))) == IngestItem(Arriving(s), e)
  {
    PublishExtendsPending(s, maxsize, e);
    IngestConcat(s.tables.items, Pending(s), [e]);
    IngestOne(Arriving(s), e);
  }

  /** An event that wins does to the live rows what its commit did to the backend; one that loses does not. */
  lemma EventMirrorsCommit(items: map<int, ItemRow>, backend: map<int, string>, e: ItemEvent)
    requires Live(items) == backend
    requires (e.eventType == "created" && e.itemId !in backend)
      || (e.eventType == "deleted" && e.itemId in backend && backend[e.itemId] == e.itemName)
    ensures Live(IngestItem(items, e)) == BackendAfter(backend, e) <==> Wins(items, e)
  {
    var after := IngestItem(items, e);
    forall id | id != e.itemId
      ensures id in Live(after) <==> id in Live(items)
      ensures id in Live(after) ==> Live(after)[id] == Live(items)[id]
    {
    }
    if Wins(items, e) {
      assert Live(after) == BackendAfter(backend, e);
    } else if e.eventType == "created" {
      assert e.itemId !in Live(after);
    } else {
      assert e.itemId in Live(items) && e.itemId in Live(after);
    }
  }

  lemma {:induction false} PayloadsOfQueue(q: seq<Message>, e: ItemEvent)
    requires e in Payloads(q)
    ensures Event(e) in q
    decreases |q|
  {
    if q[|q| - 1] != Event(e) {
      PayloadsOfQueue(q[..|q| - 1], e);
    }
  }

  lemma {:induction false} IngestSeen(items: map<int, ItemRow>, es: seq<ItemEvent>, high: int)
    requires SeenBy(items, high) && forall e :: e in es ==> e.eventTime <= high
    ensures SeenBy(IngestItems(items, es), high)
    decreases |es|
  {
    if es != [] {
      IngestSeen(items, es[..|es| - 1], high);
    }
  }

  lemma ArrivingSeen(s: State)
    requires Seen(s)
    ensures SeenBy(Arriving(s), s.high)
  {
    forall e | e in Pending(s)
      ensures e.eventTime <= s.high
    {
      if e in Payloads(s.queue) {
        PayloadsOfQueue(s.queue, e);
      }
    }
    IngestSeen(s.tables.items, Pending(s), s.high);
  }

  // ------------------------------------------------------------------ every step keeps the invariant

  lemma CommitKeepsSync(s: State, maxsize: int, e: ItemEvent)
    requires Inv(s) && Enabled(s, Commit(e))
    ensures InSync(CommitStep(s, maxsize, e))
  {
    if s.phase.Streaming? && !s.overflowed && !Full(s.queue, maxsize) && !s.missed && !s.outrun {
      PublishExtendsArriving(s, maxsize, e);
      EventMirrorsCommit(Arriving(s), s.backend, e);
      assert Arriving(CommitStep(s, maxsize, e)) == Arriving(s.(queue := AfterPublish(s.queue, maxsize, e)));
    }
  }

  /** On an open stream a commit at or above the high-water mark is never outrun. */
  lemma CommitInTimeWins(s: State, maxsize: int, e: ItemEvent)
    requires Seen(s) && s.phase.Streaming? && !CommitStep(s, maxsize, e).regressed
    ensures Wins(Arriving(s), e)
  {
    ArrivingSeen(s);
  }

  lemma CommitKeepsSeen(s: State, maxsize: int, e: ItemEvent)
    requires Seen(s)
    ensures Seen(CommitStep(s, maxsize, e))
  {
  }

  lemma CommitKeepsInv(s: State, maxsize: int, e: ItemEvent)
    requires Inv(s) && Enabled(s, Commit(e))
    ensures Inv(CommitStep(s, maxsize, e))
  {
    CommitKeepsSync(s, maxsize, e);
    CommitKeepsSeen(s, maxsize, e);
    if s.phase.Streaming? && !CommitStep(s, maxsize, e).regressed {
      CommitInTimeWins(s, maxsize, e);
    }
  }

  lemma ReconcileKeepsInv(s: State, maxsize: int, now: int)
    requires Inv(s) && s.phase.Listed?
    ensures Inv(Step(s, maxsize, Reconcile(now)))
  {
    var s' := Step(s, maxsize, Reconcile(now));
    SnapshotRows(s.tables.items, s.phase.snap, now, 0);
    assert SeenBy(s.tables.items, s'.high);
    assert SeenBy(SnapshotUpserts(s.tables.items, s.phase.snap, now), s'.high);
    ReconcileRecoversTheSnapshot(s.tables.items, s.phase.snap, now, s.listed);
  }

  lemma PumpKeepsInv(s: State, maxsize: int)
    requires Inv(s) && Enabled(s, Pump)
    ensures Inv(Step(s, maxsize, Pump))
  {
    PumpKeepsPending(s);
  }

  lemma RecvKeepsInv(s: State, maxsize: int)
    requires Inv(s) && Enabled(s, Recv)
    ensures Inv(Step(s, maxsize, Recv))
  {
    RecvKeepsPending(s);
  }

  lemma RecvKeepsPending(s: State)
    requires s.inHand.None? && s.transit != []
    ensures Pending(RecvStep(s)) == Pending(s)
  {
    assert [s.transit[0]] + s.transit[1..] == s.transit;
  }

  lemma PersistKeepsSeen(s: State, ending: Store.Commit)
    requires Seen(s) && s.inHand.Some?
    ensures Seen(PersistStep(s, ending))
  {
  }

  lemma PersistKeepsInv(s: State, maxsize: int, ending: Store.Commit)
    requires Inv(s) && Enabled(s, Persist(ending))
    ensures Inv(Step(s, maxsize, Persist(ending)))
  {
    assert Step(s, maxsize, Persist(ending)) == PersistStep(s, ending);
    PersistKeepsArriving(s);
    PersistKeepsSeen(s, ending);
  }

  lemma StepKeepsInv(s: State, maxsize: int, l: Label)
    requires Inv(s)
    ensures Inv(Step(s, maxsize, l))
  {
    if Enabled(s, l) {
      match l
      case Commit(e) => CommitKeepsInv(s, maxsize, e);
      case Reconcile(now) => ReconcileKeepsInv(s, maxsize, now);
      case Pump => PumpKeepsInv(s, maxsize);
      case Recv => RecvKeepsInv(s, maxsize);
      case Persist(ending) => PersistKeepsInv(s, maxsize, ending);
      case ListItems(snap) =>
      case Subscribe => assert Pending(Step(s, maxsize, l)) == [];
      case LoseStream =>
      case Restart =>
    }
  }

  /** Over every interleaving, from any store and any backend. */
  lemma {:induction false} ProtocolInvariant(s: State, maxsize: int, ls: seq<Label>)
    requires Initial(s)
    ensures Inv(Run(s, maxsize, ls))
    decreases |ls|
  {
    if ls != [] {
      ProtocolInvariant(s, maxsize, ls[..|ls| - 1]);
      StepKeepsInv(Run(s, maxsize, ls[..|ls| - 1]), maxsize, ls[|ls| - 1]);
    }
  }

  // ------------------------------------------------------------------ what the invariant gives

  /** With an empty way between them, the live rows agree after a reconcile exactly when the backend is still as listed. */
  lemma ReconcileAgreesIff(s: State, maxsize: int, now: int)
    requires Inv(s) && s.phase.Listed?
    ensures Agreement(Step(s, maxsize, Reconcile(now))) <==> s.backend == s.listed
  {
    assert Pending(Step(s, maxsize, Reconcile(now))) == [];
    ReconcileRecoversTheSnapshot(s.tables.items, s.phase.snap, now, s.listed);
  }

  lemma SubscribeAgreesIff(s: State, maxsize: int)
    requires Inv(s) && s.phase.Reconciled?
    ensures Pending(Step(s, maxsize, Subscribe)) == []
    ensures Agreement(Step(s, maxsize, Subscribe)) <==> s.backend == s.listed
  {
    assert Pending(Step(s, maxsize, Subscribe)) == [];
  }

  /** Steps that can fall between ListItems, reconcile and subscribe of one undisturbed cycle. */
  ghost predicate InWindow(w: seq<Label>) {
    forall l :: l in w ==> !l.Reconcile? && !l.Subscribe? && !l.LoseStream? && !l.Restart?
  }

  lemma WindowStepKeepsPhase(s: State, maxsize: int, l: Label)
    requires s.phase.Listed? || s.phase.Reconciled?
    requires !l.Reconcile? && !l.Subscribe? && !l.LoseStream? && !l.Restart?
    ensures Step(s, maxsize, l).phase == s.phase && Step(s, maxsize, l).listed == s.listed
  {
    if Enabled(s, l) {
      match l
      case Commit(e) => assert Step(s, maxsize, l) == CommitStep(s, maxsize, e);
      case ListItems(_) =>
      case Pump =>
      case Recv => assert Step(s, maxsize, l) == RecvStep(s);
      case Persist(ending) => assert Step(s, maxsize, l) == PersistStep(s, ending);
    }
  }

  lemma {:induction false} WindowKeepsPhase(s: State, maxsize: int, w: seq<Label>)
    requires InWindow(w) && (s.phase.Listed? || s.phase.Reconciled?)
    ensures Run(s, maxsize, w).phase == s.phase && Run(s, maxsize, w).listed == s.listed
    decreases |w|
  {
    if w != [] {
      WindowKeepsPhase(s, maxsize, w[..|w| - 1]);
      WindowStepKeepsPhase(Run(s, maxsize, w[..|w| - 1]), maxsize, w[|w| - 1]);
    }
  }

  lemma {:induction false} RunConcat(s: State, maxsize: int, a: seq<Label>, b: seq<Label>)
    ensures Run(s, maxsize, a + b) == Run(Run(s, maxsize, a), maxsize, b)
    decreases |b|
  {
    if b == [] {
      assert a + b == a;
    } else {
      assert (a + b)[..|a + b| - 1] == a + b[..|b| - 1];
      RunConcat(s, maxsize, a, b[..|b| - 1]);
    }
  }

  /** From ListItems to the reconcile, with anything but a disturbance in between. */
  lemma ReconcileAfterWindow(s: State, maxsize: int, ls: seq<Label>, snap: seq<SnapshotItem>, w: seq<Label>, now: int)
    requires Run(s, maxsize, ls).phase.Idle? && Represents(snap, Run(s, maxsize, ls).backend) && InWindow(w)
    ensures var r := Run(s, maxsize, ls + [ListItems(snap)] + w + [Reconcile(now)]);
            r.phase.Reconciled? && r.listed == Run(s, maxsize, ls).backend
  {
    RunSnoc(s, maxsize, ls, ListItems(snap));
    RunConcat(s, maxsize, ls + [ListItems(snap)], w);
    WindowKeepsPhase(Run(s, maxsize, ls + [ListItems(snap)]), maxsize, w);
    RunSnoc(s, maxsize, ls + [ListItems(snap)] + w, Reconcile(now));
  }

  lemma SubscribeAfterWindow(s: State, maxsize: int, ls: seq<Label>, w: seq<Label>)
    requires Initial(s) && Run(s, maxsize, ls).phase.Reconciled? && InWindow(w)
    ensures var r := Run(s, maxsize, ls + w + [Subscribe]);
            && r.phase.Streaming? && Pending(r) == []
            && (Agreement(r) <==> r.backend == Run(s, maxsize, ls).listed)
            && (r.missed <==> !Agreement(r))
  {
    RunConcat(s, maxsize, ls, w);
    WindowKeepsPhase(Run(s, maxsize, ls), maxsize, w);
    RunSnoc(s, maxsize, ls + w, Subscribe);
    ProtocolInvariant(s, maxsize, ls + w);
    SubscribeAgreesIff(Run(s, maxsize, ls + w), maxsize);
  }

  /**
    The stream of an undisturbed cycle starts in agreement exactly when the backend's items at the
    subscribe are those ListItems read, whatever was committed in between; `missed` says which.
   */
  lemma WindowIsHarmlessIff(s: State, maxsize: int, ls: seq<Label>, snap: seq<SnapshotItem>,
                            before: seq<Label>, now: int, after: seq<Label>)
    requires Initial(s) && Run(s, maxsize, ls).phase.Idle? && Represents(snap, Run(s, maxsize, ls).backend)
    requires InWindow(before) && InWindow(after)
    ensures var r := Run(s, maxsize, ls + [ListItems(snap)] + before + [Reconcile(now)] + after + [Subscribe]);
            && r.phase.Streaming? && Pending(r) == []
            && (Agreement(r) <==> r.backend == Run(s, maxsize, ls).backend)
            && (r.missed <==> !Agreement(r))
  {
    ReconcileAfterWindow(s, maxsize, ls, snap, before, now);
    SubscribeAfterWindow(s, maxsize, ls + [ListItems(snap)] + before + [Reconcile(now)], after);
  }

  /**
    While connected, with the window harmless, no overflow, and event times that never fall behind a
    time already seen, the store and the events on their way make up the backend's items; with nothing
    on its way, the store's live rows are the backend's items.
   */
  lemma ConnectedMeansInSync(s: State, maxsize: int, ls: seq<Label>)
    requires Initial(s)
    ensures var r := Run(s, maxsize, ls);
            r.phase.Streaming? && !r.missed && !r.overflowed && !r.regressed ==>
              Agreement(r) && (Pending(r) == [] ==> Live(r.tables.items) == r.backend)
  {
    ProtocolInvariant(s, maxsize, ls);
  }

  /** From position i on, no ListItems was answered. */
  ghost predicate Unlisted(s: State, maxsize: int, ls: seq<Label>, i: nat) {
    forall j :: i <= j < |ls| && ls[j].ListItems? ==> !Enabled(Run(s, maxsize, ls[..j]), ls[j])
  }

  lemma UnlistedStep(s: State, maxsize: int, init: seq<Label>, l: Label, i: nat)
    requires i <= |init|
    ensures Unlisted(s, maxsize, init + [l], i)
       <==> Unlisted(s, maxsize, init, i) && !(l.ListItems? && Enabled(Run(s, maxsize, init), l))
  {
    var ls := init + [l];
    assert ls[..|init|] == init;
    assert forall j :: 0 <= j < |init| ==> ls[..j] == init[..j] && ls[j] == init[j];
    if Unlisted(s, maxsize, ls, i) {
      assert ls[|init|] == l;
    }
  }

  /** A commit on an open stream, that finds the subscriber's queue full. */
  ghost predicate Overflows(t: State, maxsize: int, l: Label) {
    l.Commit? && Enabled(t, l) && t.phase.Streaming? && Full(t.queue, maxsize)
  }

  /** A commit on an open stream, with an event older than a time already seen. */
  ghost predicate Regresses(t: State, l: Label) {
    l.Commit? && Enabled(t, l) && t.phase.Streaming? && l.e.eventTime < t.high
  }

  ghost predicate OverflowedAt(s: State, maxsize: int, ls: seq<Label>, i: nat)
    requires i < |ls|
  {
    Overflows(Run(s, maxsize, ls[..i]), maxsize, ls[i]) && Unlisted(s, maxsize, ls, i)
  }

  ghost predicate RegressedAt(s: State, maxsize: int, ls: seq<Label>, i: nat)
    requires i < |ls|
  {
    Regresses(Run(s, maxsize, ls[..i]), ls[i]) && Unlisted(s, maxsize, ls, i)
  }

  ghost predicate HasOverflowed(s: State, maxsize: int, ls: seq<Label>) {
    exists i :: 0 <= i < |ls| && OverflowedAt(s, maxsize, ls, i)
  }

  ghost predicate HasRegressed(s: State, maxsize: int, ls: seq<Label>) {
    exists i :: 0 <= i < |ls| && RegressedAt(s, maxsize, ls, i)
  }

  lemma OverflowedStep(s: State, maxsize: int, init: seq<Label>, l: Label)
    ensures HasOverflowed(s, maxsize, init + [l])
       <==> Overflows(Run(s, maxsize, init), maxsize, l)
            || (HasOverflowed(s, maxsize, init) && !(l.ListItems? && Enabled(Run(s, maxsize, init), l)))
  {
    var ls, n := init + [l], |init|;
    assert ls[..n] == init;
    UnlistedStep(s, maxsize, init, l, n);
    assert OverflowedAt(s, maxsize, ls, n) <==> Overflows(Run(s, maxsize, init), maxsize, l);
    forall i | 0 <= i < n
      ensures OverflowedAt(s, maxsize, ls, i)
         <==> OverflowedAt(s, maxsize, init, i) && !(l.ListItems? && Enabled(Run(s, maxsize, init), l))
    {
      assert ls[..i] == init[..i];
      UnlistedStep(s, maxsize, init, l, i);
    }
  }

  lemma RegressedStep(s: State, maxsize: int, init: seq<Label>, l: Label)
    ensures HasRegressed(s, maxsize, init + [l])
       <==> Regresses(Run(s, maxsize, init), l)
            || (HasRegressed(s, maxsize, init) && !(l.ListItems? && Enabled(Run(s, maxsize, init), l)))
  {
    var ls, n := init + [l], |init|;
    assert ls[..n] == init;
    UnlistedStep(s, maxsize, init, l, n);
    assert RegressedAt(s, maxsize, ls, n) <==> Regresses(Run(s, maxsize, init), l);
    forall i | 0 <= i < n
      ensures RegressedAt(s, maxsize, ls, i)
         <==> RegressedAt(s, maxsize, init, i) && !(l.ListItems? && Enabled(Run(s, maxsize, init), l))
    {
      assert ls[..i] == init[..i];
      UnlistedStep(s, maxsize, init, l, i);
    }
  }

  lemma OverflowFlagStep(t: State, maxsize: int, l: Label)
    ensures Step(t, maxsize, l).overflowed <==> Overflows(t, maxsize, l) || (t.overflowed && !(l.ListItems? && Enabled(t, l)))
  {
  }

  lemma RegressFlagStep(t: State, maxsize: int, l: Label)
    ensures Step(t, maxsize, l).regressed <==> Regresses(t, l) || (t.regressed && !(l.ListItems? && Enabled(t, l)))
  {
  }

  /**
    Two of the flags in terms of the run: since the last answered ListItems a commit on an open stream
    found the queue full, or carried a time below one already seen.
   */
  lemma {:induction false} FlagsAreReadOffTheRun(s: State, maxsize: int, ls: seq<Label>)
    requires !s.overflowed && !s.regressed
    ensures Run(s, maxsize, ls).overflowed <==> HasOverflowed(s, maxsize, ls)
    ensures Run(s, maxsize, ls).regressed <==> HasRegressed(s, maxsize, ls)
    decreases |ls|
  {
    if ls != [] {
      var init, l := ls[..|ls| - 1], ls[|ls| - 1];
      FlagsAreReadOffTheRun(s, maxsize, init);
      OverflowedStep(s, maxsize, init, l);
      RegressedStep(s, maxsize, init, l);
      OverflowFlagStep(Run(s, maxsize, init), maxsize, l);
      RegressFlagStep(Run(s, maxsize, init), maxsize, l);
      assert ls == init + [l];
    }
  }

  /** The time a step brings in, if it takes place. */
  ghost function Brings(t: State, l: Label): Option<int> {
    if !Enabled(t, l) then None
    else match l
      case Commit(e) => Some(e.eventTime)
      case Reconcile(now) => Some(now)
      case _ => None
  }

  lemma HighStep(t: State, maxsize: int, l: Label)
    ensures Step(t, maxsize, l).high == if Brings(t, l).Some? then Max(t.high, Brings(t, l).value) else t.high
  {
  }

  /** Step i of a run brought `time` in. */
  ghost predicate BroughtAt(s: State, maxsize: int, ls: seq<Label>, i: nat, time: int)
    requires i < |ls|
  {
    Brings(Run(s, maxsize, ls[..i]), ls[i]) == Some(time)
  }

  /** The high-water mark is the latest time the run brought in, or the one it began with. */
  lemma {:induction false} HighIsTheLatestTime(s: State, maxsize: int, ls: seq<Label>)
    ensures Run(s, maxsize, ls).high >= s.high
    ensures forall i, time :: 0 <= i < |ls| && BroughtAt(s, maxsize, ls, i, time) ==> time <= Run(s, maxsize, ls).high
    ensures Run(s, maxsize, ls).high == s.high
            || exists i :: 0 <= i < |ls| && BroughtAt(s, maxsize, ls, i, Run(s, maxsize, ls).high)
    decreases |ls|
  {
    if ls != [] {
      var init, l := ls[..|ls| - 1], ls[|ls| - 1];
      HighIsTheLatestTime(s, maxsize, init);
      HighStep(Run(s, maxsize, init), maxsize, l);
      var high := Run(s, maxsize, ls).high;
      forall i, time | 0 <= i < |ls|
        ensures BroughtAt(s, maxsize, ls, i, time)
           <==> if i == |init| then Brings(Run(s, maxsize, init), l) == Some(time) else BroughtAt(s, maxsize, init, i, time)
      {
        assert ls[..i] == init[..i];
      }
      assert BroughtAt(s, maxsize, ls, |init|, high) || high == Run(s, maxsize, init).high;
    }
  }

  /** Given agreement, a commit that reaches the queue keeps it exactly when its event is no older than the row it meets. */
  lemma CommitKeepsAgreementIff(s: State, maxsize: int, e: ItemEvent)
    requires Inv(s) && Enabled(s, Commit(e)) && Agreement(s)
    requires s.phase.Streaming? && !s.overflowed && !Full(s.queue, maxsize)
    ensures Agreement(CommitStep(s, maxsize, e)) <==> Wins(Arriving(s), e)
  {
    PublishExtendsArriving(s, maxsize, e);
    var s' := CommitStep(s, maxsize, e);
    assert Arriving(s') == Arriving(s.(queue := s'.queue));
    EventMirrorsCommit(Arriving(s), s.backend, e);
  }

  function NameAt(items: map<int, string>, id: int): Option<string> {
    if id in items then Some(items[id]) else None
  }

  /** Item `id` will be in the store as it is in the backend. */
  ghost predicate AgreesAt(s: State, id: int) {
    NameAt(Live(Arriving(s)), id) == NameAt(s.backend, id)
  }

  /**
    Item by item and with no agreement assumed: a commit that reaches the queue leaves its item in
    agreement exactly when its event wins or the row already showed what the commit says. So a stale
    item is healed by its next event in time, and no other item is affected.
   */
  lemma CommitHealsIff(s: State, maxsize: int, e: ItemEvent, id: int)
    requires Enabled(s, Commit(e)) && s.phase.Streaming? && !s.overflowed && !Full(s.queue, maxsize)
    ensures id != e.itemId ==> (AgreesAt(CommitStep(s, maxsize, e), id) <==> AgreesAt(s, id))
    ensures AgreesAt(CommitStep(s, maxsize, e), e.itemId) <==>
              Wins(Arriving(s), e) || NameAt(Live(Arriving(s)), e.itemId) == NameAt(BackendAfter(s.backend, e), e.itemId)
  {
    PublishExtendsArriving(s, maxsize, e);
    var s' := CommitStep(s, maxsize, e);
    assert Arriving(s') == Arriving(s.(queue := s'.queue));
    EventAtItem(Arriving(s), s.backend, e);
    if id != e.itemId {
      EventElsewhere(Arriving(s), s.backend, e, id);
    }
  }

  lemma EventAtItem(items: map<int, ItemRow>, backend: map<int, string>, e: ItemEvent)
    requires e.eventType == "created" || e.eventType == "deleted"
    ensures NameAt(Live(IngestItem(items, e)), e.itemId)
         == NameAt(if Wins(items, e) then BackendAfter(backend, e) else Live(items), e.itemId)
  {
  }

  lemma EventElsewhere(items: map<int, ItemRow>, backend: map<int, string>, e: ItemEvent, id: int)
    requires id != e.itemId
    ensures NameAt(Live(IngestItem(items, e)), id) == NameAt(Live(items), id)
    ensures NameAt(BackendAfter(backend, e), id) == NameAt(backend, id)
  {
  }

  /** The queue still takes every event. */
  ghost predicate Connected(s: State) {
    s.phase.Streaming? && !s.overflowed
  }

  lemma PumpKeepsArriving(s: State, maxsize: int)
    requires Enabled(s, Pump)
    ensures Arriving(Step(s, maxsize, Pump)) == Arriving(s) && Step(s, maxsize, Pump).backend == s.backend
  {
    assert Step(s, maxsize, Pump) == PumpStep(s);
    PumpKeepsPending(s);
  }

  lemma RecvKeepsArriving(s: State, maxsize: int)
    requires Enabled(s, Recv)
    ensures Arriving(Step(s, maxsize, Recv)) == Arriving(s) && Step(s, maxsize, Recv).backend == s.backend
  {
    assert Step(s, maxsize, Recv) == RecvStep(s);
    RecvKeepsPending(s);
  }

  lemma PersistingKeepsArriving(s: State, maxsize: int, ending: Store.Commit)
    requires Enabled(s, Persist(ending))
    ensures var t := Step(s, maxsize, Persist(ending)); Arriving(t) == Arriving(s) && t.backend == s.backend
  {
    assert Step(s, maxsize, Persist(ending)) == PersistStep(s, ending);
    PersistKeepsArriving(s);
  }

  lemma StepKeepsItem(s: State, maxsize: int, l: Label, id: int)
    requires Connected(s) && Connected(Step(s, maxsize, l)) && !(l.Commit? && l.e.itemId == id)
    ensures AgreesAt(Step(s, maxsize, l), id) <==> AgreesAt(s, id)
  {
    if Enabled(s, l) {
      if l.Commit? {
        assert !Full(s.queue, maxsize);
        CommitHealsIff(s, maxsize, l.e, id);
      } else if l.Pump? {
        PumpKeepsArriving(s, maxsize);
      } else if l.Recv? {
        RecvKeepsArriving(s, maxsize);
      } else if l.Persist? {
        PersistingKeepsArriving(s, maxsize, l.ending);
      }
    }
  }

  ghost predicate StaysConnected(s: State, maxsize: int, w: seq<Label>) {
    forall k :: 0 <= k <= |w| ==> Connected(Run(s, maxsize, w[..k]))
  }

  /**
    While connected, nothing but a commit on an item moves the item into agreement or out of it. With
    `CommitHealsIff` this fixes, item by item, when the store agrees with the backend.
   */
  lemma {:induction false} OnlyOwnCommitsMoveAnItem(s: State, maxsize: int, w: seq<Label>, id: int)
    requires StaysConnected(s, maxsize, w) && forall l :: l in w ==> !(l.Commit? && l.e.itemId == id)
    ensures AgreesAt(Run(s, maxsize, w), id) <==> AgreesAt(s, id)
    decreases |w|
  {
    if w != [] {
      var init := w[..|w| - 1];
      forall k | 0 <= k <= |init|
        ensures Connected(Run(s, maxsize, init[..k]))
      {
        assert init[..k] == w[..k];
      }
      assert w[..|w|] == w && init[..|init|] == init;
      OnlyOwnCommitsMoveAnItem(s, maxsize, init, id);
      StepKeepsItem(Run(s, maxsize, init), maxsize, w[|w| - 1], id);
    }
  }

  lemma AgreementIsPerItem(s: State)
    ensures Agreement(s) <==> forall id :: AgreesAt(s, id)
  {
    if forall id :: AgreesAt(s, id) {
      forall id
        ensures id in Live(Arriving(s)) <==> id in s.backend
        ensures id in s.backend ==> Live(Arriving(s))[id] == s.backend[id]
      {
        assert AgreesAt(s, id);
      }
    }
  }

  /** However far the store had drifted, one undisturbed cycle after a disconnect restores agreement. */
  lemma CycleRecovers(s: State, maxsize: int, ls: seq<Label>, snap: seq<SnapshotItem>, now: int)
    requires Initial(s) && Run(s, maxsize, ls).phase.Idle?
    requires Represents(snap, Run(s, maxsize, ls).backend)
    ensures var r := Run(s, maxsize, ls + [ListItems(snap), Reconcile(now), Subscribe]);
            r.phase.Streaming? && Agreement(r) && Live(r.tables.items) == r.backend
  {
    var l1 := ls + [ListItems(snap)];
    var l2 := l1 + [Reconcile(now)];
    assert ls + [ListItems(snap), Reconcile(now), Subscribe] == l2 + [Subscribe];
    assert l1 + [] + [Reconcile(now)] + [] + [Subscribe] == l2 + [Subscribe];
    WindowIsHarmlessIff(s, maxsize, ls, snap, [], now, []);
    RunSnoc(s, maxsize, ls, ListItems(snap));
    RunSnoc(s, maxsize, l1, Reconcile(now));
    RunSnoc(s, maxsize, l2, Subscribe);
    assert IngestItems(Run(s, maxsize, l2 + [Subscribe]).tables.items, []) == Run(s, maxsize, l2 + [Subscribe]).tables.items;
  }

  /** The window is real: an item created after the ListItems read and before the subscribe stays unknown. */
  lemma WindowLosesAnItem(maxsize: int) returns (s: State, ls: seq<Label>)
    ensures Initial(s) && Run(s, maxsize, ls).phase.Streaming? && Run(s, maxsize, ls).missed
    ensures Pending(Run(s, maxsize, ls)) == []
    ensures Live(Run(s, maxsize, ls).tables.items) == map[] && Run(s, maxsize, ls).backend == map[1 := "a"]
  {
    s := State(map[], EMPTY, Idle, [], [], None, map[], false, false, false, 0, false);
    var e := ItemEvent("created", 1, "a", 5);
    var l0: seq<Label> := [];
    var l1 := l0 + [ListItems([])];
    var l2 := l1 + [Commit(e)];
    var l3 := l2 + [Reconcile(6)];
    ls := l3 + [Subscribe];
    RunSnoc(s, maxsize, l0, ListItems([]));
    RunSnoc(s, maxsize, l1, Commit(e));
    RunSnoc(s, maxsize, l2, Reconcile(6));
    RunSnoc(s, maxsize, l3, Subscribe);
    assert Represents([], s.backend);
    assert Run(s, maxsize, l1).phase == Listed([]);
    assert Run(s, maxsize, l3).tables.items == map[];
  }

  // ------------------------------------------------------------------ raw rows and counters

  /** The events whose transaction took effect, in order, retries included. */
  ghost function Persisted(s: State, maxsize: int, ls: seq<Label>): seq<DbEvent> {
    if ls == [] then []
    else
      Persisted(s, maxsize, ls[..|ls| - 1]) + PersistedBy(Run(s, maxsize, ls[..|ls| - 1]), ls[|ls| - 1])
  }

  function PersistedBy(s: State, l: Label): seq<DbEvent> {
    if l.Persist? && s.inHand.Some? && !l.ending.RolledBack? then [Db(s.inHand.value)] else []
  }

  /** A step does to raw rows and counters what ingesting the event it persists does, if any. */
  lemma StepTables(s: State, maxsize: int, l: Label, t: Tables)
    requires t.events == s.tables.events && t.buckets == s.tables.buckets
    ensures var r := Step(s, maxsize, l).tables;
            && r.events == ApplyAll(t, PersistedBy(s, l)).events
            && r.buckets == ApplyAll(t, PersistedBy(s, l)).buckets
  {
    if PersistedBy(s, l) == [] {
      NothingPersisted(s, maxsize, l);
    } else {
      var d := Db(s.inHand.value);
      assert [d][..0] == [];
      assert ApplyAll(t, [d]) == Apply(t, d);
      OnePersisted(s, maxsize, l.ending);
    }
  }

  lemma NothingPersisted(s: State, maxsize: int, l: Label)
    requires PersistedBy(s, l) == []
    ensures var r := Step(s, maxsize, l).tables; r.events == s.tables.events && r.buckets == s.tables.buckets
  {
    if Enabled(s, l) {
      match l
      case Commit(e) => assert Step(s, maxsize, l) == CommitStep(s, maxsize, e);
      case ListItems(_) =>
      case Reconcile(_) =>
      case Subscribe =>
      case Pump =>
      case Recv =>
      case Persist(_) => assert Step(s, maxsize, l) == s;
      case LoseStream =>
      case Restart =>
    }
  }

  lemma OnePersisted(s: State, maxsize: int, ending: Store.Commit)
    requires s.inHand.Some? && !ending.RolledBack?
    ensures Step(s, maxsize, Persist(ending)).tables == Apply(s.tables, Db(s.inHand.value))
  {
  }

  lemma {:induction false} RowsFollowThePersisted(s: State, maxsize: int, ls: seq<Label>)
    ensures Run(s, maxsize, ls).tables.events == ApplyAll(s.tables, Persisted(s, maxsize, ls)).events
    ensures Run(s, maxsize, ls).tables.buckets == ApplyAll(s.tables, Persisted(s, maxsize, ls)).buckets
    decreases |ls|
  {
    if ls != [] {
      var init, l := ls[..|ls| - 1], ls[|ls| - 1];
      var before := Persisted(s, maxsize, init);
      RowsFollowThePersisted(s, maxsize, init);
      StepTables(Run(s, maxsize, init), maxsize, l, ApplyAll(s.tables, before));
      ApplyAllConcat(s.tables, before, PersistedBy(Run(s, maxsize, init), l));
    }
  }

  /**
    Over every interleaving, with failed, unacknowledged and repeated tries, overflows and restarts:
    item_events holds exactly the keys it held and those of the persisted events, and each counter has
    grown by the number of distinct new keys in its hour and type, so each key is counted once.
   */
  lemma EachKeyCountsOnce(s: State, maxsize: int, ls: seq<Label>)
    ensures var r, d := Run(s, maxsize, ls), Persisted(s, maxsize, ls);
            && r.tables.events.Keys == s.tables.events.Keys + KeysOf(d)
            && Raised(s.tables.buckets, NewKeys(s.tables.events, d), r.tables.buckets)
  {
    RowsFollowThePersisted(s, maxsize, ls);
    EventsAfter(s.tables, Persisted(s, maxsize, ls));
    BucketsAfter(s.tables, Persisted(s, maxsize, ls));
  }

  /** Everything on its way was committed by the backend in this run. */
  ghost predicate OnlyCommitted(s: State, ls: seq<Label>) {
    && (forall m :: m in s.queue && m.Event? ==> Commit(m.event) in ls)
    && (forall e :: e in s.transit ==> Commit(e) in ls)
    && (s.inHand.Some? ==> Commit(s.inHand.value) in ls)
  }

  lemma LaterStill(s: State, init: seq<Label>, l: Label)
    requires OnlyCommitted(s, init)
    ensures OnlyCommitted(s, init + [l])
  {
    assert forall x :: x in init ==> x in init + [l];
  }

  lemma CommitInventsNothing(s: State, maxsize: int, e: ItemEvent, ls: seq<Label>)
    requires OnlyCommitted(s, ls) && Commit(e) in ls
    ensures OnlyCommitted(CommitStep(s, maxsize, e), ls)
  {
  }

  lemma PumpInventsNothing(s: State, ls: seq<Label>)
    requires OnlyCommitted(s, ls) && s.queue != [] && s.queue[0].Event?
    ensures OnlyCommitted(PumpStep(s), ls)
  {
    assert s.queue[0] in s.queue;
  }

  lemma RecvInventsNothing(s: State, ls: seq<Label>)
    requires OnlyCommitted(s, ls) && s.transit != []
    ensures OnlyCommitted(RecvStep(s), ls)
  {
    assert s.transit[0] in s.transit;
  }

  lemma PersistInventsNothing(s: State, ending: Store.Commit, ls: seq<Label>)
    requires OnlyCommitted(s, ls) && s.inHand.Some?
    ensures OnlyCommitted(PersistStep(s, ending), ls)
  {
  }

  lemma StepInventsNothing(s: State, maxsize: int, init: seq<Label>, l: Label)
    requires OnlyCommitted(s, init)
    ensures OnlyCommitted(Step(s, maxsize, l), init + [l])
  {
    LaterStill(s, init, l);
    if Enabled(s, l) {
      match l
      case Commit(e) =>
        assert Step(s, maxsize, l) == CommitStep(s, maxsize, e) && l in init + [l];
        CommitInventsNothing(s, maxsize, e, init + [l]);
      case ListItems(_) =>
      case Reconcile(_) =>
      case Subscribe =>
      case Pump =>
        assert Step(s, maxsize, l) == PumpStep(s);
        PumpInventsNothing(s, init + [l]);
      case Recv =>
        assert Step(s, maxsize, l) == RecvStep(s);
        RecvInventsNothing(s, init + [l]);
      case Persist(ending) =>
        assert Step(s, maxsize, l) == PersistStep(s, ending);
        PersistInventsNothing(s, ending, init + [l]);
      case LoseStream =>
      case Restart =>
    }
  }

  lemma {:induction false} RunInventsNothing(s: State, maxsize: int, ls: seq<Label>)
    requires Initial(s)
    ensures OnlyCommitted(Run(s, maxsize, ls), ls)
    decreases |ls|
  {
    if ls != [] {
      var init, l := ls[..|ls| - 1], ls[|ls| - 1];
      RunInventsNothing(s, maxsize, init);
      StepInventsNothing(Run(s, maxsize, init), maxsize, init, l);
      assert init + [l] == ls;
    }
  }

  /** Every persisted event is one the backend committed. */
  lemma {:induction false} PersistedWereCommitted(s: State, maxsize: int, ls: seq<Label>, d: DbEvent)
    requires Initial(s) && d in Persisted(s, maxsize, ls)
    ensures exists e :: Commit(e) in ls && Db(e) == d
    decreases |ls|
  {
    var init, l := ls[..|ls| - 1], ls[|ls| - 1];
    if d in Persisted(s, maxsize, init) {
      PersistedWereCommitted(s, maxsize, init, d);
      var e :| Commit(e) in init && Db(e) == d;
      assert Commit(e) in ls;
    } else {
      RunInventsNothing(s, maxsize, init);
      assert Commit(Run(s, maxsize, init).inHand.value) in init;
      assert Commit(Run(s, maxsize, init).inHand.value) in ls;
    }
  }

  lemma RunSnoc(s: State, maxsize: int, ls: seq<Label>, l: Label)
    ensures Run(s, maxsize, ls + [l]) == Step(Run(s, maxsize, ls), maxsize, l)
  {
    assert (ls + [l])[..|ls|] == ls;
  }
}
