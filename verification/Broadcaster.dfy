/**
  The backend's event fanout: bounded queues, drop-oldest with a DISCONNECT sentinel, the stream
  handler that drains a queue, and the item operations that publish after they commit.
 */
module Broadcaster {
  import opened Wrappers

  datatype ItemEvent = ItemEvent(eventType: string, itemId: int, itemName: string, eventTime: int)

  datatype Message = Event(event: ItemEvent) | Disconnect

  /** asyncio's bound: a queue with a non-positive maxsize is never full. */
  predicate Full(q: seq<Message>, maxsize: int) {
    0 < maxsize <= |q|
  }

  /** One subscriber's queue after one publish. */
  function AfterPublish(q: seq<Message>, maxsize: int, e: ItemEvent): seq<Message> {
    if Full(q, maxsize) then q[1..] + [Disconnect] else q + [Event(e)]
  }

  // ------------------------------------------------------------------ the objects

  class EventQueue {
    const maxsize: int
    var items: seq<Message>

    constructor (maxsize: int)
      ensures this.maxsize == maxsize && items == []
    {
      this.maxsize := maxsize;
      items := [];
    }

    /** False stands for QueueFull. */
    method PutNowait(m: Message) returns (ok: bool)
      modifies this
      ensures ok <==> !Full(old(items), maxsize)
      ensures items == if ok then old(items) + [m] else old(items)
    {
      ok := !(0 < maxsize <= |items|);
      if ok {
        items := items + [m];
      }
    }

    /** None stands for QueueEmpty. */
    method GetNowait() returns (m: Option<Message>)
      modifies this
      ensures m.Some? <==> old(items) != []
      ensures m.Some? ==> m.value == old(items)[0] && items == old(items)[1..]
      ensures m.None? ==> items == old(items)
    {
      if items == [] {
        return None;
      }
      m := Some(items[0]);
      items := items[1..];
    }
  }

  class ItemEventBroadcaster {
    const maxsize: int
    var subscribers: set<EventQueue>

    /** Every subscriber has this broadcaster's bound and keeps it. */
    ghost predicate Valid()
      reads this, subscribers
    {
      forall q :: q in subscribers ==> q.maxsize == maxsize && (0 < maxsize ==> |q.items| <= maxsize)
    }

    constructor (maxsize: int)
      ensures Valid() && this.maxsize == maxsize && subscribers == {}
    {
      this.maxsize := maxsize;
      subscribers := {};
    }

    method Subscribe() returns (q: EventQueue)
      requires Valid()
      modifies this
      ensures Valid() && fresh(q)
      ensures q.items == [] && subscribers == old(subscribers) + {q}
    {
      q := new EventQueue(maxsize);
      subscribers := subscribers + {q};
    }

    method Unsubscribe(q: EventQueue)
      requires Valid()
      modifies this
      ensures Valid() && subscribers == old(subscribers) - {q}
    {
      subscribers := subscribers - {q};
    }

    /**
      Every subscriber's queue takes the step of `AfterPublish`, each on its own; exactly those that
      were full stop being subscribers. No QueueFull ever reaches the caller.
     */
    method Publish(e: ItemEvent) returns (raised: bool)
      requires Valid()
      modifies this, subscribers
      ensures Valid() && !raised
      ensures forall q :: q in old(subscribers) ==> q.items == AfterPublish(old(q.items), maxsize, e)
      ensures subscribers == set q | q in old(subscribers) && !Full(old(q.items), maxsize)
    {
      raised := false;
      var rest := subscribers;
      while rest != {}
        invariant rest <= old(subscribers) && !raised
        invariant forall q :: q in old(subscribers) ==>
                    q.items == if q in rest then old(q.items) else AfterPublish(old(q.items), maxsize, e)
        invariant forall q :: q in subscribers <==>
                    q in old(subscribers) && (q in rest || !Full(old(q.items), maxsize))
        modifies this, old(subscribers)
        decreases |rest|
      {
        var q :| q in rest;
        rest := rest - {q};
        var put := q.PutNowait(Event(e));
        if !put {
          subscribers := subscribers - {q};
          var oldest := q.GetNowait();
          var sentinel := q.PutNowait(Disconnect);
          raised := raised || !sentinel;
        }
      }
    }
  }

  /** A WatchItemEvents call: subscribed from its creation until it ends in any way. */
  class WatchStream {
    const broadcaster: ItemEventBroadcaster
    const queue: EventQueue
    var open: bool

    constructor (b: ItemEventBroadcaster)
      requires b.Valid()
      modifies b
      ensures broadcaster == b && b.Valid() && open && fresh(queue)
      ensures queue.items == [] && b.subscribers == old(b.subscribers) + {queue}
    {
      var q := b.Subscribe();
      broadcaster, queue, open := b, q, true;
    }

    /** One turn of the drain loop, once the queue has something to get. */
    method Next() returns (yielded: Option<ItemEvent>)
      requires open && broadcaster.Valid() && queue.items != []
      modifies this, queue, broadcaster
      ensures broadcaster.Valid() && queue.items == old(queue.items)[1..]
      ensures open <==> old(queue.items)[0] != Disconnect
      ensures open ==> yielded == Some(old(queue.items)[0].event) && broadcaster.subscribers == old(broadcaster.subscribers)
      ensures !open ==> yielded == None && broadcaster.subscribers == old(broadcaster.subscribers) - {queue}
    {
      var m := queue.GetNowait();
      if m.value == Disconnect {
        Close();
        return None;
      }
      return Some(m.value.event);
    }

    /** The finally block, reached on the sentinel and on a client cancel alike. */
    method Close()
      requires broadcaster.Valid()
      modifies this`open, broadcaster
      ensures broadcaster.Valid() && !open && broadcaster.subscribers == old(broadcaster.subscribers) - {queue}
    {
      open := false;
      broadcaster.Unsubscribe(queue);
    }
  }

  datatype CrudError = IntegrityError | DatabaseError

  /** The authoritative item rows; `commits` stands for the database carrying a transaction through. */
  class ItemBackend {
    const broadcaster: ItemEventBroadcaster
    var items: map<int, string>
    var nextId: int

    ghost predicate Valid()
      reads this, broadcaster, broadcaster.subscribers
    {
      broadcaster.Valid() && forall id :: id in items ==> id < nextId
    }

    constructor (b: ItemEventBroadcaster)
      requires b.Valid()
      ensures Valid() && broadcaster == b && items == map[]
    {
      broadcaster, items, nextId := b, map[], 1;
    }

    /** A new row and one "created" event, or neither; a taken name is refused. */
    method CreateItem(name: string, now: int, commits: bool) returns (r: Result<int, CrudError>)
      requires Valid()
      modifies this, broadcaster, broadcaster.subscribers
      ensures Valid()
      ensures r.Ok? <==> commits && name !in old(items).Values
      ensures name in old(items).Values ==> r == Err(IntegrityError)
      ensures name !in old(items).Values && !commits ==> r == Err(DatabaseError)
      ensures r.Ok? ==> r.value !in old(items) && items == old(items)[r.value := name]
      ensures r.Ok? ==> old(nextId) <= r.value < nextId
      ensures r.Ok? ==> forall q :: q in old(broadcaster.subscribers) ==>
                q.items == AfterPublish(old(q.items), broadcaster.maxsize, ItemEvent("created", r.value, name, now))
      ensures r.Err? ==> items == old(items) && broadcaster.subscribers == old(broadcaster.subscribers)
      ensures r.Err? ==> forall q :: q in old(broadcaster.subscribers) ==> q.items == old(q.items)
    {
      var id := nextId;
      nextId := nextId + 1;
      if name in items.Values {
        return Err(IntegrityError);
      }
      if !commits {
        return Err(DatabaseError);
      }
      items := items[id := name];
      var raised := broadcaster.Publish(ItemEvent("created", id, name, now));
      return Ok(id);
    }

    /** Removes a present row and publishes one "deleted" event with its last name; an absent id publishes nothing. */
    method DeleteItem(id: int, now: int, commits: bool) returns (r: Result<bool, CrudError>)
      requires Valid()
      modifies this, broadcaster, broadcaster.subscribers
      ensures Valid()
      ensures r == if id !in old(items) then Ok(false) else if commits then Ok(true) else Err(DatabaseError)
      ensures r == Ok(true) ==> items == old(items) - {id}
      ensures nextId == old(nextId)
      ensures r == Ok(true) ==> forall q :: q in old(broadcaster.subscribers) ==>
                q.items == AfterPublish(old(q.items), broadcaster.maxsize, ItemEvent("deleted", id, old(items)[id], now))
      ensures r != Ok(true) ==> items == old(items) && broadcaster.subscribers == old(broadcaster.subscribers)
      ensures r != Ok(true) ==> forall q :: q in old(broadcaster.subscribers) ==> q.items == old(q.items)
    {
      if id !in items {
        return Ok(false);
      }
      if !commits {
        return Err(DatabaseError);
      }
      var name := items[id];
      items := items - {id};
      var raised := broadcaster.Publish(ItemEvent("deleted", id, name, now));
      return Ok(true);
    }
  }

  // ------------------------------------------------------------------ what one subscriber sees

  datatype Step = Publish(e: ItemEvent) | Get

  /** Where the queue overflowed: at publish number `at`, after `consumed` events were taken out. */
  datatype Cut = Cut(at: nat, consumed: nat)

  /** One subscription, from its first moment: everything published since, everything its stream got. */
  datatype Subscription = Subscription(
    queue: seq<Message>,
    subscribed: bool,
    got: seq<Message>,
    published: seq<ItemEvent>,
    cut: Option<Cut>)

  const FRESH := Subscription([], true, [], [], None)

  /** A Get on an empty queue waits; after the sentinel the handler has returned and gets nothing. */
  function Next(s: Subscription, maxsize: int, step: Step): Subscription {
    match step
    case Publish(e) =>
      var s' := s.(published := s.published + [e]);
      if !s.subscribed then s'
      else if Full(s.queue, maxsize) then
        s'.(queue := AfterPublish(s.queue, maxsize, e), subscribed := false, cut := Some(Cut(|s.published|, |s.got|)))
      else s'.(queue := AfterPublish(s.queue, maxsize, e))
    case Get =>
      if s.queue == [] || Disconnect in s.got then s
      else s.(queue := s.queue[1..], got := s.got + [s.queue[0]])
  }

  function Run(maxsize: int, steps: seq<Step>): Subscription {
    if steps == [] then FRESH else Next(Run(maxsize, steps[..|steps| - 1]), maxsize, steps[|steps| - 1])
  }

  function Events(es: seq<ItemEvent>): seq<Message> {
    seq(|es|, i requires 0 <= i < |es| => Event(es[i]))
  }

  /** All a subscription will ever deliver: everything so far, or, once cut, a gap of one event and the sentinel. */
  function Script(s: Subscription): seq<Message>
    requires s.cut.Some? ==> s.cut.value.consumed < s.cut.value.at <= |s.published|
  {
    if s.cut.None? then Events(s.published)
    else
      var Cut(k, c) := s.cut.value;
      Events(s.published[..c]) + Events(s.published[c + 1..k]) + [Disconnect]
  }

  ghost predicate WellShaped(s: Subscription, maxsize: int) {
    && (s.subscribed <==> s.cut.None?)
    && (s.cut.Some? ==> 0 < maxsize && s.cut.value.at <= |s.published| && s.cut.value.at - s.cut.value.consumed == maxsize)
    && s.got + s.queue == Script(s)
    && (0 < maxsize ==> |s.queue| <= maxsize)
  }

  lemma EventsConcat(a: seq<ItemEvent>, b: seq<ItemEvent>)
    ensures Events(a + b) == Events(a) + Events(b)
  {
  }

  lemma OverflowCutsOnce(s: Subscription, maxsize: int, e: ItemEvent)
    requires WellShaped(s, maxsize) && s.subscribed && Full(s.queue, maxsize)
    ensures WellShaped(Next(s, maxsize, Publish(e)), maxsize)
  {
    var s' := Next(s, maxsize, Publish(e));
    var c, k := |s.got|, |s.published|;
    assert s'.published[..c] == s.published[..c] && s'.published[c + 1..k] == s.published[c + 1..];
    assert s.got == (s.got + s.queue)[..c] == Events(s.published[..c]);
    assert s.queue[1..] == (s.got + s.queue)[c + 1..] == Events(s.published[c + 1..]);
  }

  /** A script does not depend on what is published after its cut. */
  lemma SliceOfLonger<T>(a: seq<T>, x: T, i: nat, j: nat)
    requires i <= j <= |a|
    ensures (a + [x])[i..j] == a[i..j]
  {
  }

  lemma MissedPublishKeepsShape(s: Subscription, maxsize: int, e: ItemEvent)
    requires WellShaped(s, maxsize) && !s.subscribed
    ensures WellShaped(Next(s, maxsize, Publish(e)), maxsize)
  {
    var Cut(k, c) := s.cut.value;
    SliceOfLonger(s.published, e, 0, c);
    SliceOfLonger(s.published, e, c + 1, k);
    assert (s.published + [e])[..c] == (s.published + [e])[0..c] && s.published[..c] == s.published[0..c];
  }

  lemma PublishKeepsShape(s: Subscription, maxsize: int, e: ItemEvent)
    requires WellShaped(s, maxsize) && s.subscribed && !Full(s.queue, maxsize)
    ensures WellShaped(Next(s, maxsize, Publish(e)), maxsize)
  {
    EventsConcat(s.published, [e]);
    assert s.got + (s.queue + [Event(e)]) == s.got + s.queue + [Event(e)];
  }

  lemma GetKeepsShape(s: Subscription, maxsize: int)
    requires WellShaped(s, maxsize)
    ensures WellShaped(Next(s, maxsize, Get), maxsize)
  {
    if s.queue != [] {
      assert s.got + [s.queue[0]] + s.queue[1..] == s.got + s.queue;
    }
  }

  lemma StepKeepsShape(s: Subscription, maxsize: int, step: Step)
    requires WellShaped(s, maxsize)
    ensures WellShaped(Next(s, maxsize, step), maxsize)
  {
    match step
    case Publish(e) =>
      if !s.subscribed {
        MissedPublishKeepsShape(s, maxsize, e);
      } else if Full(s.queue, maxsize) {
        OverflowCutsOnce(s, maxsize, e);
      } else {
        PublishKeepsShape(s, maxsize, e);
      }
    case Get => GetKeepsShape(s, maxsize);
  }

  /**
    Every interleaving of publishes and gets delivers a prefix of one script: all events published
    since the subscription, in order; or, if publish number k found the queue full after c events
    were consumed, events 0..c-1, then c+1..k-1, then DISCONNECT, where k - c is the queue bound.
   */
  lemma {:induction false} SubscriberStreamShape(maxsize: int, steps: seq<Step>)
    ensures WellShaped(Run(maxsize, steps), maxsize)
    ensures Run(maxsize, steps).got <= Script(Run(maxsize, steps))
    decreases |steps|
  {
    if steps != [] {
      SubscriberStreamShape(maxsize, steps[..|steps| - 1]);
      StepKeepsShape(Run(maxsize, steps[..|steps| - 1]), maxsize, steps[|steps| - 1]);
    }
    var s := Run(maxsize, steps);
    assert s.got == (s.got + s.queue)[..|s.got|];
  }

  /** Nothing follows the sentinel, whatever is published or polled afterwards. */
  lemma {:induction false} SentinelIsLast(maxsize: int, steps: seq<Step>, more: seq<Step>)
    requires Disconnect in Run(maxsize, steps).got
    ensures WellShaped(Run(maxsize, steps), maxsize)
    ensures Run(maxsize, steps + more).got == Run(maxsize, steps).got
    ensures Run(maxsize, steps).got == Script(Run(maxsize, steps))
    decreases |more|
  {
    var s := Run(maxsize, steps);
    SubscriberStreamShape(maxsize, steps);
    SentinelEndsScript(s, maxsize);
    if more == [] {
      assert steps + more == steps;
    } else {
      var init := more[..|more| - 1];
      SentinelIsLast(maxsize, steps, init);
      assert (steps + more)[..|steps + more| - 1] == steps + init;
    }
  }

  /** The sentinel can only be the script's last message. */
  lemma SentinelPosition(s: Subscription, i: nat)
    requires s.cut.Some? ==> s.cut.value.consumed < s.cut.value.at <= |s.published|
    requires i < |Script(s)| && Script(s)[i] == Disconnect
    ensures i == |Script(s)| - 1
  {
    if s.cut.Some? {
      var Cut(k, c) := s.cut.value;
      assert Script(s) == Events(s.published[..c]) + Events(s.published[c + 1..k]) + [Disconnect];
    }
  }

  lemma SentinelEndsScript(s: Subscription, maxsize: int)
    requires WellShaped(s, maxsize) && Disconnect in s.got
    ensures s.got == Script(s)
  {
    NothingQueuedBehindSentinel(s, maxsize, 0);
    assert s.got + s.queue == s.got;
  }

  lemma NothingQueuedBehindSentinel(s: Subscription, maxsize: int, n: nat)
    requires WellShaped(s, maxsize) && n <= |s.queue| && Disconnect in s.got + s.queue[..n]
    ensures n == |s.queue|
  {
    var taken := s.got + s.queue[..n];
    var i :| 0 <= i < |taken| && taken[i] == Disconnect;
    assert taken[i] == (s.got + s.queue)[i];
    SentinelPosition(s, i);
  }

  /** The stream after polling its queue `n` times. */
  function GetMany(s: Subscription, maxsize: int, n: nat): Subscription {
    if n == 0 then s else Next(GetMany(s, maxsize, n - 1), maxsize, Get)
  }

  function Drained(s: Subscription, n: nat): Subscription
    requires n <= |s.queue|
  {
    s.(queue := s.queue[n..], got := s.got + s.queue[..n])
  }

  lemma OneMoreGet(s: Subscription, maxsize: int, n: nat)
    requires WellShaped(s, maxsize) && n < |s.queue|
    ensures Next(Drained(s, n), maxsize, Get) == Drained(s, n + 1)
  {
    if Disconnect in Drained(s, n).got {
      NothingQueuedBehindSentinel(s, maxsize, n);
    }
    assert s.queue[n..][1..] == s.queue[n + 1..];
    assert s.got + s.queue[..n] + [s.queue[n]] == s.got + s.queue[..n + 1];
  }

  lemma {:induction false} GetsDrain(s: Subscription, maxsize: int, n: nat)
    requires WellShaped(s, maxsize) && n <= |s.queue|
    ensures GetMany(s, maxsize, n) == Drained(s, n)
    decreases n
  {
    if n == 0 {
      assert s.got + s.queue[..0] == s.got && s.queue[0..] == s.queue;
    } else {
      GetsDrain(s, maxsize, n - 1);
      OneMoreGet(s, maxsize, n - 1);
    }
  }

  /** After any run, polling as often as there are queued messages delivers the whole script. */
  lemma DrainDeliversTheScript(maxsize: int, steps: seq<Step>)
    ensures WellShaped(Run(maxsize, steps), maxsize)
    ensures GetMany(Run(maxsize, steps), maxsize, |Run(maxsize, steps).queue|).got == Script(Run(maxsize, steps))
  {
    var s := Run(maxsize, steps);
    SubscriberStreamShape(maxsize, steps);
    GetsDrain(s, maxsize, |s.queue|);
    assert s.queue[..|s.queue|] == s.queue;
  }
}
