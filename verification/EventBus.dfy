/** The event bus of one conversation and a browser reading it over server-sent events. */
module EventBuses {
  import opened Wrappers

  const CAPACITY := 64

  /** A persisted event has the conversation's next sequence number; a live-only one has 0. */
  datatype Event = Event(seqNo: nat, tag: nat)

  type SubId = nat

  /** A subscriber's channel: a closed one still hands out what it holds. */
  datatype Channel = Channel(queue: seq<Event>, open: bool, failure: Option<Event>)

  /** Every channel made so far, and the subscribers still registered. */
  datatype Hub = Hub(chans: map<SubId, Channel>, subs: set<SubId>, next: SubId)

  function HasRoom(h: Hub, id: SubId): bool
    requires id in h.chans
  {
    |h.chans[id].queue| < CAPACITY
  }

  /** Everyone with room gets the event; the others are poisoned: closed and removed. */
  function Fanout(h: Hub, e: Event, failure: Option<Event>): Hub {
    Hub(map id | id in h.chans :: if id !in h.subs then h.chans[id]
                                  else if HasRoom(h, id) then h.chans[id].(queue := h.chans[id].queue + [e])
                                  else h.chans[id].(open := false, failure := failure),
        (set id | id in h.subs && (id in h.chans ==> HasRoom(h, id))),
        h.next)
  }

  /** Replaceable events are dropped where there is no room. */
  function Offer(h: Hub, e: Event): Hub {
    h.(chans := map id | id in h.chans :: if id in h.subs && HasRoom(h, id)
                                          then h.chans[id].(queue := h.chans[id].queue + [e]) else h.chans[id])
  }

  function Register(h: Hub): Hub {
    Hub(h.chans[h.next := Channel([], true, None)], h.subs + {h.next}, h.next + 1)
  }

  function Unregister(h: Hub, id: SubId): Hub {
    if id in h.subs && id in h.chans
    then h.(subs := h.subs - {id}, chans := h.chans[id := h.chans[id].(open := false)]) else h
  }

  /** A fan-out reaches exactly the registered subscribers with room, each at the end of its queue; one
      without room is closed with the failure and removed, its queue untouched. */
  lemma FanoutReaches(h: Hub, e: Event, failure: Option<Event>, id: SubId)
    requires id in h.chans
    ensures var h', ch := Fanout(h, e, failure), h.chans[id];
            && h'.chans.Keys == h.chans.Keys && h'.next == h.next
            && (id !in h.subs ==> h'.chans[id] == ch && id !in h'.subs)
            && (id in h.subs && |ch.queue| < CAPACITY ==>
                  h'.chans[id] == Channel(ch.queue + [e], ch.open, ch.failure) && id in h'.subs)
            && (id in h.subs && |ch.queue| >= CAPACITY ==>
                  h'.chans[id] == Channel(ch.queue, false, failure) && id !in h'.subs)
  {
  }

  /** A live-only event reaches exactly the registered subscribers with room, and removes nobody. */
  lemma OfferReaches(h: Hub, e: Event, id: SubId)
    requires id in h.chans
    ensures var h', ch := Offer(h, e), h.chans[id];
            && h'.chans.Keys == h.chans.Keys && h'.subs == h.subs && h'.next == h.next
            && (id in h.subs && |ch.queue| < CAPACITY ==> h'.chans[id] == Channel(ch.queue + [e], ch.open, ch.failure))
            && (id !in h.subs || |ch.queue| >= CAPACITY ==> h'.chans[id] == ch)
  {
  }

  class Bus {
    var chans: map<SubId, Channel>
    var subs: set<SubId>
    var nextSub: SubId

    ghost function Abs(): Hub
      reads this
    {
      Hub(chans, subs, nextSub)
    }

    ghost predicate Valid()
      reads this
    {
      subs <= chans.Keys && forall id :: id in chans ==> id < nextSub
    }

    constructor ()
      ensures Valid() && Abs() == Hub(map[], {}, 0)
    {
      chans, subs, nextSub := map[], {}, 0;
    }

    /** The fan-out loop of fanoutDurable (no failure) and PublishLiveFailure. */
    method FanOut(e: Event, failure: Option<Event>)
      requires Valid()
      modifies this
      ensures Valid() && Abs() == Fanout(old(Abs()), e, failure)
    {
      ghost var h := Abs();
      ghost var goal := Fanout(h, e, failure);
      var todo := subs;
      while todo != {}
        invariant todo <= h.subs && chans.Keys == h.chans.Keys && nextSub == h.next
        invariant forall id :: id in chans ==> chans[id] == if id in todo then h.chans[id] else goal.chans[id]
        invariant forall id :: id in subs <==> id in h.subs && (id in todo || HasRoom(h, id))
        decreases todo
      {
        var id :| id in todo;
        var ch := chans[id];
        if |ch.queue| < CAPACITY {
          chans := chans[id := ch.(queue := ch.queue + [e])];
        } else {
          chans := chans[id := ch.(open := false, failure := failure)];
          subs := subs - {id};
        }
        todo := todo - {id};
      }
      assert chans == goal.chans && subs == goal.subs;
    }

    method PublishEphemeral(e: Event)
      requires Valid()
      modifies this
      ensures Valid() && Abs() == Offer(old(Abs()), e)
    {
      ghost var h := Abs();
      ghost var goal := Offer(h, e);
      var todo := subs;
      while todo != {}
        invariant todo <= h.subs && chans.Keys == h.chans.Keys && subs == h.subs && nextSub == h.next
        invariant forall id :: id in chans ==> chans[id] == if id in todo then h.chans[id] else goal.chans[id]
        decreases todo
      {
        var id :| id in todo;
        if |chans[id].queue| < CAPACITY {
          chans := chans[id := chans[id].(queue := chans[id].queue + [e])];
        }
        todo := todo - {id};
      }
      assert chans == goal.chans;
    }

    method Subscribe() returns (id: SubId)
      requires Valid()
      modifies this
      ensures Valid() && id == old(nextSub) && Abs() == Register(old(Abs()))
    {
      id := nextSub;
      nextSub := nextSub + 1;
      chans := chans[id := Channel([], true, None)];
      subs := subs + {id};
    }

    method Cancel(id: SubId)
      requires Valid()
      modifies this
      ensures Valid() && Abs() == Unregister(old(Abs()), id)
    {
      if id in subs {
        subs := subs - {id};
        chans := chans[id := chans[id].(open := false)];
      }
    }
  }

  // ----- the reader -----

  /** Replay: the persisted events after `since`, of `size` in all, in order. */
  function Replay(size: nat, since: nat): seq<Event>
    decreases size - since
  {
    if since >= size then [] else [Event(since + 1, 0)] + Replay(size, since + 1)
  }

  /** The loop that writes a replay, skipping what was already sent. */
  function WriteAll(wire: seq<Event>, lastSeq: nat, missed: seq<Event>): (seq<Event>, nat)
    decreases |missed|
  {
    if missed == [] then (wire, lastSeq)
    else if missed[0].seqNo <= lastSeq then WriteAll(wire, lastSeq, missed[1..])
    else WriteAll(wire + [missed[0]], missed[0].seqNo, missed[1..])
  }

  datatype Delivery = Delivery(wire: seq<Event>, lastSeq: nat, ok: bool)

  /** deliverEvent, with the replay its gap branch would read (None: the store failed). */
  function Deliver(wire: seq<Event>, lastSeq: nat, e: Event, replay: Option<seq<Event>>): Delivery {
    if e.seqNo == 0 then Delivery(wire + [e], lastSeq, true)
    else if e.seqNo <= lastSeq then Delivery(wire, lastSeq, true)
    else if e.seqNo > lastSeq + 1 then
      if replay.None? then Delivery(wire, lastSeq, false)
      else
        var (wire', lastSeq') := WriteAll(wire, lastSeq, replay.value);
        if e.seqNo <= lastSeq' then Delivery(wire', lastSeq', true)
        else Delivery(wire' + [e], e.seqNo, true)
    else Delivery(wire + [e], e.seqNo, true)
  }

  method WriteReplay(w0: seq<Event>, last0: nat, missed: seq<Event>) returns (wire: seq<Event>, lastSeq: nat)
    ensures (wire, lastSeq) == WriteAll(w0, last0, missed)
  {
    wire, lastSeq := w0, last0;
    var i := 0;
    assert missed[0..] == missed;
    while i < |missed|
      invariant 0 <= i <= |missed|
      invariant WriteAll(wire, lastSeq, missed[i..]) == WriteAll(w0, last0, missed)
    {
      assert missed[i..][0] == missed[i] && missed[i..][1..] == missed[i + 1..];
      if missed[i].seqNo > lastSeq {
        wire := wire + [missed[i]];
        lastSeq := missed[i].seqNo;
      }
      i := i + 1;
    }
  }

  method DeliverEvent(w0: seq<Event>, last0: nat, e: Event, replay: Option<seq<Event>>) returns (d: Delivery)
    ensures d == Deliver(w0, last0, e, replay)
  {
    var wire, lastSeq := w0, last0;
    if e.seqNo == 0 { return Delivery(wire + [e], lastSeq, true); }
    if e.seqNo <= lastSeq { return Delivery(wire, lastSeq, true); }
    if e.seqNo > lastSeq + 1 {
      if replay.None? { return Delivery(wire, lastSeq, false); }
      wire, lastSeq := WriteReplay(wire, lastSeq, replay.value);
      if e.seqNo <= lastSeq { return Delivery(wire, lastSeq, true); }
    }
    wire := wire + [e];
    if e.seqNo > lastSeq { lastSeq := e.seqNo; }
    return Delivery(wire, lastSeq, true);
  }

  // ----- a browser, its connection and the publishers -----

  datatype Phase = Setup | Streaming | Closing | Over

  /** A connection of the browser. `mark` is how many events were persisted when it subscribed; `got` is an
      event received and not yet delivered; `taken` how much of the wire the browser has read. `handled`
      are the events of its channel it has dealt with, `notice` the failure of the closed channel. */
  datatype Conn = Conn(sub: SubId, since: nat, mark: nat, lastSeq: nat, phase: Phase, got: Option<Event>,
                       wire: seq<Event>, taken: nat, handled: seq<Event>, notice: seq<Event>)

  /** The browser: where it first asked to start, the last id it received, and the ids it received. */
  datatype Browser = Browser(start: nat, lastId: nat, received: seq<nat>)

  /** `fan` holds the sequence numbers persisted but not yet fanned out: the bus mutex is held. `offered`
      tells what was published to each subscriber while it was registered and had room. */
  datatype World = World(hub: Hub, size: nat, fan: seq<nat>, conn: Option<Conn>, browser: Browser,
                         offered: map<SubId, seq<Event>>)

  function Init(start: nat): World { World(Hub(map[], {}, 0), 0, [], None, Browser(start, start, []), map[]) }

  datatype Action =
    | Append(n: nat)                    // a publish persists n events
    | FanNext
    | LiveFailure(tag: nat)
    | Ephemeral(tag: nat)
    | OtherSubscribes
    | OtherCancels(id: SubId)
    | Connect
    | InitialReplay(ok: bool)
    | Receive
    | Handle(ok: bool)                  // deliverEvent; ok: a store read would succeed
    | SeeClosed
    | Recover(ok: bool)
    | Disconnect
    | BrowserReads
    | BrowserDrops

  function From(a: nat, n: nat): seq<nat> { seq(n, i requires 0 <= i => a + 1 + i) }

  function WithConn(w: World, c: Conn): World { w.(conn := Some(c)) }

  function Note(w: World, e: Event): map<SubId, seq<Event>> {
    map id | id in w.offered ::
      if id in w.hub.subs && id in w.hub.chans && |w.hub.chans[id].queue| < CAPACITY then w.offered[id] + [e]
      else w.offered[id]
  }

  /** The handler returns: the deferred Cancel runs. */
  function Returned(w: World, c: Conn): World {
    var w' := WithConn(w, c.(phase := Over, got := None));
    if w.fan != [] then w' else w'.(hub := Unregister(w.hub, c.sub))
  }

  function DoInitialReplay(w: World, c: Conn, ok: bool): World {
    if c.phase != Setup then w
    else if !ok then Returned(w, c)
    else
      var (wire, lastSeq) := WriteAll(c.wire, c.lastSeq, Replay(w.size, c.since));
      WithConn(w, c.(phase := Streaming, wire := wire, lastSeq := lastSeq))
  }

  function DoReceive(w: World, c: Conn): World {
    if c.phase != Streaming || c.got.Some? || c.sub !in w.hub.chans || w.hub.chans[c.sub].queue == [] then w
    else
      var ch := w.hub.chans[c.sub];
      WithConn(w, c.(got := Some(ch.queue[0])))
      .(hub := w.hub.(chans := w.hub.chans[c.sub := ch.(queue := ch.queue[1..])]))
  }

  function DoHandle(w: World, c: Conn, ok: bool): World {
    if c.phase != Streaming || c.got.None? then w
    else
      var d := Deliver(c.wire, c.lastSeq, c.got.value, if ok then Some(Replay(w.size, c.lastSeq)) else None);
      var c' := c.(got := None, wire := d.wire, lastSeq := d.lastSeq);
      if d.ok then WithConn(w, c'.(handled := c.handled + [c.got.value])) else Returned(w, c')
  }

  /** The channel is closed and empty: a recorded failure is written first. */
  function DoSeeClosed(w: World, c: Conn): World {
    if c.phase != Streaming || c.got.Some? || c.sub !in w.hub.chans then w
    else
      var ch := w.hub.chans[c.sub];
      if ch.open || ch.queue != [] then w
      else
        var notice := if ch.failure.Some? then [ch.failure.value] else [];
        WithConn(w, c.(phase := Closing, wire := c.wire + notice, notice := notice))
  }

  function DoRecover(w: World, c: Conn, ok: bool): World {
    if c.phase != Closing then w
    else if !ok then Returned(w, c)
    else
      var (wire, lastSeq) := WriteAll(c.wire, c.lastSeq, Replay(w.size, c.lastSeq));
      Returned(w, c.(wire := wire, lastSeq := lastSeq))
  }

  function DoBrowserReads(w: World, c: Conn): World {
    if c.taken >= |c.wire| then w
    else
      var e := c.wire[c.taken];
      WithConn(w, c.(taken := c.taken + 1))
      .(browser := if e.seqNo == 0 then w.browser
                   else w.browser.(lastId := e.seqNo, received := w.browser.received + [e.seqNo]))
  }

  /** Subscribes under the last id the browser received. */
  function DoConnect(w: World): World {
    if w.conn.Some? || w.fan != [] then w
    else
      var since := w.browser.lastId;
      w.(hub := Register(w.hub), conn := Some(Conn(w.hub.next, since, w.size, since, Setup, None, [], 0, [], [])),
         offered := w.offered[w.hub.next := []])
  }

  function Step(w: World, act: Action): World {
    match act
    case Append(n) => if w.fan != [] then w else w.(size := w.size + n, fan := From(w.size, n))
    case FanNext =>
      if w.fan == [] then w
      else
        var e := Event(w.fan[0], 0);
        w.(hub := Fanout(w.hub, e, None), fan := w.fan[1..], offered := Note(w, e))
    case LiveFailure(tag) =>
      if w.fan != [] then w
      else w.(hub := Fanout(w.hub, Event(0, tag), Some(Event(0, tag))), offered := Note(w, Event(0, tag)))
    case Ephemeral(tag) =>
      if w.fan != [] then w else w.(hub := Offer(w.hub, Event(0, tag)), offered := Note(w, Event(0, tag)))
    case OtherSubscribes =>
      if w.fan != [] then w else w.(hub := Register(w.hub), offered := w.offered[w.hub.next := []])
    case OtherCancels(id) =>
      if w.fan != [] || (w.conn.Some? && w.conn.value.sub == id) then w else w.(hub := Unregister(w.hub, id))
    case Connect => DoConnect(w)
    case BrowserDrops => w.(conn := None)    // a handler still running writes to nobody
    case _ =>
      if w.conn.None? then w
      else
        var c := w.conn.value;
        match act
        case InitialReplay(ok) => DoInitialReplay(w, c, ok)
        case Receive => DoReceive(w, c)
        case Handle(ok) => DoHandle(w, c, ok)
        case SeeClosed => DoSeeClosed(w, c)
        case Recover(ok) => DoRecover(w, c, ok)
        case Disconnect => if c.phase == Over then w else Returned(w, c)
        case BrowserReads => DoBrowserReads(w, c)
        case _ => w
  }

  function Run(start: nat, acts: seq<Action>): World
    decreases |acts|
  {
    if acts == [] then Init(start) else Step(Run(start, acts[..|acts| - 1]), acts[|acts| - 1])
  }

  // ----- what is written is a run of consecutive numbers -----

  /** The persisted numbers among events. */
  function Persisted(events: seq<Event>): seq<nat> {
    if events == [] then []
    else
      Persisted(events[..|events| - 1]) + if events[|events| - 1].seqNo == 0 then [] else [events[|events| - 1].seqNo]
  }

  lemma PersistedSnoc(events: seq<Event>, e: Event)
    ensures Persisted(events + [e]) == Persisted(events) + if e.seqNo == 0 then [] else [e.seqNo]
  {
    assert (events + [e])[..|events|] == events;
  }

  /** What a connection wrote since it was asked to start after `since`. */
  ghost predicate Written(since: nat, lastSeq: nat, wire: seq<Event>) {
    since <= lastSeq && Persisted(wire) == From(since, lastSeq - since)
  }

  lemma WriteOne(since: nat, lastSeq: nat, wire: seq<Event>, e: Event)
    requires Written(since, lastSeq, wire) && (e.seqNo == 0 || e.seqNo == lastSeq + 1)
    ensures Written(since, if e.seqNo == 0 then lastSeq else e.seqNo, wire + [e])
  {
    PersistedSnoc(wire, e);
    assert From(since, lastSeq - since) + [lastSeq + 1] == From(since, lastSeq + 1 - since);
  }

  /** Writing a replay from the last number sent catches up with the store. */
  lemma {:induction false} ReplayCatchesUp(since: nat, lastSeq: nat, wire: seq<Event>, size: nat)
    requires Written(since, lastSeq, wire)
    ensures var (wire', lastSeq') := WriteAll(wire, lastSeq, Replay(size, lastSeq));
            Written(since, lastSeq', wire') && lastSeq' == (if lastSeq < size then size else lastSeq) && wire <= wire'
    decreases size - lastSeq
  {
    hide Written;
    if lastSeq < size {
      var e := Event(lastSeq + 1, 0);
      WriteOne(since, lastSeq, wire, e);
      assert Replay(size, lastSeq)[1..] == Replay(size, lastSeq + 1);
      ReplayCatchesUp(since, lastSeq + 1, wire + [e], size);
    }
  }

  lemma DeliverWrites(since: nat, lastSeq: nat, wire: seq<Event>, e: Event, size: nat, ok: bool)
    requires Written(since, lastSeq, wire) && e.seqNo <= size
    ensures var d := Deliver(wire, lastSeq, e, if ok then Some(Replay(size, lastSeq)) else None);
            && Written(since, d.lastSeq, d.wire) && wire <= d.wire && d.lastSeq >= lastSeq
            && (d.ok ==> d.lastSeq >= e.seqNo)
  {
    hide Written;
    ReplayCatchesUp(since, lastSeq, wire, size);
    if e.seqNo == 0 || e.seqNo == lastSeq + 1 { WriteOne(since, lastSeq, wire, e); }
  }

  // ----- the invariant -----

  predicate InQueue(queue: seq<Event>, n: nat) { exists i :: 0 <= i < |queue| && queue[i].seqNo == n }

  /** Registered channels are open and bounded, and hold only numbers that were persisted. */
  ghost predicate HubOk(h: Hub, size: nat) {
    && h.subs <= h.chans.Keys
    && (forall id :: id in h.chans ==> id < h.next)
    && (forall id :: id in h.subs ==> h.chans[id].open)
    && (forall id :: id in h.chans ==> ChannelOk(h.chans[id], size))
  }

  ghost predicate ChannelOk(ch: Channel, size: nat) {
    && |ch.queue| <= CAPACITY && (ch.failure.Some? ==> ch.failure.value.seqNo == 0)
    && forall i :: 0 <= i < |ch.queue| ==> ch.queue[i].seqNo <= size
  }

  ghost predicate FanOk(fan: seq<nat>, size: nat) { forall i :: 0 <= i < |fan| ==> 0 < fan[i] <= size }

  ghost predicate ConnOk(c: Conn, size: nat) {
    && Written(c.since, c.lastSeq, c.wire) && c.taken <= |c.wire| && c.mark <= size
    && (c.phase == Setup ==> c.wire == [] && c.lastSeq == c.since && c.got.None?)
    && (c.got.Some? ==> c.phase == Streaming && c.got.value.seqNo <= size)
  }

  /** The browser has received every number after its start up to its last id. */
  ghost predicate Contiguous(b: Browser) { b.start <= b.lastId && b.received == From(b.start, b.lastId - b.start) }

  /** The last id is what the connection's wire, as far as it was read, made it. */
  ghost predicate InStep(b: Browser, c: Conn) {
    c.taken <= |c.wire| && b.lastId == c.since + |Persisted(c.wire[..c.taken])|
  }

  /** While the subscription lives, every number not yet sent is in its channel, in hand, or about to be fanned out. */
  ghost predicate Complete(h: Hub, size: nat, fan: seq<nat>, c: Conn) {
    (c.sub in h.subs && c.sub in h.chans && (c.phase == Setup || c.phase == Streaming)) ==>
      forall n :: (if c.phase == Setup then c.mark else c.lastSeq) < n <= size ==> InFlight(h.chans[c.sub].queue, fan, c.got, n)
  }

  predicate InFlight(queue: seq<Event>, fan: seq<nat>, got: Option<Event>, n: nat) {
    InQueue(queue, n) || n in fan || (got.Some? && got.value.seqNo == n)
  }

  ghost predicate Inv(w: World) {
    && HubOk(w.hub, w.size) && FanOk(w.fan, w.size) && Contiguous(w.browser)
    && (w.conn.Some? ==>
          && w.conn.value.sub in w.hub.chans
          && ConnOk(w.conn.value, w.size) && InStep(w.browser, w.conn.value)
          && Complete(w.hub, w.size, w.fan, w.conn.value))
  }

  lemma InitOk(start: nat)
    ensures Inv(Init(start))
  {
  }

  // ----- publishers -----

  lemma GrowOk(w: World, n: nat)
    requires Inv(w) && w.fan == []
    ensures Inv(Step(w, Append(n)))
  {
    hide Written, Contiguous, InStep, InQueue;
    var size := w.size + n;
    assert forall ch :: ChannelOk(ch, w.size) ==> ChannelOk(ch, size);
    if w.conn.Some? {
      var c := w.conn.value;
      var lo := if c.phase == Setup then c.mark else c.lastSeq;
      if c.sub in w.hub.subs && (c.phase == Setup || c.phase == Streaming) {
        forall k | lo < k <= size ensures InFlight(w.hub.chans[c.sub].queue, From(w.size, n), c.got, k) {
          if k > w.size {
            assert From(w.size, n)[k - w.size - 1] == k;
          } else {
            assert InFlight(w.hub.chans[c.sub].queue, w.fan, c.got, k);
          }
        }
      }
    }
  }

  lemma Appended(queue: seq<Event>, e: Event, n: nat)
    ensures InQueue(queue + [e], n) <==> InQueue(queue, n) || e.seqNo == n
  {
    assert (queue + [e])[|queue|] == e;
    assert forall i :: 0 <= i < |queue| ==> (queue + [e])[i] == queue[i];
  }

  lemma FanoutHub(h: Hub, e: Event, failure: Option<Event>, size: nat)
    requires HubOk(h, size) && e.seqNo <= size && (failure.Some? ==> failure.value.seqNo == 0)
    ensures HubOk(Fanout(h, e, failure), size)
  {
  }

  lemma OfferHub(h: Hub, e: Event, size: nat)
    requires HubOk(h, size) && e.seqNo <= size
    ensures HubOk(Offer(h, e), size)
  {
  }

  /** After a fan-out, a subscriber that is still registered has the event. */
  lemma FanoutComplete(h: Hub, size: nat, fan: seq<nat>, c: Conn, e: Event, failure: Option<Event>, fan': seq<nat>)
    requires HubOk(h, size) && Complete(h, size, fan, c) && c.sub in h.chans
    requires fan == (if e.seqNo == 0 then fan' else [e.seqNo] + fan')
    ensures Complete(Fanout(h, e, failure), size, fan', c)
  {
    hide InQueue, ChannelOk;
    var h' := Fanout(h, e, failure);
    if c.sub in h'.subs && (c.phase == Setup || c.phase == Streaming) {
      forall n | (if c.phase == Setup then c.mark else c.lastSeq) < n <= size ensures InFlight(h'.chans[c.sub].queue, fan', c.got, n) {
        assert InFlight(h.chans[c.sub].queue, fan, c.got, n);
        Appended(h.chans[c.sub].queue, e, n);
      }
    }
  }

  lemma OfferComplete(h: Hub, size: nat, fan: seq<nat>, c: Conn, e: Event)
    requires Complete(h, size, fan, c) && c.sub in h.chans
    ensures Complete(Offer(h, e), size, fan, c)
  {
    hide InQueue;
    var h' := Offer(h, e);
    forall n ensures InFlight(h.chans[c.sub].queue, fan, c.got, n) ==> InFlight(h'.chans[c.sub].queue, fan, c.got, n) {
      Appended(h.chans[c.sub].queue, e, n);
    }
  }

  lemma FanKeeps(w: World, tag: nat)
    requires Inv(w)
    ensures Inv(Step(w, FanNext)) && Inv(Step(w, LiveFailure(tag))) && Inv(Step(w, Ephemeral(tag)))
  {
    hide ConnOk, Contiguous, InStep, HubOk, Complete, Fanout, Offer;
    FanoutKeys(w.hub);
    if w.fan != [] {
      var e := Event(w.fan[0], 0);
      FanoutHub(w.hub, e, None, w.size);
      assert w.fan == [w.fan[0]] + w.fan[1..];
      if w.conn.Some? { FanoutComplete(w.hub, w.size, w.fan, w.conn.value, e, None, w.fan[1..]); }
    } else {
      var e := Event(0, tag);
      FanoutHub(w.hub, e, Some(e), w.size);
      OfferHub(w.hub, e, w.size);
      if w.conn.Some? {
        FanoutComplete(w.hub, w.size, [], w.conn.value, e, Some(e), []);
        OfferComplete(w.hub, w.size, [], w.conn.value, e);
      }
    }
  }

  lemma FanoutKeys(h: Hub)
    ensures forall e, failure :: Fanout(h, e, failure).chans.Keys == h.chans.Keys
    ensures forall e :: Offer(h, e).chans.Keys == h.chans.Keys
  {
  }

  // ----- subscriptions -----

  lemma RegisterHub(h: Hub, size: nat)
    requires HubOk(h, size)
    ensures HubOk(Register(h), size) && h.next !in h.chans
  {
  }

  lemma UnregisterHub(h: Hub, id: SubId, size: nat)
    requires HubOk(h, size)
    ensures HubOk(Unregister(h, id), size) && Unregister(h, id).chans.Keys == h.chans.Keys
  {
  }

  lemma OthersKeep(w: World, id: SubId)
    requires Inv(w)
    ensures Inv(Step(w, OtherSubscribes)) && Inv(Step(w, OtherCancels(id)))
  {
    hide ConnOk, Contiguous, InStep, HubOk, InFlight;
    RegisterHub(w.hub, w.size);
    UnregisterHub(w.hub, id, w.size);
  }

  lemma ConnectKeeps(w: World)
    requires Inv(w)
    ensures Inv(DoConnect(w))
  {
    hide HubOk;
    RegisterHub(w.hub, w.size);
    assert Persisted([]) == [];
    assert From(w.browser.lastId, 0) == [];
  }

  // ----- the handler -----

  /** The handler's own bookkeeping changes; the subscription and the browser do not. */
  lemma ConnStep(w: World, c: Conn)
    requires Inv(w) && w.conn.Some? && ConnOk(c, w.size) && InStep(w.browser, c) && c.sub == w.conn.value.sub
    requires Complete(w.hub, w.size, w.fan, c)
    ensures Inv(WithConn(w, c))
  {
    hide ConnOk, InStep, HubOk, Complete, Contiguous;
  }

  lemma ReturnedKeeps(w: World, c: Conn)
    requires Inv(w) && w.conn.Some? && ConnOk(c, w.size) && InStep(w.browser, c) && c.sub == w.conn.value.sub
    ensures Inv(Returned(w, c))
  {
    hide HubOk, Contiguous, Written;
    UnregisterHub(w.hub, c.sub, w.size);
  }

  /** More on the wire changes nothing the browser has read. */
  lemma Longer(b: Browser, c: Conn, wire: seq<Event>, c': Conn)
    requires InStep(b, c) && c.wire <= wire && c'.wire == wire && c'.taken == c.taken && c'.since == c.since
    ensures InStep(b, c')
  {
    assert wire[..c.taken] == c.wire[..c.taken];
  }

  lemma InitialReplayKeeps(w: World, ok: bool)
    requires Inv(w) && w.conn.Some?
    ensures Inv(DoInitialReplay(w, w.conn.value, ok))
  {
    hide HubOk, Contiguous, Written, InStep, InFlight;
    var c := w.conn.value;
    if c.phase == Setup {
      if !ok {
        ReturnedKeeps(w, c);
      } else {
        ReplayCatchesUp(c.since, c.lastSeq, c.wire, w.size);
        var (wire, lastSeq) := WriteAll(c.wire, c.lastSeq, Replay(w.size, c.since));
        var c' := c.(phase := Streaming, wire := wire, lastSeq := lastSeq);
        Longer(w.browser, c, wire, c');
        ConnStep(w, c');
      }
    }
  }

  lemma ReceiveKeeps(w: World)
    requires Inv(w) && w.conn.Some?
    ensures Inv(DoReceive(w, w.conn.value))
  {
    hide Contiguous, Written;
    var c := w.conn.value;
    var w' := DoReceive(w, c);
    if w' != w {
      var q := w.hub.chans[c.sub].queue;
      assert ChannelOk(w.hub.chans[c.sub], w.size);
      forall n ensures InFlight(q, w.fan, c.got, n) ==> InFlight(q[1..], w.fan, w'.conn.value.got, n) {
        if i :| 0 <= i < |q| && q[i].seqNo == n {
          if i > 0 { assert q[1..][i - 1] == q[i]; }
        }
      }
    }
  }

  lemma HandleKeeps(w: World, ok: bool)
    requires Inv(w) && w.conn.Some?
    ensures Inv(DoHandle(w, w.conn.value, ok))
  {
    hide HubOk, Contiguous, Written, InStep, InQueue, Deliver;
    var c := w.conn.value;
    if c.phase == Streaming && c.got.Some? {
      DeliverWrites(c.since, c.lastSeq, c.wire, c.got.value, w.size, ok);
      var d := Deliver(c.wire, c.lastSeq, c.got.value, if ok then Some(Replay(w.size, c.lastSeq)) else None);
      var c' := c.(got := None, wire := d.wire, lastSeq := d.lastSeq);
      Longer(w.browser, c, d.wire, c');
      if d.ok {
        forall n: nat | InFlight(w.hub.chans[c.sub].queue, w.fan, c.got, n) && n > d.lastSeq
          ensures InFlight(w.hub.chans[c.sub].queue, w.fan, c'.got, n)
        {
        }
        Longer(w.browser, c, d.wire, c'.(handled := c.handled + [c.got.value]));
        ConnStep(w, c'.(handled := c.handled + [c.got.value]));
      } else {
        ReturnedKeeps(w, c');
      }
    }
  }

  lemma ClosedKeeps(w: World, ok: bool)
    requires Inv(w) && w.conn.Some?
    ensures Inv(DoSeeClosed(w, w.conn.value)) && Inv(DoRecover(w, w.conn.value, ok))
  {
    hide Contiguous, Written, InStep, InQueue;
    var c := w.conn.value;
    var ch := w.hub.chans[c.sub];
    assert ChannelOk(ch, w.size);
    var wire := c.wire + if ch.failure.Some? then [ch.failure.value] else [];
    if ch.failure.Some? {
      WriteOne(c.since, c.lastSeq, c.wire, ch.failure.value);
    } else {
      assert wire == c.wire;
    }
    ReplayCatchesUp(c.since, c.lastSeq, c.wire, w.size);
    var (wire', lastSeq) := WriteAll(c.wire, c.lastSeq, Replay(w.size, c.lastSeq));
    Longer(w.browser, c, wire', c.(wire := wire', lastSeq := lastSeq));
    if c.phase == Closing {
      if ok { ReturnedKeeps(w, c.(wire := wire', lastSeq := lastSeq)); } else { ReturnedKeeps(w, c); }
    }
    var notice := if ch.failure.Some? then [ch.failure.value] else [];
    Longer(w.browser, c, wire, c.(phase := Closing, wire := wire, notice := notice));
    if c.phase == Streaming && c.got.None? { ConnStep(w, c.(phase := Closing, wire := wire, notice := notice)); }
  }

  /** What the browser takes from the wire is the next number. */
  lemma BrowserReadsKeeps(w: World)
    requires Inv(w) && w.conn.Some?
    ensures Inv(DoBrowserReads(w, w.conn.value))
  {
    hide HubOk, InQueue;
    var c := w.conn.value;
    if c.taken < |c.wire| {
      var e := c.wire[c.taken];
      assert c.wire[..c.taken + 1] == c.wire[..c.taken] + [e];
      PersistedSnoc(c.wire[..c.taken], e);
      PersistedPrefix(c.wire, c.taken + 1);
      var b := w.browser;
      var sent := Persisted(c.wire[..c.taken]);
      assert e.seqNo != 0 ==> Persisted(c.wire[..c.taken + 1])[|sent|] == e.seqNo == c.since + 1 + |sent|;
      assert From(b.start, b.lastId - b.start) + [b.lastId + 1] == From(b.start, b.lastId + 1 - b.start);
    }
  }

  lemma {:induction false} PersistedPrefix(wire: seq<Event>, k: nat)
    requires k <= |wire|
    ensures Persisted(wire[..k]) <= Persisted(wire)
    decreases |wire|
  {
    if k == |wire| {
      assert wire[..k] == wire;
    } else {
      var n := |wire| - 1;
      assert wire[..n][..k] == wire[..k];
      PersistedPrefix(wire[..n], k);
    }
  }

  lemma StepKeeps(w: World, act: Action)
    requires Inv(w)
    ensures Inv(Step(w, act))
  {
    hide HubOk, FanOk, ConnOk, Contiguous, InStep, Complete, Fanout, Offer, Register, Unregister;
    hide DoInitialReplay, DoReceive, DoHandle, DoSeeClosed, DoRecover, DoBrowserReads, DoConnect, Returned;
    match act {
      case Append(n) => if w.fan == [] { GrowOk(w, n); }
      case FanNext => FanKeeps(w, 0);
      case LiveFailure(tag) => FanKeeps(w, tag);
      case Ephemeral(tag) => FanKeeps(w, tag);
      case OtherSubscribes => OthersKeep(w, 0);
      case OtherCancels(id) => OthersKeep(w, id);
      case Connect => ConnectKeeps(w);
      case BrowserDrops =>
      case InitialReplay(ok) => if w.conn.Some? { InitialReplayKeeps(w, ok); }
      case Receive => if w.conn.Some? { ReceiveKeeps(w); }
      case Handle(ok) => if w.conn.Some? { HandleKeeps(w, ok); }
      case SeeClosed => if w.conn.Some? { ClosedKeeps(w, true); }
      case Recover(ok) => if w.conn.Some? { ClosedKeeps(w, ok); }
      case Disconnect => if w.conn.Some? { DisconnectKeeps(w); }
      case BrowserReads => if w.conn.Some? { BrowserReadsKeeps(w); }
    }
  }

  lemma DisconnectKeeps(w: World)
    requires Inv(w) && w.conn.Some?
    ensures Inv(Returned(w, w.conn.value))
  {
    hide HubOk, Contiguous, Written, InStep, InQueue;
    ReturnedKeeps(w, w.conn.value);
  }

  lemma {:induction false} Reachable(start: nat, acts: seq<Action>)
    ensures Inv(Run(start, acts))
    decreases |acts|
  {
    hide Inv, Step;
    if acts == [] {
      InitOk(start);
    } else {
      Reachable(start, acts[..|acts| - 1]);
      StepKeeps(Run(start, acts[..|acts| - 1]), acts[|acts| - 1]);
    }
  }

  /** Over any interleaving of publishes, overflow, failed reads, disconnects and reconnects the
      browser receives start + 1, start + 2, ... with no gap, duplicate or reorder. */
  lemma GapFree(start: nat, acts: seq<Action>)
    ensures var w := Run(start, acts);
            w.browser.received == From(start, |w.browser.received|) && w.browser.lastId == start + |w.browser.received|
  {
    hide Step;
    Reachable(start, acts);
    StartKept(start, acts);
  }

  lemma {:induction false} StartKept(start: nat, acts: seq<Action>)
    ensures Run(start, acts).browser.start == start
    decreases |acts|
  {
    hide Deliver, WriteAll, Fanout, Offer, Register, Unregister, Note;
    if acts != [] { StartKept(start, acts[..|acts| - 1]); }
  }

  // ----- live-only events -----

  /** The live-only events, in order. */
  function Lives(events: seq<Event>): seq<Event> {
    if events == [] then []
    else Lives(events[..|events| - 1]) + if events[|events| - 1].seqNo == 0 then [events[|events| - 1]] else []
  }

  lemma LivesSnoc(events: seq<Event>, e: Event)
    ensures Lives(events + [e]) == Lives(events) + if e.seqNo == 0 then [e] else []
  {
    assert (events + [e])[..|events|] == events;
  }

  /** A replay writes persisted events only. */
  lemma {:induction false} ReplayWritesNoLive(wire: seq<Event>, lastSeq: nat, missed: seq<Event>)
    ensures Lives(WriteAll(wire, lastSeq, missed).0) == Lives(wire)
    decreases |missed|
  {
    if missed != [] {
      if missed[0].seqNo <= lastSeq {
        ReplayWritesNoLive(wire, lastSeq, missed[1..]);
      } else {
        LivesSnoc(wire, missed[0]);
        assert Lives(wire) + [] == Lives(wire);
        ReplayWritesNoLive(wire + [missed[0]], missed[0].seqNo, missed[1..]);
      }
    }
  }

  /** Delivering writes a live-only event itself, and no other live-only one with it. */
  lemma DeliverWritesLive(wire: seq<Event>, lastSeq: nat, e: Event, replay: Option<seq<Event>>)
    ensures var d := Deliver(wire, lastSeq, e, replay);
            && Lives(d.wire) == Lives(wire) + (if e.seqNo == 0 then [e] else [])
            && (e.seqNo == 0 ==> d.ok && d.lastSeq == lastSeq)
  {
    hide Lives, WriteAll;
    LivesSnoc(wire, e);
    assert Lives(wire) + [] == Lives(wire);
    if replay.Some? {
      ReplayWritesNoLive(wire, lastSeq, replay.value);
      LivesSnoc(WriteAll(wire, lastSeq, replay.value).0, e);
    }
  }

  /** The connection has handled what it was offered, in order, but for what is still on its way. */
  ghost predicate InOrder(h: Hub, offered: map<SubId, seq<Event>>, c: Conn) {
    && c.sub in offered && c.sub in h.chans
    && c.handled <= offered[c.sub]
    && (c.phase != Over ==>
          offered[c.sub] == c.handled + (if c.got.Some? then [c.got.value] else []) + h.chans[c.sub].queue)
    && (c.got.Some? ==> c.phase == Streaming)
  }

  /** The wire's live-only events are the handled ones, and the notice of a closed channel. */
  ghost predicate LiveWire(h: Hub, c: Conn) {
    && Lives(c.wire) == Lives(c.handled) + c.notice
    && (c.phase == Setup || c.phase == Streaming ==> c.notice == [])
    && (c.phase == Closing ==>
          && c.got.None? && c.sub in h.chans && h.chans[c.sub].queue == [] && !h.chans[c.sub].open && c.sub !in h.subs
          && c.notice == if h.chans[c.sub].failure.Some? then [h.chans[c.sub].failure.value] else [])
  }

  ghost predicate LiveInv(w: World) {
    && w.offered.Keys == w.hub.chans.Keys
    && (w.conn.Some? ==> InOrder(w.hub, w.offered, w.conn.value) && LiveWire(w.hub, w.conn.value))
  }

  lemma PublishLive(w: World, e: Event, failure: Option<Event>)
    requires LiveInv(w)
    ensures LiveInv(w.(hub := Fanout(w.hub, e, failure), offered := Note(w, e)))
    ensures LiveInv(w.(hub := Offer(w.hub, e), offered := Note(w, e)))
  {
    hide Lives, Fanout, Offer;
    FanoutKeys(w.hub);
    if w.conn.Some? {
      FanoutReaches(w.hub, e, failure, w.conn.value.sub);
      OfferReaches(w.hub, e, w.conn.value.sub);
      var q := w.hub.chans[w.conn.value.sub].queue;
      var head := w.conn.value.handled + (if w.conn.value.got.Some? then [w.conn.value.got.value] else []);
      assert head + (q + [e]) == head + q + [e];
    }
  }

  lemma SubsLive(w: World, id: SubId)
    requires LiveInv(w) && Inv(w)
    ensures w.fan == [] ==> LiveInv(w.(hub := Register(w.hub), offered := w.offered[w.hub.next := []]))
    ensures !(w.conn.Some? && w.conn.value.sub == id) ==> LiveInv(w.(hub := Unregister(w.hub, id)))
    ensures LiveInv(DoConnect(w))
  {
    hide Lives, Written, Contiguous, InStep, Complete, ChannelOk;
    assert w.hub.next !in w.hub.chans;
    assert Lives([]) == [] by { NoLives(); }
  }

  lemma NoLives()
    ensures Lives([]) == []
  {
  }

  lemma ReturnedLive(w: World, c: Conn)
    requires LiveInv(w) && w.conn.Some? && InOrder(w.hub, w.offered, c) && LiveWire(w.hub, c)
    ensures LiveInv(Returned(w, c))
  {
    hide Lives;
  }

  lemma ReplaysLive(w: World, ok: bool)
    requires LiveInv(w) && w.conn.Some?
    ensures LiveInv(DoInitialReplay(w, w.conn.value, ok)) && LiveInv(DoRecover(w, w.conn.value, ok))
  {
    hide Lives, WriteAll, Replay, Returned;
    var c := w.conn.value;
    ReplayWritesNoLive(c.wire, c.lastSeq, Replay(w.size, c.since));
    ReplayWritesNoLive(c.wire, c.lastSeq, Replay(w.size, c.lastSeq));
    var (wire, lastSeq) := WriteAll(c.wire, c.lastSeq, Replay(w.size, c.lastSeq));
    ReturnedLive(w, c);
    ReturnedLive(w, c.(wire := wire, lastSeq := lastSeq));
  }

  lemma ReceiveLive(w: World)
    requires LiveInv(w) && w.conn.Some?
    ensures LiveInv(DoReceive(w, w.conn.value))
  {
    hide Lives;
    var c := w.conn.value;
    if c.phase == Streaming && c.got.None? && c.sub in w.hub.chans && w.hub.chans[c.sub].queue != [] {
      var q := w.hub.chans[c.sub].queue;
      assert q == [q[0]] + q[1..];
      assert c.handled + [] + q == c.handled + [q[0]] + q[1..];
    }
  }

  lemma HandleLive(w: World, ok: bool)
    requires LiveInv(w) && w.conn.Some?
    ensures LiveInv(DoHandle(w, w.conn.value, ok))
  {
    hide Lives, Deliver, Replay, Returned;
    var c := w.conn.value;
    if c.phase == Streaming && c.got.Some? {
      var e := c.got.value;
      var replay := if ok then Some(Replay(w.size, c.lastSeq)) else None;
      var d := Deliver(c.wire, c.lastSeq, e, replay);
      DeliverWritesLive(c.wire, c.lastSeq, e, replay);
      LivesSnoc(c.handled, e);
      assert c.handled + [e] + w.hub.chans[c.sub].queue == (c.handled + [e]) + [] + w.hub.chans[c.sub].queue;
      if !d.ok { GivesUpLive(w, c, d.wire, d.lastSeq); }
    }
  }

  /** The handler returns without having dealt with the event in hand. */
  lemma GivesUpLive(w: World, c: Conn, wire: seq<Event>, lastSeq: nat)
    requires LiveInv(w) && w.conn == Some(c) && Lives(wire) == Lives(c.wire)
    ensures LiveInv(Returned(w, c.(got := None, wire := wire, lastSeq := lastSeq)))
  {
    hide Lives;
  }

  lemma ClosedLive(w: World)
    requires LiveInv(w) && Inv(w) && w.conn.Some?
    ensures LiveInv(DoSeeClosed(w, w.conn.value))
  {
    hide Lives, Written, Contiguous, InStep, Complete;
    var c := w.conn.value;
    if c.sub in w.hub.chans && w.hub.chans[c.sub].failure.Some? {
      assert ChannelOk(w.hub.chans[c.sub], w.size);
      LivesSnoc(c.wire, w.hub.chans[c.sub].failure.value);
    }
    assert c.wire + [] == c.wire;
  }

  lemma StepLive(w: World, act: Action)
    requires LiveInv(w) && Inv(w)
    ensures LiveInv(Step(w, act))
  {
    hide LiveInv, Inv, Fanout, Offer, Register, Unregister, Note;
    hide DoInitialReplay, DoReceive, DoHandle, DoSeeClosed, DoRecover, DoBrowserReads, DoConnect, Returned;
    match act {
      case Append(n) => SameLive(w, Step(w, act));
      case FanNext =>
        if w.fan != [] {
          var e := Event(w.fan[0], 0);
          PublishLive(w, e, None);
          SameLive(w.(hub := Fanout(w.hub, e, None), offered := Note(w, e)), Step(w, act));
        }
      case LiveFailure(tag) => PublishLive(w, Event(0, tag), Some(Event(0, tag)));
      case Ephemeral(tag) => PublishLive(w, Event(0, tag), None);
      case OtherSubscribes => SubsLive(w, 0);
      case OtherCancels(id) => SubsLive(w, id);
      case Connect => SubsLive(w, 0);
      case BrowserDrops => NoConnLive(w);
      case InitialReplay(ok) => if w.conn.Some? { ReplaysLive(w, ok); }
      case Receive => if w.conn.Some? { ReceiveLive(w); }
      case Handle(ok) => if w.conn.Some? { HandleLive(w, ok); }
      case SeeClosed => if w.conn.Some? { ClosedLive(w); }
      case Recover(ok) => if w.conn.Some? { ReplaysLive(w, ok); }
      case Disconnect => if w.conn.Some? { StopsLive(w); }
      case BrowserReads => if w.conn.Some? { ReadsLive(w); }
    }
  }

  lemma SameLive(w: World, w': World)
    requires LiveInv(w) && w'.hub == w.hub && w'.conn == w.conn && w'.offered == w.offered
    ensures LiveInv(w')
  {
  }

  lemma NoConnLive(w: World)
    requires LiveInv(w)
    ensures LiveInv(w.(conn := None))
  {
  }

  lemma StopsLive(w: World)
    requires LiveInv(w) && w.conn.Some?
    ensures LiveInv(Returned(w, w.conn.value))
  {
    var c := w.conn.value;
    GivesUpLive(w, c, c.wire, c.lastSeq);
    assert c.(got := None, wire := c.wire, lastSeq := c.lastSeq) == c.(got := None);
  }

  lemma ReadsLive(w: World)
    requires LiveInv(w) && w.conn.Some?
    ensures LiveInv(DoBrowserReads(w, w.conn.value))
  {
    hide Lives;
  }

  /** Over every run, the live-only events on a connection's wire are exactly, and in order, those it
      handled of the events offered to it, and the notice of a closed channel. Nothing it was offered is
      skipped: what is not handled yet is in hand or still queued, and once the channel is seen closed
      everything was handled. */
  lemma LiveDelivery(start: nat, acts: seq<Action>)
    ensures var w := Run(start, acts);
            w.conn.Some? ==>
              var c := w.conn.value;
              && Lives(c.wire) == Lives(c.handled) + c.notice
              && c.sub in w.offered && c.sub in w.hub.chans && c.handled <= w.offered[c.sub]
              && (c.phase == Streaming ==>
                    && c.notice == []
                    && w.offered[c.sub]
                       == c.handled + (if c.got.Some? then [c.got.value] else []) + w.hub.chans[c.sub].queue)
              && (c.phase == Closing ==>
                    && c.handled == w.offered[c.sub]
                    && c.notice == if w.hub.chans[c.sub].failure.Some? then [w.hub.chans[c.sub].failure.value] else [])
  {
    hide Step, Lives, Run;
    AllLive(start, acts);
  }

  lemma {:induction false} AllLive(start: nat, acts: seq<Action>)
    ensures LiveInv(Run(start, acts))
    decreases |acts|
  {
    hide LiveInv, Inv, Step;
    if acts == [] {
      InitLive(start);
    } else {
      AllLive(start, acts[..|acts| - 1]);
      Reachable(start, acts[..|acts| - 1]);
      StepLive(Run(start, acts[..|acts| - 1]), acts[|acts| - 1]);
    }
  }

  lemma InitLive(start: nat)
    ensures LiveInv(Init(start))
  {
  }

  /** A live stream with nothing waiting has been sent everything the store holds. */
  lemma IdleStreamIsCurrent(start: nat, acts: seq<Action>)
    ensures var w := Run(start, acts);
            w.conn.Some? && w.conn.value.phase == Streaming && w.conn.value.got.None? && w.fan == []
            && w.conn.value.sub in w.hub.subs && w.conn.value.sub in w.hub.chans
            && w.hub.chans[w.conn.value.sub].queue == [] ==>
              w.conn.value.lastSeq >= w.size
  {
    hide Step, HubOk;
    Reachable(start, acts);
    var w := Run(start, acts);
    if w.conn.Some? && w.conn.value.sub in w.hub.chans && w.size > w.conn.value.lastSeq {
      var c := w.conn.value;
      var inFlight := InFlight(w.hub.chans[c.sub].queue, w.fan, c.got, w.size);
    }
  }
}
