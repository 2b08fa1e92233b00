/** The live event bus: bounded subscriber channels that Publish fills and closes when they overflow, and the cursor
    with which one HTTP stream joins the stored history to the channel. */
module EventBus {
  import opened Prelude
  import opened EventLedger

  const BUFFER: nat := 32

  datatype Channel = Channel(buffer: seq<Event>, closed: bool)

  /** `subs` maps a live subscription to its row in `channels`. The subscription counter is a uint64. */
  datatype BusState = BusState(channels: seq<Channel>, subs: map<uint64, nat>, next: uint64)

  const SILENT := BusState([], map[], 0)

  predicate Subscribed(b: BusState, c: nat) {
    c in b.subs.Values
  }

  /** Subscriptions point at open channels, no two at the same one; no channel holds more than its capacity. */
  ghost predicate Wired(b: BusState) {
    && (forall id | id in b.subs :: b.subs[id] < |b.channels| && !b.channels[b.subs[id]].closed)
    && (forall i, j | i in b.subs && j in b.subs && i != j :: b.subs[i] != b.subs[j])
    && (forall c: nat | c < |b.channels| :: |b.channels[c].buffer| <= BUFFER)
  }

  function Offer(c: Channel, e: Event): Channel {
    if |c.buffer| < BUFFER then c.(buffer := c.buffer + [e]) else c.(closed := true)
  }

  predicate Room(b: BusState, c: nat) {
    c < |b.channels| && |b.channels[c].buffer| < BUFFER
  }

  /** The critical section of Publish: every subscriber gets the event or loses its subscription. */
  function FanOut(b: BusState, e: Event): BusState {
    BusState(
      seq(|b.channels|, c requires 0 <= c < |b.channels| => if Subscribed(b, c) then Offer(b.channels[c], e)
          else b.channels[c]),
      map id | id in b.subs && Room(b, b.subs[id]) :: b.subs[id],
      b.next)
  }

  function Subscribe(b: BusState): BusState {
    BusState(b.channels + [Channel([], false)], b.subs[b.next := |b.channels|], (b.next + 1) % U64)
  }

  /** The function handed out by Subscribe: closes the channel unless the bus already has. */
  function Unsubscribe(b: BusState, id: uint64): BusState {
    if id in b.subs && b.subs[id] < |b.channels| then
      b.(channels := b.channels[b.subs[id] := b.channels[b.subs[id]].(closed := true)], subs := b.subs - {id})
    else b
  }

  /** A receive on a channel takes its oldest event. */
  function Take(b: BusState, c: nat): BusState
    requires c < |b.channels| && b.channels[c].buffer != []
  {
    b.(channels := b.channels[c := b.channels[c].(buffer := b.channels[c].buffer[1..])])
  }

  lemma FanOutWired(b: BusState, e: Event)
    requires Wired(b)
    ensures Wired(FanOut(b, e))
    ensures forall c: nat | c < |b.channels| :: Subscribed(FanOut(b, e), c) <==> Subscribed(b, c) && Room(b, c)
  {
    var b' := FanOut(b, e);
    forall c: nat | c < |b.channels| && Subscribed(b, c) && Room(b, c)
      ensures Subscribed(b', c)
    {
      var id :| id in b.subs && b.subs[id] == c;
      assert id in b'.subs && b'.subs[id] == c;
    }
  }

  lemma FanOutServes(b: BusState, e: Event)
    requires Wired(b)
    ensures
      var b' := FanOut(b, e);
      && |b'.channels| == |b.channels|
      && forall id | id in b.subs ::
        if |b.channels[b.subs[id]].buffer| < BUFFER
        then id in b'.subs && b'.subs[id] == b.subs[id]
             && b'.channels[b.subs[id]] == Channel(b.channels[b.subs[id]].buffer + [e], false)
        else id !in b'.subs && b'.channels[b.subs[id]] == Channel(b.channels[b.subs[id]].buffer, true)
  {
    forall id | id in b.subs ensures Subscribed(b, b.subs[id]) {}
  }

  lemma SubscribeWired(b: BusState)
    requires Wired(b)
    ensures Wired(Subscribe(b)) && Subscribed(Subscribe(b), |b.channels|)
    ensures forall c: nat | c < |b.channels| && Subscribed(Subscribe(b), c) :: Subscribed(b, c)
  {
    assert b.next in Subscribe(b).subs && Subscribe(b).subs[b.next] == |b.channels|;
  }

  lemma UnsubscribeWired(b: BusState, id: uint64)
    requires Wired(b)
    ensures Wired(Unsubscribe(b, id)) && id !in Unsubscribe(b, id).subs
    ensures forall c: nat | Subscribed(Unsubscribe(b, id), c) :: Subscribed(b, c)
  {
  }

  lemma TakeWired(b: BusState, c: nat)
    requires Wired(b) && c < |b.channels| && b.channels[c].buffer != []
    ensures Wired(Take(b, c))
  {
  }

  /** Half-way through the loop of Publish: `todo` still waits, the others have been served. */
  ghost predicate Served(b: BusState, e: Event, todo: set<uint64>, channels: seq<Channel>, subs: map<uint64, nat>) {
    && todo <= b.subs.Keys && |channels| == |b.channels|
    && (forall id | id in b.subs :: b.subs[id] < |b.channels|)
    && (forall id | id in b.subs && id in todo :: channels[b.subs[id]] == b.channels[b.subs[id]])
    && (forall id | id in b.subs && id !in todo :: channels[b.subs[id]] == Offer(b.channels[b.subs[id]], e))
    && (forall c: nat | c < |channels| && !Subscribed(b, c) :: channels[c] == b.channels[c])
    && (forall id | id in b.subs :: id in subs <==> id in todo || Room(b, b.subs[id]))
    && (forall id | id in subs :: id in b.subs && subs[id] == b.subs[id])
  }

  lemma ServeOne(b: BusState, e: Event, todo: set<uint64>, channels: seq<Channel>, subs: map<uint64, nat>, id: uint64)
    requires Wired(b) && Served(b, e, todo, channels, subs) && id in todo
    ensures id in subs && subs[id] < |channels|
    ensures
      var c := subs[id];
      Served(b, e, todo - {id}, channels[c := Offer(channels[c], e)], if |channels[c].buffer| < BUFFER then subs
          else subs - {id})
  {
    var c := subs[id];
    assert Subscribed(b, c);
    assert forall other | other in b.subs && other != id :: b.subs[other] != c;
  }

  lemma ServedAll(b: BusState, e: Event, channels: seq<Channel>, subs: map<uint64, nat>)
    requires Served(b, e, {}, channels, subs)
    ensures channels == FanOut(b, e).channels && subs == FanOut(b, e).subs
  {
  }

  class Bus {
    var channels: seq<Channel>
    var subs: map<uint64, nat>
    var next: uint64
    const store: EventStore

    function View(): BusState
      reads this
    {
      BusState(channels, subs, next)
    }

    ghost predicate Valid()
      reads this, store
    {
      store.Valid() && Wired(View())
    }

    constructor (store: EventStore)
      requires store.Valid()
      ensures Valid() && this.store == store && View() == SILENT
    {
      this.store := store;
      channels, subs, next := [], map[], 0;
    }

    /** One call of Publish with nothing in between; its two halves are separate steps of a run. A failing append is the
        error that ends the call. */
    method Publish(payload: string, fails: bool) returns (published: Option<Event>)
      requires Wired(View())
      modifies this`channels, this`subs, store
      ensures Wired(View()) && (old(store.Valid()) && |store.history| < U64 ==> store.Valid())
      ensures fails ==> published == None && View() == old(View())
      ensures fails ==> store.db == old(store.db) && store.history == old(store.history)
      ensures !fails ==>
        && store.db == Appended(old(store.db), payload) && store.history == old(store.history) + [payload]
        && published == Some(Event(SequenceIn(store.db), payload)) && View() == FanOut(old(View()), published.value)
    {
      if fails {
        return None;
      }
      var event := store.AppendEvent(payload);
      Broadcast(event);
      return Some(event);
    }

    method Broadcast(event: Event)
      requires Wired(View())
      modifies this`channels, this`subs
      ensures Wired(View()) && View() == FanOut(old(View()), event)
      ensures forall id | id in old(subs) && |old(channels)[old(subs)[id]].buffer| < 32 ::
        && id in subs && subs[id] == old(subs)[id]
        && channels[subs[id]] == Channel(old(channels)[subs[id]].buffer + [event], false)
      ensures forall id | id in old(subs) && |old(channels)[old(subs)[id]].buffer| >= 32 ::
        id !in subs && channels[old(subs)[id]] == Channel(old(channels)[old(subs)[id]].buffer, true)
    {
      ghost var b := View();
      var todo := subs.Keys;
      while todo != {}
        invariant Served(b, event, todo, channels, subs)
        decreases todo
      {
        var id :| id in todo;
        ServeOne(b, event, todo, channels, subs, id);
        hide Served, Wired;
        todo := todo - {id};
        var c := subs[id];
        if |channels[c].buffer| < BUFFER {
          channels := channels[c := channels[c].(buffer := channels[c].buffer + [event])];
        } else {
          subs := subs - {id};
          channels := channels[c := channels[c].(closed := true)];
        }
      }
      FanOutWired(b, event);
      FanOutServes(b, event);
      ServedAll(b, event, channels, subs);
      hide FanOut, Served;
    }

    method Join() returns (id: uint64, channel: nat)
      requires Valid()
      modifies this`channels, this`subs, this`next
      ensures Valid() && id == old(next) && channel == old(|channels|) && View() == Subscribe(old(View()))
    {
      SubscribeWired(View());
      id, channel := next, |channels|;
      next := (next + 1) % U64;
      channels := channels + [Channel([], false)];
      subs := subs[id := channel];
    }

    method Leave(id: uint64)
      requires Valid()
      modifies this`channels, this`subs
      ensures Valid() && View() == Unsubscribe(old(View()), id)
    {
      UnsubscribeWired(View(), id);
      if id in subs {
        var c := subs[id];
        subs := subs - {id};
        channels := channels[c := channels[c].(closed := true)];
      }
    }

    method Receive(channel: nat) returns (event: Event)
      requires Valid() && channel < |channels| && channels[channel].buffer != []
      modifies this`channels
      ensures Valid() && event == old(channels[channel].buffer[0]) && View() == Take(old(View()), channel)
    {
      TakeWired(View(), channel);
      event := channels[channel].buffer[0];
      channels := channels[channel := channels[channel].(buffer := channels[channel].buffer[1..])];
    }
  }

  // ---- the handler of one stream ----

  datatype Cursor = Cursor(after: uint64, written: seq<Event>)

  function Replay(c: Cursor, history: seq<Event>): Cursor {
    Cursor(if history == [] then c.after else history[|history| - 1].id, c.written + history)
  }

  function Deliver(c: Cursor, e: Event): Cursor {
    if e.id <= c.after then c else Cursor(e.id, c.written + [e])
  }

  function DeliverAll(c: Cursor, received: seq<Event>): Cursor {
    if received == [] then c else Deliver(DeliverAll(c, received[..|received| - 1]), received[|received| - 1])
  }

  class Stream {
    var after: uint64
    var written: seq<Event>

    function View(): Cursor
      reads this
    {
      Cursor(after, written)
    }

    constructor (header: uint64)
      ensures View() == Cursor(header, [])
    {
      after, written := header, [];
    }

    method WriteHistory(history: seq<Event>)
      modifies this
      ensures View() == Replay(old(View()), history)
    {
      for i := 0 to |history|
        invariant View() == Replay(old(View()), history[..i])
      {
        assert history[..i + 1] == history[..i] + [history[i]];
        written := written + [history[i]];
        after := history[i].id;
      }
      assert history[..|history|] == history;
    }

    /** The receive branch of the select loop, over everything the channel yields until it is closed. */
    method WriteLive(received: seq<Event>)
      modifies this
      ensures View() == DeliverAll(old(View()), received)
    {
      for i := 0 to |received|
        invariant View() == DeliverAll(old(View()), received[..i])
      {
        assert received[..i + 1][..i] == received[..i];
        if received[i].id <= after { continue; }
        written := written + [received[i]];
        after := received[i].id;
      }
      assert received[..|received|] == received;
    }
  }

  // ---- when the live part has no gap ----

  /** The events written after the first `from` ones carry the ids after + 1, after + 2, ... */
  predicate Gapless(after: uint64, written: seq<Event>) {
    forall k: nat | k < |written| :: written[k].id == after + 1 + k
  }

  /** Whenever an id above `after` arrives, its predecessor has arrived before, or is `after` itself. */
  ghost predicate PredecessorsFirst(after: uint64, received: seq<Event>) {
    forall i: nat | i < |received| && received[i].id > after + 1 ::
      exists j: nat :: j < i && received[j].id == received[i].id - 1
  }

  /** Every id up to the cursor has arrived when nothing was skipped, and no id beyond it. */
  lemma {:induction false} DeliverBounds(after: uint64, received: seq<Event>)
    ensures DeliverAll(Cursor(after, []), received).after >= after
    ensures forall j: nat | j < |received| :: received[j].id <= DeliverAll(Cursor(after, []), received).after
    ensures
      var c := DeliverAll(Cursor(after, []), received);
      (c.written == [] <==> c.after == after) && (c.written != [] ==> c.after == c.written[|c.written| - 1].id)
    ensures
      forall e | e in DeliverAll(Cursor(after, []), received).written :: e in received
  {
    if received != [] {
      DeliverBounds(after, received[..|received| - 1]);
    }
  }

  ghost predicate Preceded(e: Event, received: seq<Event>) {
    exists j: nat :: j < |received| && received[j].id == e.id - 1
  }

  lemma PredecessorsGrow(after: uint64, received: seq<Event>, e: Event)
    ensures PredecessorsFirst(after, received + [e])
      <==> PredecessorsFirst(after, received) && (e.id > after + 1 ==> Preceded(e, received))
  {
    var all := received + [e];
    assert all[..|received|] == received;
    if PredecessorsFirst(after, all) {
      forall i: nat | i < |received| && received[i].id > after + 1
        ensures exists j: nat :: j < i && received[j].id == received[i].id - 1
      {
        assert all[i] == received[i];
        var j: nat :| j < i && all[j].id == all[i].id - 1;
        assert received[j].id == received[i].id - 1;
      }
      if e.id > after + 1 {
        assert all[|received|] == e;
        var j: nat :| j < |received| && all[j].id == all[|received|].id - 1;
        assert received[j].id == e.id - 1;
      }
    }
    if PredecessorsFirst(after, received) && (e.id > after + 1 ==> Preceded(e, received)) {
      forall i: nat | i < |all| && all[i].id > after + 1
        ensures exists j: nat :: j < i && all[j].id == all[i].id - 1
      {
        var j: nat :| j < i && received[j].id == all[i].id - 1;
        assert all[j] == received[j];
      }
    }
  }

  /** With no gap so far, an id beyond the cursor continues without a gap exactly when its predecessor has arrived. */
  lemma GaplessGrows(after: uint64, received: seq<Event>, e: Event)
    requires Gapless(after, DeliverAll(Cursor(after, []), received).written) && e.id > after + 1
    ensures
      var c := DeliverAll(Cursor(after, []), received);
      Gapless(after, Deliver(c, e).written) <==> Preceded(e, received)
  {
    hide DeliverAll;
    var c := DeliverAll(Cursor(after, []), received);
    DeliverBounds(after, received);
    assert c.after == after + |c.written|;
    if e.id <= c.after {
      var k: nat := e.id - after - 2;
      assert c.written[k].id == e.id - 1 && c.written[k] in received;
    } else {
      var written := Deliver(c, e).written;
      assert written[|c.written|] == e;
      assert forall k: nat | k < |c.written| :: written[k] == c.written[k];
      if e.id == c.after + 1 {
        if c.written != [] { assert c.written[|c.written| - 1] in received; }
      }
    }
  }

  /** For every sequence of receives: the stream has no gap if and only if predecessors came first. */
  lemma {:induction false} GaplessIff(after: uint64, received: seq<Event>)
    ensures Gapless(after, DeliverAll(Cursor(after, []), received).written) <==> PredecessorsFirst(after, received)
  {
    if received != [] {
      var front, e := received[..|received| - 1], received[|received| - 1];
      var c := DeliverAll(Cursor(after, []), front);
      assert DeliverAll(Cursor(after, []), received) == Deliver(c, e);
      GaplessIff(after, front);
      PredecessorsGrow(after, front, e);
      assert front + [e] == received;
      hide DeliverAll, PredecessorsFirst, Preceded;
      if !Gapless(after, c.written) {
        var k: nat :| k < |c.written| && c.written[k].id != after + 1 + k;
        assert Deliver(c, e).written[k] == c.written[k];
      } else if e.id > after + 1 {
        GaplessGrows(after, front, e);
      } else {
        DeliverBounds(after, front);
      }
    }
  }
}
