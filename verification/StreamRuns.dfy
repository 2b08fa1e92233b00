/** Publishers and event streams as one step machine. Publish is two steps, the append and the fan-out; a stream
    subscribes, reads the history, then receives. Nothing orders the steps of different callers. */
module StreamRuns {
  import opened Prelude
  import opened EventLedger
  import opened EventBus

  datatype Phase = Joined | Live | Leaving | Gone

  /** One eventStream handler: its subscription, its Last-Event-ID, how many events were stored when it read the
      history (None before), what its channel yielded, and its cursor. */
  datatype Handler = Handler(phase: Phase, sub: uint64, header: uint64, base: Option<nat>, received: seq<Event>,
      cursor: Cursor)

  /** Handler `s` receives from channel `s`. `inflight` holds the ids appended and not yet fanned out. */
  datatype Sys = Sys(log: seq<string>, inflight: set<nat>, bus: BusState, handlers: seq<Handler>)

  datatype Action =
    | Append(payload: string)
    | Fan(id: nat)
    | Open(header: uint64)
    | Read(s: nat)
    | Fail(s: nat)
    | Receive(s: nat)
    | Quit(s: nat)
    | Leave(s: nat)

  const START := Sys([], {}, SILENT, [])

  predicate At(y: Sys, s: nat, phase: Phase) {
    s < |y.handlers| && s < |y.bus.channels| && y.handlers[s].phase == phase
  }

  function With(y: Sys, s: nat, h: Handler): Sys
    requires s < |y.handlers|
  {
    y.(handlers := y.handlers[s := h])
  }

  function Opened(header: uint64): Cursor {
    Cursor(header, [])
  }

  function ReadHistory(log: seq<string>, h: Handler): Handler
    requires |log| < U64
  {
    h.(phase := Live, base := Some(|log|), cursor := Replay(h.cursor, Window(log, h.header, LIMIT)))
  }

  function Got(h: Handler, e: Event): Handler {
    h.(received := h.received + [e], cursor := Deliver(h.cursor, e))
  }

  /** One step; a step that is not enabled changes nothing. */
  function Next(y: Sys, a: Action): Sys {
    match a
    case Append(payload) =>
      if |y.log| + 1 < U64 then y.(log := y.log + [payload], inflight := y.inflight + {|y.log| + 1}) else y
    case Fan(id) =>
      if id in y.inflight && 1 <= id <= |y.log| < U64 then
        y.(inflight := y.inflight - {id}, bus := FanOut(y.bus, EventAt(y.log, id)))
      else y
    case Open(header) =>
      y.(bus := Subscribe(y.bus),
          handlers := y.handlers + [Handler(Joined, y.bus.next, header, None, [], Opened(header))])
    case Read(s) =>
      if At(y, s, Joined) && |y.log| < U64 then With(y, s, ReadHistory(y.log, y.handlers[s])) else y
    case Fail(s) =>
      if At(y, s, Joined) then With(y, s, y.handlers[s].(phase := Leaving)) else y
    case Receive(s) =>
      if At(y, s, Live) then
        var c := y.bus.channels[s];
        if c.buffer != [] then With(y, s, Got(y.handlers[s], c.buffer[0])).(bus := Take(y.bus, s))
        else if c.closed then With(y, s, y.handlers[s].(phase := Leaving))
        else y
      else y
    case Quit(s) =>
      if At(y, s, Live) then With(y, s, y.handlers[s].(phase := Leaving)) else y
    case Leave(s) =>
      if At(y, s, Leaving) then
        With(y, s, y.handlers[s].(phase := Gone)).(bus := Unsubscribe(y.bus, y.handlers[s].sub))
      else y
  }

  function Run(actions: seq<Action>): Sys {
    if actions == [] then START else Next(Run(actions[..|actions| - 1]), actions[|actions| - 1])
  }

  // ---- what every interleaving keeps ----

  predicate Authentic(log: seq<string>, e: Event) {
    1 <= e.id <= |log| < U64 && e == EventAt(log, e.id)
  }

  ghost predicate AllAuthentic(log: seq<string>, es: seq<Event>) {
    forall k: nat | k < |es| :: Authentic(log, es[k])
  }

  ghost predicate Increasing(es: seq<Event>) {
    forall i: nat, j: nat | i < j < |es| :: es[i].id < es[j].id
  }

  /** What a handler that read the history of `base` events starts its live part with. */
  function Resumed(log: seq<string>, base: nat, header: uint64): Cursor
    requires base <= |log| < U64
  {
    Replay(Opened(header), Window(log[..base], header, LIMIT))
  }

  /** What the handler has written is the history it read followed by what its channel yielded, filtered by the
      cursor. */
  ghost predicate Explained(log: seq<string>, h: Handler)
    requires |log| < U64
  {
    match h.base
    case None => h.received == [] && h.cursor == Opened(h.header)
    case Some(base) => base <= |log| && h.cursor == DeliverAll(Resumed(log, base, h.header), h.received)
  }

  ghost predicate Tidy(log: seq<string>, h: Handler)
    requires |log| < U64
  {
    && Explained(log, h)
    && (h.phase == Joined ==> h.base.None?) && (h.phase == Live ==> h.base.Some?)
    && AllAuthentic(log, h.cursor.written) && Increasing(h.cursor.written)
    && (h.cursor.written != [] ==> h.cursor.after == h.cursor.written[|h.cursor.written| - 1].id)
    && (h.cursor.written == [] ==> h.cursor.after == h.header)
    && (h.header < U64 - 1 ==> forall k: nat | k < |h.cursor.written| :: h.cursor.written[k].id > h.header)
  }

  ghost predicate Good(y: Sys) {
    && |y.log| < U64
    && Wired(y.bus) && |y.bus.channels| == |y.handlers|
    && (forall id | id in y.inflight :: 1 <= id <= |y.log|)
    && (forall c: nat | c < |y.bus.channels| :: AllAuthentic(y.log, y.bus.channels[c].buffer))
    && (forall s: nat | s < |y.handlers| :: Tidy(y.log, y.handlers[s]))
  }

  lemma AuthenticGrows(log: seq<string>, payload: string, es: seq<Event>)
    requires AllAuthentic(log, es) && |log| + 1 < U64
    ensures AllAuthentic(log + [payload], es)
  {
  }

  lemma TidyGrows(log: seq<string>, payload: string, h: Handler)
    requires |log| + 1 < U64 && Tidy(log, h)
    ensures Tidy(log + [payload], h)
  {
    hide DeliverAll, Window, Authentic, Increasing;
    AuthenticGrows(log, payload, h.cursor.written);
    if h.base.Some? { assert (log + [payload])[..h.base.value] == log[..h.base.value]; }
  }

  /** The whole stored tail: in order, without holes, up to the newest event. */
  lemma HistoryRead(log: seq<string>, header: uint64)
    requires |log| < U64
    ensures
      var w, lo := Window(log, header, LIMIT), First(|log|, header);
      && AllAuthentic(log, w) && Increasing(w)
      && |w| == (if lo <= |log| then |log| - lo + 1 else 0)
      && (forall k: nat | k < |w| :: w[k].id == lo + k)
      && (header < U64 - 1 ==> lo > header)
  {
  }

  lemma ReadTidy(log: seq<string>, h: Handler)
    requires |log| < U64 && Tidy(log, h) && h.phase == Joined
    ensures Tidy(log, ReadHistory(log, h))
  {
    hide Window, First, AllAuthentic, Increasing;
    HistoryRead(log, h.header);
    var h', w := ReadHistory(log, h), Window(log, h.header, LIMIT);
    assert [] + w == w && log[..|log|] == log;
    assert h'.cursor.written == w;
    assert Explained(log, h');
    hide DeliverAll, Resumed, Explained, ReadHistory;
  }

  lemma GotTidy(log: seq<string>, h: Handler, e: Event)
    requires |log| < U64 && Tidy(log, h) && Authentic(log, e) && h.phase == Live && h.base.Some?
    ensures Tidy(log, Got(h, e))
  {
    hide Window, Authentic, Resumed;
    var h', w := Got(h, e), h.cursor.written;
    assert h'.received[..|h.received|] == h.received;
    if e.id > h.cursor.after {
      assert h'.cursor.written == w + [e];
    }
  }

  lemma StartGood()
    ensures Good(START)
  {
  }

  lemma FanGood(y: Sys, id: nat)
    requires Good(y)
    ensures Good(Next(y, Fan(id)))
  {
    if id in y.inflight {
      var e := EventAt(y.log, id);
      FanOutWired(y.bus, e);
      hide Tidy, Wired;
      assert Authentic(y.log, e);
    }
  }

  lemma AppendGood(y: Sys, payload: string)
    requires Good(y)
    ensures Good(Next(y, Append(payload)))
  {
    hide Tidy, Wired, AllAuthentic;
    if |y.log| + 1 < U64 {
      var log := y.log + [payload];
      forall c: nat | c < |y.bus.channels| ensures AllAuthentic(log, y.bus.channels[c].buffer) {
        AuthenticGrows(y.log, payload, y.bus.channels[c].buffer);
      }
      forall s: nat | s < |y.handlers| ensures Tidy(log, y.handlers[s]) { TidyGrows(y.log, payload, y.handlers[s]); }
    }
  }

  lemma OpenGood(y: Sys, header: uint64)
    requires Good(y)
    ensures Good(Next(y, Open(header)))
  {
    SubscribeWired(y.bus);
    hide Wired;
    var y' := Next(y, Open(header));
    assert Tidy(y'.log, y'.handlers[|y.handlers|]);
    hide Tidy;
    assert forall s: nat | s < |y.handlers| :: y'.handlers[s] == y.handlers[s];
  }

  lemma ReadGood(y: Sys, s: nat)
    requires Good(y)
    ensures Good(Next(y, Read(s)))
  {
    if At(y, s, Joined) { ReadTidy(y.log, y.handlers[s]); }
    hide Tidy, Wired, AllAuthentic, ReadHistory;
  }

  lemma PhaseGood(y: Sys, s: nat)
    requires Good(y)
    ensures Good(Next(y, Fail(s))) && Good(Next(y, Quit(s)))
  {
    if s < |y.handlers| { assert Tidy(y.log, y.handlers[s].(phase := Leaving)); }
    hide Tidy, Wired, AllAuthentic;
  }

  /** A step of one handler: its own state, its channel's events, and who is subscribed. */
  lemma HandlerGood(y: Sys, s: nat, h: Handler, b: BusState)
    requires Good(y) && s < |y.handlers| && Tidy(y.log, h)
    requires Wired(b) && |b.channels| == |y.bus.channels| && AllAuthentic(y.log, b.channels[s].buffer)
    requires forall c: nat | c < |b.channels| && c != s :: b.channels[c].buffer == y.bus.channels[c].buffer
    ensures Good(With(y, s, h).(bus := b))
  {
    hide Wired, Tidy, AllAuthentic;
  }

  lemma ReceiveGood(y: Sys, s: nat)
    requires Good(y)
    ensures Good(Next(y, Receive(s)))
  {
    if At(y, s, Live) {
      var h, buffer := y.handlers[s], y.bus.channels[s].buffer;
      if buffer != [] {
        assert AllAuthentic(y.log, buffer);
        AuthenticRest(y.log, buffer);
        GotTidy(y.log, h, buffer[0]);
        TakeWired(y.bus, s);
        hide Good, Tidy, Wired, Got, AllAuthentic, Authentic;
        HandlerGood(y, s, Got(h, buffer[0]), Take(y.bus, s));
      } else {
        assert Tidy(y.log, h.(phase := Leaving));
        hide Tidy, Wired, AllAuthentic;
        HandlerGood(y, s, h.(phase := Leaving), y.bus);
      }
      hide Good;
    }
  }

  lemma AuthenticRest(log: seq<string>, es: seq<Event>)
    requires AllAuthentic(log, es) && es != []
    ensures Authentic(log, es[0]) && AllAuthentic(log, es[1..])
  {
    hide Authentic;
  }

  lemma LeaveGood(y: Sys, s: nat)
    requires Good(y)
    ensures Good(Next(y, Leave(s)))
  {
    if At(y, s, Leaving) {
      var h := y.handlers[s].(phase := Gone);
      UnsubscribeWired(y.bus, h.sub);
      assert Tidy(y.log, h);
      hide Wired, Tidy, AllAuthentic;
      HandlerGood(y, s, h, Unsubscribe(y.bus, h.sub));
      hide Good, Unsubscribe;
    }
  }

  lemma StepGood(y: Sys, a: Action)
    requires Good(y)
    ensures Good(Next(y, a))
  {
    match a {
      case Append(payload) => hide *; AppendGood(y, payload);
      case Fan(id) => hide *; FanGood(y, id);
      case Open(header) => hide *; OpenGood(y, header);
      case Read(s) => hide *; ReadGood(y, s);
      case Receive(s) => hide *; ReceiveGood(y, s);
      case Leave(s) => hide *; LeaveGood(y, s);
      case Fail(s) => hide *; PhaseGood(y, s);
      case Quit(s) => hide *; PhaseGood(y, s);
    }
  }

  lemma {:induction false} RunGood(actions: seq<Action>)
    ensures Good(Run(actions))
  {
    hide Good, Next;
    if actions == [] {
      StartGood();
    } else {
      RunGood(actions[..|actions| - 1]);
      StepGood(Run(actions[..|actions| - 1]), actions[|actions| - 1]);
    }
  }

  // ---- what a channel is given ----

  /** The event that a Fan step puts into the channel of handler `s`: only while it is subscribed and has room. */
  function FannedTo(y: Sys, a: Action, s: nat): seq<Event> {
    if a.Fan? && a.id in y.inflight && 1 <= a.id <= |y.log| < U64 && Subscribed(y.bus, s) && Room(y.bus, s)
    then [EventAt(y.log, a.id)] else []
  }

  /** The events of the Fan steps of a run that reached handler `s`, in the order of those steps. */
  function FansTo(actions: seq<Action>, s: nat): seq<Event> {
    if actions == [] then []
    else
      var n := |actions| - 1;
      FansTo(actions[..n], s) + FannedTo(Run(actions[..n]), actions[n], s)
  }

  /** What handler `s` has taken from its channel and what is still there. */
  function Taken(y: Sys, s: nat): seq<Event> {
    if s < |y.handlers| && s < |y.bus.channels| then y.handlers[s].received + y.bus.channels[s].buffer else []
  }

  lemma StepTaken(y: Sys, a: Action, s: nat)
    requires Good(y)
    ensures Taken(Next(y, a), s) == Taken(y, s) + FannedTo(y, a, s)
  {
    hide Wired, Tidy, AllAuthentic, Deliver, Replay, Window;
    match a {
      case Receive(t) =>
        if t == s && At(y, s, Live) && y.bus.channels[s].buffer != [] {
          var h, buffer := y.handlers[s], y.bus.channels[s].buffer;
          assert (h.received + [buffer[0]]) + buffer[1..] == h.received + buffer;
        }
      case Fan(id) => FanTaken(y, id, s);
      case Open(header) =>
        if s == |y.handlers| { assert [] + [] == Taken(y, s); }
      case _ =>
    }
  }

  lemma FanTaken(y: Sys, id: nat, s: nat)
    requires Good(y)
    ensures Taken(Next(y, Fan(id)), s) == Taken(y, s) + FannedTo(y, Fan(id), s)
  {
    hide Tidy, AllAuthentic;
    if s < |y.handlers| && FannedTo(y, Fan(id), s) != [] {
      var h, buffer, e := y.handlers[s], y.bus.channels[s].buffer, EventAt(y.log, id);
      assert h.received + (buffer + [e]) == (h.received + buffer) + [e];
    }
  }

  /** In every run: what a handler received and what its channel still holds are, in order, the events of the Fan
      steps taken while it was subscribed and had room. */
  lemma {:induction false} ChannelHoldsFans(actions: seq<Action>, s: nat)
    ensures Taken(Run(actions), s) == FansTo(actions, s)
  {
    hide Good, Next, FannedTo, Taken;
    if actions == [] {
      assert Taken(START, s) == [] by { NothingTaken(s); }
    } else {
      var n := |actions| - 1;
      ChannelHoldsFans(actions[..n], s);
      RunGood(actions[..n]);
      StepTaken(Run(actions[..n]), actions[n], s);
    }
  }

  lemma NothingTaken(s: nat)
    ensures Taken(START, s) == []
  {
  }
}
