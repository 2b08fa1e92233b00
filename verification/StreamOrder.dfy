/** What a client of the event stream can rely on. */
module StreamOrder {
  import opened Prelude
  import opened EventLedger
  import opened EventBus
  import opened StreamRuns

  // ---- in every interleaving ----

  /** Ids on one stream strictly increase, and each event is the stored one with that id, whatever publishers do. */
  lemma IdsIncrease(actions: seq<Action>, s: nat)
    requires s < |Run(actions).handlers|
    ensures
      var y := Run(actions);
      var written := y.handlers[s].cursor.written;
      && (forall i: nat, j: nat | i < j < |written| :: written[i].id < written[j].id)
      && (forall k: nat | k < |written| ::
           1 <= written[k].id <= |y.log| < U64 && written[k] == EventAt(y.log, written[k].id))
  {
    RunGood(actions);
    hide Run;
    var y := Run(actions);
    var written := y.handlers[s].cursor.written;
    forall k: nat | k < |written|
        ensures 1 <= written[k].id <= |y.log| < U64 && written[k] == EventAt(y.log, written[k].id) {
      assert Authentic(y.log, written[k]);
    }
  }

  lemma {:induction false} Prefixed(c: Cursor, received: seq<Event>)
    ensures
      var r := DeliverAll(c, received);
      r.after == DeliverAll(Cursor(c.after, []), received).after &&
      r.written == c.written + DeliverAll(Cursor(c.after, []), received).written
  {
    if received != [] { Prefixed(c, received[..|received| - 1]); }
  }

  /** A stream repeats nothing at or below its Last-Event-ID, except that the last uint64 (which a longer number parses
      to) replays whatever is stored. */
  lemma ResumesAfterHeader(actions: seq<Action>, s: nat)
    requires s < |Run(actions).handlers| && Run(actions).handlers[s].base.Some?
    ensures
      var h := Run(actions).handlers[s];
      (forall k: nat | k < |h.cursor.written| :: h.cursor.written[k].id > h.header) <==>
          h.header < U64 - 1 || h.base == Some(0)
  {
    RunGood(actions);
    hide Run, Explained, AllAuthentic, Increasing, Wired;
    var y := Run(actions);
    var h := y.handlers[s];
    if h.header == U64 - 1 { LastHeader(y.log, h); }
  }

  /** Started at the last uint64, a stream replays the stored tail, or writes nothing when nothing is stored. */
  lemma LastHeader(log: seq<string>, h: Handler)
    requires |log| < U64 && Explained(log, h) && h.base.Some? && h.header == U64 - 1
    ensures h.base == Some(0) ==> h.cursor.written == []
    ensures h.base != Some(0) ==> h.cursor.written != [] && h.cursor.written[0].id < U64 - 1
  {
    var front, c := log[..h.base.value], Resumed(log, h.base.value, h.header);
    var w := Window(front, h.header, LIMIT);
    HistoryRead(front, h.header);
    Prefixed(c, h.received);
    DeliverBounds(c.after, h.received);
    hide DeliverAll, Window, Increasing, AllAuthentic;
    assert c.written == [] + w == w;
    if w != [] { assert h.cursor.written[0] == w[0]; }
  }

  /** Where the live part of a stream takes over: the history ends at `base` if it reaches it, else the header
      stands. */
  function Cut(base: nat, header: uint64): uint64 {
    if First(base, header) <= base < U64 then base else header
  }

  lemma ResumedAtCut(log: seq<string>, base: nat, header: uint64)
    requires base <= |log| < U64
    ensures Resumed(log, base, header).after == Cut(base, header)
    ensures Resumed(log, base, header).written == Window(log[..base], header, LIMIT)
  {
    HistoryRead(log[..base], header);
    hide Window, Increasing, AllAuthentic;
    var w := Window(log[..base], header, LIMIT);
    assert [] + w == w;
  }

  /** For every run: what follows the history has no gap if and only if, in the order in which the publishers' Fan
      steps reached this channel, every id above the cut comes after its predecessor; this as far as the stream has
      received. */
  lemma LiveGaplessIff(actions: seq<Action>, s: nat)
    requires s < |Run(actions).handlers| && Run(actions).handlers[s].base.Some?
    ensures Good(Run(actions))
    ensures
      var y := Run(actions);
      var h := y.handlers[s];
      var cut, w := Cut(h.base.value, h.header), Window(y.log[..h.base.value], h.header, LIMIT);
      && w <= h.cursor.written
      && h.received <= FansTo(actions, s) && (y.bus.channels[s].buffer == [] ==> h.received == FansTo(actions, s))
      && (Gapless(cut, h.cursor.written[|w|..]) <==> PredecessorsFirst(cut, FansTo(actions, s)[..|h.received|]))
  {
    RunGood(actions);
    ChannelHoldsFans(actions, s);
    hide Run, Gapless, PredecessorsFirst, FansTo;
    var y := Run(actions);
    HandlerGaplessIff(y.log, y.handlers[s]);
    assert FansTo(actions, s)[..|y.handlers[s].received|] == y.handlers[s].received;
  }

  lemma {:induction false} HandlerGaplessIff(log: seq<string>, h: Handler)
    requires |log| < U64 && Tidy(log, h) && h.base.Some?
    ensures
      var cut, w := Cut(h.base.value, h.header), Window(log[..h.base.value], h.header, LIMIT);
      && w <= h.cursor.written
      && h.cursor == DeliverAll(Cursor(cut, w), h.received)
      && (Gapless(cut, h.cursor.written[|w|..]) <==> PredecessorsFirst(cut, h.received))
  {
    hide Gapless, PredecessorsFirst, DeliverAll, Resumed, Window, AllAuthentic, Increasing, Cut;
    var cut, w := Cut(h.base.value, h.header), Window(log[..h.base.value], h.header, LIMIT);
    ResumedAtCut(log, h.base.value, h.header);
    Prefixed(Cursor(cut, w), h.received);
    GaplessIff(cut, h.received);
    assert h.cursor.written[|w|..] == DeliverAll(Cursor(cut, []), h.received).written;
  }

  // ---- when Publish calls do not overlap ----

  /** No append happens between another append and its fan-out. Streams may step anywhere. */
  predicate Serial(actions: seq<Action>) {
    actions == [] ||
    var n := |actions| - 1;
    Serial(actions[..n]) && (actions[n].Append? ==> Run(actions[..n]).inflight == {})
  }

  /** The newest id that has been fanned out. */
  function Fanned(y: Sys): int {
    if y.inflight == {} then |y.log| else |y.log| - 1
  }

  ghost predicate InARow(es: seq<Event>) {
    forall k: nat | k < |es| :: es[k].id == es[0].id + k
  }

  /** The events that reached a channel are consecutive, up to the newest one while it is subscribed. */
  ghost predicate Feed(y: Sys, fans: seq<Event>, s: nat) {
    && InARow(fans)
    && (fans != [] ==> fans[|fans| - 1].id <= Fanned(y))
    && (Subscribed(y.bus, s) && fans != [] ==> fans[|fans| - 1].id == Fanned(y))
  }

  /** They leave no id out after the history that the handler read. */
  ghost predicate Joint(y: Sys, fans: seq<Event>, s: nat) {
    s < |y.handlers| && y.handlers[s].base.Some? ==>
      && (fans != [] ==> fans[0].id <= y.handlers[s].base.value + 1)
      && (Subscribed(y.bus, s) && fans == [] ==> Fanned(y) <= y.handlers[s].base.value)
  }

  ghost predicate Turns(y: Sys) {
    y.inflight == {} || (y.inflight == {|y.log|} && y.log != [])
  }

  ghost predicate Ordered(y: Sys, fans: seq<Event>, s: nat) {
    Turns(y) && Feed(y, fans, s) && Joint(y, fans, s) && (s >= |y.handlers| ==> fans == [])
  }

  lemma FanOrdered(y: Sys, id: nat, fans: seq<Event>, s: nat)
    requires Good(y) && Ordered(y, fans, s)
    ensures Ordered(Next(y, Fan(id)), fans + FannedTo(y, Fan(id), s), s)
  {
    if id in y.inflight {
      var y', e := Next(y, Fan(id)), EventAt(y.log, id);
      FanOutWired(y.bus, e);
      assert id == |y.log| && y'.inflight == {} && y'.handlers == y.handlers && y'.log == y.log &&
          y'.bus == FanOut(y.bus, e);
      assert s >= |y.bus.channels| ==> !Subscribed(y'.bus, s) && !Subscribed(y.bus, s);
      hide Wired, FanOut, AllAuthentic, Tidy, Subscribed, Next;
      assert Subscribed(y'.bus, s) <==> Subscribed(y.bus, s) && Room(y.bus, s);
      FanFeeds(y, y', e, fans, s);
    }
  }

  lemma FanFeeds(y: Sys, y': Sys, e: Event, fans: seq<Event>, s: nat)
    requires Ordered(y, fans, s) && y'.inflight == {} && y.inflight == {|y.log|} && y'.log == y.log && e.id == |y.log|
    requires y'.handlers == y.handlers && (Subscribed(y'.bus, s) ==> Subscribed(y.bus, s))
    requires s >= |y.handlers| ==> !Subscribed(y'.bus, s)
    ensures Ordered(y', fans + if Subscribed(y'.bus, s) then [e] else [], s)
  {
    hide Subscribed;
    if Subscribed(y'.bus, s) {
      InARowGrows(fans, e);
      assert fans != [] ==> (fans + [e])[0] == fans[0];
    } else {
      assert fans + [] == fans;
    }
    hide InARow;
  }

  lemma InARowGrows(es: seq<Event>, e: Event)
    requires InARow(es) && (es != [] ==> e.id == es[|es| - 1].id + 1)
    ensures InARow(es + [e])
  {
  }

  /** A step that neither publishes nor subscribes `s` anew. */
  lemma FrameOrdered(y: Sys, y': Sys, fans: seq<Event>, s: nat)
    requires Ordered(y, fans, s) && y'.log == y.log && y'.inflight == y.inflight && |y'.handlers| >= |y.handlers|
    requires Subscribed(y'.bus, s) ==> Subscribed(y.bus, s) || (fans == [] && s >= |y.handlers|)
    requires s < |y.handlers| ==> y'.handlers[s].base == y.handlers[s].base
    requires |y.handlers| <= s < |y'.handlers| ==> y'.handlers[s].base.None?
    ensures Ordered(y', fans, s)
  {
    hide InARow, Subscribed;
  }

  lemma ReadOrdered(y: Sys, t: nat, fans: seq<Event>, s: nat)
    requires Good(y) && Ordered(y, fans, s)
    ensures Ordered(Next(y, Read(t)), fans, s)
  {
    hide Window, Replay, Good, Subscribed;
    assert fans != [] ==> fans[|fans| - 1].id == fans[0].id + (|fans| - 1);
  }

  lemma OpenOrdered(y: Sys, header: uint64, fans: seq<Event>, s: nat)
    requires Good(y) && Ordered(y, fans, s)
    ensures Ordered(Next(y, Open(header)), fans, s)
  {
    SubscribeWired(y.bus);
    var y' := Next(y, Open(header));
    assert s >= |y'.handlers| ==> !Subscribed(y'.bus, s);
    hide Wired, Subscribe, Subscribed, Ordered, AllAuthentic, Tidy;
    FrameOrdered(y, y', fans, s);
  }

  lemma ReceiveOrdered(y: Sys, t: nat, fans: seq<Event>, s: nat)
    requires Ordered(y, fans, s)
    ensures Ordered(Next(y, Receive(t)), fans, s)
  {
    hide Ordered, Deliver;
    var y' := Next(y, Receive(t));
    assert y'.bus.subs == y.bus.subs;
    FrameOrdered(y, y', fans, s);
  }

  lemma LeaveOrdered(y: Sys, a: Action, fans: seq<Event>, s: nat)
    requires Good(y) && Ordered(y, fans, s) && (a.Leave? || a.Fail? || a.Quit?)
    ensures Ordered(Next(y, a), fans, s)
  {
    if a.Leave? && At(y, a.s, Leaving) { UnsubscribeWired(y.bus, y.handlers[a.s].sub); }
    hide Good, Wired, Unsubscribe, Ordered, Subscribed;
    FrameOrdered(y, Next(y, a), fans, s);
  }

  lemma AppendOrdered(y: Sys, payload: string, fans: seq<Event>, s: nat)
    requires Ordered(y, fans, s) && y.inflight == {}
    ensures Ordered(Next(y, Append(payload)), fans, s)
  {
    hide Good, InARow, Subscribed;
  }

  lemma StepOrdered(y: Sys, a: Action, fans: seq<Event>, s: nat)
    requires Good(y) && Ordered(y, fans, s) && (a.Append? ==> y.inflight == {})
    ensures Ordered(Next(y, a), fans + FannedTo(y, a, s), s)
  {
    assert !a.Fan? ==> fans + FannedTo(y, a, s) == fans;
    match a {
      case Append(payload) => AppendOrdered(y, payload, fans, s); hide *;
      case Fan(id) => FanOrdered(y, id, fans, s); hide *;
      case Read(t) => ReadOrdered(y, t, fans, s); hide *;
      case Open(header) => OpenOrdered(y, header, fans, s); hide *;
      case Receive(t) => ReceiveOrdered(y, t, fans, s); hide *;
      case _ => LeaveOrdered(y, a, fans, s); hide *;
    }
  }

  lemma {:induction false} RunOrdered(actions: seq<Action>, s: nat)
    requires Serial(actions)
    ensures Ordered(Run(actions), FansTo(actions, s), s)
  {
    if actions != [] {
      var n := |actions| - 1;
      RunOrdered(actions[..n], s);
      RunGood(actions[..n]);
      hide Ordered, Good, Next;
      StepOrdered(Run(actions[..n]), actions[n], FansTo(actions[..n], s), s);
    }
  }

  /** With publishers that take turns predecessors always come first. */
  lemma {:induction false} SerialFans(actions: seq<Action>, s: nat)
    requires Serial(actions) && s < |Run(actions).handlers| && Run(actions).handlers[s].base.Some?
    ensures
      var h := Run(actions).handlers[s];
      PredecessorsFirst(Cut(h.base.value, h.header), FansTo(actions, s))
  {
    hide Next;
    RunOrdered(actions, s);
    RunGood(actions);
    hide Run, FansTo, Serial;
    OrderedFans(Run(actions), FansTo(actions, s), s);
  }

  lemma {:induction false} OrderedFans(y: Sys, fans: seq<Event>, s: nat)
    requires Good(y) && Ordered(y, fans, s) && s < |y.handlers| && y.handlers[s].base.Some?
    ensures PredecessorsFirst(Cut(y.handlers[s].base.value, y.handlers[s].header), fans)
  {
    var h := y.handlers[s];
    assert h.base.value < U64 by { assert Explained(y.log, h); }
    hide Good, Subscribed;
    var cut: int := Cut(h.base.value, h.header);
    forall i: nat | i < |fans| && fans[i].id > cut + 1 ensures exists j: nat :: j < i && fans[j].id == fans[i].id - 1 {
      assert fans[i].id == fans[0].id + i;
      assert fans[i - 1].id == fans[0].id + (i - 1);
    }
  }

  /** Publishers that take turns: the ids on every stream are consecutive, from the one after its Last-Event-ID or the
      oldest one kept, whenever the stream subscribes, reads and receives. */
  lemma NoGaps(actions: seq<Action>, s: nat)
    requires Serial(actions)
    requires s < |Run(actions).handlers| && Run(actions).handlers[s].base.Some?
    ensures
      var h := Run(actions).handlers[s];
      forall k: nat | k < |h.cursor.written| :: h.cursor.written[k].id == First(h.base.value, h.header) + k
  {
    SerialFans(actions, s);
    LiveGaplessIff(actions, s);
    var y := Run(actions);
    var h, n := y.handlers[s], |y.handlers[s].received|;
    var cut := Cut(h.base.value, h.header);
    PredecessorsOfPrefix(cut, FansTo(actions, s), n);
    hide Run, FansTo, Serial, PredecessorsFirst;
    WrittenInARow(y.log, h);
  }

  lemma PredecessorsOfPrefix(after: uint64, es: seq<Event>, n: nat)
    requires PredecessorsFirst(after, es) && n <= |es|
    ensures PredecessorsFirst(after, es[..n])
  {
    forall i: nat | i < n && es[..n][i].id > after + 1
        ensures exists j: nat :: j < i && es[..n][j].id == es[..n][i].id - 1 {
      assert es[i].id > after + 1;
      var j: nat :| j < i && es[j].id == es[i].id - 1;
      assert es[..n][j] == es[j];
    }
  }

  /** The history is a row that ends at the cut, and the id after the cut continues the row. */
  lemma {:induction false} CutMeets(log: seq<string>, header: uint64)
    requires |log| < U64
    ensures
      var w, lo, cut := Window(log, header, LIMIT), First(|log|, header), Cut(|log|, header);
      && (forall k: nat | k < |w| :: w[k].id == lo + k)
      && cut >= |log| && (cut + 1 == lo + |w| || cut == U64 - 1)
      && (w == [] ==> lo > |log|)
  {
    HistoryRead(log, header);
    hide Window, Increasing, AllAuthentic;
    if First(|log|, header) > |log| && header < U64 - 1 { FirstBeyond(|log|, header); }
  }

  /** The history and a live part without a gap are one row of ids. */
  lemma {:induction false} WrittenInARow(log: seq<string>, h: Handler)
    requires |log| < U64 && Tidy(log, h) && h.base.Some?
    requires
      var w := Window(log[..h.base.value], h.header, LIMIT);
      w <= h.cursor.written && Gapless(Cut(h.base.value, h.header), h.cursor.written[|w|..])
    ensures forall k: nat | k < |h.cursor.written| :: h.cursor.written[k].id == First(h.base.value, h.header) + k
  {
    assert h.base.value <= |log|;
    hide Window, Tidy, Cut, First, AllAuthentic, Increasing;
    var base, lo := h.base.value, First(h.base.value, h.header);
    CutMeets(log[..base], h.header);
    RowJoins(Window(log[..base], h.header, LIMIT), h.cursor.written, lo, Cut(base, h.header));
  }

  lemma {:induction false} RowJoins(w: seq<Event>, written: seq<Event>, lo: nat, cut: uint64)
    requires w <= written && (forall k: nat | k < |w| :: w[k].id == lo + k) && Gapless(cut, written[|w|..])
    requires cut + 1 == lo + |w| || cut == U64 - 1
    ensures forall k: nat | k < |written| :: written[k].id == lo + k
  {
    var live := written[|w|..];
    if live != [] { assert live[0].id == cut + 1; }
    forall k: nat | k < |written| ensures written[k].id == lo + k {
      if k >= |w| { assert live[k - |w|] == written[k]; } else { assert w[k] == written[k]; }
    }
  }

  lemma FirstBeyond(n: nat, header: uint64)
    requires header < U64 - 1 && First(n, header) > n
    ensures First(n, header) == header + 1
  {
  }

  /** Then, once nothing is in flight or buffered, a stream that was not evicted has written everything up to the newest
      event. */
  lemma CaughtUp(actions: seq<Action>, s: nat)
    requires Serial(actions)
    requires
      var y := Run(actions);
      && s < |y.handlers| && y.handlers[s].base.Some? && y.handlers[s].header < U64 - 1
      && y.inflight == {} && s < |y.bus.channels| && y.bus.channels[s].buffer == [] && Subscribed(y.bus, s)
    ensures
      var y := Run(actions);
      var h := y.handlers[s];
      var lo := First(h.base.value, h.header);
      && |h.cursor.written| == (if lo <= |y.log| then |y.log| - lo + 1 else 0)
      && forall k: nat | k < |h.cursor.written| :: |y.log| < U64 && h.cursor.written[k] == EventAt(y.log, lo + k)
  {
    hide Next;
    RunOrdered(actions, s);
    RunGood(actions);
    NoGaps(actions, s);
    ChannelHoldsFans(actions, s);
    hide Run, Serial, FansTo, First;
    DrainedReaches(Run(actions), FansTo(actions, s), s);
  }

  lemma {:induction false} DrainedReaches(y: Sys, fans: seq<Event>, s: nat)
    requires Good(y) && Ordered(y, fans, s) && fans == Taken(y, s) && s < |y.handlers| && y.handlers[s].base.Some?
    requires y.inflight == {} && y.bus.channels[s].buffer == [] && Subscribed(y.bus, s) &&
        y.handlers[s].header < U64 - 1
    requires
      var h := y.handlers[s];
      forall k: nat | k < |h.cursor.written| :: h.cursor.written[k].id == First(h.base.value, h.header) + k
    ensures
      var written, lo := y.handlers[s].cursor.written, First(y.handlers[s].base.value, y.handlers[s].header);
      && |written| == (if lo <= |y.log| then |y.log| - lo + 1 else 0)
      && forall k: nat | k < |written| :: |y.log| < U64 && written[k] == EventAt(y.log, lo + k)
  {
    var h := y.handlers[s];
    assert Tidy(y.log, h) && fans == h.received;
    hide Good, Tidy, First, InARow, Subscribed;
    HandlerReaches(y.log, h, |y.log|);
    HandlerCaughtUp(y.log, h);
  }

  /** A cursor is past the history it read and everything its channel yielded. */
  lemma {:induction false} HandlerReaches(log: seq<string>, h: Handler, n: nat)
    requires |log| < U64 && Tidy(log, h) && h.base.Some?
    requires n <= h.base.value || (h.received != [] && n <= h.received[|h.received| - 1].id)
    ensures n <= h.cursor.after
    ensures h.cursor.written == [] ==> First(h.base.value, h.header) > h.base.value
  {
    assert h.base.value <= |log|;
    hide Tidy, DeliverAll, Window, First, Cut, AllAuthentic, Increasing, Gapless, PredecessorsFirst;
    var front := log[..h.base.value];
    HandlerGaplessIff(log, h);
    CutMeets(front, h.header);
    DeliverReaches(Cursor(Cut(h.base.value, h.header), Window(front, h.header, LIMIT)), h.received);
  }

  lemma DeliverReaches(c: Cursor, received: seq<Event>)
    ensures DeliverAll(c, received).after >= c.after && c.written <= DeliverAll(c, received).written
    ensures received != [] ==> received[|received| - 1].id <= DeliverAll(c, received).after
  {
    Prefixed(c, received);
    DeliverBounds(c.after, received);
    hide DeliverAll;
  }

  lemma {:induction false} HandlerCaughtUp(log: seq<string>, h: Handler)
    requires |log| < U64 && Tidy(log, h) && h.base.Some? && h.header < U64 - 1 && |log| <= h.cursor.after
    requires forall k: nat | k < |h.cursor.written| :: h.cursor.written[k].id == First(h.base.value, h.header) + k
    requires h.cursor.written == [] ==> First(h.base.value, h.header) > h.base.value
    ensures
      var written, lo := h.cursor.written, First(h.base.value, h.header);
      && |written| == (if lo <= |log| then |log| - lo + 1 else 0)
      && forall k: nat | k < |written| :: written[k] == EventAt(log, lo + k)
  {
    hide First, Explained, Increasing;
    var written, lo := h.cursor.written, First(h.base.value, h.header);
    forall k: nat | k < |written| ensures 1 <= lo + k <= |log| && written[k] == EventAt(log, lo + k) {
      assert Authentic(log, written[k]);
    }
    if written == [] {
      FirstBeyond(h.base.value, h.header);
    } else {
      assert written[|written| - 1].id == lo + (|written| - 1);
    }
  }

  /** Overlapping publishers: the second appended event is fanned out first, and the stream never writes the first. */
  lemma OverlapSkips()
    ensures
      var actions := [Open(0), Read(0), Append("a"), Append("b"), Fan(2), Fan(1), Receive(0), Receive(0)];
      var y := Run(actions);
      |y.handlers| == 1 && |y.log| == 2 && y.inflight == {} && y.handlers[0].cursor.written == [Event(2, "b")]
  {
    hide Next, Run;
    var y2 := Next(Next(START, Open(0)), Read(0));
    var y5 := Next(Next(Next(y2, Append("a")), Append("b")), Fan(2));
    SkipsOpen();
    SkipsPublish(y2);
    SkipsReceive(y5);
    var a, b := [Open(0), Read(0), Append("a"), Append("b")], [Fan(2), Fan(1), Receive(0), Receive(0)];
    RunOf4(a, b);
    assert a + b == [Open(0), Read(0), Append("a"), Append("b"), Fan(2), Fan(1), Receive(0), Receive(0)];
  }

  lemma RunNext(front: seq<Action>, a: Action)
    ensures Run(front + [a]) == Next(Run(front), a)
  {
    hide Next;
    assert (front + [a])[..|front|] == front;
  }

  lemma RunOf4(a: seq<Action>, b: seq<Action>)
    requires |a| == |b| == 4
    ensures Run(a + b) ==
      Next(Next(Next(Next(Next(Next(Next(Next(START, a[0]), a[1]), a[2]), a[3]), b[0]), b[1]), b[2]), b[3])
  {
    hide Next;
    assert a[..0] == [] && Run([]) == START;
    hide Run;
    FourMore([], a);
    assert [] + a == a;
    FourMore(a, b);
  }

  lemma FourMore(front: seq<Action>, a: seq<Action>)
    requires |a| == 4
    ensures Run(front + a) == Next(Next(Next(Next(Run(front), a[0]), a[1]), a[2]), a[3])
  {
    hide Next, Run;
    RunNext(front, a[0]);
    RunNext(front + [a[0]], a[1]);
    RunNext(front + [a[0]] + [a[1]], a[2]);
    RunNext(front + [a[0]] + [a[1]] + [a[2]], a[3]);
    assert front + a == front + [a[0]] + [a[1]] + [a[2]] + [a[3]];
  }

  lemma SkipsOpen()
    ensures
      var y2 := Next(Next(START, Open(0)), Read(0));
      y2.log == [] && y2.inflight == {} && y2.bus == BusState([Channel([], false)], map[0 := 0], 1)
      && |y2.handlers| == 1 && y2.handlers[0].phase == Live && y2.handlers[0].cursor == Opened(0)
  {
    var y1 := Next(START, Open(0));
    assert y1.bus == BusState([Channel([], false)], map[0 := 0], 1);
    assert Window([], 0, LIMIT) == [];
    assert At(y1, 0, Joined);
  }

  lemma SkipsPublish(y2: Sys)
    requires y2.log == [] && y2.inflight == {} && y2.bus == BusState([Channel([], false)], map[0 := 0], 1)
    ensures
      var y5 := Next(Next(Next(y2, Append("a")), Append("b")), Fan(2));
      && y5 == y2.(log := ["a", "b"], inflight := {1},
           bus := BusState([Channel([Event(2, "b")], false)], map[0 := 0], 1))
  {
    var y4 := Next(Next(y2, Append("a")), Append("b"));
    assert y4 == y2.(log := ["a", "b"], inflight := {1, 2});
    assert Subscribed(y4.bus, 0) by { assert 0 in y4.bus.subs && y4.bus.subs[0] == 0; }
    var b := FanOut(y4.bus, Event(2, "b"));
    assert b.channels[0] == Offer(y4.bus.channels[0], Event(2, "b")) && [] + [Event(2, "b")] == [Event(2, "b")];
    assert b.channels == [Channel([Event(2, "b")], false)];
    assert 0 in b.subs;
    assert b.subs == map[0 := 0];
    assert {1, 2} - {2} == {1};
  }

  lemma SkipsReceive(y5: Sys)
    requires y5.log == ["a", "b"] && y5.inflight == {1} &&
        y5.bus == BusState([Channel([Event(2, "b")], false)], map[0 := 0], 1)
    requires |y5.handlers| == 1 && y5.handlers[0].phase == Live && y5.handlers[0].cursor == Opened(0)
    ensures
      var y := Next(Next(Next(y5, Fan(1)), Receive(0)), Receive(0));
      |y.handlers| == 1 && |y.log| == 2 && y.inflight == {} && y.handlers[0].cursor.written == [Event(2, "b")]
  {
    assert Subscribed(y5.bus, 0) by { assert 0 in y5.bus.subs && y5.bus.subs[0] == 0; }
    var b := FanOut(y5.bus, Event(1, "a"));
    assert b.channels[0] == Offer(y5.bus.channels[0], Event(1, "a"));
    assert [Event(2, "b")] + [Event(1, "a")] == [Event(2, "b"), Event(1, "a")];
    assert b.channels == [Channel([Event(2, "b"), Event(1, "a")], false)];
    assert 0 in b.subs;
    assert b.subs == map[0 := 0];
  }
}
