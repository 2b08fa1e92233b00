/** When a stream is subscribed, and what ends it: its channel is closed by its own leaving or by the event it has
    no room for, and then the handler leaves its loop as soon as it has drained it. */
module Subscriptions {
  import opened Prelude
  import opened EventLedger
  import opened EventBus
  import opened StreamRuns

  /** Some stream was opened under an id that was still in use, which takes 2^64 others. */
  predicate Collided(actions: seq<Action>) {
    actions != [] &&
    var n := |actions| - 1;
    Collided(actions[..n]) || (actions[n].Open? && Run(actions[..n]).bus.next in Run(actions[..n]).bus.subs)
  }

  ghost predicate OpenIsSubscribed(b: BusState) {
    forall c: nat | c < |b.channels| :: !b.channels[c].closed <==> Subscribed(b, c)
  }

  /** An open channel that no subscription points at. */
  predicate Stranded(b: BusState, c: nat) {
    c < |b.channels| && !b.channels[c].closed && !Subscribed(b, c)
  }

  // ---- the bus ----

  lemma FanOpen(b: BusState, e: Event)
    requires Wired(b)
    ensures OpenIsSubscribed(b) ==> OpenIsSubscribed(FanOut(b, e))
    ensures forall c: nat | Stranded(b, c) :: Stranded(FanOut(b, e), c)
  {
    FanOutWired(b, e);
  }

  lemma SubscribeOpen(b: BusState)
    requires Wired(b)
    ensures OpenIsSubscribed(b) && b.next !in b.subs ==> OpenIsSubscribed(Subscribe(b))
    ensures b.next in b.subs ==> Stranded(Subscribe(b), b.subs[b.next])
    ensures forall c: nat | Stranded(b, c) :: Stranded(Subscribe(b), c)
  {
    SubscribeWired(b);
    var b' := Subscribe(b);
    forall c: nat | c < |b.channels| && Subscribed(b, c) && b.next !in b.subs ensures Subscribed(b', c) {
      var id :| id in b.subs && b.subs[id] == c;
      assert b'.subs[id] == c;
    }
  }

  lemma UnsubscribeOpen(b: BusState, id: uint64)
    requires Wired(b)
    ensures OpenIsSubscribed(b) ==> OpenIsSubscribed(Unsubscribe(b, id))
    ensures forall c: nat | Stranded(b, c) :: Stranded(Unsubscribe(b, id), c)
  {
    var b' := Unsubscribe(b, id);
    forall c: nat | c < |b.channels| && Subscribed(b, c) && !(id in b.subs && b.subs[id] == c)
      ensures Subscribed(b', c)
    {
      var i :| i in b.subs && b.subs[i] == c;
      assert i in b'.subs && b'.subs[i] == c;
    }
  }

  lemma TakeOpen(b: BusState, c: nat)
    requires c < |b.channels| && b.channels[c].buffer != []
    ensures OpenIsSubscribed(b) ==> OpenIsSubscribed(Take(b, c))
    ensures forall u: nat | Stranded(b, u) :: Stranded(Take(b, c), u)
  {
  }

  // ---- every run ----

  lemma StepOpen(y: Sys, a: Action)
    requires Wired(y.bus)
    ensures OpenIsSubscribed(y.bus) && !(a.Open? && y.bus.next in y.bus.subs) ==> OpenIsSubscribed(Next(y, a).bus)
    ensures forall c: nat | Stranded(y.bus, c) :: Stranded(Next(y, a).bus, c)
    ensures a.Open? && y.bus.next in y.bus.subs ==> Stranded(Next(y, a).bus, y.bus.subs[y.bus.next])
  {
    hide OpenIsSubscribed, Stranded, Wired, FanOut, Subscribe, Unsubscribe, Take;
    match a {
      case Fan(id) => if id in y.inflight && 1 <= id <= |y.log| < U64 { FanOpen(y.bus, EventAt(y.log, id)); }
      case Open(header) => SubscribeOpen(y.bus);
      case Receive(s) => if At(y, s, Live) && y.bus.channels[s].buffer != [] { TakeOpen(y.bus, s); }
      case Leave(s) => if At(y, s, Leaving) { UnsubscribeOpen(y.bus, y.handlers[s].sub); }
      case _ =>
    }
  }

  /** For every run: the open channels are the subscribed ones if and only if no stream was opened under an id still in
      use. */
  lemma {:induction false} OpenIffSubscribed(actions: seq<Action>)
    ensures OpenIsSubscribed(Run(actions).bus) <==> !Collided(actions)
    ensures Collided(actions) ==> exists c: nat :: Stranded(Run(actions).bus, c)
  {
    hide Next, OpenIsSubscribed;
    if actions == [] {
      NoneOpen();
    } else {
      var n := |actions| - 1;
      var y := Run(actions[..n]);
      OpenIffSubscribed(actions[..n]);
      RunGood(actions[..n]);
      hide Stranded, Wired, Tidy, AllAuthentic;
      StepOpen(y, actions[n]);
      if Collided(actions) {
        var c: nat :| Stranded(Run(actions).bus, c);
        StrandedIsOpen(Run(actions).bus, c);
      }
    }
  }

  lemma NoneOpen()
    ensures OpenIsSubscribed(START.bus)
  {
  }

  lemma StrandedIsOpen(b: BusState, c: nat)
    requires Stranded(b, c)
    ensures !OpenIsSubscribed(b)
  {
  }

  /** Up to 2^64 streams are numbered by their ids. */
  ghost predicate Numbered(y: Sys) {
    && y.bus.next == |y.handlers| % U64
    && (forall s: nat | s < |y.handlers| :: y.handlers[s].sub == s)
    && (forall id | id in y.bus.subs :: y.bus.subs[id] == id < |y.handlers|)
  }

  lemma StepNumbered(y: Sys, a: Action)
    requires Numbered(y) && |y.bus.channels| == |y.handlers| && |Next(y, a).handlers| <= U64
    ensures Numbered(Next(y, a))
    ensures |y.handlers| <= |Next(y, a).handlers| && !(a.Open? && y.bus.next in y.bus.subs)
  {
    hide Deliver, Replay, Window;
  }

  /** That never happens with up to 2^64 streams. */
  lemma {:induction false} FewNeverCollide(actions: seq<Action>)
    requires |Run(actions).handlers| <= U64
    ensures Numbered(Run(actions)) && !Collided(actions)
  {
    hide Next, Numbered;
    if actions == [] {
      NoneNumbered();
    } else {
      var n := |actions| - 1;
      HandlersGrow(Run(actions[..n]), actions[n]);
      FewNeverCollide(actions[..n]);
      RunGood(actions[..n]);
      hide Wired, Tidy, AllAuthentic;
      StepNumbered(Run(actions[..n]), actions[n]);
    }
  }

  lemma NoneNumbered()
    ensures Numbered(START)
  {
  }

  lemma HandlersGrow(y: Sys, a: Action)
    ensures |y.handlers| <= |Next(y, a).handlers|
  {
    hide FanOut, Subscribe, Unsubscribe, Deliver, Replay, Window;
  }

  // ---- what ends a stream ----

  /** A Fan step of the run found the channel of handler `s` full: it held thirty-two events that had been put there and
      not been received. */
  predicate Overflowed(actions: seq<Action>, s: nat) {
    actions != [] &&
    var front, last := actions[..|actions| - 1], actions[|actions| - 1];
    var y := Run(front);
    Overflowed(front, s) ||
    (last.Fan? && last.id in y.inflight && s < |y.handlers| && |FansTo(front, s)| - |y.handlers[s].received| >= BUFFER)
  }

  /** For every run of up to 2^64 streams: a stream is subscribed, and its channel open, until it has left or an event
      found its channel full. */
  lemma {:induction false} SubscribedIff(actions: seq<Action>, s: nat)
    requires s < |Run(actions).handlers| <= U64
    ensures
      var y := Run(actions);
      && s < |y.bus.channels|
      && (Subscribed(y.bus, s) <==> y.handlers[s].phase != Gone && !Overflowed(actions, s))
      && (y.bus.channels[s].closed <==> y.handlers[s].phase == Gone || Overflowed(actions, s))
  {
    RunGood(actions);
    FewNeverCollide(actions);
    OpenIffSubscribed(actions);
    SubscribedUntil(actions, s);
    hide Run, Wired, Tidy, AllAuthentic, Subscribed, Overflowed, Collided, Numbered;
  }

  lemma {:induction false} SubscribedUntil(actions: seq<Action>, s: nat)
    requires s < |Run(actions).handlers| <= U64
    ensures Subscribed(Run(actions).bus, s) <==> Run(actions).handlers[s].phase != Gone && !Overflowed(actions, s)
  {
    hide Next;
    if actions != [] {
      var n := |actions| - 1;
      var y := Run(actions[..n]);
      HandlersGrow(y, actions[n]);
      FewNeverCollide(actions[..n]);
      RunGood(actions[..n]);
      if s < |y.handlers| {
        SubscribedUntil(actions[..n], s);
        ChannelHoldsFans(actions[..n], s);
        hide Run, Tidy, AllAuthentic, Collided, FansTo, Subscribed, At;
        assert |y.bus.channels[s].buffer| == |FansTo(actions[..n], s)| - |y.handlers[s].received|;
        StepSubscribed(y, actions[n], s);
        hide Numbered, Good, Taken;
      } else {
        NotYetOverflowed(actions[..n], s);
        Newcomer(y, actions[n], s);
        hide Good, Numbered;
      }
    }
  }

  lemma {:induction false} NotYetOverflowed(actions: seq<Action>, s: nat)
    requires s >= |Run(actions).handlers|
    ensures !Overflowed(actions, s)
  {
    hide Next;
    if actions != [] {
      var n := |actions| - 1;
      HandlersGrow(Run(actions[..n]), actions[n]);
      NotYetOverflowed(actions[..n], s);
    }
  }

  lemma Newcomer(y: Sys, a: Action, s: nat)
    requires Good(y) && |y.handlers| <= s < |Next(y, a).handlers|
    ensures Subscribed(Next(y, a).bus, s) && Next(y, a).handlers[s].phase != Gone && a.Open?
  {
    SubscribeWired(y.bus);
    hide FanOut, Unsubscribe, Deliver, Replay, Window, Wired, Tidy, AllAuthentic, Subscribed;
  }

  lemma StepSubscribed(y: Sys, a: Action, s: nat)
    requires Good(y) && Numbered(y) && s < |y.handlers| && |Next(y, a).handlers| <= U64
    ensures
      var y' := Next(y, a);
      && s < |y'.handlers|
      && (Subscribed(y'.bus, s) <==>
            && Subscribed(y.bus, s) && !(a == Leave(s) && At(y, s, Leaving))
            && !(a.Fan? && a.id in y.inflight && !Room(y.bus, s)))
      && (y'.handlers[s].phase == Gone <==> y.handlers[s].phase == Gone || (a == Leave(s) && At(y, s, Leaving)))
  {
    hide Tidy, AllAuthentic, Deliver, Replay, Window, EventAt;
    SubscribedById(y, s);
    StepNumbered(y, a);
    SubscribedById(Next(y, a), s);
    hide Subscribed, Wired;
  }

  lemma SubscribedById(y: Sys, s: nat)
    requires Numbered(y) && s < |y.handlers| <= U64
    ensures Subscribed(y.bus, s) <==> s in y.bus.subs
  {
    if s in y.bus.subs { assert y.bus.subs[s] == s; }
  }

  /** For every run of up to 2^64 streams: a stream in its loop waits for its channel exactly while it has received all
      that was put there and is subscribed; one that was dropped receives what is left and then leaves its loop. */
  lemma {:induction false} WaitsIff(actions: seq<Action>, s: nat)
    requires s < |Run(actions).handlers| <= U64 && Run(actions).handlers[s].phase == Live
    ensures
      var y, y' := Run(actions), Next(Run(actions), Receive(s));
      var got, fans := |y.handlers[s].received|, FansTo(actions, s);
      && s < |y'.handlers| && got <= |fans|
      && (got < |fans| ==> y'.handlers[s].received == fans[..got + 1] && y'.handlers[s].phase == Live)
      && (got == |fans| && !Overflowed(actions, s) ==> y' == y)
      && (got == |fans| && Overflowed(actions, s) ==> y'.handlers[s] == y.handlers[s].(phase := Leaving))
  {
    RunGood(actions);
    ChannelHoldsFans(actions, s);
    SubscribedIff(actions, s);
    hide Run, Overflowed, Tidy, AllAuthentic, FansTo, Wired;
    var y := Run(actions);
    assert At(y, s, Live);
    hide Subscribed;
    ReceiveIs(y, s, FansTo(actions, s));
    hide Next, Taken;
  }

  lemma {:induction false} ReceiveIs(y: Sys, s: nat, fans: seq<Event>)
    requires At(y, s, Live) && fans == y.handlers[s].received + y.bus.channels[s].buffer
    ensures
      var y', c, got := Next(y, Receive(s)), y.bus.channels[s], |y.handlers[s].received|;
      && s < |y'.handlers|
      && (got < |fans| ==> y'.handlers[s].received == fans[..got + 1] && y'.handlers[s].phase == Live)
      && (got == |fans| && !c.closed ==> y' == y)
      && (got == |fans| && c.closed ==> y'.handlers[s] == y.handlers[s].(phase := Leaving))
  {
    hide Deliver;
    var h, buffer := y.handlers[s], y.bus.channels[s].buffer;
    if buffer != [] {
      assert fans[..|h.received| + 1] == h.received + [buffer[0]];
    }
  }

  /** Step `a` ends the loop of handler `s`, or keeps it from entering it: its history cannot be read, its client
      goes, or its channel is closed and drained. */
  predicate Ends(y: Sys, a: Action, s: nat) {
    s < |y.handlers| && s < |y.bus.channels| &&
    match y.handlers[s].phase
    case Joined => a == Fail(s)
    case Live => a == Quit(s) || (a == Receive(s) && y.bus.channels[s].buffer == [] && y.bus.channels[s].closed)
    case _ => false
  }

  /** Whichever way a stream of up to 2^64 ends, its last step unsubscribes it and closes its channel, and leaves every
      other stream alone. */
  lemma {:induction false} EveryExitUnsubscribes(actions: seq<Action>, a: Action, s: nat)
    requires |Run(actions).handlers| <= U64 && Ends(Run(actions), a, s)
    ensures
      var y, y' := Run(actions), Next(Next(Run(actions), a), Leave(s));
      && y'.handlers == y.handlers[s := y.handlers[s].(phase := Gone)]
      && y'.bus.subs == y.bus.subs - {s}
      && y'.bus.channels == y.bus.channels[s := y.bus.channels[s].(closed := true)]
  {
    var y := Run(actions);
    RunGood(actions);
    FewNeverCollide(actions);
    OpenIffSubscribed(actions);
    hide Run, Collided, Tidy, AllAuthentic;
    var y1 := Next(y, a);
    assert y1 == y.(handlers := y.handlers[s := y.handlers[s].(phase := Leaving)]) by { hide OpenIsSubscribed,
        Numbered; }
    hide Next, Ends;
    LastStep(y1, s);
    assert y1.handlers[s := y1.handlers[s].(phase := Gone)] == y.handlers[s := y.handlers[s].(phase := Gone)];
  }

  lemma LastStep(y: Sys, s: nat)
    requires At(y, s, Leaving) && OpenIsSubscribed(y.bus)
    requires y.handlers[s].sub == s && forall id | id in y.bus.subs :: y.bus.subs[id] == id < |y.bus.channels|
    ensures
      var y' := Next(y, Leave(s));
      && y'.handlers == y.handlers[s := y.handlers[s].(phase := Gone)]
      && y'.bus.subs == y.bus.subs - {s}
      && y'.bus.channels == y.bus.channels[s := y.bus.channels[s].(closed := true)]
  {
    if s !in y.bus.subs { assert !Subscribed(y.bus, s); }
  }
}
