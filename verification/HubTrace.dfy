/** Whole runs of the hub: any sequence of its operations, with what the callers were told along the way. */
module HubTrace {
  import opened Prelude
  import opened Records
  import opened HubSpec

  datatype Op =
    | DoReserve(id: Id)
    | DoActivate(t: nat)
    | DoDetach(t: nat)
    | DoCancel(t: nat)
    | DoRevoke(id: Id)
    | DoRelease(k: nat)
    | DoSend(id: Id, message: Message)
    | DoTake(t: nat)

  /** How an attached period of a link began or ended. */
  datatype Kind = Activated | Replaced | Detached | Revoked
  datatype Outcome = Outcome(kind: Kind, id: Id, t: nat)

  /** The hub, the messages whose Send returned true per link, those its stream received, and the outcomes so far. */
  datatype Trace = Trace(hub: HubState, accepted: seq<seq<Message>>, taken: seq<seq<Message>>, outcomes: seq<Outcome>)

  const START := Trace(EMPTY, [], [], [])

  /** What becomes of the link attached under `id`, if there is one. */
  function Ended(connections: map<Id, nat>, id: Id, kind: Kind): seq<Outcome> {
    if id in connections then [Outcome(kind, id, connections[id])] else []
  }

  /** An operation on a reservation or revocation that was never handed out cannot be called. */
  function Apply(tr: Trace, op: Op): Trace {
    match op
    case DoReserve(id) =>
      var (h, r) := Reserve(tr.hub, id);
      if r.None? then tr else Trace(h, tr.accepted + [[]], tr.taken + [[]], tr.outcomes)
    case DoActivate(t) =>
      if t >= |tr.hub.links| then tr
      else
        var (h, ok) := Activate(tr.hub, t);
        var id := tr.hub.links[t].id;
        if ok then tr.(hub := h,
            outcomes := tr.outcomes + Ended(tr.hub.connections, id, Replaced) + [Outcome(Activated, id, t)])
        else tr.(hub := h)
    case DoDetach(t) =>
      if t >= |tr.hub.links| then tr
      else
        var (h, mine) := Detach(tr.hub, t);
        if mine then tr.(hub := h, outcomes := tr.outcomes + [Outcome(Detached, tr.hub.links[t].id, t)])
        else tr.(hub := h)
    case DoCancel(t) =>
      if t >= |tr.hub.links| then tr else tr.(hub := Cancel(tr.hub, t))
    case DoRevoke(id) =>
      tr.(hub := Revoke(tr.hub, id).0, outcomes := tr.outcomes + Ended(tr.hub.connections, id, Revoked))
    case DoRelease(k) =>
      if k >= |tr.hub.revocations| then tr else tr.(hub := Release(tr.hub, k))
    case DoSend(id, message) =>
      var (h, ok) := Send(tr.hub, id, message);
      if ok && tr.hub.connections[id] < |tr.accepted| then
        var t := tr.hub.connections[id];
        tr.(hub := h, accepted := tr.accepted[t := tr.accepted[t] + [message]])
      else tr.(hub := h)
    case DoTake(t) =>
      if t >= |tr.hub.links| || tr.hub.links[t].buffer == [] || t >= |tr.taken| then tr
      else tr.(hub := Take(tr.hub, t), taken := tr.taken[t := tr.taken[t] + [tr.hub.links[t].buffer[0]]])
  }

  function Run(tr: Trace, ops: seq<Op>): Trace {
    if ops == [] then tr else Apply(Run(tr, ops[..|ops| - 1]), ops[|ops| - 1])
  }

  lemma StepOwned(tr: Trace, op: Op)
    requires HubInv(tr.hub)
    ensures HubInv(Apply(tr, op).hub)
  {
    var h := tr.hub;
    match op {
      case DoReserve(id) => ReserveOwned(h, id);
      case DoActivate(t) => if t < |h.links| { ActivateOwned(h, t); }
      case DoDetach(t) => if t < |h.links| { DetachOwned(h, t); }
      case DoCancel(t) => if t < |h.links| { CancelOwned(h, t); }
      case DoRevoke(id) => RevokeOwned(h, id);
      case DoRelease(k) => if k < |h.revocations| { ReleaseOwned(h, k); }
      case DoSend(id, message) => SendOwned(h, id, message);
      case DoTake(t) => if t < |h.links| && h.links[t].buffer != [] { TakeOwned(h, t); }
    }
  }

  // ---- outbound queue ----

  /** Taken and still buffered messages are, in order, the accepted ones. */
  ghost predicate Queued(tr: Trace) {
    && |tr.accepted| == |tr.hub.links| && |tr.taken| == |tr.hub.links|
    && forall t: nat | t < |tr.hub.links| :: tr.taken[t] + tr.hub.links[t].buffer == tr.accepted[t]
  }

  /** Only Send and Take touch a buffer, and no operation but Reserve adds a link. */
  lemma BuffersKept(tr: Trace, op: Op)
    requires HubInv(tr.hub) && !op.DoSend? && !op.DoTake?
    ensures |tr.hub.links| <= |Apply(tr, op).hub.links|
    ensures forall t: nat | t < |tr.hub.links| :: Apply(tr, op).hub.links[t].buffer == tr.hub.links[t].buffer
    ensures !op.DoReserve? ==> |Apply(tr, op).hub.links| == |tr.hub.links|
  {
  }

  lemma StepQueued(tr: Trace, op: Op)
    requires HubInv(tr.hub) && Queued(tr)
    ensures Queued(Apply(tr, op))
  {
    match op {
      case DoSend(id, message) =>
        if Send(tr.hub, id, message).1 {
          var t := tr.hub.connections[id];
          assert tr.taken[t] + (tr.hub.links[t].buffer + [message]) == tr.accepted[t] + [message];
        }
      case DoTake(t) =>
        if t < |tr.hub.links| && tr.hub.links[t].buffer != [] {
          var b := tr.hub.links[t].buffer;
          assert tr.taken[t] + [b[0]] + b[1..] == tr.taken[t] + b;
        }
      case _ => BuffersKept(tr, op);
    }
  }

  // ---- attached periods ----

  function Times(outcomes: seq<Outcome>, o: Outcome): nat {
    multiset(outcomes)[o]
  }

  lemma TimesAfter(outcomes: seq<Outcome>, extra: seq<Outcome>, o: Outcome)
    ensures Times(outcomes + extra, o) == Times(outcomes, o) + Times(extra, o)
  {
  }

  /** What an operation does to the attached slots. */
  datatype Effect = Nothing | Attaches(id: Id, t: nat) | Detaches(id: Id, t: nat) | Revokes(id: Id)

  function EffectOf(tr: Trace, op: Op): Effect {
    match op
    case DoActivate(t) =>
      if t < |tr.hub.links| && Activate(tr.hub, t).1 then Attaches(tr.hub.links[t].id, t) else Nothing
    case DoDetach(t) =>
      if t < |tr.hub.links| && Detach(tr.hub, t).1 then Detaches(tr.hub.links[t].id, t) else Nothing
    case DoRevoke(id) => Revokes(id)
    case _ => Nothing
  }

  function Slots(connections: map<Id, nat>, e: Effect): map<Id, nat> {
    match e
    case Nothing => connections
    case Attaches(id, t) => connections[id := t]
    case Detaches(id, t) => connections - {id}
    case Revokes(id) => connections - {id}
  }

  function Added(connections: map<Id, nat>, e: Effect): seq<Outcome> {
    match e
    case Nothing => []
    case Attaches(id, t) => Ended(connections, id, Replaced) + [Outcome(Activated, id, t)]
    case Detaches(id, t) => [Outcome(Detached, id, t)]
    case Revokes(id) => Ended(connections, id, Revoked)
  }

  lemma EffectHappens(tr: Trace, op: Op)
    requires HubInv(tr.hub)
    ensures
      var tr', e := Apply(tr, op), EffectOf(tr, op);
      && tr'.outcomes == tr.outcomes + Added(tr.hub.connections, e)
      && tr'.hub.connections == Slots(tr.hub.connections, e)
      && |tr.hub.links| <= |tr'.hub.links|
      && (forall t | t in tr'.hub.waiting :: t in tr.hub.waiting || t >= |tr.hub.links|)
      && (e.Attaches? ==> e.t in tr.hub.waiting && e.t < |tr.hub.links| && e.t !in tr'.hub.waiting)
      && (e.Detaches? ==> e.id in tr.hub.connections && tr.hub.connections[e.id] == e.t)
  {
  }

  /** How often link `t` was activated and how often that ended, against its slot. */
  ghost predicate BalancedAt(outcomes: seq<Outcome>, connections: map<Id, nat>, id: Id, t: nat) {
    Times(outcomes, Outcome(Activated, id, t))
      == Times(outcomes, Outcome(Replaced, id, t)) + Times(outcomes, Outcome(Detached, id, t))
       + Times(outcomes, Outcome(Revoked, id, t)) + if id in connections && connections[id] == t then 1 else 0
  }

  lemma EffectBalances(outcomes: seq<Outcome>, connections: map<Id, nat>, e: Effect, id: Id, t: nat)
    requires BalancedAt(outcomes, connections, id, t)
    requires e.Attaches? && e.id == id && e.t == t ==> Times(outcomes, Outcome(Activated, id, t)) == 0
    requires e.Detaches? ==> e.id in connections && connections[e.id] == e.t
    ensures BalancedAt(outcomes + Added(connections, e), Slots(connections, e), id, t)
    ensures Times(outcomes + Added(connections, e), Outcome(Activated, id, t))
         == Times(outcomes, Outcome(Activated, id, t)) + if e.Attaches? && e.id == id && e.t == t then 1 else 0
  {
    var extra := Added(connections, e);
    TimesAfter(outcomes, extra, Outcome(Activated, id, t));
    TimesAfter(outcomes, extra, Outcome(Replaced, id, t));
    TimesAfter(outcomes, extra, Outcome(Detached, id, t));
    TimesAfter(outcomes, extra, Outcome(Revoked, id, t));
  }

  /** A link is activated at most once, never while it still waits; each activation is still attached
      or ended in exactly one of the three ways. */
  ghost predicate Balanced(tr: Trace) {
    && (forall id, t: nat :: BalancedAt(tr.outcomes, tr.hub.connections, id, t))
    && (forall id, t: nat :: Times(tr.outcomes, Outcome(Activated, id, t)) <= 1)
    && (forall id, t: nat | t in tr.hub.waiting || t >= |tr.hub.links| ::
         Times(tr.outcomes, Outcome(Activated, id, t)) == 0)
  }

  lemma StepBalanced(tr: Trace, op: Op)
    requires HubInv(tr.hub) && Balanced(tr)
    ensures Balanced(Apply(tr, op))
  {
    var tr' := Apply(tr, op);
    EffectHappens(tr, op);
    forall id, t: nat
      ensures BalancedAt(tr'.outcomes, tr'.hub.connections, id, t)
      ensures Times(tr'.outcomes, Outcome(Activated, id, t)) <= 1
      ensures t in tr'.hub.waiting || t >= |tr'.hub.links| ==> Times(tr'.outcomes, Outcome(Activated, id, t)) == 0
    {
      EffectBalances(tr.outcomes, tr.hub.connections, EffectOf(tr, op), id, t);
    }
  }

  ghost predicate TraceInv(tr: Trace) {
    HubInv(tr.hub) && Queued(tr) && Balanced(tr)
  }

  /** Every run of hub operations, from the empty hub, keeps ownership, the queue and the balance of attached
      periods. */
  lemma {:induction false} RunKeeps(ops: seq<Op>)
    ensures TraceInv(Run(START, ops))
  {
    if ops == [] {
      EmptyOwned();
    } else {
      var tr := Run(START, ops[..|ops| - 1]);
      RunKeeps(ops[..|ops| - 1]);
      StepOwned(tr, ops[|ops| - 1]);
      StepQueued(tr, ops[|ops| - 1]);
      StepBalanced(tr, ops[|ops| - 1]);
    }
  }

  // ---- the same balance, counted per identity ----

  function Count(outcomes: seq<Outcome>, kind: Kind, id: Id): nat {
    if outcomes == [] then 0
    else
      var last := outcomes[|outcomes| - 1];
      Count(outcomes[..|outcomes| - 1], kind, id) + if last.kind == kind && last.id == id then 1 else 0
  }

  lemma CountAfter(outcomes: seq<Outcome>, o: Outcome, kind: Kind, id: Id)
    ensures Count(outcomes + [o], kind, id) == Count(outcomes, kind, id) + if o.kind == kind && o.id == id then 1 else 0
  {
  }

  lemma CountAdded(outcomes: seq<Outcome>, extra: seq<Outcome>, kind: Kind, id: Id)
    requires |extra| <= 2
    ensures Count(outcomes + extra, kind, id) == Count(outcomes, kind, id) + Count(extra, kind, id)
  {
    if |extra| == 0 {
      assert outcomes + extra == outcomes;
    } else {
      var n := |extra| - 1;
      assert outcomes + extra == (outcomes + extra[..n]) + [extra[n]];
      CountAdded(outcomes, extra[..n], kind, id);
      CountAfter(outcomes + extra[..n], extra[n], kind, id);
    }
  }

  ghost predicate Accounted(outcomes: seq<Outcome>, connections: map<Id, nat>, id: Id) {
    Count(outcomes, Activated, id)
      == Count(outcomes, Detached, id) + Count(outcomes, Replaced, id) + Count(outcomes, Revoked, id)
         + if id in connections then 1 else 0
  }

  lemma CountOne(o: Outcome, kind: Kind, id: Id)
    ensures Count([o], kind, id) == if o.kind == kind && o.id == id then 1 else 0
  {
  }

  lemma CountOfAdded(connections: map<Id, nat>, e: Effect, kind: Kind, id: Id)
    ensures |Added(connections, e)| <= 2
    ensures Count(Added(connections, e), kind, id) ==
      if e == Nothing || e.id != id then 0
      else if e.Attaches? then
        if kind == Activated then 1 else if kind == Replaced && id in connections then 1 else 0
      else if e.Detaches? then if kind == Detached then 1 else 0
      else if kind == Revoked && id in connections then 1 else 0
  {
    var extra := Added(connections, e);
    assert Count([], kind, id) == 0;
    hide Count;
    if |extra| == 0 {
      assert extra == [];
    } else if |extra| == 1 {
      CountOne(extra[0], kind, id);
      assert extra == [extra[0]];
    } else {
      assert extra == [extra[0]] + [extra[1]];
      CountAfter([extra[0]], extra[1], kind, id);
      CountOne(extra[0], kind, id);
    }
  }

  lemma EffectAccounted(outcomes: seq<Outcome>, connections: map<Id, nat>, e: Effect, id: Id)
    requires Accounted(outcomes, connections, id)
    requires e.Detaches? ==> e.id in connections
    ensures Accounted(outcomes + Added(connections, e), Slots(connections, e), id)
  {
    CountOfAdded(connections, e, Activated, id);
    CountOfAdded(connections, e, Detached, id);
    CountOfAdded(connections, e, Replaced, id);
    CountOfAdded(connections, e, Revoked, id);
    CountAdded(outcomes, Added(connections, e), Activated, id);
    CountAdded(outcomes, Added(connections, e), Detached, id);
    CountAdded(outcomes, Added(connections, e), Replaced, id);
    CountAdded(outcomes, Added(connections, e), Revoked, id);
  }

  /** Per identity: successful activations are the detach calls that returned true, the links replaced,
      the links revoked, and the one still attached. */
  lemma {:induction false} ActivationsAccounted(ops: seq<Op>, id: Id)
    ensures Accounted(Run(START, ops).outcomes, Run(START, ops).hub.connections, id)
  {
    if ops != [] {
      var tr := Run(START, ops[..|ops| - 1]);
      ActivationsAccounted(ops[..|ops| - 1], id);
      RunKeeps(ops[..|ops| - 1]);
      EffectHappens(tr, ops[|ops| - 1]);
      EffectAccounted(tr.outcomes, tr.hub.connections, EffectOf(tr, ops[|ops| - 1]), id);
    }
  }

  // ---- closing is final ----

  lemma ClosedStays(tr: Trace, op: Op, t: nat)
    requires HubInv(tr.hub) && |tr.accepted| == |tr.hub.links| && t < |tr.hub.links| && tr.hub.links[t].closed
    ensures t < |Apply(tr, op).hub.links| && Apply(tr, op).hub.links[t].closed
    ensures t < |Apply(tr, op).accepted| && Apply(tr, op).accepted[t] == tr.accepted[t]
  {
  }

  /** Once a connection is closed it stays closed and accepts no further message, whatever is called afterwards. */
  lemma {:induction false} ClosedIsFinal(before: seq<Op>, after: seq<Op>, t: nat)
    requires t < |Run(START, before).hub.links| && Run(START, before).hub.links[t].closed
    ensures t < |Run(START, before + after).hub.links| && Run(START, before + after).hub.links[t].closed
    ensures t < |Run(START, before).accepted| && t < |Run(START, before + after).accepted|
    ensures Run(START, before + after).accepted[t] == Run(START, before).accepted[t]
  {
    RunKeeps(before);
    if after == [] {
      assert before + after == before;
    } else {
      var n := |after| - 1;
      ClosedIsFinal(before, after[..n], t);
      RunKeeps(before + after[..n]);
      assert (before + after)[..|before + after| - 1] == before + after[..n];
      ClosedStays(Run(START, before + after[..n]), after[n], t);
    }
  }
}
