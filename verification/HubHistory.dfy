/** What the hub is after any run, read off the calls alone: each link and each revocation by what was called since it
    was handed out, without the hub's tables. */
module HubHistory {
  import opened Prelude
  import opened Records
  import opened HubSpec
  import opened HubTrace

  // ---- revocations ----

  /** The identity of each revocation, in the order of the calls. */
  function Revokers(ops: seq<Op>): seq<Id> {
    if ops == [] then []
    else
      var front, last := ops[..|ops| - 1], ops[|ops| - 1];
      if last.DoRevoke? then Revokers(front) + [last.id] else Revokers(front)
  }

  /** The closure that the k-th Revoke returned has been called. */
  predicate Released(ops: seq<Op>, k: nat) {
    ops != [] &&
    var front, last := ops[..|ops| - 1], ops[|ops| - 1];
    Released(front, k) || (last == DoRelease(k) && k < |Revokers(front)|)
  }

  predicate Held(ops: seq<Op>, id: Id) {
    exists k: nat :: k < |Revokers(ops)| && Revokers(ops)[k] == id && !Released(ops, k)
  }

  // ---- links ----

  /** The identity of each link: a reservation is handed out unless a revocation of its identity is held. */
  function Handed(ops: seq<Op>): seq<Id> {
    if ops == [] then []
    else
      var front, last := ops[..|ops| - 1], ops[|ops| - 1];
      if last.DoReserve? && !Held(front, last.id) then Handed(front) + [last.id] else Handed(front)
  }

  predicate Of(ops: seq<Op>, t: nat, id: Id) {
    t < |Handed(ops)| && Handed(ops)[t] == id
  }

  /** Since link `t` was handed out it was neither activated nor canceled, and its identity was not revoked. */
  predicate Waits(ops: seq<Op>, t: nat) {
    ops != [] &&
    var front, last := ops[..|ops| - 1], ops[|ops| - 1];
    || t == |Handed(front)| < |Handed(ops)|
    || (Waits(front, t) && last != DoActivate(t) && last != DoCancel(t) && !(last.DoRevoke? && Of(front, t, last.id)))
  }

  /** Link `t` was activated while it waited; since then it was not detached, its identity was not revoked, and no
      other link of its identity was activated while that one waited. */
  predicate Holds(ops: seq<Op>, t: nat) {
    ops != [] &&
    var front, last := ops[..|ops| - 1], ops[|ops| - 1];
    || (last == DoActivate(t) && Waits(front, t))
    || (Holds(front, t) && last != DoDetach(t) && !(last.DoRevoke? && Of(front, t, last.id))
        && !(last.DoActivate? && Waits(front, last.t) && t < |Handed(front)| && Of(front, last.t, Handed(front)[t])))
  }

  /** The call closes link `t`: an activation of it that fails, or of one that replaces it; its detachment or
      cancellation; a revocation; or a message that its queue has no room for. */
  predicate Closes(ops: seq<Op>, op: Op, t: nat)
    decreases |ops|, 1
  {
    match op
    case DoActivate(u) =>
      if u == t then !Waits(ops, t)
      else Holds(ops, t) && Waits(ops, u) && t < |Handed(ops)| && Of(ops, u, Handed(ops)[t])
    case DoDetach(u) => u == t && Holds(ops, t)
    case DoCancel(u) => u == t
    case DoRevoke(id) => Of(ops, t, id)
    case DoSend(id, _) => Of(ops, t, id) && Holds(ops, t) && |Accepted(ops, t)| - Received(ops, t) >= CAPACITY
    case _ => false
  }

  /** Link `t` has been handed out and nothing has closed it. */
  predicate Open(ops: seq<Op>, t: nat)
    decreases |ops|, 0
  {
    ops != [] &&
    var front, last := ops[..|ops| - 1], ops[|ops| - 1];
    t == |Handed(front)| < |Handed(ops)| || (Open(front, t) && !Closes(front, last, t))
  }

  /** The messages sent to the identity of link `t` while it was attached and open and fewer than sixteen waited. */
  function Accepted(ops: seq<Op>, t: nat): seq<Message>
    decreases |ops|, 0
  {
    if ops == [] then []
    else
      var front, last := ops[..|ops| - 1], ops[|ops| - 1];
      if && last.DoSend? && Of(front, t, last.id) && Holds(front, t) && Open(front, t)
         && |Accepted(front, t)| - Received(front, t) < CAPACITY
      then Accepted(front, t) + [last.message] else Accepted(front, t)
  }

  /** How many of them the stream has received. */
  function Received(ops: seq<Op>, t: nat): nat
    decreases |ops|, 0
  {
    if ops == [] then 0
    else
      var front, last := ops[..|ops| - 1], ops[|ops| - 1];
      Received(front, t) + if last == DoTake(t) && Received(front, t) < |Accepted(front, t)| then 1 else 0
  }

  // ---- the hub is that ----

  ghost predicate RevocationsAre(h: HubState, ops: seq<Op>) {
    && |h.revocations| == |Revokers(ops)|
    && forall k: nat | k < |h.revocations| :: h.revocations[k] == Revocation(Revokers(ops)[k], Released(ops, k))
  }

  ghost predicate LinksAre(h: HubState, ops: seq<Op>) {
    && |h.links| == |Handed(ops)|
    && (forall t: nat | t < |h.links| :: h.links[t].id == Handed(ops)[t])
    && (forall t: nat | t < |h.links| :: h.links[t].closed == !Open(ops, t))
  }

  ghost predicate SlotsAre(h: HubState, ops: seq<Op>) {
    && (forall t: nat :: t in h.waiting <==> Waits(ops, t))
    && (forall t: nat :: Attached(h, t) <==> Holds(ops, t))
  }

  ghost predicate QueuesAre(tr: Trace, ops: seq<Op>) {
    && |tr.accepted| == |tr.taken| == |tr.hub.links|
    && (forall t: nat | t < |tr.accepted| :: tr.accepted[t] == Accepted(ops, t))
    && (forall t: nat | t < |tr.taken| ::
          Received(ops, t) <= |Accepted(ops, t)| && tr.taken[t] == Accepted(ops, t)[..Received(ops, t)])
  }

  // ---- one more call ----

  lemma {:induction false} RevokersNext(front: seq<Op>, op: Op)
    ensures Revokers(front + [op]) == if op.DoRevoke? then Revokers(front) + [op.id] else Revokers(front)
    ensures forall k: nat :: Released(front + [op], k) <==>
        Released(front, k) || (op == DoRelease(k) && k < |Revokers(front)|)
  {
    assert (front + [op])[..|front|] == front;
  }

  lemma {:induction false} HandedNext(front: seq<Op>, op: Op)
    ensures Handed(front + [op]) ==
        if op.DoReserve? && !Held(front, op.id) then Handed(front) + [op.id] else Handed(front)
  {
    assert (front + [op])[..|front|] == front;
  }

  lemma {:induction false} WaitsNext(front: seq<Op>, op: Op, t: nat)
    ensures Waits(front + [op], t) <==>
      || t == |Handed(front)| < |Handed(front + [op])|
      || (Waits(front, t) && op != DoActivate(t) && op != DoCancel(t) && !(op.DoRevoke? && Of(front, t, op.id)))
  {
    hide Handed, Of;
    assert (front + [op])[..|front|] == front;
  }

  lemma {:induction false} HoldsNext(front: seq<Op>, op: Op, t: nat)
    ensures Holds(front + [op], t) <==>
      || (op == DoActivate(t) && Waits(front, t))
      || (Holds(front, t) && op != DoDetach(t) && !(op.DoRevoke? && Of(front, t, op.id))
          && !(op.DoActivate? && Waits(front, op.t) && t < |Handed(front)| && Of(front, op.t, Handed(front)[t])))
  {
    hide Handed, Of, Waits;
    assert (front + [op])[..|front|] == front;
  }

  lemma {:induction false} OpenNext(front: seq<Op>, op: Op, t: nat)
    ensures Open(front + [op], t) <==>
      t == |Handed(front)| < |Handed(front + [op])| || (Open(front, t) && !Closes(front, op, t))
  {
    hide Handed, Closes;
    assert (front + [op])[..|front|] == front;
  }

  lemma {:induction false} QueueNext(front: seq<Op>, op: Op, t: nat)
    ensures Accepted(front + [op], t) ==
      if && op.DoSend? && Of(front, t, op.id) && Holds(front, t) && Open(front, t)
         && |Accepted(front, t)| - Received(front, t) < CAPACITY
      then Accepted(front, t) + [op.message] else Accepted(front, t)
    ensures Received(front + [op], t) ==
        Received(front, t) + if op == DoTake(t) && Received(front, t) < |Accepted(front, t)| then 1 else 0
  {
    hide Of, Holds, Open;
    assert (front + [op])[..|front|] == front;
  }

  lemma {:induction false} ReleasedWasHanded(ops: seq<Op>, k: nat)
    requires Released(ops, k)
    ensures k < |Revokers(ops)|
  {
    var front, last := ops[..|ops| - 1], ops[|ops| - 1];
    if Released(front, k) { ReleasedWasHanded(front, k); }
  }

  lemma {:induction false} NextRevocations(tr: Trace, front: seq<Op>, op: Op)
    requires RevocationsAre(tr.hub, front)
    ensures RevocationsAre(Apply(tr, op).hub, front + [op])
  {
    RevokersNext(front, op);
    if Released(front, |Revokers(front)|) { ReleasedWasHanded(front, |Revokers(front)|); }
    hide Revokers, Released;
    if !op.DoRevoke? && !op.DoRelease? {
      OthersKeepRevocations(tr, op);
      hide Apply;
    }
  }

  lemma OthersKeepRevocations(tr: Trace, op: Op)
    requires !op.DoRevoke? && !op.DoRelease?
    ensures Apply(tr, op).hub.revocations == tr.hub.revocations
  {
    hide Blocked;
  }

  lemma {:induction false} HeldIsBlocked(h: HubState, ops: seq<Op>, id: Id)
    requires RevocationsAre(h, ops)
    ensures Held(ops, id) <==> Blocked(h, id)
  {
    hide Revokers, Released;
    if Blocked(h, id) {
      var k :| 0 <= k < |h.revocations| && h.revocations[k] == Revocation(id, false);
      assert Revokers(ops)[k] == id && !Released(ops, k);
    }
    if Held(ops, id) {
      var k: nat :| k < |Revokers(ops)| && Revokers(ops)[k] == id && !Released(ops, k);
      assert h.revocations[k] == Revocation(id, false);
    }
  }

  /** A reservation that waits can be activated. */
  lemma ActivateIff(h: HubState, t: nat)
    requires HubInv(h) && t < |h.links|
    ensures Activate(h, t).1 <==> t in h.waiting
  {
  }

  ghost predicate IsHistory(tr: Trace, ops: seq<Op>) {
    RevocationsAre(tr.hub, ops) && LinksAre(tr.hub, ops) && SlotsAre(tr.hub, ops) && QueuesAre(tr, ops)
  }

  lemma {:induction false} NextHanded(tr: Trace, front: seq<Op>, op: Op)
    requires HubInv(tr.hub) && IsHistory(tr, front)
    ensures
      var h := Apply(tr, op).hub;
      |h.links| == |Handed(front + [op])| && forall t: nat | t < |h.links| :: h.links[t].id == Handed(front + [op])[t]
  {
    HandedNext(front, op);
    IdsStay(tr, op);
    hide SlotsAre, QueuesAre, HubInv, Handed, Held;
    if op.DoReserve? {
      HeldIsBlocked(tr.hub, front, op.id);
      hide RevocationsAre, Blocked;
    } else {
      NoneHanded(tr, op);
      hide RevocationsAre, Apply;
    }
  }

  lemma NoneHanded(tr: Trace, op: Op)
    requires !op.DoReserve?
    ensures |Apply(tr, op).hub.links| == |tr.hub.links|
  {
    hide Blocked;
  }

  lemma {:induction false} NextWaits(tr: Trace, front: seq<Op>, op: Op, t: nat)
    requires HubInv(tr.hub) && IsHistory(tr, front)
    ensures t in Apply(tr, op).hub.waiting <==> Waits(front + [op], t)
  {
    WaitsNext(front, op, t);
    HandedNext(front, op);
    if op.DoReserve? { HeldIsBlocked(tr.hub, front, op.id); }
    hide Handed, Held, Blocked, Waits, Holds, QueuesAre, RevocationsAre;
  }

  lemma {:induction false} NextHolds(tr: Trace, front: seq<Op>, op: Op, t: nat)
    requires HubInv(tr.hub) && IsHistory(tr, front)
    ensures Attached(Apply(tr, op).hub, t) <==> Holds(front + [op], t)
  {
    HoldsNext(front, op, t);
    var h, h', e := tr.hub, Apply(tr, op).hub, EffectOf(tr, op);
    EffectHappens(tr, op);
    IdsStay(tr, op);
    assert Attached(h, t) <==> Holds(front, t);
    if op.DoActivate? && op.t < |h.links| {
      ActivateIff(h, op.t);
      assert e == if op.t in h.waiting then Attaches(h.links[op.t].id, op.t) else Nothing;
      assert op.t in h.waiting <==> Waits(front, op.t);
    } else if op.DoDetach? && op.t < |h.links| {
      assert e == if Attached(h, op.t) then Detaches(h.links[op.t].id, op.t) else Nothing;
    }
    hide Apply, EffectOf, Activate, Detach, Handed, Waits, Holds, QueuesAre, RevocationsAre, SlotsAre;
  }

  lemma IdsStay(tr: Trace, op: Op)
    ensures |tr.hub.links| <= |Apply(tr, op).hub.links|
    ensures forall t: nat | t < |tr.hub.links| :: Apply(tr, op).hub.links[t].id == tr.hub.links[t].id
    ensures HubInv(tr.hub) && |Apply(tr, op).hub.links| > |tr.hub.links| ==>
        Apply(tr, op).hub.connections == tr.hub.connections
  {
    hide Blocked, HubInv;
  }

  /** What a call closes, by the tables. */
  predicate Shuts(h: HubState, op: Op, t: nat)
    requires t < |h.links|
  {
    match op
    case DoActivate(u) =>
      if u == t then t !in h.waiting
      else Attached(h, t) && u in h.waiting && u < |h.links| && h.links[u].id == h.links[t].id
    case DoDetach(u) => u == t && Attached(h, t)
    case DoCancel(u) => u == t
    case DoRevoke(id) => h.links[t].id == id
    case DoSend(id, _) => h.links[t].id == id && Attached(h, t) && |h.links[t].buffer| >= CAPACITY
    case _ => false
  }

  lemma NextShut(tr: Trace, op: Op, t: nat)
    requires HubInv(tr.hub) && t < |tr.hub.links|
    ensures t < |Apply(tr, op).hub.links|
    ensures Apply(tr, op).hub.links[t].closed == (tr.hub.links[t].closed || Shuts(tr.hub, op, t))
  {
    if op.DoActivate? && op.t < |tr.hub.links| {
      ActivateIff(tr.hub, op.t);
      hide Blocked;
    } else if op.DoRevoke? {
      assert tr.hub.links[t].closed || t in tr.hub.waiting || Attached(tr.hub, t);
    }
  }

  lemma {:induction false} NextClosed(tr: Trace, front: seq<Op>, op: Op, t: nat)
    requires HubInv(tr.hub) && IsHistory(tr, front) && Queued(tr) && t < |tr.hub.links|
    ensures Apply(tr, op).hub.links[t].closed == (tr.hub.links[t].closed || Closes(front, op, t))
  {
    NextShut(tr, op, t);
    hide Apply, HubInv;
    assert |tr.hub.links[t].buffer| == |Accepted(front, t)| - Received(front, t) by {
      assert tr.taken[t] + tr.hub.links[t].buffer == tr.accepted[t];
    }
    hide Handed, Waits, Holds, Open, Accepted, Received, RevocationsAre, QueuesAre, Queued;
    assert Attached(tr.hub, t) <==> Holds(front, t);
    assert t in tr.hub.waiting <==> Waits(front, t);
    if op.DoActivate? { assert op.t in tr.hub.waiting <==> Waits(front, op.t); }
  }

  lemma {:induction false} NextOpen(tr: Trace, front: seq<Op>, op: Op)
    requires HubInv(tr.hub) && IsHistory(tr, front) && Queued(tr)
    ensures
      var h := Apply(tr, op).hub;
      forall t: nat | t < |h.links| :: h.links[t].closed == !Open(front + [op], t)
  {
    var h := Apply(tr, op).hub;
    NextHanded(tr, front, op);
    BirthIsOpen(tr, op);
    forall t: nat | t < |h.links| ensures h.links[t].closed == !Open(front + [op], t) {
      OpenNext(front, op, t);
      if t < |tr.hub.links| { NextClosed(tr, front, op, t); }
      hide Handed, Closes, Open, Apply, HubInv, QueuesAre, RevocationsAre, SlotsAre, Queued;
    }
  }

  lemma BirthIsOpen(tr: Trace, op: Op)
    ensures |tr.hub.links| <= |Apply(tr, op).hub.links| <= |tr.hub.links| + 1
    ensures forall t: nat | |tr.hub.links| <= t < |Apply(tr, op).hub.links| ::
        !Apply(tr, op).hub.links[t].closed && Apply(tr, op).hub.links[t].buffer == []
  {
    hide Blocked;
  }

  lemma {:induction false} NoQueueYet(ops: seq<Op>, t: nat)
    requires t >= |Handed(ops)|
    ensures Accepted(ops, t) == [] && Received(ops, t) == 0
  {
    if ops != [] {
      NoQueueYet(ops[..|ops| - 1], t);
    }
  }

  lemma {:induction false} NextQueues(tr: Trace, front: seq<Op>, op: Op)
    requires HubInv(tr.hub) && IsHistory(tr, front) && Queued(tr)
    ensures QueuesAre(Apply(tr, op), front + [op])
  {
    var tr' := Apply(tr, op);
    QueuesGrow(tr, op);
    forall t: nat | t < |tr'.hub.links|
      ensures Received(front + [op], t) <= |Accepted(front + [op], t)|
      ensures tr'.accepted[t] == Accepted(front + [op], t)
      ensures tr'.taken[t] == Accepted(front + [op], t)[..Received(front + [op], t)]
    {
      if t < |tr.hub.links| {
        NextQueue(tr, front, op, t);
      } else {
        NoQueueYet(front, t);
        QueueNext(front, op, t);
      }
      hide Apply, Accepted, Received, Handed, RevocationsAre, SlotsAre, Queued;
    }
    hide Apply, Accepted, Received, IsHistory, Queued, HubInv;
  }

  lemma QueuesGrow(tr: Trace, op: Op)
    requires |tr.accepted| == |tr.taken| == |tr.hub.links|
    ensures
      var tr' := Apply(tr, op);
      && |tr'.accepted| == |tr'.taken| == |tr'.hub.links|
      && forall t: nat | |tr.hub.links| <= t < |tr'.hub.links| :: tr'.accepted[t] == tr'.taken[t] == []
  {
    hide Blocked;
  }

  /** What a call adds to the two queues of a link, by the tables. */
  lemma NextAccepted(tr: Trace, op: Op, t: nat)
    requires HubInv(tr.hub) && |tr.accepted| == |tr.taken| == |tr.hub.links| && t < |tr.hub.links|
    ensures
      var tr' := Apply(tr, op);
      && t < |tr'.accepted| && t < |tr'.taken|
      && tr'.accepted[t] == (if && op.DoSend? && op.id == tr.hub.links[t].id && Attached(tr.hub, t)
                                && !tr.hub.links[t].closed && |tr.hub.links[t].buffer| < CAPACITY
                             then tr.accepted[t] + [op.message] else tr.accepted[t])
      && tr'.taken[t] == (if op == DoTake(t) && tr.hub.links[t].buffer != []
                          then tr.taken[t] + [tr.hub.links[t].buffer[0]] else tr.taken[t])
  {
    hide Reserve, Activate, Detach, Cancel, Revoke, Release;
    if op.DoReserve? { QueuesGrow(tr, op); }
  }

  lemma {:induction false} NextQueue(tr: Trace, front: seq<Op>, op: Op, t: nat)
    requires HubInv(tr.hub) && IsHistory(tr, front) && Queued(tr) && t < |tr.hub.links|
    ensures
      var tr' := Apply(tr, op);
      && t < |tr'.accepted| && t < |tr'.taken|
      && Received(front + [op], t) <= |Accepted(front + [op], t)|
      && tr'.accepted[t] == Accepted(front + [op], t)
      && tr'.taken[t] == Accepted(front + [op], t)[..Received(front + [op], t)]
  {
    QueueNext(front, op, t);
    NextAccepted(tr, op, t);
    hide Apply, HubInv, Handed, Held, Blocked, Waits, Holds, Open, Accepted, Received, RevocationsAre;
    var link := tr.hub.links[t];
    Split(Accepted(front, t), Received(front, t), tr.taken[t], link.buffer, if op.DoSend? then op.message else NONE);
    assert Attached(tr.hub, t) <==> Holds(front, t);
    assert link.closed == !Open(front, t) && forall id :: Of(front, t, id) <==> id == link.id;
    hide SlotsAre, Queued, LinksAre, Attached, Of;
  }

  const NONE := Message(0, "", "")

  lemma {:induction false} Split(all: seq<Message>, n: nat, taken: seq<Message>, buffer: seq<Message>, m: Message)
    requires n <= |all| && taken == all[..n] && taken + buffer == all
    ensures |buffer| == |all| - n && (all + [m])[..n] == taken
    ensures n < |all| ==> taken + [buffer[0]] == all[..n + 1]
  {
    if n < |all| { assert all[..n + 1] == all[..n] + [all[n]] && all[n] == buffer[0]; }
  }

  // ---- over whole runs ----

  /** After any calls, the hub is what its history says: which reservations wait, which link holds each slot, which
      links are open, what each queue holds, and which revocations are unreleased. */
  lemma {:induction false} RunIsHistory(ops: seq<Op>)
    ensures IsHistory(Run(START, ops), ops)
  {
    hide *;
    if ops == [] {
      StartIsHistory(ops);
    } else {
      var front, op := ops[..|ops| - 1], ops[|ops| - 1];
      RunIsHistory(front);
      RunTraceInv(front);
      NextIsHistory(Run(START, front), front, op);
      RunLast(ops);
    }
  }

  lemma {:induction false} RunTraceInv(ops: seq<Op>)
    ensures HubInv(Run(START, ops).hub) && Queued(Run(START, ops))
  {
    RunKeeps(ops);
    hide HubInv, Queued, Balanced, Run;
  }

  lemma {:induction false} RunLast(ops: seq<Op>)
    requires ops != []
    ensures Run(START, ops) == Apply(Run(START, ops[..|ops| - 1]), ops[|ops| - 1])
    ensures ops[..|ops| - 1] + [ops[|ops| - 1]] == ops
  {
    hide Apply;
  }

  lemma {:induction false} StartIsHistory(ops: seq<Op>)
    requires ops == []
    ensures IsHistory(Run(START, ops), ops)
  {
  }

  lemma {:induction false} NextIsHistory(tr: Trace, front: seq<Op>, op: Op)
    requires HubInv(tr.hub) && IsHistory(tr, front) && Queued(tr)
    ensures IsHistory(Apply(tr, op), front + [op])
  {
    hide HubInv, Queued, Apply, Handed, Waits, Holds, Open, Accepted, Received, Attached;
    NextRevocations(tr, front, op);
    NextHanded(tr, front, op);
    NextOpen(tr, front, op);
    NextQueues(tr, front, op);
    forall t: nat
      ensures t in Apply(tr, op).hub.waiting <==> Waits(front + [op], t)
      ensures Attached(Apply(tr, op).hub, t) <==> Holds(front + [op], t)
    {
      NextWaits(tr, front, op, t);
      NextHolds(tr, front, op, t);
      hide *;
    }
    hide RevocationsAre, QueuesAre;
  }

  /** The slot of `id` holds an open link. */
  predicate Connected(ops: seq<Op>, id: Id, t: nat) {
    Of(ops, t, id) && Holds(ops, t) && Open(ops, t)
  }

  /** What the next caller is told, after any calls. */
  lemma {:induction false} AnswersFollow(ops: seq<Op>, id: Id, t: nat, message: Message)
    ensures
      var h := Run(START, ops).hub;
      && Reserve(h, id).1 == (if Held(ops, id) then None else Some(|Handed(ops)|))
      && |h.links| == |Handed(ops)|
      && (t < |h.links| ==> (Activate(h, t).1 <==> Waits(ops, t)) && (Detach(h, t).1 <==> Holds(ops, t)))
      && (Blocked(h, id) <==> Held(ops, id))
    ensures Online(Run(START, ops).hub, id) <==> exists u: nat :: Connected(ops, id, u)
    ensures Send(Run(START, ops).hub, id, message).1 <==>
        exists u: nat :: Connected(ops, id, u) && |Accepted(ops, u)| - Received(ops, u) < CAPACITY
  {
    var tr := Run(START, ops);
    RunIsHistory(ops);
    RunKeeps(ops);
    hide Run, Balanced;
    HeldIsBlocked(tr.hub, ops, id);
    if t < |tr.hub.links| { ActivateIff(tr.hub, t); }
    hide Blocked, Held, Handed, Waits, Holds, Open, Accepted, Received, RevocationsAre;
    OnlineIs(tr, ops, id);
    SendIs(tr, ops, id, message);
    hide Online, Send, Connected, LinksAre, QueuesAre, Queued, HubInv;
  }

  lemma {:induction false} OnlineIs(tr: Trace, ops: seq<Op>, id: Id)
    requires HubInv(tr.hub) && LinksAre(tr.hub, ops) && SlotsAre(tr.hub, ops)
    ensures Online(tr.hub, id) <==> exists u: nat :: Connected(ops, id, u)
    ensures Online(tr.hub, id) ==> Connected(ops, id, tr.hub.connections[id])
    ensures forall u: nat | Connected(ops, id, u) :: id in tr.hub.connections && tr.hub.connections[id] == u
  {
    hide Handed, Holds, Open, Waits;
    if Online(tr.hub, id) {
      assert Attached(tr.hub, tr.hub.connections[id]);
      assert Connected(ops, id, tr.hub.connections[id]);
    }
    forall u: nat | Connected(ops, id, u)
      ensures id in tr.hub.connections && tr.hub.connections[id] == u && Online(tr.hub, id)
    {
      assert Attached(tr.hub, u) && !tr.hub.links[u].closed;
    }
  }

  lemma {:induction false} SendIs(tr: Trace, ops: seq<Op>, id: Id, message: Message)
    requires HubInv(tr.hub) && Queued(tr) && LinksAre(tr.hub, ops) && SlotsAre(tr.hub, ops) && QueuesAre(tr, ops)
    ensures Send(tr.hub, id, message).1 <==>
        exists u: nat :: Connected(ops, id, u) && |Accepted(ops, u)| - Received(ops, u) < CAPACITY
  {
    OnlineIs(tr, ops, id);
    hide Connected, HubInv, Accepted, Received, LinksAre, SlotsAre;
    forall u: nat | Online(tr.hub, id) && u == tr.hub.connections[id]
      ensures Send(tr.hub, id, message).1 <==> |Accepted(ops, u)| - Received(ops, u) < CAPACITY
    {
      assert tr.taken[u] + tr.hub.links[u].buffer == tr.accepted[u];
    }
    assert !Online(tr.hub, id) ==> !Send(tr.hub, id, message).1;
    hide Send, QueuesAre, Queued;
    if Send(tr.hub, id, message).1 {
      assert Connected(ops, id, tr.hub.connections[id]);
    }
    forall u: nat | Connected(ops, id, u) && |Accepted(ops, u)| - Received(ops, u) < CAPACITY
      ensures Send(tr.hub, id, message).1
    {
      assert u == tr.hub.connections[id];
    }
  }

  /** After any calls, a detachment ends an attached period if and only if the slot of the link's identity holds it,
      and then the link is closed; afterwards no slot holds it. */
  lemma {:induction false} DetachFrees(ops: seq<Op>, t: nat)
    requires t < |Run(START, ops).hub.links|
    ensures
      var tr, tr' := Run(START, ops), Run(START, ops + [DoDetach(t)]);
      var id, slots := tr.hub.links[t].id, tr.hub.connections;
      && tr'.outcomes == tr.outcomes + (if id in slots && slots[id] == t then [Outcome(Detached, id, t)] else [])
      && (forall i | i in tr'.hub.connections :: tr'.hub.connections[i] != t)
      && (forall i | i in slots && slots[i] != t :: i in tr'.hub.connections && tr'.hub.connections[i] == slots[i])
      && t < |tr'.hub.links| && (id in slots && slots[id] == t ==> tr'.hub.links[t].closed)
  {
    assert (ops + [DoDetach(t)])[..|ops|] == ops;
    RunKeeps(ops);
    hide Queued, Balanced;
  }
}
