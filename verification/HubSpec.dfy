/** The connection hub as a value: what each critical section does, free of the nested maps and counters of the code.
    A link is a reservation together with the one connection made with it; its index is its identity. */
module HubSpec {
  import opened Prelude
  import opened Records

  const CAPACITY := 16

  datatype Link = Link(id: Id, canceled: bool, closed: bool, buffer: seq<Message>)

  /** One call of Revoke; `released` tells whether the closure it returned has run. */
  datatype Revocation = Revocation(id: Id, released: bool)

  /** `waiting` holds the reservations neither activated nor canceled; `connections` the attached link of an
      identity. */
  datatype HubState = HubState(
    links: seq<Link>,
    waiting: set<nat>,
    connections: map<Id, nat>,
    revocations: seq<Revocation>)

  const EMPTY := HubState([], {}, map[], [])

  predicate Blocked(h: HubState, id: Id) {
    exists k | 0 <= k < |h.revocations| :: h.revocations[k] == Revocation(id, false)
  }

  predicate Attached(h: HubState, t: nat) {
    t < |h.links| && h.links[t].id in h.connections && h.connections[h.links[t].id] == t
  }

  predicate Online(h: HubState, id: Id) {
    id in h.connections && h.connections[id] < |h.links| && !h.links[h.connections[id]].closed
  }

  // ---- the critical sections ----

  function CloseLink(h: HubState, t: nat): HubState {
    if t < |h.links| then h.(links := h.links[t := h.links[t].(closed := true)]) else h
  }

  function Reserve(h: HubState, id: Id): (HubState, Option<nat>) {
    if Blocked(h, id) then (h, None)
    else (h.(links := h.links + [Link(id, false, false, [])], waiting := h.waiting + {|h.links|}), Some(|h.links|))
  }

  function Activate(h: HubState, t: nat): (HubState, bool)
    requires t < |h.links|
  {
    var id := h.links[t].id;
    var h1 := h.(waiting := h.waiting - {t});
    if t !in h.waiting || h.links[t].canceled || Blocked(h, id) then (CloseLink(h1, t), false)
    else
      var h2 := if id in h1.connections then CloseLink(h1, h1.connections[id]) else h1;
      (h2.(connections := h2.connections[id := t]), true)
  }

  function Detach(h: HubState, t: nat): (HubState, bool)
    requires t < |h.links|
  {
    if Attached(h, t) then (CloseLink(h.(connections := h.connections - {h.links[t].id}), t), true)
    else (h, false)
  }

  function Cancel(h: HubState, t: nat): HubState
    requires t < |h.links|
  {
    h.(waiting := h.waiting - {t}, links := h.links[t := h.links[t].(canceled := true, closed := true)])
  }

  function CancelAll(links: seq<Link>, victims: set<nat>): (r: seq<Link>)
    ensures |r| == |links|
    ensures forall t | 0 <= t < |links| ::
      r[t] == if t in victims then links[t].(canceled := true, closed := true) else links[t]
  {
    seq(|links|, t requires 0 <= t < |links| =>
      if t in victims then links[t].(canceled := true, closed := true) else links[t])
  }

  function Waiting(h: HubState, id: Id): set<nat> {
    set t | t in h.waiting && t < |h.links| && h.links[t].id == id
  }

  function Revoke(h: HubState, id: Id): (HubState, nat) {
    var victims := Waiting(h, id);
    var h1 := h.(links := CancelAll(h.links, victims), waiting := h.waiting - victims,
                 revocations := h.revocations + [Revocation(id, false)]);
    var h2 := if id in h1.connections
              then CloseLink(h1.(connections := h1.connections - {id}), h1.connections[id]) else h1;
    (h2, |h.revocations|)
  }

  function Release(h: HubState, k: nat): HubState
    requires k < |h.revocations|
  {
    h.(revocations := h.revocations[k := h.revocations[k].(released := true)])
  }

  function Send(h: HubState, id: Id, message: Message): (HubState, bool) {
    if !Online(h, id) then (h, false)
    else
      var t := h.connections[id];
      if |h.links[t].buffer| < CAPACITY
      then (h.(links := h.links[t := h.links[t].(buffer := h.links[t].buffer + [message])]), true)
      else (CloseLink(h, t), false)
  }

  /** The stream handler receives from the outbound channel; a closed channel still yields what it buffered. */
  function Take(h: HubState, t: nat): HubState
    requires t < |h.links| && h.links[t].buffer != []
  {
    h.(links := h.links[t := h.links[t].(buffer := h.links[t].buffer[1..])])
  }

  // ---- ownership ----

  /** Who may hold an open connection: exactly one waiting reservation, or the slot of its own identity. */
  ghost predicate HubInv(h: HubState) {
    && (forall t | t in h.waiting ::
          t < |h.links| && !h.links[t].canceled && !h.links[t].closed && h.links[t].buffer == [])
    && (forall id | id in h.connections ::
          h.connections[id] < |h.links| && h.links[h.connections[id]].id == id && h.connections[id] !in h.waiting)
    && (forall t: nat | t < |h.links| && !h.links[t].closed :: t in h.waiting || Attached(h, t))
    && (forall t: nat | t < |h.links| :: |h.links[t].buffer| <= CAPACITY)
    && (forall k: nat | k < |h.revocations| && !h.revocations[k].released ::
          && h.revocations[k].id !in h.connections
          && (forall t | t in h.waiting && t < |h.links| :: h.links[t].id != h.revocations[k].id))
  }

  lemma EmptyOwned()
    ensures HubInv(EMPTY)
  {
  }

  lemma ReserveOwned(h: HubState, id: Id)
    requires HubInv(h)
    ensures HubInv(Reserve(h, id).0)
  {
  }

  /** Closing a link that leaves the waiting set, whether or not it was in it. */
  lemma DropOwned(h: HubState, t: nat)
    requires HubInv(h) && t < |h.links|
    ensures HubInv(CloseLink(h.(waiting := h.waiting - {t}), t))
  {
  }

  lemma AttachOwned(h: HubState, t: nat)
    requires HubInv(h) && t in h.waiting && !Blocked(h, h.links[t].id)
    ensures HubInv(Activate(h, t).0)
  {
    var h', id := Activate(h, t).0, h.links[t].id;
    assert forall u: nat | u < |h.links| ::
      h'.links[u] == if id in h.connections && u == h.connections[id] then h.links[u].(closed := true) else h.links[u];
    assert forall u: nat | u < |h.links| && h.links[u].id != id :: Attached(h', u) == Attached(h, u);
  }

  lemma ActivateOwned(h: HubState, t: nat)
    requires HubInv(h) && t < |h.links|
    ensures HubInv(Activate(h, t).0)
  {
    if Activate(h, t).1 {
      AttachOwned(h, t);
    } else {
      DropOwned(h, t);
    }
  }

  lemma DetachOwned(h: HubState, t: nat)
    requires HubInv(h) && t < |h.links|
    ensures HubInv(Detach(h, t).0)
  {
  }

  lemma CancelOwned(h: HubState, t: nat)
    requires HubInv(h) && t < |h.links|
    ensures HubInv(Cancel(h, t))
  {
  }

  lemma RevokeOwned(h: HubState, id: Id)
    requires HubInv(h)
    ensures HubInv(Revoke(h, id).0)
    ensures Blocked(Revoke(h, id).0, id)
  {
    var h' := Revoke(h, id).0;
    assert h'.revocations[|h.revocations|] == Revocation(id, false);
  }

  lemma ReleaseOwned(h: HubState, k: nat)
    requires HubInv(h) && k < |h.revocations|
    ensures HubInv(Release(h, k))
  {
  }

  lemma SendOwned(h: HubState, id: Id, message: Message)
    requires HubInv(h)
    ensures HubInv(Send(h, id, message).0)
  {
  }

  lemma TakeOwned(h: HubState, t: nat)
    requires HubInv(h) && t < |h.links| && h.links[t].buffer != []
    ensures HubInv(Take(h, t))
  {
  }
}
