/** The connection hub as the code keeps it: maps and counters updated in place under one mutex, one method per critical
    section. Reservations and their connections are the rows of `links`; a pointer to one is its index. */
module Hub {
  import opened Prelude
  import opened Records
  import Spec = HubSpec

  /** The two Go channels of a connection. Closing one twice, or sending on a closed one, panics. */
  datatype Channels = Channels(messagesClosed: bool, doneClosed: bool)

  // ---- the counter of unreleased revocations ----

  ghost function Unreleased(revocations: seq<Spec.Revocation>, id: Id): nat {
    if revocations == [] then 0
    else
      var n := |revocations| - 1;
      Unreleased(revocations[..n], id) + if revocations[n] == Spec.Revocation(id, false) then 1 else 0
  }

  lemma {:induction false} UnreleasedMeansBlocked(revocations: seq<Spec.Revocation>, id: Id)
    ensures Unreleased(revocations, id) > 0 <==>
        exists k | 0 <= k < |revocations| :: revocations[k] == Spec.Revocation(id, false)
  {
    if revocations != [] {
      var n := |revocations| - 1;
      UnreleasedMeansBlocked(revocations[..n], id);
      forall k | 0 <= k < n ensures revocations[..n][k] == revocations[k] {}
    }
  }

  lemma UnreleasedAfterRevoke(revocations: seq<Spec.Revocation>, r: Id, id: Id)
    ensures Unreleased(revocations + [Spec.Revocation(r, false)], id) ==
        Unreleased(revocations, id) + if r == id then 1 else 0
  {
  }

  lemma {:induction false} UnreleasedAfterRelease(revocations: seq<Spec.Revocation>, k: nat, id: Id)
    requires k < |revocations| && !revocations[k].released
    ensures Unreleased(revocations[k := revocations[k].(released := true)], id)
         == Unreleased(revocations, id) - if revocations[k].id == id then 1 else 0
  {
    var n := |revocations| - 1;
    var updated := revocations[k := revocations[k].(released := true)];
    if k == n {
      assert updated[..n] == revocations[..n];
    } else {
      assert updated[..n] == revocations[..n][k := revocations[..n][k].(released := true)];
      UnreleasedAfterRelease(revocations[..n], k, id);
    }
  }

  /** The block counter of an identity is the number of its unreleased revocations, and is kept only while positive. */
  ghost predicate CountsAgree(blocked: map<Id, int>, revocations: seq<Spec.Revocation>) {
    && (forall id | id in blocked :: blocked[id] > 0)
    && (forall id :: (if id in blocked then blocked[id] else 0) == Unreleased(revocations, id))
  }

  // ---- reservations by identity ----

  /** `pending` mentions only waiting reservations, each under its own identity, and keeps no empty inner set. */
  ghost predicate PendingAgrees(pending: map<Id, set<nat>>, links: seq<Spec.Link>, waiting: set<nat>) {
    && (forall id | id in pending :: pending[id] != {})
    && (forall id, t: nat {:trigger t in pending[id]} | id in pending && t in pending[id] ::
         t < |links| && links[t].id == id && t in waiting)
    && (forall t: nat | t in waiting :: t < |links| && links[t].id in pending && t in pending[links[t].id])
  }

  function Without(pending: map<Id, set<nat>>, id: Id, t: nat): map<Id, set<nat>> {
    if id !in pending then pending
    else if pending[id] - {t} == {} then pending - {id}
    else pending[id := pending[id] - {t}]
  }

  lemma WithoutAgrees(pending: map<Id, set<nat>>, links: seq<Spec.Link>, waiting: set<nat>, t: nat)
    requires PendingAgrees(pending, links, waiting) && t < |links|
    ensures PendingAgrees(Without(pending, links[t].id, t), links, waiting - {t})
  {
  }

  lemma JoinedAgrees(pending: map<Id, set<nat>>, links: seq<Spec.Link>, waiting: set<nat>, id: Id)
    requires PendingAgrees(pending, links, waiting)
    ensures
      var t := |links|;
      var before := if id in pending then pending[id] else {};
      PendingAgrees(pending[id := before + {t}], links + [Spec.Link(id, false, false, [])], waiting + {t})
  {
  }

  /** Revoke drops the whole inner set of one identity. */
  lemma DroppedAgrees(pending: map<Id, set<nat>>, links: seq<Spec.Link>, waiting: set<nat>, id: Id, dropped: set<nat>)
    requires PendingAgrees(pending, links, waiting)
    requires dropped == set t | t in waiting && t < |links| && links[t].id == id
    ensures dropped == if id in pending then pending[id] else {}
    ensures PendingAgrees(pending - {id}, links, waiting - dropped)
  {
  }

  lemma RelinkedAgrees(pending: map<Id, set<nat>>, links: seq<Spec.Link>, links': seq<Spec.Link>, waiting: set<nat>)
    requires PendingAgrees(pending, links, waiting) && |links| <= |links'|
    requires forall t: nat | t < |links| :: links'[t].id == links[t].id
    ensures PendingAgrees(pending, links', waiting)
  {
  }

  class Hub {
    var links: seq<Spec.Link>
    var channels: seq<Channels>
    var connections: map<Id, nat>
    var pending: map<Id, set<nat>>
    var blocked: map<Id, int>
    var revocations: seq<Spec.Revocation>   // one sync.Once per closure that Revoke returned
    ghost var waiting: set<nat>

    ghost function View(): Spec.HubState
      reads this
    {
      Spec.HubState(links, waiting, connections, revocations)
    }

    ghost predicate ChannelsAgree()
      reads this
    {
      && |channels| == |links|
      && forall t: nat | t < |links| :: channels[t] == Channels(links[t].closed, links[t].closed)
    }

    ghost predicate Valid()
      reads this
    {
      && ChannelsAgree()
      && (forall id | id in connections :: connections[id] < |links|)
      && PendingAgrees(pending, links, waiting)
      && CountsAgree(blocked, revocations)
    }

    constructor ()
      ensures Valid() && View() == Spec.EMPTY
    {
      links, channels, connections, pending, blocked := [], [], map[], map[], map[];
      revocations, waiting := [], {};
    }

    method IsBlocked(id: Id) returns (b: bool)
      requires Valid()
      ensures b <==> Spec.Blocked(View(), id)
    {
      UnreleasedMeansBlocked(revocations, id);
      b := id in blocked && blocked[id] > 0;
    }

    // ---- Go's channel primitives, with the panics as preconditions ----

    method CloseDone(t: nat)
      requires t < |channels| && !channels[t].doneClosed
      modifies this`channels
      ensures channels == old(channels)[t := old(channels)[t].(doneClosed := true)]
    {
      channels := channels[t := channels[t].(doneClosed := true)];
    }

    method CloseMessages(t: nat)
      requires t < |channels| && !channels[t].messagesClosed
      modifies this`channels
      ensures channels == old(channels)[t := old(channels)[t].(messagesClosed := true)]
    {
      channels := channels[t := channels[t].(messagesClosed := true)];
    }

    /** A channel send inside a select with a default branch. */
    method TrySend(t: nat, message: Message) returns (sent: bool)
      requires t < |links| && t < |channels| && !channels[t].messagesClosed
      modifies this`links
      ensures sent == (|old(links)[t].buffer| < Spec.CAPACITY)
      ensures links == if sent then old(links)[t := old(links)[t].(buffer := old(links)[t].buffer + [message])]
          else old(links)
    {
      sent := |links[t].buffer| < Spec.CAPACITY;
      if sent {
        links := links[t := links[t].(buffer := links[t].buffer + [message])];
      }
    }

    /** closeConnection: once per connection, whoever gets there first. */
    method CloseConnection(t: nat)
      requires ChannelsAgree() && t < |links|
      modifies this`channels, this`links
      ensures ChannelsAgree()
      ensures links == old(links)[t := old(links)[t].(closed := true)]
    {
      if !links[t].closed {
        CloseDone(t);
        CloseMessages(t);
        links := links[t := links[t].(closed := true)];
      }
    }

    /** What Activate and Cancel share: leave the inner set, and drop it when it becomes empty. */
    method Forget(t: nat)
      requires t < |links| && PendingAgrees(pending, links, waiting)
      modifies this`pending, this`waiting
      ensures waiting == old(waiting) - {t}
      ensures PendingAgrees(pending, links, waiting)
    {
      WithoutAgrees(pending, links, waiting, t);
      var id := links[t].id;
      if id in pending {
        var rest := pending[id] - {t};
        pending := pending[id := rest];
        if rest == {} {
          pending := pending - {id};
        }
      }
      waiting := waiting - {t};
      assert pending == Without(old(pending), id, t);
    }

    // ---- the critical sections ----

    method Reserve(id: Id) returns (reservation: Option<nat>)
      requires Valid()
      modifies this
      ensures Valid()
      ensures (View(), reservation) == Spec.Reserve(old(View()), id)
    {
      var refused := IsBlocked(id);
      if refused {
        return None;
      }
      Enlist(id);
      return Some(|links| - 1);
    }

    method Enlist(id: Id)
      requires Valid()
      modifies this`links, this`channels, this`pending, this`waiting
      ensures Valid()
      ensures links == old(links) + [Spec.Link(id, false, false, [])] && waiting == old(waiting) + {|old(links)|}
    {
      JoinedAgrees(pending, links, waiting, id);
      var t := |links|;
      links := links + [Spec.Link(id, false, false, [])];
      channels := channels + [Channels(false, false)];
      if id !in pending {
        pending := pending[id := {}];
      }
      pending := pending[id := pending[id] + {t}];
      waiting := waiting + {t};
    }

    method Activate(t: nat) returns (attached: bool)
      requires Valid() && t < |links|
      modifies this
      ensures Valid()
      ensures (View(), attached) == Spec.Activate(old(View()), t)
    {
      var id := links[t].id;
      var found := id in pending && t in pending[id];
      assert found <==> t in waiting;
      var refused := IsBlocked(id);
      Forget(t);
      attached := found && !links[t].canceled && !refused;
      if attached {
        Attach(id, t);
      } else {
        CloseConnection(t);
        RelinkedAgrees(pending, old(links), links, waiting);
      }
    }

    /** Close the connection being replaced, if any, and take its slot. */
    method Attach(id: Id, t: nat)
      requires Valid() && t < |links|
      modifies this`connections, this`links, this`channels
      ensures Valid()
      ensures
        var h := old(View());
        var h' := if id in h.connections then Spec.CloseLink(h, h.connections[id]) else h;
        View() == h'.(connections := h'.connections[id := t])
    {
      if id in connections {
        CloseConnection(connections[id]);
        RelinkedAgrees(pending, old(links), links, waiting);
      }
      connections := connections[id := t];
    }

    /** The closure that Activate returned. */
    method Detach(t: nat) returns (mine: bool)
      requires Valid() && t < |links|
      modifies this
      ensures Valid()
      ensures mine <==> old(links)[t].id in old(connections) && old(connections)[old(links)[t].id] == t
      ensures mine ==> connections == old(connections) - {old(links)[t].id} && t < |links| && links[t].closed
      ensures !mine ==> View() == old(View())
      ensures (View(), mine) == Spec.Detach(old(View()), t)
    {
      var id := links[t].id;
      if id in connections && connections[id] == t {
        connections := connections - {id};
        CloseConnection(t);
        RelinkedAgrees(pending, old(links), links, waiting);
        return true;
      }
      return false;
    }

    method Cancel(t: nat)
      requires Valid() && t < |links|
      modifies this
      ensures Valid()
      ensures View() == Spec.Cancel(old(View()), t)
    {
      Forget(t);
      links := links[t := links[t].(canceled := true)];
      CloseConnection(t);
      RelinkedAgrees(pending, old(links), links, waiting);
    }

    method Revoke(id: Id) returns (release: nat)
      requires Valid()
      modifies this
      ensures Valid()
      ensures (View(), release) == Spec.Revoke(old(View()), id)
    {
      BumpBlock(id);
      DropPending(id);
      DropConnection(id);
      release := |revocations| - 1;
    }

    method DropPending(id: Id)
      requires Valid()
      modifies this`pending, this`waiting, this`links, this`channels
      ensures Valid()
      ensures
        var victims := Spec.Waiting(old(View()), id);
        links == Spec.CancelAll(old(links), victims) && waiting == old(waiting) - victims
    {
      ghost var victims := Spec.Waiting(View(), id);
      DroppedAgrees(pending, links, waiting, id, victims);
      if id in pending {
        CancelPending(id);
      } else {
        assert links == Spec.CancelAll(links, victims);
      }
      RelinkedAgrees(pending - {id}, old(links), links, waiting - victims);
      pending := pending - {id};
      waiting := waiting - victims;
    }

    method DropConnection(id: Id)
      requires Valid()
      modifies this`connections, this`links, this`channels
      ensures Valid()
      ensures View() == if id in old(connections)
        then Spec.CloseLink(old(View()).(connections := old(connections) - {id}), old(connections)[id]) else old(View())
    {
      if id in connections {
        var current := connections[id];
        connections := connections - {id};
        CloseConnection(current);
        RelinkedAgrees(pending, old(links), links, waiting);
      }
    }

    /** h.blocked[id]++, together with the once-flag of the closure about to be returned. */
    method BumpBlock(id: Id)
      requires CountsAgree(blocked, revocations)
      modifies this`blocked, this`revocations
      ensures CountsAgree(blocked, revocations)
      ensures revocations == old(revocations) + [Spec.Revocation(id, false)]
    {
      blocked := blocked[id := (if id in blocked then blocked[id] else 0) + 1];
      revocations := revocations + [Spec.Revocation(id, false)];
      forall i
        ensures Unreleased(revocations, i) == Unreleased(old(revocations), i) + if id == i then 1 else 0
      {
        UnreleasedAfterRevoke(old(revocations), id, i);
      }
    }

    /** The loop of Revoke: mark every pending reservation of `id` canceled and close its connection, in any order. */
    method CancelPending(id: Id)
      requires ChannelsAgree() && PendingAgrees(pending, links, waiting) && id in pending
      modifies this`links, this`channels
      ensures ChannelsAgree()
      ensures links == Spec.CancelAll(old(links), pending[id])
    {
      var todo := pending[id];
      while todo != {}
        invariant todo <= pending[id]
        invariant ChannelsAgree()
        invariant links == Spec.CancelAll(old(links), pending[id] - todo)
        decreases todo
      {
        var t :| t in todo;
        todo := todo - {t};
        links := links[t := links[t].(canceled := true)];
        CloseConnection(t);
      }
    }

    /** The closure that Revoke returned; sync.Once makes a second call do nothing. */
    method Release(k: nat)
      requires Valid() && k < |revocations|
      modifies this
      ensures Valid()
      ensures View() == Spec.Release(old(View()), k)
    {
      if !revocations[k].released {
        var id := revocations[k].id;
        UnreleasedMeansBlocked(revocations, id);
        assert revocations[k] == Spec.Revocation(id, false);
        revocations := revocations[k := revocations[k].(released := true)];
        blocked := blocked[id := (if id in blocked then blocked[id] else 0) - 1];
        if blocked[id] == 0 {
          blocked := blocked - {id};
        }
        forall i
          ensures Unreleased(revocations, i) == Unreleased(old(revocations), i) - if id == i then 1 else 0
        {
          UnreleasedAfterRelease(old(revocations), k, i);
        }
      }
    }

    method Send(id: Id, message: Message) returns (sent: bool)
      requires Valid()
      modifies this
      ensures Valid()
      ensures !sent && id in connections ==> links[connections[id]].closed
      ensures (View(), sent) == Spec.Send(old(View()), id, message)
    {
      if id !in connections || links[connections[id]].closed {
        return false;
      }
      sent := TrySend(connections[id], message);
      if !sent {
        CloseConnection(connections[id]);
      }
      RelinkedAgrees(pending, old(links), links, waiting);
    }

    method Online(id: Id) returns (online: bool)
      requires Valid()
      ensures online == Spec.Online(View(), id)
    {
      online := id in connections && !links[connections[id]].closed;
    }

    /** The guard of IfNotRevoked: whether the action runs. */
    method MayAct(id: Id) returns (ok: bool)
      requires Valid()
      ensures ok == !Spec.Blocked(View(), id)
    {
      var b := IsBlocked(id);
      ok := !b;
    }

    /** The guard of IfOnline. */
    method MayActOnline(id: Id) returns (ok: bool)
      requires Valid()
      ensures ok == (!Spec.Blocked(View(), id) && Spec.Online(View(), id))
    {
      var b := IsBlocked(id);
      ok := !(b || id !in connections || links[connections[id]].closed);
    }
  }
}
