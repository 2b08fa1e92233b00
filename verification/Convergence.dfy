/** When the agent has consumed its stream: exactly which updates it ends up with. */
module Convergence {
  import opened Prelude
  import opened Records
  import opened AgentState
  import opened Control
  import opened ControlSafety
  import opened Agreement
  import Hub = HubSpec
  import Finality

  predicate AnnouncedKind(kind: EventKind) {
    kind.StatusReported? || kind.TrafficUpdated?
  }

  /** A Connect handler before its first send. */
  predicate Early(pc: PC) {
    match pc
    case Reserving => true
    case Loading => true
    case Activating => true
    case Snapshotting => true
    case Entering(kind) => kind.Connected?
    case Checking(kind) => kind.Connected?
    case Appending(kind) => kind.Connected?
    case Leaving(kind, ok) => kind.Connected?
    case _ => false
  }

  /** A Connect handler in its receive loop. */
  predicate Looping(pc: PC) {
    match pc
    case Serving => true
    case Entering(kind) => AnnouncedKind(kind)
    case Checking(kind) => AnnouncedKind(kind)
    case Appending(kind) => AnnouncedKind(kind)
    case Leaving(kind, ok) => AnnouncedKind(kind)
    case _ => false
  }

  /** It has a reservation and has not begun to leave. */
  predicate Live(pc: PC) {
    (Early(pc) && !pc.Reserving?) || Looping(pc)
  }

  /** What such a handler has sent is its snapshot and messages its own link accepted; what the link accepted is
      sent or buffered. */
  ghost predicate StreamOk(s: Sys, th: Thread) {
    && (Early(th.pc) ==> th.wire == [])
    && (Live(th.pc) ==>
          && th.token < |s.hub.links|
          && (forall m | (th.token, m) in s.accepted :: m in s.hub.links[th.token].buffer || m in th.wire)
          && (forall m | m in th.wire :: m == Snapshot(th.snap) || (th.token, m) in s.accepted))
    && (Looping(th.pc) && th.snap.desiredGeneration > 0 ==> Snapshot(th.snap) in th.wire)
  }

  ghost predicate Flow(s: Sys) {
    && (forall p | p in s.accepted :: p.0 < |s.hub.links|)
    && (forall t: nat | t < |s.hub.links| :: forall m | m in s.hub.links[t].buffer :: (t, m) in s.accepted)
    && (forall tid: nat | tid < |s.threads| :: StreamOk(s, s.threads[tid]))
    && (forall i: nat, j: nat | i < j < |s.threads| && Live(s.threads[i].pc) && Live(s.threads[j].pc) ::
          s.threads[i].token != s.threads[j].token)
  }

  // ---- one handler moves, buffers and acceptances stay ----

  ghost predicate SameFlow(s: Sys, s': Sys) {
    s'.accepted == s.accepted && SameBuffers(s.hub, s'.hub)
  }

  lemma OtherFlows(s: Sys, s': Sys, th: Thread)
    requires Flow(s) && SameFlow(s, s') && StreamOk(s, th)
    ensures StreamOk(s', th)
  {
  }

  lemma StepFlows(s: Sys, s': Sys, tid: nat)
    requires Flow(s) && OneMoves(s, s', tid) && SameFlow(s, s') && StreamOk(s', s'.threads[tid])
    requires Live(s'.threads[tid].pc) ==>
      (Live(s.threads[tid].pc) && s'.threads[tid].token == s.threads[tid].token) ||
          s'.threads[tid].token == |s.hub.links|
    ensures Flow(s')
  {
    forall i: nat | i < |s'.threads|
      ensures StreamOk(s', s'.threads[i])
      ensures i != tid && Live(s.threads[i].pc) && Live(s'.threads[tid].pc) ==>
          s.threads[i].token != s'.threads[tid].token
    {
      if i != tid {
        assert StreamOk(s, s.threads[i]);
        OtherFlows(s, s', s.threads[i]);
      }
    }
    forall t: nat, m | t < |s'.hub.links| && m in s'.hub.links[t].buffer ensures (t, m) in s'.accepted {
      if t < |s.hub.links| { assert m in s.hub.links[t].buffer; }
    }
  }

  /** The handler only moves to a later place of its own kind, or out of the stream. */
  lemma MoveFlows(s: Sys, s': Sys, tid: nat)
    requires Flow(s) && OneMoves(s, s', tid) && SameFlow(s, s')
    requires
      var th, th' := s.threads[tid], s'.threads[tid];
      && th'.wire == th.wire && th'.snap == th.snap
      && (Live(th'.pc) ==> Live(th.pc) && th'.token == th.token)
      && (Early(th'.pc) ==> Early(th.pc)) && (Looping(th'.pc) ==> Looping(th.pc))
    ensures Flow(s')
  {
    assert StreamOk(s, s.threads[tid]);
    OtherFlows(s, s', s.threads[tid]);
    StepFlows(s, s', tid);
  }

  // ---- every step ----

  lemma ReserveFlows(s: Sys, tid: nat)
    requires Flow(s) && tid < |s.threads| && s.threads[tid].pc.Reserving?
    ensures Flow(Reserve(s, tid))
  {
    hide Hub.Blocked;
    var s' := Reserve(s, tid);
    assert StreamOk(s, s.threads[tid]);
    StepFlows(s, s', tid);
  }

  lemma CancelFlows(s: Sys, tid: nat)
    requires Flow(s) && tid < |s.threads| && s.threads[tid].pc.Canceling? && s.threads[tid].token < |s.hub.links|
    ensures Flow(Cancel(s, tid))
  {
    hide Flow, Hub.Cancel;
    BuffersKept(s.hub, s.threads[tid].id, s.threads[tid].token, s.threads[tid].release);
    MoveFlows(s, Cancel(s, tid), tid);
  }

  lemma ActivateFlows(s: Sys, tid: nat)
    requires Flow(s) && tid < |s.threads| && s.threads[tid].pc.Activating? && s.threads[tid].token < |s.hub.links|
    ensures Flow(Activate(s, tid))
  {
    hide Flow, Hub.Activate;
    BuffersKept(s.hub, s.threads[tid].id, s.threads[tid].token, s.threads[tid].release);
    MoveFlows(s, Activate(s, tid), tid);
  }

  lemma DetachLeaves(s: Sys, tid: nat)
    requires tid < |s.threads| && s.threads[tid].token < |s.hub.links|
    ensures
      var th, th' := s.threads[tid], Detach(s, tid).threads[tid];
      && th'.wire == th.wire && th'.snap == th.snap && !Live(th'.pc) && !Early(th'.pc) && !Looping(th'.pc)
  {
    hide Hub.Detach;
  }

  lemma DetachFlows(s: Sys, tid: nat)
    requires Flow(s) && tid < |s.threads| && s.threads[tid].token < |s.hub.links|
    ensures Flow(Detach(s, tid))
  {
    hide Flow, Hub.Detach;
    var s' := Detach(s, tid);
    DetachLeaves(s, tid);
    assert OneMoves(s, s', tid) && SameFlow(s, s') by {
      hide Live, Early, Looping;
      BuffersKept(s.hub, s.threads[tid].id, s.threads[tid].token, s.threads[tid].release);
    }
    hide *;
    MoveFlows(s, s', tid);
  }

  lemma RevokeFlows(s: Sys, tid: nat)
    requires Flow(s) && tid < |s.threads| && s.threads[tid].pc.Revoking?
    ensures Flow(Revoke(s, tid))
  {
    hide Flow, Hub.Revoke;
    BuffersKept(s.hub, s.threads[tid].id, s.threads[tid].token, s.threads[tid].release);
    MoveFlows(s, Revoke(s, tid), tid);
  }

  lemma ReleaseFlows(s: Sys, tid: nat)
    requires Flow(s) && tid < |s.threads| && s.threads[tid].release < |s.hub.revocations|
    ensures Flow(Release(s, tid))
  {
    hide Flow, Hub.Release;
    BuffersKept(s.hub, s.threads[tid].id, s.threads[tid].token, s.threads[tid].release);
    MoveFlows(s, Release(s, tid), tid);
  }

  lemma EnterFlows(s: Sys, tid: nat)
    requires Flow(s) && tid < |s.threads| && s.threads[tid].pc.Entering?
    ensures Flow(Enter(s, tid))
  {
    hide Flow, MayEnter;
    MoveFlows(s, Enter(s, tid), tid);
  }

  /** An accepted Send adds the message to the accepting link's buffer and nothing else. */
  ghost predicate Accepts(s: Sys, s': Sys, t: nat, m: Message) {
    && t < |s.hub.links| && |s'.hub.links| == |s.hub.links|
    && s'.hub.links[t].buffer == s.hub.links[t].buffer + [m]
    && (forall u: nat | u < |s.hub.links| && u != t :: s'.hub.links[u] == s.hub.links[u])
    && s'.accepted == s.accepted + {(t, m)}
  }

  lemma AcceptedFlows(s: Sys, s': Sys, t: nat, m: Message, th: Thread)
    requires Accepts(s, s', t, m) && StreamOk(s, th)
    ensures StreamOk(s', th)
  {
  }

  lemma SendFlows(s: Sys, tid: nat)
    requires Flow(s) && tid < |s.threads| && s.threads[tid].pc.Sending?
    ensures Flow(Send(s, tid))
  {
    var th, s' := s.threads[tid], Send(s, tid);
    if Hub.Send(s.hub, th.id, Snapshot(th.snap)).1 {
      var t, m := s.hub.connections[th.id], Snapshot(th.snap);
      assert Accepts(s, s', t, m);
      hide Hub.Send;
      assert StreamOk(s', s'.threads[tid]);
      hide StreamOk;
      forall i: nat | i < |s.threads| ensures StreamOk(s', s'.threads[i]) {
        if i != tid { AcceptedFlows(s, s', t, m, s.threads[i]); }
      }
    } else {
      MoveFlows(s, s', tid);
    }
  }

  lemma LoadFlows(s: Sys, tid: nat, fails: bool)
    requires Flow(s) && tid < |s.threads|
    ensures s.threads[tid].pc.Loading? ==> Flow(Load(s, tid, fails))
    ensures s.threads[tid].pc.Snapshotting? ==> Flow(SendSnapshot(s, tid, fails))
  {
    hide Hello;
    assert StreamOk(s, s.threads[tid]);
    if s.threads[tid].pc.Loading? {
      StepFlows(s, Load(s, tid, fails), tid);
    } else if s.threads[tid].pc.Snapshotting? {
      StepFlows(s, SendSnapshot(s, tid, fails), tid);
    }
  }

  lemma CommitFlows(s: Sys, tid: nat, fails: bool)
    requires Flow(s) && tid < |s.threads| && s.threads[tid].pc.Committing?
    ensures Flow(Commit(s, tid, fails))
  {
    hide SetDesired;
    StepFlows(s, Commit(s, tid, fails), tid);
  }

  lemma CheckFlows(s: Sys, tid: nat, fails: bool)
    requires Flow(s) && tid < |s.threads| && s.threads[tid].pc.Checking?
    ensures Flow(Check(s, tid, fails))
  {
    hide Flow, MarkOffline;
    MoveFlows(s, Check(s, tid, fails), tid);
  }

  lemma LeaveFlows(s: Sys, tid: nat)
    requires Flow(s) && tid < |s.threads| && s.threads[tid].pc.Leaving?
    ensures Flow(Leave(s, tid))
  {
    hide Flow;
    MoveFlows(s, Leave(s, tid), tid);
  }

  lemma PutFlows(s: Sys, tid: nat, fails: bool)
    requires Flow(s) && tid < |s.threads| && s.threads[tid].pc.Putting?
    ensures Flow(Put(s, tid, fails))
  {
    hide Flow;
    MoveFlows(s, Put(s, tid, fails), tid);
  }

  lemma DeleteFlows(s: Sys, tid: nat, fails: bool)
    requires Flow(s) && tid < |s.threads| && s.threads[tid].pc.Deleting?
    ensures Flow(Delete(s, tid, fails))
  {
    hide Flow;
    MoveFlows(s, Delete(s, tid, fails), tid);
  }

  lemma AnnounceFlows(s: Sys, tid: nat, kind: EventKind, fails: bool, next: PC)
    requires Flow(s) && tid < |s.threads|
    requires Live(next) ==> Live(s.threads[tid].pc)
    requires Early(next) ==> Early(s.threads[tid].pc)
    requires Looping(next) ==> Looping(s.threads[tid].pc)
    ensures Flow(Announce(s, tid, kind, fails, next)) && Flow(Goto(s, tid, next))
  {
    hide Flow;
    MoveFlows(s, Announce(s, tid, kind, fails, next), tid);
    MoveFlows(s, Goto(s, tid, next), tid);
  }

  lemma AdvanceFlows(s: Sys, tid: nat, fails: bool)
    requires Flow(s) && tid < |s.threads|
    ensures Flow(AdvanceThread(s, tid, fails))
  {
    hide Flow;
    hide Reserve, Cancel, Activate, Detach, Revoke, Release, Send, Enter, Load, SendSnapshot, Delete, Commit, Put;
    hide Check, Leave, Announce;
    match s.threads[tid].pc {
      case Reserving => ReserveFlows(s, tid);
      case Sending => SendFlows(s, tid);
      case Loading => LoadFlows(s, tid, fails);
      case Snapshotting => LoadFlows(s, tid, fails);
      case Committing => CommitFlows(s, tid, fails);
      case Putting(ssh) => PutFlows(s, tid, fails);
      case Deleting => DeleteFlows(s, tid, fails);
      case Checking(kind) => CheckFlows(s, tid, fails);
      case Leaving(kind, ok) => LeaveFlows(s, tid);
      case Revoking(rollback) => RevokeFlows(s, tid);
      case Releasing => if s.threads[tid].release < |s.hub.revocations| { ReleaseFlows(s, tid); }
      case Entering(kind) => EnterFlows(s, tid);
      case Canceling => if s.threads[tid].token < |s.hub.links| { CancelFlows(s, tid); }
      case Activating => if s.threads[tid].token < |s.hub.links| { ActivateFlows(s, tid); }
      case Failing => AnnounceFlows(s, tid, InstallFailed, fails, Deleting);
      case Announcing => AnnounceFlows(s, tid, Deleted, fails, Releasing);
      case Enrolling(ssh) => AnnounceFlows(s, tid, Enrolled, fails, if ssh then Starting else Done);
      case Starting => AnnounceFlows(s, tid, InstallStarted, fails, Working);
      case Appending(kind) => AnnounceFlows(s, tid, kind, fails, Leaving(kind, true));
      case Working =>
        AnnounceFlows(s, tid, Enrolled, fails, if fails then Revoking(true) else Entering(InstallSucceeded));
      case Serving =>
      case Done =>
      case _ => if s.threads[tid].token < |s.hub.links| { DetachFlows(s, tid); }
    }
  }

  /** What Forward takes from the buffer goes out on the wire, or the handler leaves. */
  lemma ForwardFlows(s: Sys, tid: nat, fails: bool)
    requires Flow(s) && InServing(s, tid)
    ensures Flow(Forwarded(s, tid, fails))
  {
    var th, s' := s.threads[tid], Forwarded(s, tid, fails);
    var buffer := s.hub.links[th.token].buffer;
    if buffer != [] {
      assert buffer == [buffer[0]] + buffer[1..];
      assert s'.hub.links[th.token].buffer == buffer[1..];
      forall u: nat | u < |s.hub.links| && u != th.token ensures s'.hub.links[u] == s.hub.links[u] {}
      assert StreamOk(s, th);
      forall i: nat | i < |s.threads| ensures StreamOk(s', s'.threads[i]) {
        if i != tid { assert StreamOk(s, s.threads[i]) && s'.threads[i] == s.threads[i]; }
      }
      forall u: nat, n | u < |s'.hub.links| && n in s'.hub.links[u].buffer ensures (u, n) in s'.accepted {
        assert n in s.hub.links[u].buffer;
      }
    }
  }

  lemma StatusFlows(s: Sys, tid: nat, fails: bool)
    requires Flow(s) && InServing(s, tid)
    ensures Flow(StatusTaken(s, tid, fails))
  {
    hide Flow, ApplyStatus;
    MoveFlows(s, StatusTaken(s, tid, fails), tid);
  }

  lemma MetersFlows(s: Sys, tid: nat, fails: bool)
    requires Flow(s) && InServing(s, tid)
    ensures Flow(MetersTaken(s, tid, fails))
  {
    hide Flow;
    MoveFlows(s, MetersTaken(s, tid, fails), tid);
  }

  lemma SpawnFlows(s: Sys, s': Sys, th: Thread)
    requires Flow(s) && s'.threads == s.threads + [th] && s'.hub == s.hub && s'.accepted == s.accepted
    requires th.wire == [] && !Live(th.pc)
    ensures Flow(s')
  {
  }

  lemma UplinkFlows(s: Sys, s': Sys)
    requires Flow(s) && |s'.threads| == |s.threads| && s'.hub == s.hub && s'.accepted == s.accepted
    requires forall i: nat | i < |s.threads| :: s'.threads[i] == s.threads[i].(uplink := s'.threads[i].uplink)
    ensures Flow(s')
  {
  }

  lemma PeerFlows(s: Sys, a: Action)
    requires Flow(s) && (a.Inject? || a.HangUp? || a.Receive? || a.Beat? || a.Restart?)
    ensures Flow(Next(s, a))
  {
    hide Flow, Reconcile, Report;
    UplinkFlows(s, Next(s, a));
  }

  lemma NextFlows(s: Sys, a: Action)
    requires Flow(s)
    ensures Flow(Next(s, a))
  {
    hide Flow, AdvanceThread, Forwarded, StatusTaken, MetersTaken, Received;
    match a {
      case ConnectFrom(id) => SpawnFlows(s, Next(s, a), Fresh(id, Reserving));
      case DeleteOf(id) => SpawnFlows(s, Next(s, a), Fresh(id, Revoking(false)));
      case DesiredOf(id, spec) => SpawnFlows(s, Next(s, a), Fresh(id, Committing).(spec := spec));
      case Create(id, ssh) => SpawnFlows(s, Next(s, a), Fresh(id, Putting(ssh)));
      case Dial(id) => SpawnFlows(s, Next(s, a), Fresh(id, Reserving).(ours := true));
      case Advance(tid, fails) => if tid < |s.threads| { AdvanceFlows(s, tid, fails); }
      case Forward(tid, fails) => if InServing(s, tid) { ForwardFlows(s, tid, fails); }
      case TakeStatus(tid, fails) => if InServing(s, tid) { StatusFlows(s, tid, fails); }
      case TakeMeters(tid, fails) => if InServing(s, tid) { MetersFlows(s, tid, fails); }
      case Quit(tid) => if InServing(s, tid) { AnnounceFlows(s, tid, Enrolled, true, Detaching); }
      case _ => PeerFlows(s, a);
    }
  }

  lemma {:induction false} RunFlows(env: Env, actions: seq<Action>)
    ensures Flow(Run(env, actions))
  {
    if actions != [] {
      hide Next, Flow;
      RunFlows(env, actions[..|actions| - 1]);
      NextFlows(Run(env, actions[..|actions| - 1]), actions[|actions| - 1]);
    }
  }

  // ---- convergence ----

  /** The agent reads the stream that handler `tid` serves, nothing is buffered for it, and it has applied all that
      was sent. */
  predicate Consumed(s: Sys, id: Id, tid: nat) {
    && AgentOf(s, id).stream == Some(tid) && InServing(s, tid)
    && s.hub.links[s.threads[tid].token].buffer == []
    && AgentOf(s, id).consumed == |s.threads[tid].wire|
  }

  /** Generation `g` was the stream's snapshot, or a Send of it returned true on this very connection. */
  ghost predicate Offered(s: Sys, tid: nat, g: uint64)
    requires tid < |s.threads|
  {
    s.threads[tid].snap.desiredGeneration == g || exists m ::
        (s.threads[tid].token, m) in s.accepted && m.generation == g
  }

  predicate InStep(s: Sys, id: Id)
    requires id in s.store
  {
    AgentOf(s, id).state.generation == s.store[id].desiredGeneration &&
        AgentOf(s, id).state.digest == s.store[id].desiredDigest
  }

  lemma OfferedIsReached(s: Sys, id: Id, tid: nat, g: uint64)
    requires Agree(s) && Flow(s) && Consumed(s, id, tid) && Offered(s, tid, g)
    ensures AgentOf(s, id).state.generation >= g
  {
    hide RecordAgrees, ThreadAgrees, LinkAgrees, Names, PairOk;
    var a, th := AgentOf(s, id), s.threads[tid];
    assert AgentAgrees(s, id, a) && StreamOk(s, th);
    if g > 0 {
      var m := if th.snap.desiredGeneration == g then Snapshot(th.snap)
               else var m :| (th.token, m) in s.accepted && m.generation == g; m;
      assert m in th.wire;
      var k: nat :| k < |th.wire| && th.wire[k] == m;
      assert th.wire[k].generation <= a.state.generation;
    }
  }

  lemma ReachedWasOffered(s: Sys, id: Id, tid: nat)
    requires Agree(s) && Flow(s) && Consumed(s, id, tid)
    ensures AgentOf(s, id).state.generation == AgentOf(s, id).base || Offered(s, tid, AgentOf(s, id).state.generation)
  {
    hide RecordAgrees, ThreadAgrees, LinkAgrees, Names, PairOk;
    var a, th := AgentOf(s, id), s.threads[tid];
    assert AgentAgrees(s, id, a) && StreamOk(s, th);
    if a.state.generation != a.base {
      var k: nat :| k < a.consumed && th.wire[k].generation == a.state.generation;
      assert th.wire[k] in th.wire;
    }
  }

  /** An agent that consumed its stream is in step with the host exactly when the newest generation was offered on
      that stream, or it already held it when it opened the stream. */
  lemma ConvergedIff(env: Env, actions: seq<Action>, id: Id, tid: nat)
    requires ProperHash(env) && |actions| < U64
    requires Consumed(Run(env, actions), id, tid) && id in Run(env, actions).store
    ensures
      var s := Run(env, actions);
      var newest := s.store[id].desiredGeneration;
      InStep(s, id) <==> Offered(s, tid, newest) || AgentOf(s, id).base == newest
  {
    hide Next, Safe, LinkAgrees, ThreadAgrees;
    var s := Run(env, actions);
    RunAgrees(env, actions);
    RunFlows(env, actions);
    var a, newest := AgentOf(s, id), s.store[id].desiredGeneration;
    assert AgentAgrees(s, id, a) && RecordAgrees(s, id);
    assert a.state.generation <= newest;
    ReachedWasOffered(s, id, tid);
    if Offered(s, tid, newest) { OfferedIsReached(s, id, tid, newest); }
  }

  /** If every update committed after the stream's snapshot was accepted on that same connection, and the agent
      consumed it all, then host and agent agree. */
  lemma Converges(env: Env, actions: seq<Action>, id: Id, tid: nat)
    requires ProperHash(env) && |actions| < U64
    requires Consumed(Run(env, actions), id, tid) && id in Run(env, actions).store
    requires
      var s := Run(env, actions);
      forall g: uint64 | s.threads[tid].snap.desiredGeneration < g <= s.store[id].desiredGeneration ::
          Offered(s, tid, g)
    ensures InStep(Run(env, actions), id)
  {
    hide Next, Safe, LinkAgrees;
    var s := Run(env, actions);
    RunAgrees(env, actions);
    ConvergedIff(env, actions, id, tid);
    SnapshotNotAhead(s, id, tid);
    assert Offered(s, tid, s.store[id].desiredGeneration);
  }

  lemma SnapshotNotAhead(s: Sys, id: Id, tid: nat)
    requires Agree(s) && Consumed(s, id, tid) && id in s.store
    ensures s.threads[tid].snap.desiredGeneration <= s.store[id].desiredGeneration
  {
  }

  // ---- the update that a reconnect misses ----

  lemma Dispatch(s: Sys, tid: nat)
    requires tid < |s.threads| && s.lock == None
    ensures
      var pc, s' := s.threads[tid].pc, Next(s, Advance(tid, false));
      && (pc == Putting(false) ==> s' == Put(s, tid, false))
      && (pc == Reserving ==> s' == Reserve(s, tid))
      && (pc == Loading ==> s' == Load(s, tid, false))
      && (pc == Committing ==> s' == Commit(s, tid, false))
      && (pc == Sending ==> s' == Send(s, tid))
      && (pc == Activating && s.threads[tid].token < |s.hub.links| ==> s' == Activate(s, tid))
      && (pc == Entering(Connected) ==> s' == Enter(s, tid))
      && (pc == Snapshotting ==> s' == SendSnapshot(s, tid, false))
  {
    hide Reserve, Cancel, Activate, Detach, Revoke, Release, Send, Enter, Load, SendSnapshot, Delete, Commit, Put;
    hide Check, Leave, Announce;
    hide Forwarded, StatusTaken, MetersTaken, Received, Reported;
  }

  lemma DispatchGuard(s: Sys, tid: nat)
    requires tid < |s.threads|
    ensures
      var pc, s' := s.threads[tid].pc, Next(s, Advance(tid, false));
      && (pc == Checking(Connected) ==> s' == Check(s, tid, false))
      && (pc == Appending(Connected) ==> s' == Announce(s, tid, Connected, false, Leaving(Connected, true)))
      && (pc == Leaving(Connected, true) ==> s' == Leave(s, tid))
  {
    hide Reserve, Cancel, Activate, Detach, Revoke, Release, Send, Enter, Load, SendSnapshot, Delete, Commit, Put;
    hide Check, Leave, Announce;
    hide Forwarded, StatusTaken, MetersTaken, Received, Reported;
  }

  lemma ArrivesOrDials(s: Sys, id: Id, spec: string)
    ensures Next(s, Create(id, false)) == s.(threads := s.threads + [Fresh(id, Putting(false))])
    ensures Next(s, DesiredOf(id, spec)) == s.(threads := s.threads + [Fresh(id, Committing).(spec := spec)])
    ensures Next(s, Dial(id)) ==
      s.(threads := s.threads + [Fresh(id, Reserving).(ours := true)],
         agents := s.agents[id := Agent(AgentOf(s, id).state, Some(|s.threads|), 0, AgentOf(s, id).state.generation)])
  {
    hide AdvanceThread, Forwarded, StatusTaken, MetersTaken, Received, Reported;
  }

  const HELLO := Hello(ENROLLED)

  const OPEN := Hub.Link("", false, false, [])

  function Stream(id: Id, pc: PC, token: nat): Thread {
    Fresh(id, pc).(ours := true, token := token, snap := HELLO)
  }

  // -- a connection that was activated is announced and served --

  /** Nothing but the log, the mutex and this handler's place differs. */
  ghost predicate OnlyMoved(s: Sys, s': Sys, tid: nat, pc: PC, lock: Option<nat>) {
    tid < |s.threads| && s' == s.(log := s'.log, lock := lock, threads := s.threads[tid := s.threads[tid].(pc := pc)])
  }

  lemma Checks(s: Sys, tid: nat)
    requires tid < |s.threads| && s.threads[tid].pc == Entering(Connected) && s.lock == None
    requires !Hub.Blocked(s.hub, s.threads[tid].id) && s.threads[tid].id in s.store
    ensures OnlyMoved(s, Next(Next(s, Advance(tid, false)), Advance(tid, false)), tid, Appending(Connected), Some(tid))
  {
    hide Next, Hub.Blocked;
    Dispatch(s, tid);
    var s1 := Next(s, Advance(tid, false));
    assert s1 == s.(lock := Some(tid), threads := s.threads[tid := s.threads[tid].(pc := Checking(Connected))]);
    DispatchGuard(s1, tid);
    var id := s.threads[tid].id;
    assert s.store[id := s.store[id]] == s.store;
  }

  lemma Announces(s: Sys, tid: nat)
    requires tid < |s.threads| && s.threads[tid].pc == Appending(Connected)
    ensures OnlyMoved(s, Next(Next(s, Advance(tid, false)), Advance(tid, false)), tid, Snapshotting, None)
  {
    hide Next;
    DispatchGuard(s, tid);
    DispatchGuard(Next(s, Advance(tid, false)), tid);
  }

  lemma Serves(s: Sys, tid: nat)
    requires tid < |s.threads| && s.threads[tid].pc == Entering(Connected) && s.lock == None
    requires !Hub.Blocked(s.hub, s.threads[tid].id) && s.threads[tid].id in s.store
    requires s.threads[tid].snap.desiredGeneration == 0
    ensures
      var s2 := Next(Next(s, Advance(tid, false)), Advance(tid, false));
      var s4 := Next(Next(s2, Advance(tid, false)), Advance(tid, false));
      OnlyMoved(s, Next(s4, Advance(tid, false)), tid, Serving, None)
  {
    hide Next, Hub.Blocked;
    var s2 := Next(Next(s, Advance(tid, false)), Advance(tid, false));
    var s4 := Next(Next(s2, Advance(tid, false)), Advance(tid, false));
    Checks(s, tid);
    Announces(s2, tid);
    Dispatch(s4, tid);
  }

  lemma GoServes(s: Sys, actions: seq<Action>, tid: nat)
    requires
      var s1 := Finality.Go(s, actions);
      && tid < |s1.threads| && s1.threads[tid].pc == Entering(Connected) && s1.lock == None
      && !Hub.Blocked(s1.hub, s1.threads[tid].id) && s1.threads[tid].id in s1.store
      && s1.threads[tid].snap.desiredGeneration == 0
    ensures
      var step := Advance(tid, false);
      var s5 := Finality.Go(s, actions + [step] + [step] + [step] + [step] + [step]);
      OnlyMoved(Finality.Go(s, actions), s5, tid, Serving, None)
  {
    hide Next, Finality.Go, Hub.Blocked, OnlyMoved;
    var step := Advance(tid, false);
    Go3(s, actions, step, step, step);
    Finality.GoNext(s, actions + [step] + [step] + [step], step);
    Finality.GoNext(s, actions + [step] + [step] + [step] + [step], step);
    Serves(Finality.Go(s, actions), tid);
  }

  lemma Go3(s: Sys, actions: seq<Action>, a: Action, b: Action, c: Action)
    ensures Finality.Go(s, actions + [a] + [b] + [c]) == Next(Next(Next(Finality.Go(s, actions), a), b), c)
  {
    hide Next, Finality.Go;
    Finality.GoNext(s, actions, a);
    Finality.GoNext(s, actions + [a], b);
    Finality.GoNext(s, actions + [a] + [b], c);
  }

  // -- the first connection --

  lemma EnrolsFirst(env: Env, id: Id)
    ensures Next(Next(Initial(env), Create(id, false)), Advance(0, false)) == NewlyEnrolled(env, id)
  {
    hide Next;
    ArrivesOrDials(Initial(env), id, "");
    Dispatch(Next(Initial(env), Create(id, false)), 0);
  }

  function NewlyEnrolled(env: Env, id: Id): Sys {
    Initial(env).(threads := [Fresh(id, Enrolling(false))], store := map[id := ENROLLED], used := {id})
  }

  /** The handler has read its snapshot, at generation zero, and not activated yet. */
  ghost predicate FirstLoaded(s: Sys, id: Id) {
    && s.hub == Hub.HubState([OPEN.(id := id)], {0}, map[], []) && s.lock == None && s.accepted == {}
    && s.threads == [Fresh(id, Enrolling(false)), Stream(id, Activating, 0)]
    && s.store == map[id := HELLO] && AgentOf(s, id) == Agent(IDLE, Some(1), 0, 0)
  }

  lemma FirstLoads(s: Sys, id: Id)
    requires s == NewlyEnrolled(s.env, id)
    ensures FirstLoaded(Next(Next(Next(s, Dial(id)), Advance(1, false)), Advance(1, false)), id)
  {
    hide Next;
    ArrivesOrDials(s, id, "");
    var sb := Next(s, Dial(id));
    Dispatch(sb, 1);
    var sc := Next(sb, Advance(1, false));
    assert sc.threads[1] == Fresh(id, Loading).(ours := true);
    Dispatch(sc, 1);
  }

  /** The first connection is attached. */
  ghost predicate FirstAttached(s: Sys, id: Id, pc: PC) {
    && s.hub == Hub.HubState([OPEN.(id := id)], {}, map[id := 0], []) && s.lock == None && s.accepted == {}
    && s.threads == [Fresh(id, Enrolling(false)), Stream(id, pc, 0)]
    && s.store == map[id := HELLO] && AgentOf(s, id) == Agent(IDLE, Some(1), 0, 0)
  }

  lemma FirstActivates(s: Sys, id: Id)
    requires FirstLoaded(s, id)
    ensures FirstAttached(Next(s, Advance(1, false)), id, Entering(Connected))
  {
    hide Next;
    Dispatch(s, 1);
  }

  function FirstSteps(id: Id): seq<Action> {
    var step := Advance(1, false);
    var loaded := [] + [Create(id, false)] + [Advance(0, false)] + [Dial(id)] + [step] + [step];
    loaded + [step] + [step] + [step] + [step] + [step] + [step]
  }

  lemma FirstServes(env: Env, id: Id)
    ensures FirstAttached(Finality.Go(Initial(env), FirstSteps(id)), id, Serving)
  {
    hide Next, Finality.Go, FirstLoaded;
    var s, step := Initial(env), Advance(1, false);
    var a0 := [] + [Create(id, false)] + [Advance(0, false)];
    var a1 := a0 + [Dial(id)] + [step] + [step];
    GoNone(s);
    Finality.GoNext(s, [], Create(id, false));
    Finality.GoNext(s, [] + [Create(id, false)], Advance(0, false));
    EnrolsFirst(env, id);
    Go3(s, a0, Dial(id), step, step);
    FirstLoads(NewlyEnrolled(env, id), id);
    Finality.GoNext(s, a1, step);
    FirstActivates(Finality.Go(s, a1), id);
    GoServes(s, a1 + [step], 1);
  }

  lemma GoNone(s: Sys)
    ensures Finality.Go(s, []) == s
  {
  }

  // -- the reconnect --

  /** The agent has hung up and dialled again; the new handler, at `th`, has reserved while the old connection is
      still attached, and nothing has been updated. */
  ghost predicate Second(s: Sys, id: Id, th: Thread) {
    && s.hub == Hub.HubState([OPEN.(id := id), OPEN.(id := id)], {1}, map[id := 0], [])
    && s.lock == None && s.accepted == {}
    && s.threads == [Fresh(id, Enrolling(false)), Stream(id, Serving, 0), th]
    && s.store == map[id := HELLO] && AgentOf(s, id) == Agent(IDLE, Some(2), 0, 0)
  }

  /** ... and has read its snapshot, at generation zero. */
  ghost predicate SecondLoaded(s: Sys, id: Id) {
    Second(s, id, Stream(id, Activating, 1))
  }

  lemma Redials(s: Sys, id: Id)
    requires FirstAttached(s, id, Serving)
    ensures
      var s2 := Next(Next(Next(s, HangUp(id)), Dial(id)), Advance(2, false));
      Second(s2, id, Stream(id, Loading, 1).(snap := ENROLLED)) && s2.env == s.env
  {
    HangsUp(s, id);
    hide Next;
    var sa := Next(s, HangUp(id));
    ArrivesOrDials(sa, id, "");
    Dispatch(Next(sa, Dial(id)), 2);
  }

  lemma SecondLoads(s: Sys, id: Id)
    requires Second(s, id, Stream(id, Loading, 1).(snap := ENROLLED))
    ensures SecondLoaded(Next(s, Advance(2, false)), id) && Next(s, Advance(2, false)).env == s.env
  {
    hide Next;
    Dispatch(s, 2);
  }

  lemma HangsUp(s: Sys, id: Id)
    ensures Next(s, HangUp(id)) == s.(agents := s.agents[id := AgentOf(s, id).(stream := None)])
  {
    hide AdvanceThread, Forwarded, StatusTaken, MetersTaken, Received, Reported;
  }

  /** An update has been committed after that snapshot. */
  ghost predicate UpdateWaits(s: Sys, id: Id, message: Message) {
    && s.hub == Hub.HubState([OPEN.(id := id), OPEN.(id := id)], {1}, map[id := 0], [])
    && s.lock == None && s.accepted == {}
    && |s.threads| == 4 && s.threads[1] == Stream(id, Serving, 0) && s.threads[2] == Stream(id, Activating, 1)
    && s.threads[3].pc == Sending && s.threads[3].id == id && Snapshot(s.threads[3].snap) == message
    && id in s.store && Snapshot(s.store[id]) == message && message.generation == 1
    && AgentOf(s, id) == Agent(IDLE, Some(2), 0, 0)
  }

  lemma UpdateCommits(s: Sys, id: Id, spec: string)
    requires SecondLoaded(s, id) && ProperHash(s.env)
    ensures
      var s2 := Next(Next(s, DesiredOf(id, spec)), Advance(3, false));
      UpdateWaits(s2, id, Message(1, s.env.hash(spec), spec))
  {
    hide Next;
    ArrivesOrDials(s, id, spec);
    Dispatch(Next(s, DesiredOf(id, spec)), 3);
  }

  /** The update's Send returned true: the connection that the agent left has buffered it. */
  ghost predicate UpdateTaken(s: Sys, id: Id, message: Message) {
    && s.hub == Hub.HubState([OPEN.(id := id, buffer := [message]), OPEN.(id := id)], {1}, map[id := 0], [])
    && s.lock == None && s.accepted == {(0, message)}
    && |s.threads| == 4 && s.threads[1] == Stream(id, Serving, 0) && s.threads[2] == Stream(id, Activating, 1)
    && id in s.store && Snapshot(s.store[id]) == message && message.generation == 1
    && AgentOf(s, id) == Agent(IDLE, Some(2), 0, 0)
  }

  lemma HubTakes(h: Hub.HubState, id: Id, message: Message)
    requires h == Hub.HubState([OPEN.(id := id), OPEN.(id := id)], {1}, map[id := 0], [])
    ensures Hub.Send(h, id, message) == (h.(links := [OPEN.(id := id, buffer := [message]), OPEN.(id := id)]), true)
  {
    assert h.links[0].buffer + [message] == [message];
    assert Hub.Send(h, id, message).0.links == [OPEN.(id := id, buffer := [message]), OPEN.(id := id)];
  }

  lemma UpdateSends(s: Sys, id: Id, message: Message)
    requires UpdateWaits(s, id, message)
    ensures UpdateTaken(Next(s, Advance(3, false)), id, message)
  {
    hide Next;
    Dispatch(s, 3);
    HubTakes(s.hub, id, message);
    hide Hub.Send;
  }

  /** The new connection has replaced the old one. */
  ghost predicate SecondAttached(s: Sys, id: Id, message: Message, pc: PC) {
    && s.hub == Hub.HubState([OPEN.(id := id, buffer := [message], closed := true), OPEN.(id := id)], {},
                             map[id := 1], [])
    && s.lock == None && s.accepted == {(0, message)}
    && |s.threads| == 4 && s.threads[1] == Stream(id, Serving, 0) && s.threads[2] == Stream(id, pc, 1)
    && id in s.store && Snapshot(s.store[id]) == message && message.generation == 1
    && AgentOf(s, id) == Agent(IDLE, Some(2), 0, 0)
  }

  lemma SecondActivates(s: Sys, id: Id, message: Message)
    requires UpdateTaken(s, id, message)
    ensures SecondAttached(Next(s, Advance(2, false)), id, message, Entering(Connected))
  {
    hide Next;
    Dispatch(s, 2);
  }

  function SecondSteps(id: Id, spec: string): seq<Action> {
    var step := Advance(2, false);
    var loaded := [] + [HangUp(id)] + [Dial(id)] + [step] + [step];
    var taken := loaded + [DesiredOf(id, spec)] + [Advance(3, false)] + [Advance(3, false)];
    taken + [step] + [step] + [step] + [step] + [step] + [step]
  }

  lemma SecondServes(s: Sys, id: Id, spec: string)
    requires FirstAttached(s, id, Serving) && ProperHash(s.env)
    ensures
      SecondAttached(Finality.Go(s, SecondSteps(id, spec)), id, Message(1, s.env.hash(spec), spec), Serving)
  {
    hide Next, Finality.Go, FirstAttached, SecondLoaded, Second, UpdateWaits, UpdateTaken;
    var step, message := Advance(2, false), Message(1, s.env.hash(spec), spec);
    var a0 := [] + [HangUp(id)];
    var a1 := a0 + [Dial(id)] + [step] + [step];
    var a2 := a1 + [DesiredOf(id, spec)] + [Advance(3, false)] + [Advance(3, false)];
    GoNone(s);
    Finality.GoNext(s, [], HangUp(id));
    Go3(s, a0, Dial(id), step, step);
    Redials(s, id);
    SecondLoads(Next(Next(Next(s, HangUp(id)), Dial(id)), step), id);
    Go3(s, a1, DesiredOf(id, spec), Advance(3, false), Advance(3, false));
    UpdateCommits(Finality.Go(s, a1), id, spec);
    UpdateSends(Next(Next(Finality.Go(s, a1), DesiredOf(id, spec)), Advance(3, false)), id, message);
    Finality.GoNext(s, a2, step);
    SecondActivates(Finality.Go(s, a2), id, message);
    GoServes(s, a2 + [step], 2);
  }

  /** After `first` the agent has consumed its stream and agrees with HOST. Then it hangs up and dials, and after
      `later` it has consumed the new stream and is behind: the newest desired state was accepted, by the connection
      that it had left. */
  ghost predicate MissesAfterRedial(env: Env, id: Id, first: seq<Action>, later: seq<Action>) {
    var s, s' := Run(env, first), Run(env, first + later);
    && AgentOf(s, id).stream.Some? && Consumed(s, id, AgentOf(s, id).stream.value)
    && id in s.store && InStep(s, id)
    && |later| >= 2 && later[..2] == [HangUp(id), Dial(id)]
    && Consumed(s', id, |s.threads|) && id in s'.store && !InStep(s', id)
    && (s.threads[AgentOf(s, id).stream.value].token, Snapshot(s'.store[id])) in s'.accepted
  }

  /** A reconnect need not deliver the current desired state: an update that commits and sends between the new
      handler's snapshot and its activation goes to the connection that the activation closes. */
  lemma ReconnectMayMissUpdate(env: Env, id: Id, spec: string)
    requires ProperHash(env)
    ensures exists first, later :: MissesAfterRedial(env, id, first, later)
  {
    var first, later := FirstSteps(id), SecondSteps(id, spec);
    Misses(env, id, spec, first, later);
  }

  lemma Misses(env: Env, id: Id, spec: string, first: seq<Action>, later: seq<Action>)
    requires ProperHash(env) && first == FirstSteps(id) && later == SecondSteps(id, spec)
    ensures MissesAfterRedial(env, id, first, later)
  {
    hide Next, Run, Finality.Go, FirstSteps;
    var s := Run(env, first);
    Finality.RunGoes(env, [], first);
    assert [] + first == first;
    RunNone(env);
    FirstServes(env, id);
    Finality.RunGoes(env, first, later);
    HistoryShort(env, first, id);
    SecondServes(s, id, spec);
    assert later[..2] == [HangUp(id), Dial(id)];
  }

  lemma RunNone(env: Env)
    ensures Run(env, []) == Initial(env)
  {
  }
}
