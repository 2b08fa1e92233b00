/** Who holds the attached links: every one belongs to a handler that has activated it and not yet detached, and a
    handler that has detached holds none for good. */
module Attachment {
  import opened Prelude
  import opened Records
  import opened AgentState
  import opened Control
  import opened ControlSafety
  import Hub = HubSpec

  /** Between its activation and its detach. */
  predicate Owns(pc: PC) {
    match pc
    case Abandoning => true
    case Snapshotting => true
    case Serving => true
    case Detaching => true
    case Entering(kind) => OwnsAt(kind)
    case Checking(kind) => OwnsAt(kind)
    case Appending(kind) => OwnsAt(kind)
    case Leaving(kind, ok) => OwnsAt(kind)
    case _ => false
  }

  predicate OwnsAt(kind: EventKind) {
    kind.Connected? || kind.StatusReported? || kind.TrafficUpdated?
  }

  ghost predicate Owner(s: Sys, tid: nat, id: Id) {
    && tid < |s.threads| && id in s.hub.connections
    && s.threads[tid].id == id && s.threads[tid].token == s.hub.connections[id] && Owns(s.threads[tid].pc)
  }

  ghost predicate Past(s: Sys, th: Thread) {
    Owns(th.pc) ==> th.token < |s.hub.links| && th.token !in s.hub.waiting
  }

  /** An activated link does not wait, no two handlers share a link, and each attached link has its handler. */
  ghost predicate Attended(s: Sys) {
    && (forall tid: nat | tid < |s.threads| :: Past(s, s.threads[tid]))
    && (forall i: nat, j: nat | i < j < |s.threads| && Streaming(s.threads[i].pc) && Streaming(s.threads[j].pc) ::
          s.threads[i].token != s.threads[j].token)
    && (forall id | id in s.hub.connections :: exists tid: nat :: Owner(s, tid, id))
  }

  // ---- one handler moves ----

  ghost predicate WaitingShrinks(h: Hub.HubState, h': Hub.HubState) {
    |h.links| <= |h'.links| && forall t | t in h'.waiting && t < |h.links| :: t in h.waiting
  }

  ghost predicate TokenMoves(s: Sys, s': Sys, tid: nat) {
    && OneMoves(s, s', tid)
    && (Streaming(s'.threads[tid].pc) ==>
          || (Streaming(s.threads[tid].pc) && s'.threads[tid].token == s.threads[tid].token)
          || s'.threads[tid].token == |s.hub.links|)
    && Past(s', s'.threads[tid])
  }

  /** The slots only change hands to this handler, and it keeps those it owns. */
  ghost predicate SlotsMove(s: Sys, s': Sys, tid: nat) {
    forall id | id in s'.hub.connections && !Owner(s', tid, id) ::
      id in s.hub.connections && s'.hub.connections[id] == s.hub.connections[id] && !Owner(s, tid, id)
  }

  lemma MoveAttended(s: Sys, s': Sys, tid: nat)
    requires Threads(s) && Attended(s) && TokenMoves(s, s', tid) && SlotsMove(s, s', tid)
    requires WaitingShrinks(s.hub, s'.hub)
    ensures Attended(s')
  {
    MovePast(s, s', tid);
    MoveDistinct(s, s', tid);
    hide Threads, ThreadOk, Past, Streaming, Owns, WaitingShrinks;
    forall id | id in s'.hub.connections ensures exists i: nat :: Owner(s', i, id) {
      if !Owner(s', tid, id) {
        var i: nat :| Owner(s, i, id);
        assert Owner(s', i, id);
      }
    }
  }

  lemma MovePast(s: Sys, s': Sys, tid: nat)
    requires Attended(s) && TokenMoves(s, s', tid) && WaitingShrinks(s.hub, s'.hub)
    ensures forall i: nat | i < |s'.threads| :: Past(s', s'.threads[i])
  {
    forall i: nat | i < |s'.threads| ensures Past(s', s'.threads[i]) {
      if i != tid { assert Past(s, s.threads[i]); }
    }
  }

  lemma MoveDistinct(s: Sys, s': Sys, tid: nat)
    requires Threads(s) && Attended(s) && TokenMoves(s, s', tid)
    ensures forall i: nat, j: nat | i < j < |s'.threads| && Streaming(s'.threads[i].pc) &&
        Streaming(s'.threads[j].pc) ::
        s'.threads[i].token != s'.threads[j].token
  {
    hide Past, Owner, Owns;
    forall i: nat | i < |s.threads| && i != tid && Streaming(s.threads[i].pc) && Streaming(s'.threads[tid].pc)
      ensures s.threads[i].token != s'.threads[tid].token
    {
      assert ThreadOk(s, i);
    }
    hide Threads, ThreadOk, Streaming;
  }

  // ---- hub steps ----

  lemma HubShrinks(h: Hub.HubState, id: Id, u: nat, message: Message)
    ensures WaitingShrinks(h, Hub.Reserve(h, id).0) && WaitingShrinks(h, Hub.Revoke(h, id).0)
    ensures WaitingShrinks(h, Hub.Send(h, id, message).0)
    ensures u < |h.links| ==> WaitingShrinks(h, Hub.Cancel(h, u)) && WaitingShrinks(h, Hub.Activate(h, u).0)
    ensures u < |h.links| ==> WaitingShrinks(h, Hub.Detach(h, u).0)
    ensures u < |h.links| && h.links[u].buffer != [] ==> WaitingShrinks(h, Hub.Take(h, u))
  {
    hide Hub.Blocked;
  }

  lemma MutexShrinks(s: Sys, tid: nat, fails: bool)
    requires tid < |s.threads| && NeedsMutex(s.threads[tid].pc)
    ensures WaitingShrinks(s.hub, AdvanceThread(s, tid, fails).hub)
  {
    hide Hub.Reserve, Hub.Revoke, Hub.Send, Hub.Cancel, Hub.Activate, Hub.Detach, MayEnter;
    hide Load, SendSnapshot, Delete, Commit, Put, Check, Leave, Announce;
    var th := s.threads[tid];
    HubShrinks(s.hub, th.id, th.token, Snapshot(th.snap));
  }

  lemma ReserveMoves(s: Sys, tid: nat)
    requires tid < |s.threads| && s.threads[tid].pc.Reserving?
    ensures TokenMoves(s, Reserve(s, tid), tid) && SlotsMove(s, Reserve(s, tid), tid)
  {
    hide Hub.Blocked;
  }

  lemma ActivateMoves(s: Sys, tid: nat)
    requires tid < |s.threads| && s.threads[tid].pc.Activating? && s.threads[tid].token < |s.hub.links|
    requires s.hub.links[s.threads[tid].token].id == s.threads[tid].id
    ensures TokenMoves(s, Activate(s, tid), tid) && SlotsMove(s, Activate(s, tid), tid)
  {
    hide Hub.Blocked;
  }

  lemma DetachMoves(s: Sys, tid: nat)
    requires tid < |s.threads| && s.threads[tid].token < |s.hub.links|
    requires s.threads[tid].pc.Abandoning? || s.threads[tid].pc.Detaching?
    requires s.hub.links[s.threads[tid].token].id == s.threads[tid].id
    ensures TokenMoves(s, Detach(s, tid), tid) && SlotsMove(s, Detach(s, tid), tid)
  {
  }

  lemma CancelMoves(s: Sys, tid: nat)
    requires tid < |s.threads| && !Owns(s.threads[tid].pc) && s.threads[tid].token < |s.hub.links|
    ensures TokenMoves(s, Cancel(s, tid), tid) && SlotsMove(s, Cancel(s, tid), tid)
  {
  }

  lemma DeleterMoves(s: Sys, tid: nat)
    requires tid < |s.threads| && !Owns(s.threads[tid].pc)
    ensures s.threads[tid].pc.Revoking? ==> TokenMoves(s, Revoke(s, tid), tid) && SlotsMove(s, Revoke(s, tid), tid)
    ensures s.threads[tid].release < |s.hub.revocations| ==>
        TokenMoves(s, Release(s, tid), tid) && SlotsMove(s, Release(s, tid), tid)
  {
    hide Hub.CancelAll, Hub.Waiting;
  }

  lemma SendMoves(s: Sys, tid: nat)
    requires tid < |s.threads| && !Owns(s.threads[tid].pc)
    ensures TokenMoves(s, Send(s, tid), tid) && SlotsMove(s, Send(s, tid), tid)
  {
    hide Hub.Online;
  }

  /** No handler but one at its activation or detach begins or ceases to own a link. */
  ghost predicate SameRole(s: Sys, s': Sys, tid: nat) {
    && OneMoves(s, s', tid) && s'.threads[tid].token == s.threads[tid].token
    && (Streaming(s'.threads[tid].pc) ==> Streaming(s.threads[tid].pc))
    && Owns(s'.threads[tid].pc) == Owns(s.threads[tid].pc)
  }

  lemma ToSameRole(s: Sys, s': Sys, tid: nat, th: Thread)
    requires tid < |s.threads| && s'.threads == s.threads[tid := th]
    requires th.id == s.threads[tid].id && th.token == s.threads[tid].token
    requires (Streaming(th.pc) ==> Streaming(s.threads[tid].pc)) && Owns(th.pc) == Owns(s.threads[tid].pc)
    ensures SameRole(s, s', tid)
  {
    hide Owns, Streaming;
  }

  lemma LoadSameRole(s: Sys, tid: nat, fails: bool)
    requires tid < |s.threads| && s.threads[tid].pc.Loading?
    ensures SameRole(s, Load(s, tid, fails), tid)
  {
    hide SameRole, Hello;
    ToSameRole(s, Load(s, tid, fails), tid, Load(s, tid, fails).threads[tid]);
  }

  lemma SnapshotSameRole(s: Sys, tid: nat, fails: bool)
    requires tid < |s.threads| && s.threads[tid].pc.Snapshotting?
    ensures SameRole(s, SendSnapshot(s, tid, fails), tid)
  {
    hide SameRole;
    ToSameRole(s, SendSnapshot(s, tid, fails), tid, SendSnapshot(s, tid, fails).threads[tid]);
  }

  lemma CheckSameRole(s: Sys, tid: nat, fails: bool)
    requires tid < |s.threads| && s.threads[tid].pc.Checking?
    ensures SameRole(s, Check(s, tid, fails), tid)
  {
    hide SameRole, MarkOffline;
    ToSameRole(s, Check(s, tid, fails), tid, Check(s, tid, fails).threads[tid]);
  }

  lemma DeleteSameRole(s: Sys, tid: nat, fails: bool)
    requires tid < |s.threads| && s.threads[tid].pc.Deleting?
    ensures SameRole(s, Delete(s, tid, fails), tid)
  {
    hide SameRole;
    ToSameRole(s, Delete(s, tid, fails), tid, Delete(s, tid, fails).threads[tid]);
  }

  lemma CommitSameRole(s: Sys, tid: nat, fails: bool)
    requires tid < |s.threads| && s.threads[tid].pc.Committing?
    ensures SameRole(s, Commit(s, tid, fails), tid)
  {
    hide SameRole, SetDesired;
    ToSameRole(s, Commit(s, tid, fails), tid, Commit(s, tid, fails).threads[tid]);
  }

  lemma PutSameRole(s: Sys, tid: nat, fails: bool)
    requires tid < |s.threads| && s.threads[tid].pc.Putting?
    ensures SameRole(s, Put(s, tid, fails), tid)
  {
    hide SameRole;
    ToSameRole(s, Put(s, tid, fails), tid, Put(s, tid, fails).threads[tid]);
  }

  lemma LeaveSameRole(s: Sys, tid: nat)
    requires tid < |s.threads| && s.threads[tid].pc.Leaving? && Guarded(s.threads[tid].pc.kind)
    ensures SameRole(s, Leave(s, tid), tid)
  {
    hide SameRole;
    ToSameRole(s, Leave(s, tid), tid, Leave(s, tid).threads[tid]);
  }

  lemma AnnounceSameRole(s: Sys, tid: nat, kind: EventKind, fails: bool, next: PC)
    requires tid < |s.threads| && (Streaming(next) ==> Streaming(s.threads[tid].pc))
    requires Owns(next) == Owns(s.threads[tid].pc)
    ensures SameRole(s, Announce(s, tid, kind, fails, next), tid)
  {
    hide SameRole;
    ToSameRole(s, Announce(s, tid, kind, fails, next), tid, s.threads[tid].(pc := next));
  }

  lemma GotoSameRole(s: Sys, tid: nat, next: PC)
    requires tid < |s.threads| && (Streaming(next) ==> Streaming(s.threads[tid].pc))
    requires Owns(next) == Owns(s.threads[tid].pc)
    ensures SameRole(s, Goto(s, tid, next), tid) && Goto(s, tid, next).hub == s.hub
  {
    hide SameRole;
    ToSameRole(s, Goto(s, tid, next), tid, s.threads[tid].(pc := next));
  }

  predicate Appends(pc: PC) {
    pc.Failing? || pc.Announcing? || pc.Enrolling? || pc.Starting? || pc.Appending?
  }

  lemma AppendSameRole(s: Sys, tid: nat, fails: bool)
    requires tid < |s.threads| && Appends(s.threads[tid].pc)
    ensures SameRole(s, AdvanceThread(s, tid, fails), tid)
  {
    var pc := s.threads[tid].pc;
    hide Announce, SameRole;
    match pc {
      case Failing => AnnounceSameRole(s, tid, InstallFailed, fails, Deleting);
      case Announcing => AnnounceSameRole(s, tid, Deleted, fails, Releasing);
      case Enrolling(ssh) => AnnounceSameRole(s, tid, Enrolled, fails, if ssh then Starting else Done);
      case Starting => AnnounceSameRole(s, tid, InstallStarted, fails, Working);
      case Appending(kind) => AnnounceSameRole(s, tid, kind, fails, Leaving(kind, true));
      case _ =>
    }
  }

  lemma StoreSameRole(s: Sys, tid: nat, fails: bool)
    requires tid < |s.threads| && ThreadOk(s, tid) && !NeedsMutex(s.threads[tid].pc)
    ensures SameRole(s, AdvanceThread(s, tid, fails), tid)
  {
    var pc := s.threads[tid].pc;
    if Appends(pc) {
      AppendSameRole(s, tid, fails);
    } else {
      assert pc.Leaving? ==> Guarded(pc.kind);
      hide Reserve, Cancel, Activate, Detach, Revoke, Release, Send, Enter, Load, SendSnapshot, Check, Delete, Commit;
      hide Put, Leave, Announce, SameRole, ThreadOk;
      match pc {
        case Working => GotoSameRole(s, tid, if fails then Revoking(true) else Entering(InstallSucceeded));
        case Loading => LoadSameRole(s, tid, fails);
        case Snapshotting => SnapshotSameRole(s, tid, fails);
        case Checking(_) => CheckSameRole(s, tid, fails);
        case Deleting => DeleteSameRole(s, tid, fails);
        case Committing => CommitSameRole(s, tid, fails);
        case Putting(_) => PutSameRole(s, tid, fails);
        case Leaving(_, _) => LeaveSameRole(s, tid);
        case Serving => ToSameRole(s, s, tid, s.threads[tid]);
        case Done => ToSameRole(s, s, tid, s.threads[tid]);
        case _ =>
      }
    }
  }

  lemma EnterSameRole(s: Sys, tid: nat)
    requires tid < |s.threads| && s.threads[tid].pc.Entering? && GuardKindOk(s.threads[tid].pc)
    ensures SameRole(s, Enter(s, tid), tid) && Enter(s, tid).hub == s.hub
  {
    hide MayEnter;
  }

  lemma ForwardSameRole(s: Sys, tid: nat, fails: bool)
    requires InServing(s, tid)
    ensures
      var s' := Forwarded(s, tid, fails);
      && SameRole(s, s', tid) && s'.hub.connections == s.hub.connections
      && s'.hub.waiting == s.hub.waiting && |s'.hub.links| == |s.hub.links|
  {
  }

  lemma TakenSameRole(s: Sys, tid: nat, fails: bool)
    requires InServing(s, tid)
    ensures SameRole(s, StatusTaken(s, tid, fails), tid) && StatusTaken(s, tid, fails).hub == s.hub
  {
    hide ApplyStatus, SameRole;
    ToSameRole(s, StatusTaken(s, tid, fails), tid, StatusTaken(s, tid, fails).threads[tid]);
  }

  lemma MetersSameRole(s: Sys, tid: nat, fails: bool)
    requires InServing(s, tid)
    ensures SameRole(s, MetersTaken(s, tid, fails), tid) && MetersTaken(s, tid, fails).hub == s.hub
  {
    hide SameRole, Goto;
    GotoSameRole(s, tid, if fails || s.threads[tid].id !in s.store then Detaching else Entering(TrafficUpdated));
  }

  lemma ServeSameRole(s: Sys, a: Action)
    requires (a.Forward? || a.TakeStatus? || a.TakeMeters? || a.Quit?) && InServing(s, a.tid)
    ensures
      var s' := Next(s, a);
      && SameRole(s, s', a.tid) && s'.hub.connections == s.hub.connections
      && s'.hub.waiting == s.hub.waiting && |s'.hub.links| == |s.hub.links|
  {
    hide SameRole, Forwarded, StatusTaken, MetersTaken, Goto, AdvanceThread;
    match a {
      case Forward(tid, fails) => ForwardSameRole(s, tid, fails);
      case TakeStatus(tid, fails) => TakenSameRole(s, tid, fails);
      case TakeMeters(tid, fails) => MetersSameRole(s, tid, fails);
      case Quit(tid) => GotoSameRole(s, tid, Detaching);
      case _ =>
    }
  }

  // ---- every step ----

  lemma MutexAttended(s: Sys, tid: nat, fails: bool)
    requires Safe(s) && Attended(s) && tid < |s.threads| && NeedsMutex(s.threads[tid].pc)
    ensures Attended(AdvanceThread(s, tid, fails))
  {
    var s', th := AdvanceThread(s, tid, fails), s.threads[tid];
    MutexShrinks(s, tid, fails);
    assert ThreadOk(s, tid) && Past(s, th);
    hide Safe, Base, LogOk, AttachedEnrolled, Threads, Attended, TokenMoves, SlotsMove, WaitingShrinks, Owner, Past;
    hide Reserve, Cancel, Activate, Detach, Revoke, Release, Send, Enter, Load, SendSnapshot, Delete, Commit, Put;
    hide Check, Leave, Announce, Hub.HubInv;
    if s' != s {
      match th.pc {
        case Reserving => ReserveMoves(s, tid);
        case Canceling => CancelMoves(s, tid);
        case Activating => ActivateMoves(s, tid);
        case Abandoning => DetachMoves(s, tid);
        case Detaching => DetachMoves(s, tid);
        case Revoking(rollback) => DeleterMoves(s, tid);
        case Releasing => DeleterMoves(s, tid);
        case Sending => SendMoves(s, tid);
        case Entering(kind) => EnterSameRole(s, tid); SameRoleMoves(s, s', tid);
        case _ =>
      }
      hide AdvanceThread;
      AttendedThreads(s);
      MoveAttended(s, s', tid);
    }
  }

  lemma AttendedThreads(s: Sys)
    requires Safe(s)
    ensures Threads(s)
  {
  }

  lemma SameRoleMoves(s: Sys, s': Sys, tid: nat)
    requires SameRole(s, s', tid) && Past(s, s.threads[tid])
    requires s'.hub.connections == s.hub.connections && |s.hub.links| == |s'.hub.links|
    requires WaitingShrinks(s.hub, s'.hub)
    ensures TokenMoves(s, s', tid) && SlotsMove(s, s', tid)
  {
    hide Owns, Streaming;
  }

  lemma AdvanceAttended(s: Sys, tid: nat, fails: bool)
    requires Safe(s) && Attended(s) && tid < |s.threads|
    ensures Attended(AdvanceThread(s, tid, fails))
  {
    if NeedsMutex(s.threads[tid].pc) {
      MutexAttended(s, tid, fails);
    } else {
      assert ThreadOk(s, tid) && Past(s, s.threads[tid]);
      StoreSameRole(s, tid, fails);
      StoreKeepsHub(s, tid, fails);
      hide AdvanceThread, Safe, Base, LogOk, Threads, Attended, ThreadOk, SameRole, Past, Hub.HubInv;
      SameRoleMoves(s, AdvanceThread(s, tid, fails), tid);
      AttendedThreads(s);
      MoveAttended(s, AdvanceThread(s, tid, fails), tid);
    }
  }

  lemma ServeAttended(s: Sys, a: Action)
    requires Safe(s) && Attended(s) && (a.Forward? || a.TakeStatus? || a.TakeMeters? || a.Quit?)
    ensures Attended(Next(s, a))
  {
    hide Safe, Base, LogOk, ThreadOk, Hub.HubInv, Forwarded, StatusTaken, MetersTaken, AdvanceThread;
    if InServing(s, a.tid) {
      assert Past(s, s.threads[a.tid]);
      ServeSameRole(s, a);
      hide Next, SameRole, Past, Attended;
      SameRoleMoves(s, Next(s, a), a.tid);
      AttendedThreads(s);
      MoveAttended(s, Next(s, a), a.tid);
    }
  }

  /** A new handler, or a step of an agent or peer, which only touches what a handler is to read. */
  lemma OthersAttended(s: Sys, s': Sys)
    requires Attended(s) && s'.hub == s.hub && |s.threads| <= |s'.threads| <= |s.threads| + 1
    requires forall i: nat | i < |s.threads| :: s'.threads[i] == s.threads[i].(uplink := s'.threads[i].uplink)
    requires |s'.threads| > |s.threads| ==>
      !Streaming(s'.threads[|s.threads|].pc) && !Owns(s'.threads[|s.threads|].pc)
    ensures Attended(s')
  {
    forall i: nat | i < |s.threads| ensures Past(s', s'.threads[i]) {
      assert Past(s, s.threads[i]);
    }
    forall id | id in s'.hub.connections ensures exists i: nat :: Owner(s', i, id) {
      var i: nat :| Owner(s, i, id);
      assert Owner(s', i, id);
    }
  }

  lemma PeerSteps(s: Sys, a: Action)
    requires !a.Advance? && !a.Forward? && !a.TakeStatus? && !a.TakeMeters? && !a.Quit?
    ensures
      var s' := Next(s, a);
      && s'.hub == s.hub && |s.threads| <= |s'.threads| <= |s.threads| + 1
      && (forall i: nat | i < |s.threads| :: s'.threads[i] == s.threads[i].(uplink := s'.threads[i].uplink))
      && (|s'.threads| > |s.threads| ==>
            !Streaming(s'.threads[|s.threads|].pc) && !Owns(s'.threads[|s.threads|].pc))
  {
    hide Reconcile, Report;
  }

  lemma NextAttended(s: Sys, a: Action)
    requires Safe(s) && Attended(s)
    ensures Attended(Next(s, a))
  {
    if a.Advance? {
      if a.tid < |s.threads| { AdvanceAttended(s, a.tid, a.fails); }
      hide Attended, AdvanceThread, Safe;
    } else if a.Forward? || a.TakeStatus? || a.TakeMeters? || a.Quit? {
      ServeAttended(s, a);
      hide *;
    } else {
      PeerSteps(s, a);
      hide *;
      OthersAttended(s, Next(s, a));
    }
  }

  lemma {:induction false} RunAttended(env: Env, actions: seq<Action>)
    ensures Attended(Run(env, actions))
  {
    hide Attended, Next, Safe;
    if actions == [] {
      assert Attended(Initial(env)) by { NoneAttended(env); }
    } else {
      RunAttended(env, actions[..|actions| - 1]);
      RunSafe(env, actions[..|actions| - 1]);
      NextAttended(Run(env, actions[..|actions| - 1]), actions[|actions| - 1]);
    }
  }

  lemma {:induction false} NoneAttended(env: Env)
    ensures Attended(Initial(env))
  {
  }

  // ---- what that means ----

  /** In every run an attached link is the token of exactly one handler, and that one has activated it and not yet
      detached; so none that is past its detach has its link attached. */
  lemma {:induction false} AttachedHasHandler(env: Env, actions: seq<Action>, id: Id)
    requires id in Run(env, actions).hub.connections
    ensures
      var s := Run(env, actions);
      && (exists tid: nat :: Owner(s, tid, id))
      && (forall tid: nat | tid < |s.threads| && Streaming(s.threads[tid].pc)
            && s.threads[tid].token == s.hub.connections[id] :: Owner(s, tid, id))
  {
    RunAttended(env, actions);
    hide Run;
    var s := Run(env, actions);
    var o: nat :| Owner(s, o, id);
    assert Streaming(s.threads[o].pc);
    forall tid: nat | tid < |s.threads| && Streaming(s.threads[tid].pc)
            && s.threads[tid].token == s.hub.connections[id]
      ensures tid == o
    {
    }
  }

  /** A handler that detaches leaves its link in no slot, and closed if it was in one, however the run goes on. */
  lemma {:induction false} DetachedForGood(env: Env, before: seq<Action>, later: seq<Action>, tid: nat, fails: bool)
    requires
      var s := Run(env, before);
      tid < |s.threads| && (s.threads[tid].pc.Detaching? || s.threads[tid].pc.Abandoning?) && s.lock == None
    ensures
      var s, s' := Run(env, before), Run(env, before + [Advance(tid, fails)]);
      var h, t := Run(env, before + [Advance(tid, fails)] + later).hub, s.threads[tid].token;
      && (forall i | i in h.connections :: h.connections[i] != t)
      && tid < |s'.threads| && t < |s'.hub.links| && (Hub.Attached(s.hub, t) ==> s'.hub.links[t].closed)
      && (s'.threads[tid].pc == if s.threads[tid].pc.Detaching? && Hub.Attached(s.hub, t)
                               then Entering(Disconnected) else Done)
  {
    var s, step := Run(env, before), Advance(tid, fails);
    RunSafe(env, before);
    RunAttended(env, before);
    assert ThreadOk(s, tid) && Past(s, s.threads[tid]);
    RunNext(env, before, step);
    hide Run;
    DetachIsGone(s, tid, fails);
    GoneForever(env, before + [step], later, s.threads[tid].token);
  }

  lemma DetachIsGone(s: Sys, tid: nat, fails: bool)
    requires tid < |s.threads| && (s.threads[tid].pc.Detaching? || s.threads[tid].pc.Abandoning?) && s.lock == None
    requires s.threads[tid].token < |s.hub.links| && s.threads[tid].token !in s.hub.waiting && Hub.HubInv(s.hub)
    ensures
      var s', t := Next(s, Advance(tid, fails)), s.threads[tid].token;
      && Gone(s'.hub, t) && tid < |s'.threads| && (Hub.Attached(s.hub, t) ==> s'.hub.links[t].closed)
      && (s'.threads[tid].pc == if s.threads[tid].pc.Detaching? && Hub.Attached(s.hub, t)
                               then Entering(Disconnected) else Done)
  {
    hide Reserve, Cancel, Activate, Revoke, Release, Send, Enter, Load, SendSnapshot, Delete, Commit, Put, Check, Leave;
    hide Announce;
  }
}
