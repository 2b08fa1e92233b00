/** What every interleaving keeps: streams are attached only to enrolled instances, and deletion is final. */
module ControlSafety {
  import opened Prelude
  import opened Records
  import opened AgentState
  import opened Control
  import Hub = HubSpec

  // ---- regions of a handler ----

  predicate StreamKind(kind: EventKind) {
    kind.Connected? || kind.Disconnected? || kind.StatusReported? || kind.TrafficUpdated?
  }

  /** A Connect handler that holds a reservation. */
  predicate Streaming(pc: PC) {
    match pc
    case Loading => true
    case Canceling => true
    case Activating => true
    case Abandoning => true
    case Snapshotting => true
    case Serving => true
    case Detaching => true
    case Entering(kind) => StreamKind(kind)
    case Checking(kind) => StreamKind(kind)
    case Appending(kind) => StreamKind(kind)
    case Leaving(kind, ok) => StreamKind(kind)
    case _ => false
  }

  /** A deleter that has revoked and not yet released. */
  predicate Holding(pc: PC) {
    pc.Failing? || pc.Deleting? || pc.Announcing? || pc.Releasing?
  }

  predicate InGuard(pc: PC) {
    pc.Checking? || pc.Appending? || pc.Leaving?
  }

  /** Kinds that are published only about enrolled instances. */
  predicate Guarded(kind: EventKind) {
    kind.Connected? || kind.Disconnected? || kind.StatusReported? || kind.TrafficUpdated? || kind.DesiredChanged?
    || kind.InstallSucceeded?
  }

  /** Guarded sections publish nothing else. */
  predicate GuardKindOk(pc: PC) {
    match pc
    case Entering(kind) => Guarded(kind)
    case Checking(kind) => Guarded(kind)
    case Appending(kind) => Guarded(kind)
    case Leaving(kind, ok) => Guarded(kind)
    case _ => true
  }

  // ---- the invariant ----

  /** What each handler may rely on, wherever it stands. */
  ghost predicate ThreadOk(s: Sys, tid: nat)
    requires tid < |s.threads|
  {
    var th := s.threads[tid];
    && GuardKindOk(th.pc)
    // its reservation was made for its identity
    && (Streaming(th.pc) ==> th.token < |s.hub.links| && s.hub.links[th.token].id == th.id)
    // between its Revoke and its release it owns an unreleased revocation
    && (Holding(th.pc) ==>
          th.release < |s.hub.revocations| && s.hub.revocations[th.release] == Hub.Revocation(th.id, false))
    // it holds the mutex exactly while inside a guarded section, and what it checked on entry stays so
    && (InGuard(th.pc) <==> s.lock == Some(tid))
    && (th.pc.Checking? || th.pc.Appending? ==> !Hub.Blocked(s.hub, th.id))
    // if it may still attach, or is about to publish under a guard, its instance is enrolled
    && (th.pc.Activating? && th.token in s.hub.waiting ==> th.id in s.store)
    && (th.pc.Appending? ==> th.id in s.store)
  }

  ghost predicate Threads(s: Sys) {
    && (forall tid: nat | tid < |s.threads| :: ThreadOk(s, tid))
    && (forall i: nat, j: nat | i < j < |s.threads| && Holding(s.threads[i].pc) && Holding(s.threads[j].pc) ::
          s.threads[i].release != s.threads[j].release)
    && (s.lock.Some? ==> s.lock.value < |s.threads|)
  }

  /** Whoever is attached is enrolled. */
  ghost predicate AttachedEnrolled(s: Sys) {
    s.hub.connections.Keys <= s.store.Keys
  }

  ghost predicate Base(s: Sys) {
    Hub.HubInv(s.hub) && Threads(s) && AttachedEnrolled(s)
  }

  // ---- one handler moves ----

  /** Links only grow, none starts waiting anew, and no revocation is released but the one numbered `released`. */
  ghost predicate HubMoves(h: Hub.HubState, h': Hub.HubState, released: int) {
    && |h.links| <= |h'.links| && |h.revocations| <= |h'.revocations|
    && (forall t: nat | t < |h.links| :: h'.links[t].id == h.links[t].id)
    && (forall t: nat | t in h'.waiting && t < |h.links| :: t in h.waiting)
    && (forall k: nat | k < |h.revocations| && k != released :: h'.revocations[k] == h.revocations[k])
  }

  ghost predicate Moves(s: Sys, s': Sys, tid: nat) {
    && tid < |s.threads| && |s'.threads| == |s.threads|
    && s'.threads == s.threads[tid := s'.threads[tid]] && s'.threads[tid].id == s.threads[tid].id
    && (s'.hub == s.hub
        || HubMoves(s.hub, s'.hub, if Holding(s'.threads[tid].pc) then -1 else s.threads[tid].release))
    && (s'.hub.revocations == s.hub.revocations
        || (s.lock == None && (Holding(s.threads[tid].pc) || Holding(s'.threads[tid].pc))))
    && (s'.lock == s.lock || s.lock == None || s.lock == Some(tid)) &&
         (s'.lock == s.lock || s'.lock == Some(tid) || s'.lock == None)
    && AttachedEnrolled(s')
    && (forall id | id in s.store && id !in s'.store :: Hub.Blocked(s.hub, id))
    && ThreadOk(s', tid)
    && (Holding(s'.threads[tid].pc) ==>
          s'.threads[tid].release == |s.hub.revocations|
          || (Holding(s.threads[tid].pc) && s'.threads[tid].release == s.threads[tid].release))
  }

  lemma OtherOk(s: Sys, s': Sys, tid: nat, i: nat)
    requires Hub.HubInv(s.hub) && Threads(s) && Moves(s, s', tid) && i < |s.threads| && i != tid
    ensures s'.threads[i] == s.threads[i] && ThreadOk(s', i)
    ensures Holding(s.threads[i].pc) && Holding(s'.threads[tid].pc) ==> s'.threads[tid].release != s.threads[i].release
  {
    var th := s.threads[i];
    assert ThreadOk(s, i) && ThreadOk(s, tid);
    if Holding(th.pc) && Holding(s.threads[tid].pc) {
      assert th.release != s.threads[tid].release;
    }
  }

  lemma MovesKeepBase(s: Sys, s': Sys, tid: nat)
    requires Base(s) && Moves(s, s', tid) && Hub.HubInv(s'.hub)
    ensures Base(s')
  {
    forall i: nat | i < |s.threads|
      ensures ThreadOk(s', i)
      ensures i != tid ==> s'.threads[i] == s.threads[i]
      ensures i != tid && Holding(s.threads[i].pc) && Holding(s'.threads[tid].pc) ==>
        s'.threads[tid].release != s.threads[i].release
    {
      if i != tid {
        OtherOk(s, s', tid, i);
      }
    }
  }

  // ---- every step is such a move ----

  ghost predicate At(s: Sys, tid: nat, free: bool) {
    AttachedEnrolled(s) && tid < |s.threads| && ThreadOk(s, tid) && (free ==> s.lock == None)
  }

  ghost predicate Good(s: Sys, s': Sys, tid: nat) {
    Moves(s, s', tid) && Hub.HubInv(s'.hub)
  }

  lemma ReservedHub(h: Hub.HubState, id: Id, released: int)
    requires Hub.HubInv(h)
    ensures
      var (h', r) := Hub.Reserve(h, id);
      && Hub.HubInv(h') && HubMoves(h, h', released) && h'.revocations == h.revocations &&
           h'.connections == h.connections
      && (r.None? ==> h' == h) && (r.Some? ==> r.value < |h'.links| && h'.links[r.value].id == id)
  {
    Hub.ReserveOwned(h, id);
    hide Hub.HubInv, Hub.Blocked;
  }

  lemma ReserveGood(s: Sys, tid: nat)
    requires Hub.HubInv(s.hub) && At(s, tid, true) && s.threads[tid].pc.Reserving?
    ensures Good(s, Reserve(s, tid), tid)
  {
    ReservedHub(s.hub, s.threads[tid].id, s.threads[tid].release);
    hide Hub.HubInv, Hub.Reserve, HubMoves, Hub.Blocked;
    if Hub.Reserve(s.hub, s.threads[tid].id).1.Some? {
      assert Reserve(s, tid).threads[tid].pc == Loading;
    } else {
      assert Reserve(s, tid).threads[tid].pc == Done;
    }
  }

  lemma CancelGood(s: Sys, tid: nat)
    requires Hub.HubInv(s.hub) && At(s, tid, true) && s.threads[tid].pc.Canceling?
    ensures Good(s, Cancel(s, tid), tid)
  {
    Hub.CancelOwned(s.hub, s.threads[tid].token);
  }

  /** The crux: a reservation that still waits when it is activated was never revoked, so its record is still there. */
  lemma ActivateGood(s: Sys, tid: nat)
    requires Hub.HubInv(s.hub) && At(s, tid, true) && s.threads[tid].pc.Activating?
    ensures Good(s, Activate(s, tid), tid)
  {
    Hub.ActivateOwned(s.hub, s.threads[tid].token);
  }

  lemma DetachGood(s: Sys, tid: nat)
    requires Hub.HubInv(s.hub) && At(s, tid, true) && (s.threads[tid].pc.Abandoning? || s.threads[tid].pc.Detaching?)
    ensures Good(s, Detach(s, tid), tid)
  {
    Hub.DetachOwned(s.hub, s.threads[tid].token);
  }

  lemma RevokeGood(s: Sys, tid: nat)
    requires Hub.HubInv(s.hub) && At(s, tid, true) && s.threads[tid].pc.Revoking?
    ensures Good(s, Revoke(s, tid), tid)
  {
    Hub.RevokeOwned(s.hub, s.threads[tid].id);
  }

  lemma ReleaseGood(s: Sys, tid: nat)
    requires Hub.HubInv(s.hub) && At(s, tid, true) && s.threads[tid].pc.Releasing?
    ensures Good(s, Release(s, tid), tid)
  {
    Hub.ReleaseOwned(s.hub, s.threads[tid].release);
  }

  lemma SendGood(s: Sys, tid: nat)
    requires Hub.HubInv(s.hub) && At(s, tid, true) && s.threads[tid].pc.Sending?
    ensures Good(s, Send(s, tid), tid)
  {
    Hub.SendOwned(s.hub, s.threads[tid].id, Snapshot(s.threads[tid].snap));
  }

  lemma EnterGood(s: Sys, tid: nat)
    requires At(s, tid, true) && s.threads[tid].pc.Entering?
    ensures Moves(s, Enter(s, tid), tid) && Enter(s, tid).hub == s.hub
  {
    hide Hub.Blocked, Hub.Online;
    var s' := Enter(s, tid);
    var kind := s.threads[tid].pc.kind;
    if MayEnter(s, kind, s.threads[tid].id) {
      assert s'.threads[tid].pc == Checking(kind);
    } else {
      assert s'.lock == s.lock && s'.threads[tid].pc == After(kind, false);
    }
  }

  lemma LoadGood(s: Sys, tid: nat, fails: bool)
    requires At(s, tid, false) && s.threads[tid].pc.Loading?
    ensures Moves(s, Load(s, tid, fails), tid) && Load(s, tid, fails).hub == s.hub
  {
    hide Hello;
  }

  lemma SendSnapshotGood(s: Sys, tid: nat, fails: bool)
    requires At(s, tid, false) && s.threads[tid].pc.Snapshotting?
    ensures Moves(s, SendSnapshot(s, tid, fails), tid) && SendSnapshot(s, tid, fails).hub == s.hub
  {
    var s' := SendSnapshot(s, tid, fails);
    assert s'.threads[tid].pc in {Serving, Detaching};
    hide SendSnapshot, HubMoves, Hub.Blocked;
  }

  /** A deletion removes a record only under its own unreleased revocation. */
  lemma DeleteGood(s: Sys, tid: nat, fails: bool)
    requires Hub.HubInv(s.hub) && At(s, tid, false) && s.threads[tid].pc.Deleting?
    ensures Moves(s, Delete(s, tid, fails), tid) && Delete(s, tid, fails).hub == s.hub
  {
    var th, s' := s.threads[tid], Delete(s, tid, fails);
    assert s.hub.revocations[th.release] == Hub.Revocation(th.id, false);
    assert th.id !in s.hub.connections;
    assert s'.lock == s.lock && Holding(s'.threads[tid].pc) && !Streaming(s'.threads[tid].pc);
  }

  lemma CommitGood(s: Sys, tid: nat, fails: bool)
    requires At(s, tid, false) && s.threads[tid].pc.Committing?
    ensures Moves(s, Commit(s, tid, fails), tid) && Commit(s, tid, fails).hub == s.hub
  {
    hide SetDesired;
  }

  lemma PutGood(s: Sys, tid: nat, fails: bool)
    requires At(s, tid, false) && s.threads[tid].pc.Putting?
    ensures Moves(s, Put(s, tid, fails), tid) && Put(s, tid, fails).hub == s.hub
  {
  }

  lemma CheckGood(s: Sys, tid: nat, fails: bool)
    requires At(s, tid, false) && s.threads[tid].pc.Checking?
    ensures Moves(s, Check(s, tid, fails), tid) && Check(s, tid, fails).hub == s.hub
  {
    hide MarkOffline;
  }

  lemma LeaveGood(s: Sys, tid: nat)
    requires At(s, tid, false) && s.threads[tid].pc.Leaving?
    ensures Moves(s, Leave(s, tid), tid) && Leave(s, tid).hub == s.hub
  {
  }

  /** Appending an event, or moving on without one. */
  lemma AnnounceGood(s: Sys, tid: nat, kind: EventKind, fails: bool, next: PC)
    requires At(s, tid, false)
    requires Streaming(next) ==> Streaming(s.threads[tid].pc)
    requires Holding(next) ==> Holding(s.threads[tid].pc)
    requires InGuard(next) <==> InGuard(s.threads[tid].pc)
    requires GuardKindOk(next) && !next.Checking? && !next.Appending? && !next.Activating?
    ensures Moves(s, Announce(s, tid, kind, fails, next), tid) && Announce(s, tid, kind, fails, next).hub == s.hub
  {
  }

  lemma ForwardGood(s: Sys, tid: nat, fails: bool)
    requires Hub.HubInv(s.hub) && At(s, tid, false) && InServing(s, tid)
    ensures Good(s, Forwarded(s, tid, fails), tid)
  {
    if s.hub.links[s.threads[tid].token].buffer != [] {
      Hub.TakeOwned(s.hub, s.threads[tid].token);
    }
  }

  lemma StatusGood(s: Sys, tid: nat, fails: bool)
    requires At(s, tid, false) && InServing(s, tid)
    ensures Moves(s, StatusTaken(s, tid, fails), tid) && StatusTaken(s, tid, fails).hub == s.hub
  {
    hide ApplyStatus;
  }

  lemma MetersGood(s: Sys, tid: nat, fails: bool)
    requires At(s, tid, false) && InServing(s, tid)
    ensures Moves(s, MetersTaken(s, tid, fails), tid) && MetersTaken(s, tid, fails).hub == s.hub
  {
  }

  lemma GotoGood(s: Sys, tid: nat, pc: PC)
    requires At(s, tid, false)
    requires Streaming(pc) ==> Streaming(s.threads[tid].pc)
    requires GuardKindOk(pc) && !Holding(pc) && !InGuard(pc) && !InGuard(s.threads[tid].pc) && !pc.Activating?
    ensures Moves(s, Goto(s, tid, pc), tid) && Goto(s, tid, pc).hub == s.hub
  {
  }

  // ---- the log ----

  ghost predicate Final(log: seq<Event>) {
    forall i, j | 0 <= i < j < |log| && log[i].kind == Deleted && log[j].id == log[i].id ::
      !Guarded(log[j].kind) && log[j].kind != Deleted
  }

  predicate DeletedIn(log: seq<Event>, id: Id) {
    Event(Deleted, id) in log
  }

  ghost predicate LogOk(s: Sys) {
    && s.store.Keys <= s.used
    && Final(s.log)
    && (forall e | e in s.log && e.kind == Deleted :: e.id in s.used && e.id !in s.store)
    && (forall tid: nat | tid < |s.threads| && s.threads[tid].pc.Announcing? ::
          s.threads[tid].id in s.used && s.threads[tid].id !in s.store && !DeletedIn(s.log, s.threads[tid].id))
    && (forall i: nat, j: nat | i < j < |s.threads| && s.threads[i].pc.Announcing? && s.threads[j].pc.Announcing? ::
          s.threads[i].id != s.threads[j].id)
  }

  ghost predicate OneMoves(s: Sys, s': Sys, tid: nat) {
    && tid < |s.threads| && |s'.threads| == |s.threads| && s'.threads[tid].id == s.threads[tid].id
    && (forall i: nat | i < |s.threads| && i != tid :: s'.threads[i] == s.threads[i])
  }

  lemma QuietLog(s: Sys, s': Sys, tid: nat)
    requires LogOk(s) && OneMoves(s, s', tid)
    requires s'.log == s.log && s'.used == s.used && s'.store.Keys == s.store.Keys && !s'.threads[tid].pc.Announcing?
    ensures LogOk(s')
  {
  }

  lemma PutLog(s: Sys, s': Sys, tid: nat)
    requires LogOk(s) && OneMoves(s, s', tid)
    requires s.threads[tid].id !in s.used && s'.used == s.used + {s.threads[tid].id}
    requires s'.log == s.log && s'.store.Keys == s.store.Keys + {s.threads[tid].id} && !s'.threads[tid].pc.Announcing?
    ensures LogOk(s')
  {
  }

  lemma DeleteLog(s: Sys, s': Sys, tid: nat)
    requires LogOk(s) && OneMoves(s, s', tid)
    requires s'.log == s.log && s'.used == s.used
    requires s.threads[tid].id in s.store && s'.store.Keys == s.store.Keys - {s.threads[tid].id}
    ensures LogOk(s')
  {
  }

  lemma AppendLog(s: Sys, s': Sys, tid: nat, kind: EventKind)
    requires LogOk(s) && OneMoves(s, s', tid)
    requires s'.store == s.store && s'.used == s.used && s'.log == s.log + [Event(kind, s.threads[tid].id)]
    requires !s'.threads[tid].pc.Announcing?
    requires kind == Deleted ==> s.threads[tid].pc.Announcing?
    requires Guarded(kind) ==> s.threads[tid].id in s.store
    ensures LogOk(s')
  {
    forall i | 0 <= i < |s.log| && s.log[i].kind == Deleted && s.log[i].id == s.threads[tid].id
      ensures !Guarded(kind) && kind != Deleted
    {
      assert s.log[i] == Event(Deleted, s.threads[tid].id);
      assert s.log[i] in s.log;
    }
  }

  // ---- whole runs ----

  ghost predicate Safe(s: Sys) {
    Base(s) && LogOk(s)
  }

  lemma AtThread(s: Sys, tid: nat)
    requires Safe(s) && tid < |s.threads|
    ensures At(s, tid, s.lock == None) && Hub.HubInv(s.hub)
  {
  }

  /** Log, enrolment and identities in use stay as they are. */
  ghost predicate Quiet(s: Sys, s': Sys, tid: nat) {
    && s'.log == s.log && s'.used == s.used && s'.store.Keys == s.store.Keys
    && tid < |s'.threads| && !s'.threads[tid].pc.Announcing?
  }

  lemma SettleQuiet(s: Sys, s': Sys, tid: nat)
    requires Safe(s) && Moves(s, s', tid) && Hub.HubInv(s'.hub) && Quiet(s, s', tid)
    ensures Safe(s')
  {
    MovesKeepBase(s, s', tid);
    QuietLog(s, s', tid);
  }

  predicate QuietPC(pc: PC) {
    NeedsMutex(pc) || pc.Loading? || pc.Snapshotting? || pc.Committing? || pc.Working? || pc.Checking? || pc.Leaving?
  }

  lemma MutexQuiet(s: Sys, tid: nat, fails: bool)
    requires tid < |s.threads| && NeedsMutex(s.threads[tid].pc)
    ensures Quiet(s, AdvanceThread(s, tid, fails), tid)
  {
    hide Hub.Reserve, Hub.Cancel, Hub.Activate, Hub.Detach, Hub.Revoke, Hub.Release, Hub.Send, MayEnter;
    hide Load, SendSnapshot, Delete, Commit, Put, Check, Leave, Announce;
  }

  lemma StoreQuiet(s: Sys, tid: nat, fails: bool)
    requires tid < |s.threads| && QuietPC(s.threads[tid].pc) && !NeedsMutex(s.threads[tid].pc)
    ensures Quiet(s, AdvanceThread(s, tid, fails), tid)
  {
    hide Reserve, Cancel, Activate, Detach, Revoke, Release, Send, Enter, Delete, Put, Announce, SetDesired, Hello;
    hide MarkOffline;
  }

  lemma HubStepSafe(s: Sys, tid: nat, fails: bool)
    requires Safe(s) && tid < |s.threads| && NeedsMutex(s.threads[tid].pc)
    ensures Safe(AdvanceThread(s, tid, fails))
  {
    hide Base, LogOk, Moves, ThreadOk, Quiet, AttachedEnrolled;
    hide Reserve, Cancel, Activate, Detach, Revoke, Release, Send, Enter, Load, SendSnapshot, Delete, Commit, Put;
    hide Check, Leave, Announce;
    var s' := AdvanceThread(s, tid, fails);
    AtThread(s, tid);
    MutexQuiet(s, tid, fails);
    if s' != s {
      match s.threads[tid].pc {
        case Reserving => ReserveGood(s, tid);
        case Canceling => CancelGood(s, tid);
        case Activating => ActivateGood(s, tid);
        case Abandoning => DetachGood(s, tid);
        case Detaching => DetachGood(s, tid);
        case Revoking(rollback) => RevokeGood(s, tid);
        case Releasing => ReleaseGood(s, tid);
        case Sending => SendGood(s, tid);
        case Entering(kind) => EnterGood(s, tid);
        case _ =>
      }
      SettleQuiet(s, s', tid);
    }
  }

  lemma StoreStepSafe(s: Sys, tid: nat, fails: bool)
    requires Safe(s) && tid < |s.threads| && QuietPC(s.threads[tid].pc) && !NeedsMutex(s.threads[tid].pc)
    ensures Safe(AdvanceThread(s, tid, fails))
  {
    hide Base, LogOk, Moves, Quiet, AttachedEnrolled;
    hide Reserve, Cancel, Activate, Detach, Revoke, Release, Send, Enter, Load, SendSnapshot, Delete, Commit, Put;
    hide Check, Leave, Announce;
    var s' := AdvanceThread(s, tid, fails);
    AtThread(s, tid);
    StoreQuiet(s, tid, fails);
    match s.threads[tid].pc {
      case Loading => LoadGood(s, tid, fails);
      case Snapshotting => SendSnapshotGood(s, tid, fails);
      case Committing => CommitGood(s, tid, fails);
      case Working => GotoGood(s, tid, if fails then Revoking(true) else Entering(InstallSucceeded));
      case Checking(kind) => CheckGood(s, tid, fails);
      case Leaving(kind, ok) => LeaveGood(s, tid);
      case _ =>
    }
    SettleQuiet(s, s', tid);
  }

  lemma EnrolStepSafe(s: Sys, tid: nat, fails: bool)
    requires Safe(s) && tid < |s.threads| && s.threads[tid].pc.Putting?
    ensures Safe(AdvanceThread(s, tid, fails))
  {
    hide Base, LogOk, Moves, ThreadOk, AttachedEnrolled;
    var s' := AdvanceThread(s, tid, fails);
    AtThread(s, tid);
    PutGood(s, tid, fails);
    MovesKeepBase(s, s', tid);
    if fails || s.threads[tid].id in s.used { QuietLog(s, s', tid); } else { PutLog(s, s', tid); }
  }

  lemma DeleteStepSafe(s: Sys, tid: nat, fails: bool)
    requires Safe(s) && tid < |s.threads| && s.threads[tid].pc.Deleting?
    ensures Safe(AdvanceThread(s, tid, fails))
  {
    hide Base, LogOk, Moves, ThreadOk, AttachedEnrolled;
    var s' := AdvanceThread(s, tid, fails);
    AtThread(s, tid);
    DeleteGood(s, tid, fails);
    MovesKeepBase(s, s', tid);
    if fails || s.threads[tid].id !in s.store { QuietLog(s, s', tid); } else { DeleteLog(s, s', tid); }
  }

  lemma AnnounceSafe(s: Sys, tid: nat, kind: EventKind, fails: bool, next: PC)
    requires Safe(s) && tid < |s.threads|
    requires Streaming(next) ==> Streaming(s.threads[tid].pc)
    requires Holding(next) ==> Holding(s.threads[tid].pc)
    requires InGuard(next) <==> InGuard(s.threads[tid].pc)
    requires GuardKindOk(next) && !next.Checking? && !next.Appending? && !next.Activating? && !next.Announcing?
    requires kind == Deleted ==> s.threads[tid].pc.Announcing?
    requires Guarded(kind) ==> s.threads[tid].pc.Appending?
    ensures Safe(Announce(s, tid, kind, fails, next))
  {
    hide Base, LogOk, Moves, AttachedEnrolled;
    var s' := Announce(s, tid, kind, fails, next);
    AtThread(s, tid);
    AnnounceGood(s, tid, kind, fails, next);
    MovesKeepBase(s, s', tid);
    if fails { QuietLog(s, s', tid); } else { AppendLog(s, s', tid, kind); }
  }

  lemma AppendStepSafe(s: Sys, tid: nat, fails: bool)
    requires Safe(s) && tid < |s.threads|
    requires
      var pc := s.threads[tid].pc;
      pc.Failing? || pc.Announcing? || pc.Enrolling? || pc.Starting? || pc.Appending?
    ensures Safe(AdvanceThread(s, tid, fails))
  {
    hide Base, LogOk, AttachedEnrolled;
    hide Reserve, Cancel, Activate, Detach, Revoke, Release, Send, Enter, Load, SendSnapshot, Delete, Commit, Put;
    hide Check, Leave, Announce;
    AtThread(s, tid);
    match s.threads[tid].pc {
      case Failing => AnnounceSafe(s, tid, InstallFailed, fails, Deleting);
      case Announcing => AnnounceSafe(s, tid, Deleted, fails, Releasing);
      case Enrolling(ssh) => AnnounceSafe(s, tid, Enrolled, fails, if ssh then Starting else Done);
      case Starting => AnnounceSafe(s, tid, InstallStarted, fails, Working);
      case Appending(kind) => AnnounceSafe(s, tid, kind, fails, Leaving(kind, true));
      case _ =>
    }
  }

  lemma SpawnSafe(s: Sys, s': Sys, th: Thread)
    requires Safe(s) && s'.threads == s.threads + [th]
    requires s'.hub == s.hub && s'.store == s.store && s'.lock == s.lock && s'.used == s.used && s'.log == s.log
    requires th.pc.Reserving? || th.pc.Revoking? || th.pc.Committing? || th.pc.Putting?
    ensures Safe(s')
  {
    forall tid: nat | tid < |s'.threads| ensures ThreadOk(s', tid) {
      if tid < |s.threads| { assert ThreadOk(s, tid); }
    }
  }

  /** A step that leaves every handler where it is, and hub, store and log alone. */
  lemma SameSafe(s: Sys, s': Sys)
    requires Safe(s) && |s'.threads| == |s.threads|
    requires forall i: nat | i < |s.threads| :: s'.threads[i] == s.threads[i].(uplink := s'.threads[i].uplink)
    requires s'.hub == s.hub && s'.store == s.store && s'.lock == s.lock && s'.used == s.used && s'.log == s.log
    ensures Safe(s')
  {
    forall tid: nat | tid < |s'.threads| ensures ThreadOk(s', tid) {
      assert ThreadOk(s, tid);
    }
  }

  lemma ServeQuiet(s: Sys, a: Action)
    requires (a.Forward? || a.TakeStatus? || a.TakeMeters? || a.Quit?) && InServing(s, a.tid)
    ensures Quiet(s, Next(s, a), a.tid)
  {
  }

  lemma ServeSafe(s: Sys, a: Action)
    requires Safe(s) && (a.Forward? || a.TakeStatus? || a.TakeMeters? || a.Quit?)
    ensures Safe(Next(s, a))
  {
    hide Base, LogOk, Moves, ThreadOk, Quiet, AttachedEnrolled, Forwarded, StatusTaken, MetersTaken, AdvanceThread;
    if InServing(s, a.tid) {
      AtThread(s, a.tid);
      ServeQuiet(s, a);
      match a {
        case Forward(tid, fails) => ForwardGood(s, tid, fails);
        case TakeStatus(tid, fails) => StatusGood(s, tid, fails);
        case TakeMeters(tid, fails) => MetersGood(s, tid, fails);
        case Quit(tid) => GotoGood(s, tid, Detaching);
        case _ =>
      }
      SettleQuiet(s, Next(s, a), a.tid);
    }
  }

  lemma NextSafe(s: Sys, a: Action)
    requires Safe(s)
    ensures Safe(Next(s, a))
  {
    hide Base, LogOk, AdvanceThread, Forwarded, StatusTaken, MetersTaken;
    match a {
      case ConnectFrom(id) => SpawnSafe(s, Next(s, a), Fresh(id, Reserving));
      case DeleteOf(id) => SpawnSafe(s, Next(s, a), Fresh(id, Revoking(false)));
      case DesiredOf(id, spec) => SpawnSafe(s, Next(s, a), Fresh(id, Committing).(spec := spec));
      case Create(id, ssh) => SpawnSafe(s, Next(s, a), Fresh(id, Putting(ssh)));
      case Dial(id) => SpawnSafe(s, Next(s, a), Fresh(id, Reserving).(ours := true));
      case Advance(tid, fails) => AdvanceSafe(s, tid, fails);
      case Forward(tid, fails) => ServeSafe(s, a);
      case TakeStatus(tid, fails) => ServeSafe(s, a);
      case TakeMeters(tid, fails) => ServeSafe(s, a);
      case Quit(tid) => ServeSafe(s, a);
      case _ => PeerSafe(s, a);
    }
  }

  lemma PeerSafe(s: Sys, a: Action)
    requires Safe(s) && (a.Inject? || a.HangUp? || a.Receive? || a.Beat? || a.Restart?)
    ensures Safe(Next(s, a))
  {
    hide Base, LogOk, Reconcile, Report;
    SameSafe(s, Next(s, a));
  }

  lemma AdvanceSafe(s: Sys, tid: nat, fails: bool)
    requires Safe(s)
    ensures Safe(Next(s, Advance(tid, fails)))
  {
    hide Base, LogOk, Reserve, Cancel, Activate, Detach, Revoke, Release, Send, Enter, Load, SendSnapshot, Delete;
    hide Commit, Put, Check,
         Leave, Announce;
    if tid < |s.threads| {
      var pc := s.threads[tid].pc;
      if NeedsMutex(pc) {
        HubStepSafe(s, tid, fails);
      } else if QuietPC(pc) {
        StoreStepSafe(s, tid, fails);
      } else if pc.Putting? {
        EnrolStepSafe(s, tid, fails);
      } else if pc.Deleting? {
        DeleteStepSafe(s, tid, fails);
      } else if pc.Failing? || pc.Announcing? || pc.Enrolling? || pc.Starting? || pc.Appending? {
        AppendStepSafe(s, tid, fails);
      }
    }
  }

  lemma {:induction false} RunSafe(env: Env, actions: seq<Action>)
    ensures Safe(Run(env, actions))
  {
    if actions == [] {
      Hub.EmptyOwned();
    } else {
      RunSafe(env, actions[..|actions| - 1]);
      NextSafe(Run(env, actions[..|actions| - 1]), actions[|actions| - 1]);
    }
  }

  /** In every interleaving, an attached stream belongs to an enrolled instance. */
  lemma AttachedImpliesEnrolled(env: Env, actions: seq<Action>, id: Id)
    ensures id in Run(env, actions).hub.connections ==> id in Run(env, actions).store
  {
    RunSafe(env, actions);
  }

  /** Once a deletion is in the log the instance is gone for good, and no later entry about it comes from a stream,
      an update or a successful installation, nor is it a second deletion. */
  lemma DeletionIsFinal(env: Env, actions: seq<Action>, i: nat, j: nat)
    requires i < |Run(env, actions).log| && Run(env, actions).log[i].kind == Deleted
    ensures Run(env, actions).log[i].id !in Run(env, actions).store
    ensures i < j < |Run(env, actions).log| && Run(env, actions).log[j].id == Run(env, actions).log[i].id ==>
      !Guarded(Run(env, actions).log[j].kind) && Run(env, actions).log[j].kind != Deleted
  {
    RunSafe(env, actions);
    assert Run(env, actions).log[i] in Run(env, actions).log;
  }

  // ---- a stream that read its record before the deletion ----

  /** Link `t` neither waits nor is attached. */
  ghost predicate Gone(h: Hub.HubState, t: nat) {
    && t < |h.links| && t !in h.waiting
    && forall id | id in h.connections :: h.connections[id] != t
  }

  lemma GoneHub(h: Hub.HubState, t: nat, id: Id, u: nat, message: Message)
    requires Gone(h, t)
    ensures Gone(Hub.Reserve(h, id).0, t) && Gone(Hub.Revoke(h, id).0, t) && Gone(Hub.Send(h, id, message).0, t)
    ensures u < |h.links| ==> Gone(Hub.Cancel(h, u), t) && Gone(Hub.Activate(h, u).0, t) && Gone(Hub.Detach(h, u).0, t)
    ensures u < |h.links| && h.links[u].buffer != [] ==> Gone(Hub.Take(h, u), t)
  {
  }

  lemma GoneMutex(s: Sys, tid: nat, fails: bool, t: nat)
    requires Gone(s.hub, t) && tid < |s.threads| && NeedsMutex(s.threads[tid].pc)
    ensures Gone(AdvanceThread(s, tid, fails).hub, t)
  {
    hide Hub.Reserve, Hub.Revoke, Hub.Send, Hub.Cancel, Hub.Activate, Hub.Detach, MayEnter;
    hide Load, SendSnapshot, Delete, Commit, Put, Check, Leave, Announce;
    var th := s.threads[tid];
    GoneHub(s.hub, t, th.id, th.token, Snapshot(th.snap));
  }

  lemma StoreKeepsHub(s: Sys, tid: nat, fails: bool)
    requires tid < |s.threads| && !NeedsMutex(s.threads[tid].pc)
    ensures AdvanceThread(s, tid, fails).hub == s.hub
  {
    hide Reserve, Cancel, Activate, Detach, Revoke, Release, Send, Enter, SetDesired, Hello, MarkOffline, After;
    var pc := s.threads[tid].pc;
    if pc.Failing? || pc.Announcing? || pc.Enrolling? || pc.Starting? || pc.Appending? {
      hide Load, SendSnapshot, Delete, Commit, Put, Check, Leave;
      assert AdvanceThread(s, tid, fails).hub == s.hub;
    } else {
      hide Announce;
      assert AdvanceThread(s, tid, fails).hub == s.hub;
    }
  }

  lemma GoneStays(s: Sys, a: Action, t: nat)
    requires Gone(s.hub, t)
    ensures Gone(Next(s, a).hub, t)
  {
    hide Gone, AdvanceThread, Hub.Take, Reconcile, Report, ApplyStatus;
    match a {
      case Advance(tid, fails) =>
        if tid < |s.threads| {
          if NeedsMutex(s.threads[tid].pc) { GoneMutex(s, tid, fails, t); } else { StoreKeepsHub(s, tid, fails); }
        }
      case Forward(tid, fails) =>
        if InServing(s, tid) { GoneHub(s.hub, t, "", s.threads[tid].token, Message(0, "", "")); }
      case _ =>
    }
  }

  lemma {:induction false} GoneForever(env: Env, before: seq<Action>, later: seq<Action>, t: nat)
    requires Gone(Run(env, before).hub, t)
    ensures Gone(Run(env, before + later).hub, t)
  {
    if later == [] {
      assert before + later == before;
    } else {
      var n := |later| - 1;
      GoneForever(env, before, later[..n], t);
      assert (before + later)[..|before + later| - 1] == before + later[..n];
      GoneStays(Run(env, before + later[..n]), later[n], t);
    }
  }

  /** The stated purpose of revoking first: a stream that has read its record, but finds it deleted before it activates,
      never attaches, however the run goes on and whether or not the revocation has been released. */
  lemma ReadBeforeDeletionNeverAttaches(env: Env, before: seq<Action>, later: seq<Action>, tid: nat, id: Id)
    requires
      var s := Run(env, before);
      tid < |s.threads| && s.threads[tid].pc.Activating? && s.threads[tid].id == id && id !in s.store
    ensures
      var h, t := Run(env, before + later).hub, Run(env, before).threads[tid].token;
      t < |h.links| && forall i | i in h.connections :: h.connections[i] != t
  {
    RunSafe(env, before);
    var s := Run(env, before);
    assert ThreadOk(s, tid);
    GoneForever(env, before, later, s.threads[tid].token);
  }

  lemma RunNext(env: Env, actions: seq<Action>, a: Action)
    ensures Run(env, actions + [a]) == Next(Run(env, actions), a)
  {
    assert (actions + [a])[..|actions|] == actions;
  }
}
