/** What one request does from every state that a run can reach, when the mutex is free and nothing comes in
    between: the sequential meaning of the handlers that the machine interleaves. */
module Requests {
  import opened Prelude
  import opened Records
  import opened AgentState
  import opened Control
  import opened ControlSafety
  import opened Agreement
  import opened RecordRuns
  import Hub = HubSpec

  /** The handler takes its next `k` steps, none of which fails. */
  function Steps(s: Sys, tid: nat, k: nat): Sys
    decreases k
  {
    if k == 0 then s else Steps(Next(s, Advance(tid, false)), tid, k - 1)
  }

  lemma {:induction false} StepsMore(s: Sys, tid: nat, j: nat, k: nat)
    ensures Steps(s, tid, j + k) == Steps(Steps(s, tid, j), tid, k)
    decreases j
  {
    hide Next;
    if j > 0 { StepsMore(Next(s, Advance(tid, false)), tid, j - 1, k); }
  }

  /** Taking some such steps leads there. */
  ghost predicate Comes(s: Sys, tid: nat, s': Sys) {
    exists k: nat :: Steps(s, tid, k) == s'
  }

  lemma ComesBy(s: Sys, tid: nat, k: nat)
    ensures Comes(s, tid, Steps(s, tid, k))
  {
  }

  lemma ComesNext(s: Sys, tid: nat, s': Sys)
    requires Comes(Next(s, Advance(tid, false)), tid, s')
    ensures Comes(s, tid, s')
  {
    hide Next;
    var k: nat :| Steps(Next(s, Advance(tid, false)), tid, k) == s';
    assert Steps(s, tid, k + 1) == s';
  }

  lemma ComesOn(s: Sys, tid: nat, mid: Sys, s': Sys)
    requires Comes(s, tid, mid) && Comes(mid, tid, s')
    ensures Comes(s, tid, s')
  {
    hide Steps;
    var j: nat :| Steps(s, tid, j) == mid;
    var k: nat :| Steps(mid, tid, k) == s';
    StepsMore(s, tid, j, k);
    assert Steps(s, tid, j + k) == s';
  }

  /** Only this handler, the records, the log and the mutex have moved. */
  function Moved(s: Sys, tid: nat, pc: PC, store: map<Id, Record>, log: seq<Event>, lock: Option<nat>): Sys
    requires tid < |s.threads|
  {
    s.(threads := s.threads[tid := s.threads[tid].(pc := pc)], store := store, log := log, lock := lock)
  }

  // ---- a guarded section ----

  /** Where a handler goes on when its section published, and when it did not. */
  function Then(kind: EventKind, ok: bool): PC {
    if kind == Connected then (if ok then Snapshotting else Abandoning)
    else if kind in {StatusReported, TrafficUpdated} then (if ok then Serving else Detaching)
    else if kind == InstallSucceeded && !ok then Revoking(true)
    else Done
  }

  /** The section is entered while its instance is not being deleted, and online if an installation is to succeed. */
  predicate Admitted(s: Sys, kind: EventKind, id: Id) {
    !Hub.Blocked(s.hub, id) && (kind == InstallSucceeded ==> Hub.Online(s.hub, id))
  }

  function Touched(s: Sys, kind: EventKind, id: Id): map<Id, Record>
    requires id in s.store
  {
    if kind == Disconnected then s.store[id := s.store[id].(phase := "offline")] else s.store
  }

  lemma StepNow(s: Sys, tid: nat)
    requires tid < |s.threads|
    ensures
      var th, s' := s.threads[tid], Next(s, Advance(tid, false));
      && (s.lock == None && th.pc.Entering? ==> s' == Enter(s, tid))
      && (th.pc.Checking? ==> s' == Check(s, tid, false))
      && (th.pc.Appending? ==> s' == Announce(s, tid, th.pc.kind, false, Leaving(th.pc.kind, true)))
      && (th.pc.Leaving? ==> s' == Leave(s, tid))
      && (th.pc == Serving || th.pc == Done ==> s' == s)
      && (th.pc == Loading ==> s' == Load(s, tid, false))
      && (th.pc == Snapshotting ==> s' == SendSnapshot(s, tid, false))
      && (th.pc == Deleting ==> s' == Delete(s, tid, false))
      && (th.pc == Committing ==> s' == Commit(s, tid, false))
      && (th.pc.Putting? ==> s' == Put(s, tid, false))
  {
    hide Reserve, Cancel, Activate, Detach, Revoke, Release, Send, Enter, Load, SendSnapshot, Delete, Commit, Put;
    hide Check, Leave, Announce, Forwarded, StatusTaken, MetersTaken, Received, Reported;
  }

  lemma HubNow(s: Sys, tid: nat)
    requires tid < |s.threads| && s.lock == None
    ensures
      var th, s' := s.threads[tid], Next(s, Advance(tid, false));
      && (th.pc == Reserving ==> s' == Reserve(s, tid))
      && (th.pc.Revoking? ==> s' == Revoke(s, tid))
      && (th.pc == Sending ==> s' == Send(s, tid))
      && (th.token < |s.hub.links| ==>
            && (th.pc == Canceling ==> s' == Cancel(s, tid))
            && (th.pc == Activating ==> s' == Activate(s, tid))
            && (th.pc == Abandoning || th.pc == Detaching ==> s' == Detach(s, tid)))
      && (th.release < |s.hub.revocations| && th.pc == Releasing ==> s' == Release(s, tid))
  {
    hide Reserve, Cancel, Activate, Detach, Revoke, Release, Send, Enter, Load, SendSnapshot, Delete, Commit, Put;
    hide Check, Leave, Announce, Forwarded, StatusTaken, MetersTaken, Received, Reported;
  }

  lemma AnnounceNow(s: Sys, tid: nat)
    requires tid < |s.threads|
    ensures
      var pc, s' := s.threads[tid].pc, Next(s, Advance(tid, false));
      && (pc == Failing ==> s' == Announce(s, tid, InstallFailed, false, Deleting))
      && (pc == Announcing ==> s' == Announce(s, tid, Deleted, false, Releasing))
      && (pc.Enrolling? ==> s' == Announce(s, tid, Enrolled, false, if pc.ssh then Starting else Done))
      && (pc == Starting ==> s' == Announce(s, tid, InstallStarted, false, Working))
  {
    hide Reserve, Cancel, Activate, Detach, Revoke, Release, Send, Enter, Load, SendSnapshot, Delete, Commit, Put;
    hide Check, Leave, Announce, Forwarded, StatusTaken, MetersTaken, Received, Reported;
  }

  /** A handler in front of its guarded section: if it is admitted and its instance enrolled, the entry is logged
      (and the record marked offline by the last of them) and it goes on; else it goes the other way and nothing is
      logged. */
  lemma GuardAlone(s: Sys, tid: nat)
    requires tid < |s.threads| && s.threads[tid].pc.Entering? && s.lock == None
    ensures
      var kind, id := s.threads[tid].pc.kind, s.threads[tid].id;
      Comes(s, tid,
        if Admitted(s, kind, id) && id in s.store
        then Moved(s, tid, Then(kind, true), Touched(s, kind, id), s.log + [Event(kind, id)], None)
        else Moved(s, tid, Then(kind, false), s.store, s.log, None))
  {
    hide Next, Hub.Blocked, Hub.Online, Comes;
    var kind, id := s.threads[tid].pc.kind, s.threads[tid].id;
    StepNow(s, tid);
    var s1 := Next(s, Advance(tid, false));
    if Admitted(s, kind, id) {
      assert s1 == Moved(s, tid, Checking(kind), s.store, s.log, Some(tid));
      GuardInside(s, s1, tid, kind);
      ComesBy(s1, tid, if id in s.store then 3 else 2);
    } else {
      ComesBy(s1, tid, 0);
    }
    ComesNext(s, tid, if Admitted(s, kind, id) && id in s.store
                      then Moved(s, tid, Then(kind, true), Touched(s, kind, id), s.log + [Event(kind, id)], None)
                      else Moved(s, tid, Then(kind, false), s.store, s.log, None));
  }

  lemma GuardInside(s: Sys, s1: Sys, tid: nat, kind: EventKind)
    requires tid < |s.threads| && s1 == Moved(s, tid, Checking(kind), s.store, s.log, Some(tid)) && s.lock == None
    ensures
      var id := s.threads[tid].id;
      if id !in s.store then Steps(s1, tid, 2) == Moved(s, tid, Then(kind, false), s.store, s.log, None)
      else Steps(s1, tid, 3) == Moved(s, tid, Then(kind, true), Touched(s, kind, id), s.log + [Event(kind, id)], None)
  {
    hide Next, Moved;
    var id := s.threads[tid].id;
    GuardChecks(s, s1, tid, kind);
    var s2 := Next(s1, Advance(tid, false));
    if id in s.store {
      GuardLogs(s, s2, tid, kind, Touched(s, kind, id));
      var s3 := Next(s2, Advance(tid, false));
      GuardLeaves(s, s3, tid, kind, true, Touched(s, kind, id), s.log + [Event(kind, id)]);
      assert Steps(s1, tid, 3) == Next(s3, Advance(tid, false));
    } else {
      GuardLeaves(s, s2, tid, kind, false, s.store, s.log);
      assert Steps(s1, tid, 2) == Next(s2, Advance(tid, false));
    }
  }

  lemma GuardChecks(s: Sys, s1: Sys, tid: nat, kind: EventKind)
    requires tid < |s.threads| && s1 == Moved(s, tid, Checking(kind), s.store, s.log, Some(tid))
    ensures
      var id := s.threads[tid].id;
      Next(s1, Advance(tid, false)) ==
        (if id in s.store then Moved(s, tid, Appending(kind), Touched(s, kind, id), s.log, Some(tid))
         else Moved(s, tid, Leaving(kind, false), s.store, s.log, Some(tid)))
  {
    hide Next;
    StepNow(s1, tid);
    assert s.threads[tid].id in s.store ==> s.store[s.threads[tid].id := s.store[s.threads[tid].id]] == s.store;
  }

  lemma GuardLogs(s: Sys, s2: Sys, tid: nat, kind: EventKind, store: map<Id, Record>)
    requires tid < |s.threads| && s2 == Moved(s, tid, Appending(kind), store, s.log, Some(tid))
    ensures Next(s2, Advance(tid, false)) ==
        Moved(s, tid, Leaving(kind, true), store, s.log + [Event(kind, s.threads[tid].id)], Some(tid))
  {
    hide Next;
    StepNow(s2, tid);
  }

  lemma {:induction false} GuardLeaves(s: Sys, s3: Sys, tid: nat, kind: EventKind, ok: bool, store: map<Id, Record>,
      log: seq<Event>)
    requires tid < |s.threads| && s3 == Moved(s, tid, Leaving(kind, ok), store, log, Some(tid))
    ensures Next(s3, Advance(tid, false)) == Moved(s, tid, Then(kind, ok), store, log, None)
  {
    hide Next;
    StepNow(s3, tid);
  }

  // ---- a deletion ----

  /** The handler is `th`, and hub, records and log are these. */
  function To(s: Sys, tid: nat, th: Thread, hub: Hub.HubState, store: map<Id, Record>, log: seq<Event>): Sys
    requires tid < |s.threads|
  {
    s.(threads := s.threads[tid := th], hub := hub, store := store, log := log)
  }

  /** What a deletion by handler `th` leaves: revoked and released, the record gone, and one entry if there was one. */
  function AfterDeletion(s: Sys, tid: nat, th: Thread): Sys
    requires tid < |s.threads|
  {
    var k := |s.hub.revocations|;
    To(s, tid, th.(pc := Done, release := k), Hub.Release(Hub.Revoke(s.hub, th.id).0, k), s.store - {th.id},
       if th.id in s.store then s.log + [Event(Deleted, th.id)] else s.log)
  }

  /** A request to delete: its instance is revoked, its record removed, its deletion logged if there was a record,
      and the revocation released. */
  lemma DeleteAlone(s: Sys, id: Id)
    requires s.lock == None
    ensures
      var n, th := |s.threads|, Fresh(id, Revoking(false));
      Comes(Next(s, DeleteOf(id)), n, AfterDeletion(s.(threads := s.threads + [th]), n, th))
  {
    var n, th := |s.threads|, Fresh(id, Revoking(false));
    var s1 := Next(s, DeleteOf(id));
    assert s1 == s.(threads := s.threads + [th]);
    hide Next, AfterDeletion, To, Hub.Revoke, Comes;
    RevokeNow(s1, n);
    DeleterEnds(s1, n, th, th.(release := |s.hub.revocations|, pc := Deleting), s.log);
    assert s1.(log := s.log) == s1;
    ComesNext(s1, n, AfterDeletion(s1, n, th));
  }

  lemma RevokeNow(s: Sys, tid: nat)
    requires s.lock == None && tid < |s.threads| && s.threads[tid].pc.Revoking?
    ensures
      var th := s.threads[tid];
      Next(s, Advance(tid, false)) ==
        To(s, tid, th.(release := |s.hub.revocations|, pc := if th.pc.rollback then Failing else Deleting),
           Hub.Revoke(s.hub, th.id).0, s.store, s.log)
  {
    hide Next;
    HubNow(s, tid);
  }

  lemma {:induction false} DeleterEnds(s: Sys, tid: nat, first: Thread, th: Thread, log: seq<Event>)
    requires s.lock == None && tid < |s.threads|
    requires th == first.(release := |s.hub.revocations|, pc := Deleting)
    ensures
      var s2 := To(s, tid, th, Hub.Revoke(s.hub, th.id).0, s.store, log);
      Comes(s2, tid, AfterDeletion(s.(log := log), tid, first))
  {
    hide Next, To, Comes;
    var h := Hub.Revoke(s.hub, th.id).0;
    assert th.release < |h.revocations|;
    hide Hub.Revoke;
    var s2 := To(s, tid, th, h, s.store, log);
    DeletesNow(s, tid, th, h, log);
    var s3 := Next(s2, Advance(tid, false));
    if th.id in s.store {
      DeletionLogged(s, tid, th, h, s.store - {th.id}, log);
      var s4 := Next(s3, Advance(tid, false));
      ReleasesNow(s, tid, th, h, s.store - {th.id}, log + [Event(Deleted, th.id)]);
      assert Steps(s2, tid, 3) == Next(s4, Advance(tid, false));
    } else {
      assert s.store - {th.id} == s.store;
      ReleasesNow(s, tid, th, h, s.store, log);
      assert Steps(s2, tid, 2) == Next(s3, Advance(tid, false));
    }
    ToOf(s, tid, th.(pc := Done), Hub.Release(h, th.release), s.store - {th.id}, log,
         if th.id in s.store then log + [Event(Deleted, th.id)] else log);
    ComesBy(s2, tid, if th.id in s.store then 3 else 2);
  }

  lemma {:induction false} ToOf(s: Sys, tid: nat, th: Thread, hub: Hub.HubState, store: map<Id, Record>,
      log: seq<Event>, log': seq<Event>)
    requires tid < |s.threads|
    ensures To(s.(log := log), tid, th, hub, store, log') == To(s, tid, th, hub, store, log')
  {
  }

  lemma {:induction false} DeletesNow(s: Sys, tid: nat, th: Thread, h: Hub.HubState, log: seq<Event>)
    requires tid < |s.threads| && th.pc == Deleting
    ensures Next(To(s, tid, th, h, s.store, log), Advance(tid, false)) ==
      if th.id in s.store then To(s, tid, th.(pc := Announcing), h, s.store - {th.id}, log)
      else To(s, tid, th.(pc := Releasing), h, s.store, log)
  {
    hide Next;
    StepNow(To(s, tid, th, h, s.store, log), tid);
  }

  lemma {:induction false} DeletionLogged(s: Sys, tid: nat, th: Thread, h: Hub.HubState, store: map<Id, Record>,
      log: seq<Event>)
    requires tid < |s.threads|
    ensures Next(To(s, tid, th.(pc := Announcing), h, store, log), Advance(tid, false)) ==
        To(s, tid, th.(pc := Releasing), h, store, log + [Event(Deleted, th.id)])
  {
    hide Next;
    AnnounceNow(To(s, tid, th.(pc := Announcing), h, store, log), tid);
  }

  lemma {:induction false} ReleasesNow(s: Sys, tid: nat, th: Thread, h: Hub.HubState, store: map<Id, Record>,
      log: seq<Event>)
    requires tid < |s.threads| && s.lock == None && th.release < |h.revocations|
    ensures Next(To(s, tid, th.(pc := Releasing), h, store, log), Advance(tid, false)) ==
        To(s, tid, th.(pc := Done), Hub.Release(h, th.release), store, log)
  {
    hide Next;
    HubNow(To(s, tid, th.(pc := Releasing), h, store, log), tid);
  }

  // ---- an installation ----

  /** A rollback logs the failure first. */
  lemma RollbackAlone(s: Sys, tid: nat)
    requires s.lock == None && tid < |s.threads| && s.threads[tid].pc == Revoking(true)
    ensures
      var th := s.threads[tid];
      Comes(s, tid, AfterDeletion(s.(log := s.log + [Event(InstallFailed, th.id)]), tid, th))
  {
    hide Next, AfterDeletion, To, Hub.Revoke, Comes;
    var th, h := s.threads[tid], Hub.Revoke(s.hub, s.threads[tid].id).0;
    var th1, log := th.(release := |s.hub.revocations|, pc := Failing), s.log + [Event(InstallFailed, th.id)];
    RevokeNow(s, tid);
    FailureLogged(s, tid, th1, h);
    var end := AfterDeletion(s.(log := log), tid, th);
    DeleterEnds(s, tid, th, th1.(pc := Deleting), log);
    ComesNext(To(s, tid, th1, h, s.store, s.log), tid, end);
    ComesNext(s, tid, end);
  }

  lemma FailureLogged(s: Sys, tid: nat, th: Thread, h: Hub.HubState)
    requires tid < |s.threads| && th.pc == Failing
    ensures Next(To(s, tid, th, h, s.store, s.log), Advance(tid, false)) ==
        To(s, tid, th.(pc := Deleting), h, s.store, s.log + [Event(InstallFailed, th.id)])
  {
    hide Next;
    AnnounceNow(To(s, tid, th, h, s.store, s.log), tid);
  }

  /** An installation at its end: it succeeds if nothing failed, its instance is not being deleted, and its agent
      is online; otherwise it is rolled back. */
  lemma InstallEnds(s: Sys, tid: nat, fails: bool)
    requires Safe(s) && s.lock == None && tid < |s.threads| && s.threads[tid].pc == Working
    ensures
      var th := s.threads[tid];
      Comes(Next(s, Advance(tid, fails)), tid,
        if !fails && Admitted(s, InstallSucceeded, th.id)
        then Moved(s, tid, Done, s.store, s.log + [Event(InstallSucceeded, th.id)], None)
        else AfterDeletion(s.(log := s.log + [Event(InstallFailed, th.id)]), tid, th))
  {
    OnlineEnrolled(s, s.threads[tid].id);
    hide Safe, Hub.Blocked, Hub.Online, Comes, AfterDeletion, Moved, Admitted;
    WorkNow(s, tid, fails);
    hide Next;
    if fails { RollsBack(s, tid); } else { TriesToSucceed(s, tid); }
  }

  lemma OnlineEnrolled(s: Sys, id: Id)
    requires Safe(s)
    ensures Hub.Online(s.hub, id) ==> id in s.store
  {
  }

  lemma RollsBack(s: Sys, tid: nat)
    requires s.lock == None && tid < |s.threads|
    ensures
      var th := s.threads[tid];
      var end := AfterDeletion(s.(log := s.log + [Event(InstallFailed, th.id)]), tid, th);
      Comes(Goto(s, tid, Revoking(true)), tid, end)
  {
    hide Comes, AfterDeletion;
    var log := s.log + [Event(InstallFailed, s.threads[tid].id)];
    RollbackAlone(Goto(s, tid, Revoking(true)), tid);
    SameDeletion(s.(log := log), tid, Revoking(true));
    assert Goto(s, tid, Revoking(true)).(log := log) == Goto(s.(log := log), tid, Revoking(true));
  }

  lemma TriesToSucceed(s: Sys, tid: nat)
    requires s.lock == None && tid < |s.threads|
    requires Admitted(s, InstallSucceeded, s.threads[tid].id) ==> s.threads[tid].id in s.store
    ensures
      var th := s.threads[tid];
      Comes(Goto(s, tid, Entering(InstallSucceeded)), tid,
        if Admitted(s, InstallSucceeded, th.id)
        then Moved(s, tid, Done, s.store, s.log + [Event(InstallSucceeded, th.id)], None)
        else AfterDeletion(s.(log := s.log + [Event(InstallFailed, th.id)]), tid, th))
  {
    hide Comes, AfterDeletion, Hub.Blocked, Hub.Online;
    var th := s.threads[tid];
    var s1 := Goto(s, tid, Entering(InstallSucceeded));
    GuardAlone(s1, tid);
    if Admitted(s, InstallSucceeded, th.id) {
      assert Moved(s1, tid, Done, s.store, s.log + [Event(InstallSucceeded, th.id)], None)
          == Moved(s, tid, Done, s.store, s.log + [Event(InstallSucceeded, th.id)], None);
    } else {
      assert Moved(s1, tid, Revoking(true), s.store, s.log, None) == Goto(s, tid, Revoking(true));
      RollsBack(s, tid);
      ComesOn(s1, tid, Goto(s, tid, Revoking(true)),
              AfterDeletion(s.(log := s.log + [Event(InstallFailed, th.id)]), tid, th));
    }
  }

  lemma SameDeletion(s: Sys, tid: nat, pc: PC)
    requires tid < |s.threads|
    ensures
      var th := s.threads[tid];
      AfterDeletion(Goto(s, tid, pc), tid, th.(pc := pc)) == AfterDeletion(s, tid, th)
  {
    hide Hub.Revoke, Hub.Release;
  }

  lemma WorkNow(s: Sys, tid: nat, fails: bool)
    requires tid < |s.threads| && s.threads[tid].pc == Working
    ensures Next(s, Advance(tid, fails)) == Goto(s, tid, if fails then Revoking(true) else Entering(InstallSucceeded))
  {
    hide Reserve, Cancel, Activate, Detach, Revoke, Release, Send, Enter, Load, SendSnapshot, Delete, Commit, Put;
    hide Check, Leave, Announce, Forwarded, StatusTaken, MetersTaken, Received, Reported;
  }

  /** A request to create: under an unused identity a record is stored and its enrolment logged, and an installation is
      started if that was asked for; otherwise nothing happens. */
  lemma CreateAlone(s: Sys, id: Id, ssh: bool)
    ensures
      var n, th := |s.threads|, Fresh(id, Done);
      var s1 := s.(threads := s.threads + [th]);
      Comes(Next(s, Create(id, ssh)), n,
        if id in s.used then s1
        else if ssh then
          s1.(threads := s.threads + [th.(pc := Working)], store := s.store[id := ENROLLED], used := s.used + {id},
              log := s.log + [Event(Enrolled, id)] + [Event(InstallStarted, id)])
        else s1.(store := s.store[id := ENROLLED], used := s.used + {id}, log := s.log + [Event(Enrolled, id)]))
  {
    var n := |s.threads|;
    var s1 := Next(s, Create(id, ssh));
    assert s1 == s.(threads := s.threads + [Fresh(id, Putting(ssh))]);
    hide Next, Comes;
    StepNow(s1, n);
    var s2 := Next(s1, Advance(n, false));
    if id in s.used {
      assert s2 == s.(threads := s.threads + [Fresh(id, Done)]);
      ComesBy(s1, n, 1);
      assert Steps(s1, n, 1) == s2;
    } else {
      CreatedEnds(s, s2, id, ssh);
      ComesNext(s1, n, Steps(s2, n, if ssh then 2 else 1));
    }
  }

  lemma CreatedEnds(s: Sys, s2: Sys, id: Id, ssh: bool)
    requires s2 == s.(threads := s.threads + [Fresh(id, Enrolling(ssh))], store := s.store[id := ENROLLED],
                      used := s.used + {id})
    ensures
      var end := s2.(threads := s.threads + [Fresh(id, if ssh then Working else Done)],
          log := if ssh then s.log + [Event(Enrolled, id)] + [Event(InstallStarted, id)]
                 else s.log + [Event(Enrolled, id)]);
      Steps(s2, |s.threads|, if ssh then 2 else 1) == end && Comes(s2, |s.threads|, end)
  {
    var n := |s.threads|;
    hide Next, Comes;
    AnnounceNow(s2, n);
    var s3 := Next(s2, Advance(n, false));
    assert s3 == s2.(threads := s.threads + [Fresh(id, if ssh then Starting else Done)],
                     log := s.log + [Event(Enrolled, id)]);
    if ssh {
      AnnounceNow(s3, n);
      assert Steps(s2, n, 2) == Next(s3, Advance(n, false));
    } else {
      assert Steps(s2, n, 1) == s3;
    }
    ComesBy(s2, n, if ssh then 2 else 1);
  }

  // ---- an update ----

  /** The record of `r` after an update to `spec`; the same digest changes nothing. */
  function Updated(r: Record, spec: string, digest: string): Record {
    if r.desiredDigest == digest then r
    else r.(desiredGeneration := (r.desiredGeneration + 1) % U64, desiredDigest := digest, desiredSpec := spec)
  }

  /** The record, the history and the handler after the transaction of an update. */
  function Committed(s: Sys, tid: nat, th: Thread): Sys
    requires tid < |s.threads| && th.id in s.store
  {
    var digest := s.env.hash(th.spec);
    var r := Updated(s.store[th.id], th.spec, digest);
    s.(threads := s.threads[tid := th.(pc := Sending, snap := r)], store := s.store[th.id := r],
       history := if r == s.store[th.id] then s.history
                  else s.history[th.id := Past(s, th.id) + [Pair(digest, th.spec)]])
  }

  /** A request to update: without a record nothing happens; else the record is updated, the message is sent to the
      attached connection if there is one, and the change is logged unless the instance is being deleted. */
  lemma {:induction false} UpdateAlone(s: Sys, id: Id, spec: string)
    requires s.lock == None
    ensures
      var n, th := |s.threads|, Fresh(id, Committing).(spec := spec);
      var s1 := s.(threads := s.threads + [th]);
      Comes(Next(s, DesiredOf(id, spec)), n,
        if id !in s.store then s1.(threads := s.threads + [th.(pc := Done)])
        else
          var c := Committed(s1, n, th);
          var (h, ok) := Hub.Send(s.hub, id, Snapshot(c.store[id]));
          c.(threads := s.threads + [c.threads[n].(pc := Done)], hub := h,
             accepted := if ok then s.accepted + {(s.hub.connections[id], Snapshot(c.store[id]))} else s.accepted,
             log := if Hub.Blocked(s.hub, id) then s.log else s.log + [Event(DesiredChanged, id)]))
  {
    var n, th := |s.threads|, Fresh(id, Committing).(spec := spec);
    var s1 := Next(s, DesiredOf(id, spec));
    assert s1 == s.(threads := s.threads + [th]);
    hide Next, Comes, Hub.Send, Hub.Blocked;
    StepNow(s1, n);
    if id !in s.store {
      assert Next(s1, Advance(n, false)) == s.(threads := s.threads + [th.(pc := Done)]);
      ComesBy(s1, n, 1);
      assert Steps(s1, n, 1) == Next(s1, Advance(n, false));
    } else {
      assert s1.store[id := s1.store[id]] == s1.store;
      assert Next(s1, Advance(n, false)) == Committed(s1, n, th);
      SendEnds(Committed(s1, n, th), n);
      hide Commit, Updated;
      ComesNext(s1, n, SentEnd(Committed(s1, n, th), n));
    }
  }

  /** What sending leaves. */
  function SentEnd(c: Sys, n: nat): Sys
    requires n < |c.threads|
  {
    var th := c.threads[n];
    var (h, ok) := Hub.Send(c.hub, th.id, Snapshot(th.snap));
    c.(threads := c.threads[n := th.(pc := Done)], hub := h,
       accepted := if ok then c.accepted + {(c.hub.connections[th.id], Snapshot(th.snap))} else c.accepted,
       log := if Hub.Blocked(c.hub, th.id) then c.log else c.log + [Event(DesiredChanged, th.id)])
  }

  lemma SendEnds(c: Sys, n: nat)
    requires n < |c.threads| && c.threads[n].pc == Sending && c.lock == None && c.threads[n].id in c.store
    ensures Comes(c, n, SentEnd(c, n))
  {
    hide Next, Comes, Hub.Blocked, Hub.Online;
    var th := c.threads[n];
    HubNow(c, n);
    var s1 := Next(c, Advance(n, false));
    SendKeepsBlocks(c.hub, th.id, Snapshot(th.snap));
    hide Hub.Send;
    assert s1.store == c.store && s1.log == c.log && s1.lock == None;
    GuardAlone(s1, n);
    assert (if Admitted(s1, DesiredChanged, th.id)
            then Moved(s1, n, Done, s1.store, s1.log + [Event(DesiredChanged, th.id)], None)
            else Moved(s1, n, Done, s1.store, s1.log, None)) == SentEnd(c, n);
    ComesNext(c, n, SentEnd(c, n));
  }

  lemma SendKeepsBlocks(h: Hub.HubState, id: Id, message: Message)
    ensures Hub.Blocked(Hub.Send(h, id, message).0, id) == Hub.Blocked(h, id)
  {
    hide Hub.Online;
  }

  // ---- a stream ----

  /** The record of `r` once a stream has said hello. */
  function Greeted(r: Record): Record {
    if r.phase in {"enrolled", "offline"} then r.(phase := "connected") else r
  }

  /** The state with one more handler, and hub, records and log as given. */
  function Plus(s: Sys, th: Thread, hub: Hub.HubState, store: map<Id, Record>, log: seq<Event>): Sys {
    s.(threads := s.threads + [th], hub := hub, store := store, log := log)
  }

  /** A stream that opens: refused while its instance is being deleted; canceled if there is no record; else it replaces
      what was attached, is logged as connected, sends the record as it read it if it carries a desired state, and
      serves. */
  lemma ConnectAlone(s: Sys, id: Id)
    requires Safe(s) && s.lock == None
    ensures
      var th := Fresh(id, Done);
      Comes(Next(s, ConnectFrom(id)), |s.threads|,
        if Hub.Blocked(s.hub, id) then Plus(s, th, s.hub, s.store, s.log)
        else if id !in s.store then
          Plus(s, th.(token := |s.hub.links|), ReservedThen(s.hub, id, false), s.store, s.log)
        else
          var r := Greeted(s.store[id]);
          var wire := if r.desiredGeneration == 0 then [] else [Snapshot(r)];
          Plus(s, th.(pc := Serving, token := |s.hub.links|, snap := r, wire := wire),
               ReservedThen(s.hub, id, true), s.store[id := r], s.log + [Event(Connected, id)]))
  {
    var n, th := |s.threads|, Fresh(id, Reserving);
    var s1 := Next(s, ConnectFrom(id));
    assert s1 == Plus(s, th, s.hub, s.store, s.log);
    ReservationHolds(s.hub, id);
    hide Next, Comes, Hub.Blocked, Safe, ReservedThen, Greeted;
    HubNow(s1, n);
    var s2 := Next(s1, Advance(n, false));
    if Hub.Blocked(s.hub, id) {
      assert s2 == Plus(s, th.(pc := Done), s.hub, s.store, s.log);
      ComesBy(s1, n, 1);
      assert Steps(s1, n, 1) == s2;
    } else {
      var th1 := th.(pc := Loading, token := |s.hub.links|);
      assert s2 == Plus(s, th1, Hub.Reserve(s.hub, id).0, s.store, s.log);
      hide Hub.Reserve, Plus;
      if id !in s.store {
        CancelEnds(s, th1);
        ComesNext(s1, n, Plus(s, th1.(pc := Done), ReservedThen(s.hub, id, false), s.store, s.log));
      } else {
        ServeEnds(s, th1);
        var r := Greeted(s.store[id]);
        var wire := if r.desiredGeneration == 0 then [] else [Snapshot(r)];
        ComesNext(s1, n, Plus(s, th1.(pc := Serving, snap := r, wire := wire), ReservedThen(s.hub, id, true),
                              s.store[id := r], s.log + [Event(Connected, id)]));
      }
    }
  }

  lemma CancelEnds(s: Sys, th: Thread)
    requires s.lock == None && !Hub.Blocked(s.hub, th.id) && th.id !in s.store
    requires th.pc == Loading && th.token == |s.hub.links| && |Hub.Reserve(s.hub, th.id).0.links| == |s.hub.links| + 1
    ensures Comes(Plus(s, th, Hub.Reserve(s.hub, th.id).0, s.store, s.log), |s.threads|,
        Plus(s, th.(pc := Done), ReservedThen(s.hub, th.id, false), s.store, s.log))
  {
    assert ReservedThen(s.hub, th.id, false) == Hub.Cancel(Hub.Reserve(s.hub, th.id).0, th.token);
    hide Next, Comes, Hub.Blocked, Hub.Reserve, Plus, ReservedThen;
    var n, h := |s.threads|, Hub.Reserve(s.hub, th.id).0;
    MissesNow(s, th, h);
    CancelsNow(s, th, h);
    var s2 := Plus(s, th, h, s.store, s.log);
    var s3 := Next(s2, Advance(n, false));
    assert Steps(s2, n, 2) == Next(s3, Advance(n, false));
    ComesBy(s2, n, 2);
  }

  lemma MissesNow(s: Sys, th: Thread, h: Hub.HubState)
    requires th.pc == Loading && th.id !in s.store
    ensures Next(Plus(s, th, h, s.store, s.log), Advance(|s.threads|, false)) ==
        Plus(s, th.(pc := Canceling), h, s.store, s.log)
  {
    hide Next;
    StepNow(Plus(s, th, h, s.store, s.log), |s.threads|);
  }

  lemma CancelsNow(s: Sys, th: Thread, h: Hub.HubState)
    requires s.lock == None && th.token < |h.links|
    ensures Next(Plus(s, th.(pc := Canceling), h, s.store, s.log), Advance(|s.threads|, false)) ==
        Plus(s, th.(pc := Done), Hub.Cancel(h, th.token), s.store, s.log)
  {
    hide Next, Hub.Cancel;
    HubNow(Plus(s, th.(pc := Canceling), h, s.store, s.log), |s.threads|);
  }

  lemma ServeEnds(s: Sys, th: Thread)
    requires s.lock == None && !Hub.Blocked(s.hub, th.id) && th.id in s.store
    requires th.pc == Loading && th.token == |s.hub.links| && th.wire == []
    requires
      var h := Hub.Reserve(s.hub, th.id).0;
      && |h.links| == |s.hub.links| + 1 && Hub.Activate(h, |s.hub.links|).1
      && !Hub.Blocked(ReservedThen(s.hub, th.id, true), th.id)
    ensures
      var r := Greeted(s.store[th.id]);
      Comes(Plus(s, th, Hub.Reserve(s.hub, th.id).0, s.store, s.log), |s.threads|,
        Plus(s, th.(pc := Serving, snap := r, wire := if r.desiredGeneration == 0 then [] else [Snapshot(r)]),
             ReservedThen(s.hub, th.id, true), s.store[th.id := r], s.log + [Event(Connected, th.id)]))
  {
    var n, h, h', r := |s.threads|, Hub.Reserve(s.hub, th.id).0, ReservedThen(s.hub, th.id, true),
        Greeted(s.store[th.id]);
    assert h' == Hub.Activate(h, |s.hub.links|).0;
    assert r == Hello(s.store[th.id]);
    hide Next, Comes, Hub.Blocked, Hub.Reserve, Hub.Activate, ReservedThen, Hello, Greeted;
    var th1, store := th.(snap := r), s.store[th.id := r];
    var s2 := Plus(s, th, h, s.store, s.log);
    StepNow(s2, n);
    var s3 := Plus(s, th1.(pc := Activating), h, store, s.log);
    assert Next(s2, Advance(n, false)) == s3;
    HubNow(s3, n);
    var s4 := Plus(s, th1.(pc := Entering(Connected)), h', store, s.log);
    assert Next(s3, Advance(n, false)) == s4;
    AnnouncedEnds(s, th1, h', store);
    var end := Plus(s, th1.(pc := Serving, wire := if r.desiredGeneration == 0 then [] else [Snapshot(r)]), h', store,
                    s.log + [Event(Connected, th.id)]);
    hide Plus;
    ComesNext(s3, n, end);
    ComesNext(s2, n, end);
  }

  lemma AnnouncedEnds(s: Sys, th: Thread, h: Hub.HubState, store: map<Id, Record>)
    requires s.lock == None && !Hub.Blocked(h, th.id) && th.id in store && th.wire == []
    ensures Comes(Plus(s, th.(pc := Entering(Connected)), h, store, s.log), |s.threads|,
        Plus(s, th.(pc := Serving, wire := if th.snap.desiredGeneration == 0 then [] else [Snapshot(th.snap)]), h,
            store,
             s.log + [Event(Connected, th.id)]))
  {
    hide Next, Comes, Hub.Blocked, Plus;
    var n, log := |s.threads|, s.log + [Event(Connected, th.id)];
    AnnouncesFirst(s, th, h, store);
    SnapshotNow(s, th, h, store, log);
    var s5 := Plus(s, th.(pc := Snapshotting), h, store, log);
    assert Steps(s5, n, 1) == Next(s5, Advance(n, false));
    ComesBy(s5, n, 1);
    ComesOn(Plus(s, th.(pc := Entering(Connected)), h, store, s.log), n, s5, Next(s5, Advance(n, false)));
  }

  lemma AnnouncesFirst(s: Sys, th: Thread, h: Hub.HubState, store: map<Id, Record>)
    requires s.lock == None && !Hub.Blocked(h, th.id) && th.id in store
    ensures Comes(Plus(s, th.(pc := Entering(Connected)), h, store, s.log), |s.threads|,
        Plus(s, th.(pc := Snapshotting), h, store, s.log + [Event(Connected, th.id)]))
  {
    hide Comes, Hub.Blocked;
    var s4 := Plus(s, th.(pc := Entering(Connected)), h, store, s.log);
    GuardAlone(s4, |s.threads|);
    var log := s.log + [Event(Connected, th.id)];
    assert Moved(s4, |s.threads|, Snapshotting, store, log, None) == Plus(s, th.(pc := Snapshotting), h, store, log);
  }

  lemma {:induction false} SnapshotNow(s: Sys, th: Thread, h: Hub.HubState, store: map<Id, Record>, log: seq<Event>)
    requires th.wire == []
    ensures Next(Plus(s, th.(pc := Snapshotting), h, store, log), Advance(|s.threads|, false)) ==
        Plus(s, th.(pc := Serving, wire := if th.snap.desiredGeneration == 0 then [] else [Snapshot(th.snap)]), h,
             store, log)
  {
    hide Next;
    assert [] + [Snapshot(th.snap)] == [Snapshot(th.snap)];
    StepNow(Plus(s, th.(pc := Snapshotting), h, store, log), |s.threads|);
  }

  /** The hub after a reservation that is then canceled, or activated. */
  function ReservedThen(h: Hub.HubState, id: Id, activated: bool): Hub.HubState
    requires !Hub.Blocked(h, id)
  {
    if activated then Hub.Activate(Hub.Reserve(h, id).0, |h.links|).0 else Hub.Cancel(Hub.Reserve(h, id).0, |h.links|)
  }

  lemma ReservationHolds(h: Hub.HubState, id: Id)
    requires Hub.HubInv(h)
    ensures
      var h' := Hub.Reserve(h, id).0;
      && (Hub.Blocked(h, id) ==> Hub.Reserve(h, id) == (h, None))
      && (!Hub.Blocked(h, id) ==>
            && Hub.Reserve(h, id).1 == Some(|h.links|) && |h'.links| == |h.links| + 1
            && Hub.Activate(h', |h.links|).1 && !Hub.Blocked(ReservedThen(h, id, true), id))
  {
  }

  /** A handler that leaves its stream: if its link is still attached it is detached, the record is marked offline
      and the departure logged; else it just ends. */
  lemma LeaveAlone(s: Sys, tid: nat)
    requires Safe(s) && s.lock == None && tid < |s.threads| && s.threads[tid].pc == Detaching
    ensures
      var th := s.threads[tid];
      && th.token < |s.hub.links| && (Hub.Attached(s.hub, th.token) ==> th.id in s.store)
      && Comes(s, tid,
        if Hub.Attached(s.hub, th.token) then
          To(s, tid, th.(pc := Done), Hub.Detach(s.hub, th.token).0,
              s.store[th.id := s.store[th.id].(phase := "offline")],
             s.log + [Event(Disconnected, th.id)])
        else To(s, tid, th.(pc := Done), s.hub, s.store, s.log))
  {
    var th := s.threads[tid];
    assert ThreadOk(s, tid);
    DetachedHub(s.hub, th.token);
    assert Hub.Attached(s.hub, th.token) ==> th.id in s.store;
    hide Next, Comes, Safe, ThreadOk, Hub.Blocked, Hub.HubInv;
    HubNow(s, tid);
    hide Hub.Detach;
    var s1 := Next(s, Advance(tid, false));
    if Hub.Attached(s.hub, th.token) {
      assert s1 == To(s, tid, th.(pc := Entering(Disconnected)), Hub.Detach(s.hub, th.token).0, s.store, s.log);
      GuardAlone(s1, tid);
      var end := To(s, tid, th.(pc := Done), Hub.Detach(s.hub, th.token).0,
                    s.store[th.id := s.store[th.id].(phase := "offline")], s.log + [Event(Disconnected, th.id)]);
      assert Moved(s1, tid, Done, Touched(s1, Disconnected, th.id), s.log + [Event(Disconnected, th.id)], None) == end;
      ComesNext(s, tid, end);
    } else {
      assert s1 == To(s, tid, th.(pc := Done), s.hub, s.store, s.log);
      assert Steps(s, tid, 1) == s1;
      ComesBy(s, tid, 1);
    }
  }

  lemma DetachedHub(h: Hub.HubState, t: nat)
    requires Hub.HubInv(h) && t < |h.links|
    ensures Hub.Detach(h, t).1 == Hub.Attached(h, t) && (!Hub.Attached(h, t) ==> Hub.Detach(h, t).0 == h)
    ensures Hub.Attached(h, t) ==> !Hub.Blocked(Hub.Detach(h, t).0, h.links[t].id)
  {
  }

  // ---- what a serving handler reads ----

  /** A report: if the record accepts it, it is written there; it is logged and the stream served on unless the
      instance is being deleted; a report that is not accepted, or comes without a record, ends the stream. */
  lemma ReportAlone(s: Sys, tid: nat)
    requires InServing(s, tid) && s.lock == None && s.threads[tid].uplink != []
    ensures
      var th := s.threads[tid];
      var id, status, rest := th.id, th.uplink[0], th.(uplink := th.uplink[1..]);
      Comes(Next(s, TakeStatus(tid, false)), tid,
        if id !in s.store || !Acceptable(s.store[id], status)
        then To(s, tid, rest.(pc := Detaching), s.hub, s.store, s.log)
        else
          var store := s.store[id := s.store[id].(appliedGeneration := status.generation,
                                                  appliedDigest := status.digest, phase := status.phase,
                                                  reason := status.reason)];
          if Hub.Blocked(s.hub, id) then To(s, tid, rest.(pc := Detaching), s.hub, store, s.log)
          else To(s, tid, rest, s.hub, store, s.log + [Event(StatusReported, id)]))
  {
    var th := s.threads[tid];
    var s1 := Next(s, TakeStatus(tid, false));
    assert s1 == StatusTaken(s, tid, false) by { hide AdvanceThread; }
    hide Next, Comes, Hub.Blocked;
    if th.id !in s.store || !Acceptable(s.store[th.id], th.uplink[0]) {
      ComesBy(s1, tid, 0);
    } else {
      assert s1.threads[tid].pc == Entering(StatusReported);
      GuardAlone(s1, tid);
    }
  }

  /** A meter batch of an enrolled instance is logged, and the stream served on, unless the instance is being
      deleted. */
  lemma MetersAlone(s: Sys, tid: nat)
    requires InServing(s, tid) && s.lock == None
    ensures
      var th := s.threads[tid];
      Comes(Next(s, TakeMeters(tid, false)), tid,
        if th.id !in s.store || Hub.Blocked(s.hub, th.id) then To(s, tid, th.(pc := Detaching), s.hub, s.store, s.log)
        else To(s, tid, th, s.hub, s.store, s.log + [Event(TrafficUpdated, th.id)]))
  {
    var th := s.threads[tid];
    var s1 := Next(s, TakeMeters(tid, false));
    assert s1 == MetersTaken(s, tid, false) by { hide AdvanceThread; }
    hide Next, Comes, Hub.Blocked;
    if th.id !in s.store {
      ComesBy(s1, tid, 0);
    } else {
      GuardAlone(s1, tid);
    }
  }

  // ---- the agent ----

  /** The message decodes, matches its digest, and neither goes back nor changes the digest of its generation. */
  predicate MayApply(env: Env, state: RuntimeState, m: Message) {
    && env.hash(m.spec) == m.digest && env.parse(m.spec).Some?
    && (m.generation > state.generation || (m.generation == state.generation && state.digest in {"", m.digest}))
  }

  /** An agent with an unread message applies it if it may, and then reports its new state on that stream; otherwise it
      keeps its state and drops the stream. */
  lemma AgentReceives(s: Sys, id: Id)
    requires
      var a := AgentOf(s, id);
      a.stream.Some? && a.stream.value < |s.threads| && a.consumed < |s.threads[a.stream.value].wire|
    ensures
      var a, s' := AgentOf(s, id), Next(s, Receive(id));
      var th, m := s.threads[a.stream.value], s.threads[a.stream.value].wire[a.consumed];
      if MayApply(s.env, a.state, m) then
        var state := AgentOf(s', id).state;
        && Shows(s.env, Report(state), m)
        && s' == s.(agents := s.agents[id := a.(state := state, consumed := a.consumed + 1)],
                    threads := s.threads[a.stream.value := th.(uplink := th.uplink + [
                      Status(state.generation, state.digest, state.phase, state.reason)])])
      else s' == s.(agents := s.agents[id := a.(stream := None)])
  {
    hide AdvanceThread, Forwarded, StatusTaken, MetersTaken;
    var a := AgentOf(s, id);
    var m := s.threads[a.stream.value].wire[a.consumed];
    AppliesIff(s.env, a.state, m);
    hide Reconcile, MayApply, Shows;
  }

  lemma AppliesIff(env: Env, state: RuntimeState, m: Message)
    ensures Reconcile(env, state, m).Applied? <==> MayApply(env, state, m)
    ensures Reconcile(env, state, m).Applied? ==> Shows(env, Report(Reconcile(env, state, m).state), m)
  {
  }

  /** A heartbeat reports the state once more; a new stream starts with nothing consumed; a restart forgets
      everything. */
  lemma AgentActs(s: Sys, id: Id)
    ensures
      var a := AgentOf(s, id);
      a.stream.Some? && a.stream.value < |s.threads| ==>
        var th := s.threads[a.stream.value];
        Next(s, Beat(id)) == s.(threads := s.threads[a.stream.value := th.(uplink := th.uplink + [
          Status(a.state.generation, a.state.digest, a.state.phase, a.state.reason)])])
    ensures
      var a, s' := AgentOf(s, id), Next(s, Dial(id));
      && s'.threads == s.threads + [Fresh(id, Reserving).(ours := true)]
      && AgentOf(s', id).state == a.state && AgentOf(s', id).stream == Some(|s.threads|)
      && AgentOf(s', id).consumed == 0
    ensures AgentOf(Next(s, Restart(id)), id).state == IDLE && AgentOf(Next(s, Restart(id)), id).stream == None
    ensures AgentOf(Next(s, HangUp(id)), id) == AgentOf(s, id).(stream := None)
  {
    hide AdvanceThread, Forwarded, StatusTaken, MetersTaken, Received;
  }
}
