/** What may still be logged about an instance after its deletion: which kinds of entry, and exactly when nothing
    more. */
module Finality {
  import opened Prelude
  import opened Records
  import opened AgentState
  import opened Control
  import opened ControlSafety
  import Hub = HubSpec

  /** A creating or installing handler that has unguarded entries ahead of it: it will announce the enrolment or
      the start of the installation, or roll the installation back. */
  predicate Owes(pc: PC) {
    match pc
    case Enrolling(_) => true
    case Starting => true
    case Working => true
    case Entering(kind) => kind == InstallSucceeded
    case Checking(kind) => kind == InstallSucceeded
    case Leaving(kind, ok) => kind == InstallSucceeded && !ok
    case Revoking(rollback) => rollback
    case Failing => true
    case _ => false
  }

  ghost predicate Settled(s: Sys, id: Id) {
    forall tid: nat | tid < |s.threads| && s.threads[tid].id == id :: !Owes(s.threads[tid].pc)
  }

  function Go(s: Sys, later: seq<Action>): Sys {
    if later == [] then s else Next(Go(s, later[..|later| - 1]), later[|later| - 1])
  }

  lemma {:induction false} RunGoes(env: Env, before: seq<Action>, later: seq<Action>)
    ensures Run(env, before + later) == Go(Run(env, before), later)
  {
    hide Next;
    if later == [] {
      assert before + later == before;
    } else {
      var n := |later| - 1;
      assert (before + later)[..|before + later| - 1] == before + later[..n];
      RunGoes(env, before, later[..n]);
    }
  }

  lemma {:induction false} GoSafe(s: Sys, later: seq<Action>)
    requires Safe(s)
    ensures Safe(Go(s, later))
  {
    hide Safe, Next;
    if later != [] {
      GoSafe(s, later[..|later| - 1]);
      NextSafe(Go(s, later[..|later| - 1]), later[|later| - 1]);
    }
  }

  lemma GoNext(s: Sys, later: seq<Action>, a: Action)
    ensures Go(s, later + [a]) == Next(Go(s, later), a)
  {
    hide Next;
    assert (later + [a])[..|later|] == later;
  }

  // ---- nothing more, once every handler of the instance is settled ----

  /** The log grows by at most one entry, and not by one about `id`. */
  ghost predicate SilentAbout(log: seq<Event>, log': seq<Event>, id: Id) {
    log <= log' && forall j | |log| <= j < |log'| :: log'[j].id != id
  }

  /** Handler `tid` alone moves; it stays or becomes settled if its instance is `id`, and writes nothing about that
      one. */
  ghost predicate MovesSilently(s: Sys, s': Sys, tid: nat, id: Id) {
    && tid < |s.threads| == |s'.threads| && s'.threads == s.threads[tid := s'.threads[tid]]
    && s'.threads[tid].id == s.threads[tid].id
    && (s.threads[tid].id == id ==> !Owes(s'.threads[tid].pc))
    && SilentAbout(s.log, s'.log, id)
  }

  lemma ConnectSilent(s: Sys, tid: nat, fails: bool, id: Id)
    requires tid < |s.threads|
    requires
      var pc := s.threads[tid].pc;
      pc.Reserving? || pc.Canceling? || pc.Activating?
    ensures MovesSilently(s, AdvanceThread(s, tid, fails), tid, id)
  {
    hide Hub.Reserve, Hub.Cancel, Hub.Activate;
    hide Detach, Release, Send, Revoke, Enter, Load, SendSnapshot, Delete, Commit, Put, Check, Leave, Announce;
  }

  lemma DetachSilent(s: Sys, tid: nat, fails: bool, id: Id)
    requires tid < |s.threads|
    requires
      var pc := s.threads[tid].pc;
      pc.Abandoning? || pc.Detaching? || pc.Releasing? || pc.Sending?
    ensures MovesSilently(s, AdvanceThread(s, tid, fails), tid, id)
  {
    hide Hub.Detach, Hub.Release, Hub.Send;
    hide Reserve, Cancel, Activate, Revoke, Enter, Load, SendSnapshot, Delete, Commit, Put, Check, Leave, Announce;
  }

  lemma EnterSilent(s: Sys, tid: nat, fails: bool, id: Id)
    requires tid < |s.threads| && (s.threads[tid].pc.Revoking? || s.threads[tid].pc.Entering?)
    requires s.threads[tid].id == id ==> !Owes(s.threads[tid].pc)
    ensures MovesSilently(s, AdvanceThread(s, tid, fails), tid, id)
  {
    hide Hub.Revoke, MayEnter;
    hide Reserve, Cancel, Activate, Detach, Release, Send, Load, SendSnapshot, Delete, Commit, Put, Check, Leave;
    hide Announce;
  }

  predicate Writes(pc: PC) {
    pc.Failing? || pc.Enrolling? || pc.Starting? || pc.Announcing? || pc.Appending?
  }

  lemma RecordSilent(s: Sys, tid: nat, fails: bool, id: Id)
    requires tid < |s.threads| && (s.threads[tid].id == id ==> !Owes(s.threads[tid].pc) && id in s.used)
    requires
      var pc := s.threads[tid].pc;
      pc.Loading? || pc.Snapshotting? || pc.Committing? || pc.Putting?
    ensures MovesSilently(s, AdvanceThread(s, tid, fails), tid, id)
  {
    hide Reserve, Cancel, Activate, Detach, Revoke, Release, Send, Enter, Announce, Delete, Check, Leave;
    hide SetDesired, Hello;
  }

  lemma LeaveSilent(s: Sys, tid: nat, fails: bool, id: Id)
    requires tid < |s.threads| && (s.threads[tid].id == id ==> !Owes(s.threads[tid].pc))
    requires
      var pc := s.threads[tid].pc;
      pc.Deleting? || pc.Working? || pc.Checking? || pc.Leaving? || pc.Serving? || pc.Done?
    requires s.threads[tid].id == id ==> id !in s.store
    ensures MovesSilently(s, AdvanceThread(s, tid, fails), tid, id)
  {
    hide Reserve, Cancel, Activate, Detach, Revoke, Release, Send, Enter, Announce, Load, SendSnapshot, Commit, Put;
    hide MarkOffline;
  }

  lemma AdvanceSilent(s: Sys, tid: nat, fails: bool, id: Id)
    requires Safe(s) && DeletedIn(s.log, id) && Settled(s, id) && tid < |s.threads|
    ensures MovesSilently(s, AdvanceThread(s, tid, fails), tid, id)
  {
    hide MovesSilently, AdvanceThread, Base;
    assert id in s.used && id !in s.store by { DeletedIsGone(s, id); }
    hide Safe;
    var pc := s.threads[tid].pc;
    if pc.Revoking? || pc.Entering? {
      EnterSilent(s, tid, fails, id);
    } else if pc.Reserving? || pc.Canceling? || pc.Activating? {
      ConnectSilent(s, tid, fails, id);
    } else if NeedsMutex(pc) {
      DetachSilent(s, tid, fails, id);
    } else if Writes(pc) {
      if pc.Announcing? || pc.Appending? { GuardedElsewhere(s, tid, id); }
      AppendSilent(s, tid, fails, id);
    } else if pc.Loading? || pc.Snapshotting? || pc.Committing? || pc.Putting? {
      RecordSilent(s, tid, fails, id);
    } else {
      LeaveSilent(s, tid, fails, id);
    }
  }

  lemma DeletedIsGone(s: Sys, id: Id)
    requires Safe(s) && DeletedIn(s.log, id)
    ensures id in s.used && id !in s.store
  {
    hide Base;
  }

  /** What is about to append a deletion or a guarded entry is about another instance. */
  lemma GuardedElsewhere(s: Sys, tid: nat, id: Id)
    requires Safe(s) && DeletedIn(s.log, id) && tid < |s.threads|
    requires s.threads[tid].pc.Announcing? || s.threads[tid].pc.Appending?
    ensures s.threads[tid].id != id
  {
    DeletedIsGone(s, id);
    assert ThreadOk(s, tid);
  }

  lemma AppendSilent(s: Sys, tid: nat, fails: bool, id: Id)
    requires tid < |s.threads| && Writes(s.threads[tid].pc) && s.threads[tid].id != id
    ensures MovesSilently(s, AdvanceThread(s, tid, fails), tid, id)
  {
    hide Reserve, Cancel, Activate, Detach, Revoke, Release, Send, Enter, Load, SendSnapshot, Delete, Commit, Put;
    hide Check, Leave;
  }

  lemma ServeSilent(s: Sys, a: Action, id: Id)
    requires a.Forward? || a.TakeStatus? || a.TakeMeters? || a.Quit?
    requires InServing(s, a.tid)
    ensures MovesSilently(s, Next(s, a), a.tid, id)
  {
    hide AdvanceThread, Hub.Take, ApplyStatus;
  }

  lemma PeerSilent(s: Sys, a: Action, id: Id)
    requires !a.Advance? && !a.Forward? && !a.TakeStatus? && !a.TakeMeters? && !a.Quit? && Settled(s, id)
    ensures Settled(Next(s, a), id) && Next(s, a).log == s.log
  {
    hide AdvanceThread, Forwarded, StatusTaken, MetersTaken, Reconcile, Report;
  }

  lemma NextSilent(s: Sys, a: Action, id: Id)
    requires Safe(s) && DeletedIn(s.log, id) && Settled(s, id)
    ensures Settled(Next(s, a), id) && SilentAbout(s.log, Next(s, a).log, id)
  {
    hide Safe, DeletedIn, AdvanceThread, Forwarded, StatusTaken, MetersTaken, Received, Reported, Owes;
    match a {
      case Advance(tid, fails) => if tid < |s.threads| { AdvanceSilent(s, tid, fails, id); }
      case Forward(tid, _) => if InServing(s, tid) { ServeSilent(s, a, id); }
      case TakeStatus(tid, _) => if InServing(s, tid) { ServeSilent(s, a, id); }
      case TakeMeters(tid, _) => if InServing(s, tid) { ServeSilent(s, a, id); }
      case Quit(tid) => if InServing(s, tid) { ServeSilent(s, a, id); }
      case _ => PeerSilent(s, a, id);
    }
  }

  lemma {:induction false} GoSilent(s: Sys, later: seq<Action>, id: Id)
    requires Safe(s) && DeletedIn(s.log, id) && Settled(s, id)
    ensures Settled(Go(s, later), id) && SilentAbout(s.log, Go(s, later).log, id)
  {
    hide Safe, Settled, Next;
    if later != [] {
      var n := |later| - 1;
      GoSilent(s, later[..n], id);
      GoSafe(s, later[..n]);
      var mid := Go(s, later[..n]);
      assert DeletedIn(mid.log, id) by { assert s.log <= mid.log; }
      NextSilent(mid, later[n], id);
    }
  }

  // ---- something more, while one of them is not ----

  /** The single steps that lead to an entry. */
  lemma OwedStep(s: Sys, tid: nat, fails: bool)
    requires tid < |s.threads|
    ensures
      var pc, id, s' := s.threads[tid].pc, s.threads[tid].id, Next(s, Advance(tid, fails));
      && (pc.Enrolling? ==> s' == Announce(s, tid, Enrolled, fails, if pc.ssh then Starting else Done))
      && (pc.Starting? ==> s' == Announce(s, tid, InstallStarted, fails, Working))
      && (pc.Failing? ==> s' == Announce(s, tid, InstallFailed, fails, Deleting))
      && (pc.Working? && fails ==> s' == Goto(s, tid, Revoking(true)))
      && (pc.Revoking? && s.lock == None ==> s' == Revoke(s, tid))
      && (pc.Entering? && s.lock == None ==> s' == Enter(s, tid))
      && (pc.Checking? ==> s' == Check(s, tid, fails))
      && (pc.Appending? ==> s' == Announce(s, tid, pc.kind, fails, Leaving(pc.kind, true)))
      && (pc.Leaving? ==> s' == Leave(s, tid))
      && (pc.Announcing? ==> s' == Announce(s, tid, Deleted, fails, Releasing))
      && (pc.Deleting? ==> s' == Delete(s, tid, fails))
      && (pc.Putting? ==> s' == Put(s, tid, fails))
  {
    hide Reserve, Cancel, Activate, Detach, Revoke, Release, Send, Enter, Load, SendSnapshot, Delete, Commit, Put;
    hide Check, Leave;
    hide Announce, Forwarded, StatusTaken, MetersTaken, Received, Reported;
  }

  /** `later` writes an entry about `id` first. */
  ghost predicate WritesAbout(s: Sys, later: seq<Action>, id: Id) {
    |Go(s, later).log| > |s.log| && Go(s, later).log[|s.log|].id == id
  }

  lemma FailingWrites(s: Sys, tid: nat) returns (later: seq<Action>)
    requires tid < |s.threads| && s.threads[tid].pc.Failing?
    ensures WritesAbout(s, later, s.threads[tid].id)
  {
    later := [Advance(tid, false)];
    OwedStep(s, tid, false);
    hide Next;
    GoNext(s, [], Advance(tid, false));
    assert [] + later == later;
  }

  /** Steps before the entry. */
  lemma Prepend(s: Sys, front: seq<Action>, later: seq<Action>, id: Id)
    requires Go(s, front).log == s.log && WritesAbout(Go(s, front), later, id)
    ensures WritesAbout(s, front + later, id)
  {
    GoGoes(s, front, later);
  }

  lemma {:induction false} GoGoes(s: Sys, front: seq<Action>, later: seq<Action>)
    ensures Go(s, front + later) == Go(Go(s, front), later)
  {
    hide Next;
    if later == [] {
      assert front + later == front;
    } else {
      var n := |later| - 1;
      assert (front + later)[..|front + later| - 1] == front + later[..n];
      GoGoes(s, front, later[..n]);
    }
  }

  lemma GoOne(s: Sys, a: Action)
    ensures Go(s, [a]) == Next(s, a)
  {
    hide Next;
    GoNext(s, [], a);
    assert [] + [a] == [a];
  }

  lemma RevokingWrites(s: Sys, tid: nat) returns (later: seq<Action>)
    requires tid < |s.threads| && s.threads[tid].pc == Revoking(true) && s.lock == None
    ensures WritesAbout(s, later, s.threads[tid].id)
  {
    var a := Advance(tid, true);
    OwedStep(s, tid, true);
    GoOne(s, a);
    hide Next, Go, Hub.Revoke;
    var rest := FailingWrites(Next(s, a), tid);
    later := [a] + rest;
    Prepend(s, [a], rest, s.threads[tid].id);
  }

  /** With the mutex free, every handler that owes an entry can get to write it. */
  lemma OwedWrites(s: Sys, tid: nat) returns (later: seq<Action>)
    requires Safe(s) && tid < |s.threads| && Owes(s.threads[tid].pc) && s.lock == None && s.threads[tid].id !in s.store
    ensures WritesAbout(s, later, s.threads[tid].id)
  {
    var pc, id := s.threads[tid].pc, s.threads[tid].id;
    assert !pc.Checking? && !pc.Leaving? && !Hub.Online(s.hub, id) by { assert ThreadOk(s, tid); }
    hide Safe, Next, Go, Hub.Online, Hub.Revoke;
    if pc.Failing? {
      later := FailingWrites(s, tid);
    } else if pc.Revoking? {
      later := RevokingWrites(s, tid);
    } else if pc.Working? || pc.Entering? {
      var a := Advance(tid, true);
      OwedStep(s, tid, true);
      GoOne(s, a);
      var rest := RevokingWrites(Next(s, a), tid);
      later := [a] + rest;
      Prepend(s, [a], rest, id);
    } else {
      later := [Advance(tid, false)];
      OwedStep(s, tid, false);
      GoOne(s, Advance(tid, false));
    }
  }

  /** Whoever holds the mutex can leave its guarded section without an entry. */
  lemma MutexComesFree(s: Sys) returns (front: seq<Action>)
    requires Safe(s) && s.lock.Some?
    ensures
      var s', l := Go(s, front), s.lock.value;
      && l < |s.threads| == |s'.threads|
      && s'.lock == None && s'.log == s.log && s'.store.Keys == s.store.Keys
      && s'.threads == s.threads[l := s'.threads[l]] && s'.threads[l].id == s.threads[l].id
      && (Owes(s.threads[l].pc) ==> Owes(s'.threads[l].pc))
  {
    var l := s.lock.value;
    assert l < |s.threads| && InGuard(s.threads[l].pc) by { assert ThreadOk(s, l); }
    hide Safe;
    var pc, a := s.threads[l].pc, Advance(l, true);
    GoOne(s, a);
    if pc.Leaving? {
      front := [a];
      LeavesGuard(s, l);
    } else {
      front := [a] + [a];
      EndsGuard(s, l);
      LeavesGuard(Next(s, a), l);
      GoOne(Next(s, a), a);
      GoGoes(s, [a], [a]);
    }
    hide Next, Go, Owes;
  }

  lemma EndsGuard(s: Sys, l: nat)
    requires l < |s.threads| && (s.threads[l].pc.Checking? || s.threads[l].pc.Appending?)
    ensures
      var pc, s' := s.threads[l].pc, Next(s, Advance(l, true));
      s' == Goto(s, l, Leaving(pc.kind, pc.Appending?))
  {
    OwedStep(s, l, true);
    hide Next;
  }

  lemma LeavesGuard(s: Sys, l: nat)
    requires l < |s.threads| && s.threads[l].pc.Leaving?
    ensures
      var pc, s' := s.threads[l].pc, Next(s, Advance(l, true));
      s' == Goto(s.(lock := None), l, After(pc.kind, pc.ok))
  {
    OwedStep(s, l, true);
    hide Next;
  }

  // ---- the exact conditions ----

  /** In every run, once the deletion of an instance is logged: no continuation logs anything more about it if and
      only if no handler still owes an unguarded entry. */
  lemma NothingMoreIff(env: Env, before: seq<Action>, id: Id)
    requires DeletedIn(Run(env, before).log, id)
    ensures (forall later: seq<Action> :: SilentAbout(Run(env, before).log, Run(env, before + later).log, id))
      <==> Settled(Run(env, before), id)
  {
    RunSafe(env, before);
    var s := Run(env, before);
    DeletedIsGone(s, id);
    hide Safe, Run, DeletedIn, SilentAbout;
    if Settled(s, id) {
      forall later: seq<Action> ensures SilentAbout(s.log, Run(env, before + later).log, id) {
        RunGoes(env, before, later);
        GoSilent(s, later, id);
      }
    } else {
      var later := UnsettledWrites(s, id);
      RunGoes(env, before, later);
      assert !SilentAbout(s.log, Run(env, before + later).log, id) by { NotSilent(s, later, id); }
    }
  }

  lemma NotSilent(s: Sys, later: seq<Action>, id: Id)
    requires WritesAbout(s, later, id)
    ensures !SilentAbout(s.log, Go(s, later).log, id)
  {
    hide Go;
  }

  lemma UnsettledWrites(s: Sys, id: Id) returns (later: seq<Action>)
    requires Safe(s) && id !in s.store && !Settled(s, id)
    ensures WritesAbout(s, later, id)
  {
    hide Safe, WritesAbout, Owes, Go;
    var tid: nat :| tid < |s.threads| && s.threads[tid].id == id && Owes(s.threads[tid].pc);
    if s.lock == None {
      later := OwedWrites(s, tid);
    } else {
      var front := MutexComesFree(s);
      GoSafe(s, front);
      var rest := OwedWrites(Go(s, front), tid);
      later := front + rest;
      Prepend(s, front, rest, id);
    }
  }

  ghost predicate Follows(log: seq<Event>, id: Id, kind: EventKind) {
    exists i: nat, j: nat :: i < j < |log| && log[i] == Event(Deleted, id) && log[j] == Event(kind, id)
  }

  /** An entry of some kind can follow the deletion of its instance if and only if it is one of the three that are
      published outside every guard. */
  lemma FollowersAre(env: Env, id: Id, kind: EventKind)
    ensures (exists actions :: Follows(Run(env, actions).log, id, kind))
      <==> kind in {Enrolled, InstallStarted, InstallFailed}
  {
    if actions :| Follows(Run(env, actions).log, id, kind) {
      RunSafe(env, actions);
      assert Final(Run(env, actions).log);
    }
    if kind in {Enrolled, InstallStarted, InstallFailed} {
      var actions := LateEntries(env, id);
      var log := Run(env, actions).log;
      hide Run;
      assert log[0] == Event(Deleted, id);
      assert log[if kind == Enrolled then 1 else if kind == InstallStarted then 2 else 3] == Event(kind, id);
      assert Follows(log, id, kind);
    }
  }

  /** An installation enrols; before it announces that, a deletion runs to its entry; then the installation
      announces, starts, fails and rolls back. */
  lemma LateEntries(env: Env, id: Id) returns (actions: seq<Action>)
    ensures Run(env, actions).log
      == [Event(Deleted, id), Event(Enrolled, id), Event(InstallStarted, id), Event(InstallFailed, id)]
  {
    var s0 := Initial(env);
    var a := [Create(id, true), Advance(0, false), DeleteOf(id)];
    var b := [Advance(1, false), Advance(1, false), Advance(1, false)];
    var c := [Advance(0, false), Advance(0, false), Advance(0, true)];
    var d := [Advance(0, false), Advance(0, false)];
    EnrolsThenDeletes(s0, id);
    var s3 := Go(s0, a);
    DeletesFirst(s3, id);
    var s6 := Go(s3, b);
    StartsAndFails(s6, id);
    var s9 := Go(s6, c);
    RollsBack(s9, id);
    hide Go;
    GoGoes(s0, a, b);
    GoGoes(s0, a + b, c);
    GoGoes(s0, a + b + c, d);
    actions := a + b + c + d;
    RunGoes(env, [], actions);
    assert [] + actions == actions;
  }

  lemma GoThree(s: Sys, a: Action, b: Action, c: Action)
    ensures Go(s, [a, b, c]) == Next(Next(Next(s, a), b), c)
  {
    hide Next;
    GoOne(s, a);
    GoNext(s, [a], b);
    assert [a] + [b] == [a, b];
    GoNext(s, [a, b], c);
    assert [a, b] + [c] == [a, b, c];
  }

  lemma EnrolsThenDeletes(s0: Sys, id: Id)
    requires s0.threads == [] && s0.lock == None && s0.log == [] && id !in s0.used
    ensures
      var s3 := Go(s0, [Create(id, true), Advance(0, false), DeleteOf(id)]);
      && s3.threads == [Fresh(id, Enrolling(true)), Fresh(id, Revoking(false))]
      && s3.lock == None && s3.log == [] && id in s3.store
  {
    GoThree(s0, Create(id, true), Advance(0, false), DeleteOf(id));
    ArrivesNow(s0, id);
    hide Next;
    OwedStep(Next(s0, Create(id, true)), 0, false);
    ArrivesNow(Next(Next(s0, Create(id, true)), Advance(0, false)), id);
  }

  lemma ArrivesNow(s: Sys, id: Id)
    ensures Next(s, Create(id, true)) == s.(threads := s.threads + [Fresh(id, Putting(true))])
    ensures Next(s, DeleteOf(id)) == s.(threads := s.threads + [Fresh(id, Revoking(false))])
  {
  }

  lemma DeletesFirst(s: Sys, id: Id)
    requires s.threads == [Fresh(id, Enrolling(true)), Fresh(id, Revoking(false))]
    requires s.lock == None && s.log == [] && id in s.store
    ensures
      var s' := Go(s, [Advance(1, false), Advance(1, false), Advance(1, false)]);
      s'.lock == None && s'.log == [Event(Deleted, id)] && |s'.threads| == 2 &&
          s'.threads[0] == Fresh(id, Enrolling(true))
  {
    GoThree(s, Advance(1, false), Advance(1, false), Advance(1, false));
    hide Next, Hub.Revoke;
    OwedStep(s, 1, false);
    var s1 := Next(s, Advance(1, false));
    OwedStep(s1, 1, false);
    OwedStep(Next(s1, Advance(1, false)), 1, false);
  }

  lemma StartsAndFails(s: Sys, id: Id)
    requires |s.threads| == 2 && s.threads[0] == Fresh(id, Enrolling(true)) && s.lock == None &&
        s.log == [Event(Deleted, id)]
    ensures
      var s' := Go(s, [Advance(0, false), Advance(0, false), Advance(0, true)]);
      && |s'.threads| == 2 && s'.threads[0] == Fresh(id, Revoking(true)) && s'.lock == None
      && s'.log == [Event(Deleted, id), Event(Enrolled, id), Event(InstallStarted, id)]
  {
    GoThree(s, Advance(0, false), Advance(0, false), Advance(0, true));
    hide Next;
    OwedStep(s, 0, false);
    var s1 := Next(s, Advance(0, false));
    OwedStep(s1, 0, false);
    OwedStep(Next(s1, Advance(0, false)), 0, true);
  }

  lemma RollsBack(s: Sys, id: Id)
    requires |s.threads| == 2 && s.threads[0] == Fresh(id, Revoking(true)) && s.lock == None
    ensures Go(s, [Advance(0, false), Advance(0, false)]).log == s.log + [Event(InstallFailed, id)]
  {
    var a := Advance(0, false);
    GoOne(s, a);
    GoNext(s, [a], a);
    assert [a] + [a] == [a, a];
    hide Next, Hub.Revoke;
    OwedStep(s, 0, false);
    OwedStep(Next(s, a), 0, false);
  }
}
