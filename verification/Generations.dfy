/** What a generation number identifies, over runs of any length: the counter is a uint64 that moves only on commits.
    And until it wraps, no report is ahead of it. */
module Generations {
  import opened Prelude
  import opened Records
  import opened AgentState
  import opened Control
  import opened ControlSafety
  import opened Agreement
  import Hub = HubSpec

  /** The record's generation is the number of its commits modulo 2^64, and its desired state the last of them. */
  predicate NumberedRecord(s: Sys, id: Id)
    requires id in s.store
  {
    var r, past := s.store[id], Past(s, id);
    && r.desiredGeneration == |past| % U64
    && if past == [] then r.desiredDigest == "" && r.desiredSpec == ""
       else past[|past| - 1] == Pair(r.desiredDigest, r.desiredSpec)
  }

  ghost predicate Numbered(s: Sys) {
    s.history.Keys <= s.used && s.store.Keys <= s.used && forall id | id in s.store :: NumberedRecord(s, id)
  }

  /** The desired state stays, and the record does not become inconsistent. */
  predicate KeepsRecord(r: Record, r': Record) {
    Snapshot(r') == Snapshot(r) && (Consistent(r) ==> Consistent(r'))
  }

  lemma MutationsKeep(r: Record, status: Status)
    ensures KeepsRecord(r, Hello(r)) && KeepsRecord(r, MarkOffline(r)) && KeepsRecord(r, r)
    ensures ApplyStatus(r, status).Some? ==> KeepsRecord(r, ApplyStatus(r, status).value)
  {
  }

  /** No commit, and every record keeps its desired state or is new under an unused identity. */
  ghost predicate KeepsDesired(s: Sys, s': Sys) {
    && s'.history == s.history && s.used <= s'.used && s'.store.Keys <= s'.used
    && forall id | id in s'.store ::
      if id in s.store then KeepsRecord(s.store[id], s'.store[id]) else id !in s.used && s'.store[id] == ENROLLED
  }

  /** No record changes, and none is new. */
  lemma SameKeeps(s: Sys, s': Sys)
    requires s'.history == s.history && s'.used == s.used && s'.store == s.store && s.store.Keys <= s.used
    ensures KeepsDesired(s, s')
  {
    forall id | id in s'.store ensures KeepsRecord(s.store[id], s'.store[id]) {}
  }

  /** One record changes. */
  lemma OneKeeps(s: Sys, s': Sys, id: Id)
    requires s'.history == s.history && s'.used == s.used && s.store.Keys <= s.used
    requires id in s.store && id in s'.store && s'.store == s.store[id := s'.store[id]]
    requires KeepsRecord(s.store[id], s'.store[id])
    ensures KeepsDesired(s, s')
  {
    forall i | i in s'.store ensures i in s.store && KeepsRecord(s.store[i], s'.store[i]) {
      if i != id { MutationsKeep(s.store[i], Status(0, "", "", "")); }
    }
  }

  lemma KeptNumbered(s: Sys, s': Sys)
    requires Numbered(s) && KeepsDesired(s, s')
    ensures Numbered(s')
  {
    hide Consistent;
    forall id | id in s'.store ensures NumberedRecord(s', id) {
      if id in s.store { assert NumberedRecord(s, id); }
    }
  }

  lemma MutexKeeps(s: Sys, tid: nat, fails: bool)
    requires tid < |s.threads| && NeedsMutex(s.threads[tid].pc) && s.store.Keys <= s.used
    ensures KeepsDesired(s, AdvanceThread(s, tid, fails))
  {
    hide Hub.Reserve, Hub.Revoke, Hub.Cancel, Hub.Activate, Hub.Detach, Hub.Release, Hub.Send, MayEnter, After;
    hide Load, SendSnapshot, Delete, Commit, Put, Check, Leave, Announce, KeepsDesired;
    SameKeeps(s, AdvanceThread(s, tid, fails));
  }

  lemma LoadKeeps(s: Sys, tid: nat, fails: bool)
    requires tid < |s.threads| && s.store.Keys <= s.used
    ensures KeepsDesired(s, Load(s, tid, fails))
  {
    var id, s' := s.threads[tid].id, Load(s, tid, fails);
    hide KeepsDesired, Hello, KeepsRecord;
    if fails || id !in s.store {
      SameKeeps(s, s');
    } else {
      MutationsKeep(s.store[id], Status(0, "", "", ""));
      OneKeeps(s, s', id);
    }
  }

  lemma CheckKeeps(s: Sys, tid: nat, fails: bool)
    requires tid < |s.threads| && s.threads[tid].pc.Checking? && s.store.Keys <= s.used
    ensures KeepsDesired(s, Check(s, tid, fails))
  {
    var id, s' := s.threads[tid].id, Check(s, tid, fails);
    hide KeepsDesired, MarkOffline, KeepsRecord;
    if fails || id !in s.store {
      SameKeeps(s, s');
    } else {
      MutationsKeep(s.store[id], Status(0, "", "", ""));
      OneKeeps(s, s', id);
    }
  }

  lemma StatusKeeps(s: Sys, tid: nat, fails: bool)
    requires InServing(s, tid) && s.store.Keys <= s.used
    ensures KeepsDesired(s, StatusTaken(s, tid, fails))
  {
    var th, s' := s.threads[tid], StatusTaken(s, tid, fails);
    hide KeepsDesired, ApplyStatus, KeepsRecord;
    if th.uplink != [] && !fails && th.id in s.store && ApplyStatus(s.store[th.id], th.uplink[0]).Some? {
      MutationsKeep(s.store[th.id], th.uplink[0]);
      OneKeeps(s, s', th.id);
    } else {
      SameKeeps(s, s');
    }
  }

  lemma PutKeeps(s: Sys, tid: nat, fails: bool)
    requires tid < |s.threads| && s.threads[tid].pc.Putting? && s.store.Keys <= s.used
    ensures KeepsDesired(s, Put(s, tid, fails))
  {
    var s' := Put(s, tid, fails);
    forall i | i in s'.store && i in s.store ensures KeepsRecord(s.store[i], s'.store[i]) {}
  }

  lemma DeleteKeeps(s: Sys, tid: nat, fails: bool)
    requires tid < |s.threads| && s.store.Keys <= s.used
    ensures KeepsDesired(s, Delete(s, tid, fails))
  {
    var s' := Delete(s, tid, fails);
    forall i | i in s'.store ensures i in s.store && KeepsRecord(s.store[i], s'.store[i]) {}
  }

  lemma RecordKeeps(s: Sys, tid: nat, fails: bool)
    requires tid < |s.threads| && s.store.Keys <= s.used
    requires
      var pc := s.threads[tid].pc;
      pc.Loading? || pc.Deleting? || pc.Putting? || pc.Checking?
    ensures KeepsDesired(s, AdvanceThread(s, tid, fails))
  {
    hide Reserve, Cancel, Activate, Detach, Revoke, Release, Send, Enter, Commit, Leave, Announce, After;
    hide Load, Delete, Put, Check, KeepsDesired;
    match s.threads[tid].pc {
      case Loading => LoadKeeps(s, tid, fails);
      case Deleting => DeleteKeeps(s, tid, fails);
      case Putting(_) => PutKeeps(s, tid, fails);
      case Checking(_) => CheckKeeps(s, tid, fails);
    }
  }

  lemma OtherKeeps(s: Sys, tid: nat, fails: bool)
    requires tid < |s.threads| && s.store.Keys <= s.used
    requires
      var pc := s.threads[tid].pc;
      !NeedsMutex(pc) && !pc.Loading? && !pc.Deleting? && !pc.Putting? && !pc.Checking? && !pc.Committing?
    ensures KeepsDesired(s, AdvanceThread(s, tid, fails))
  {
    hide Reserve, Cancel, Activate, Detach, Revoke, Release, Send, Enter, Load, Delete, Commit, Put, Check, After;
    hide KeepsDesired;
    SameKeeps(s, AdvanceThread(s, tid, fails));
  }

  /** A commit takes the next number, wrapping to zero, or repeats the last digest and takes none. */
  lemma CommittedRecord(s: Sys, tid: nat)
    requires tid < |s.threads| && s.threads[tid].id in s.store && NumberedRecord(s, s.threads[tid].id)
    ensures s.threads[tid].id in Commit(s, tid, false).store && NumberedRecord(Commit(s, tid, false), s.threads[tid].id)
  {
    CommitPast(s, tid);
    NextResidue(|Past(s, s.threads[tid].id)|);
    hide Commit, Past, Extends;
  }

  lemma CommitNumbered(s: Sys, tid: nat, fails: bool)
    requires Numbered(s) && tid < |s.threads|
    ensures Numbered(Commit(s, tid, fails))
  {
    var id, s' := s.threads[tid].id, Commit(s, tid, fails);
    if !fails && id in s.store {
      CommittedRecord(s, tid);
      assert forall i | i in s'.store && i != id :: s'.store[i] == s.store[i] && Past(s', i) == Past(s, i);
      assert s'.history.Keys <= s.used && s'.store.Keys <= s.used && s'.used == s.used;
      hide Commit, SetDesired, Past;
      assert forall i | i in s'.store && i != id :: NumberedRecord(s, i);
    } else {
      assert s'.history == s.history && s'.store == s.store && s'.used == s.used;
      hide Commit;
    }
  }

  lemma NextResidue(n: nat)
    ensures (n % U64 + 1) % U64 == (n + 1) % U64
  {
  }

  lemma AdvanceKeeps(s: Sys, tid: nat, fails: bool)
    requires tid < |s.threads| && !s.threads[tid].pc.Committing? && s.store.Keys <= s.used
    ensures KeepsDesired(s, AdvanceThread(s, tid, fails))
  {
    hide KeepsDesired, AdvanceThread;
    var pc := s.threads[tid].pc;
    if NeedsMutex(pc) {
      MutexKeeps(s, tid, fails);
    } else if pc.Loading? || pc.Deleting? || pc.Putting? || pc.Checking? {
      RecordKeeps(s, tid, fails);
    } else {
      OtherKeeps(s, tid, fails);
    }
  }

  lemma AdvanceNumbered(s: Sys, tid: nat, fails: bool)
    requires Numbered(s) && tid < |s.threads|
    ensures Numbered(AdvanceThread(s, tid, fails))
  {
    if s.threads[tid].pc.Committing? {
      CommitNumbered(s, tid, fails);
      hide Numbered, Commit;
    } else {
      AdvanceKeeps(s, tid, fails);
      hide *;
      KeptNumbered(s, AdvanceThread(s, tid, fails));
    }
  }

  lemma ServeKeeps(s: Sys, a: Action)
    requires !a.Advance? && s.store.Keys <= s.used
    ensures KeepsDesired(s, Next(s, a))
  {
    hide AdvanceThread, Hub.Take, Reconcile, Report, StatusTaken, KeepsDesired;
    if a.TakeStatus? && InServing(s, a.tid) {
      StatusKeeps(s, a.tid, a.fails);
    } else {
      SameKeeps(s, Next(s, a));
    }
  }

  lemma NextNumbered(s: Sys, a: Action)
    requires Numbered(s)
    ensures Numbered(Next(s, a))
  {
    if a.Advance? {
      if a.tid < |s.threads| {
        AdvanceNumbered(s, a.tid, a.fails);
        NextAdvance(s, a.tid, a.fails);
      }
      hide Numbered, AdvanceThread;
    } else {
      ServeKeeps(s, a);
      hide *;
      KeptNumbered(s, Next(s, a));
    }
  }

  lemma {:induction false} RunNumbered(env: Env, actions: seq<Action>)
    ensures Numbered(Run(env, actions))
  {
    hide Numbered, Next;
    if actions == [] {
      NoneNumbered(env);
    } else {
      RunNumbered(env, actions[..|actions| - 1]);
      NextNumbered(Run(env, actions[..|actions| - 1]), actions[|actions| - 1]);
    }
  }

  lemma NoneNumbered(env: Env)
    ensures Numbered(Initial(env))
  {
  }

  // ---- the agent is never ahead ----

  /** Every record is consistent unless 2^64 updates of it have been committed. */
  ghost predicate Followed(s: Sys) {
    forall id | id in s.store && |Past(s, id)| < U64 :: Consistent(s.store[id])
  }

  lemma KeptFollowed(s: Sys, s': Sys)
    requires Followed(s) && KeepsDesired(s, s')
    ensures Followed(s')
  {
    forall id | id in s'.store && |Past(s', id)| < U64 ensures Consistent(s'.store[id]) {
      assert Past(s', id) == Past(s, id);
      if id in s.store { assert KeepsRecord(s.store[id], s'.store[id]); }
    }
  }

  lemma CommitConsistent(r: Record, n: nat, spec: string, digest: string)
    requires n < U64 && r.desiredGeneration == n && Consistent(r)
    requires SetDesired(r, spec, digest) == r || n + 1 < U64
    ensures Consistent(SetDesired(r, spec, digest))
  {
  }

  lemma CommitFollowsOne(s: Sys, tid: nat)
    requires tid < |s.threads| && s.threads[tid].id in s.store && NumberedRecord(s, s.threads[tid].id)
    requires |Past(s, s.threads[tid].id)| < U64 ==> Consistent(s.store[s.threads[tid].id])
    ensures
      var id, s' := s.threads[tid].id, Commit(s, tid, false);
      id in s'.store && (|Past(s', id)| < U64 ==> Consistent(s'.store[id]))
  {
    var th := s.threads[tid];
    CommitPast(s, tid);
    hide Commit, Extends;
    if |Past(Commit(s, tid, false), th.id)| < U64 {
      CommitConsistent(s.store[th.id], |Past(s, th.id)|, th.spec, s.env.hash(th.spec));
      hide Past, SetDesired, Consistent, NumberedRecord;
    }
  }

  lemma CommitFollowed(s: Sys, tid: nat, fails: bool)
    requires Numbered(s) && Followed(s) && tid < |s.threads|
    ensures Followed(Commit(s, tid, fails))
  {
    var id, s' := s.threads[tid].id, Commit(s, tid, fails);
    hide Consistent, SetDesired, NumberedRecord;
    if !fails && id in s.store {
      assert NumberedRecord(s, id);
      CommitFollowsOne(s, tid);
      assert forall i | i in s'.store && i != id ::
          i in s.store && s'.store[i] == s.store[i] && Past(s', i) == Past(s, i);
      hide Commit, Past;
    } else {
      assert s'.history == s.history && s'.store == s.store;
      hide Commit;
    }
  }

  lemma NextFollowed(s: Sys, a: Action)
    requires Numbered(s) && Followed(s)
    ensures Followed(Next(s, a))
  {
    if a.Advance? && a.tid < |s.threads| {
      NextAdvance(s, a.tid, a.fails);
      if s.threads[a.tid].pc.Committing? {
        CommitFollowed(s, a.tid, a.fails);
        hide Numbered, Followed, Commit;
      } else {
        AdvanceKeeps(s, a.tid, a.fails);
        hide *;
        KeptFollowed(s, Next(s, a));
      }
    } else if !a.Advance? {
      ServeKeeps(s, a);
      hide *;
      KeptFollowed(s, Next(s, a));
    }
  }

  /** However updates, streams, deletions and reports interleave, and whatever foreign peers report: as long as fewer
      than 2^64 updates of it have been committed, the reported generation of a stored record does not exceed the
      desired one, and at an equal positive generation the digests agree. */
  lemma {:induction false} RunFollowed(env: Env, actions: seq<Action>, id: Id)
    requires id in Run(env, actions).store && |Past(Run(env, actions), id)| < U64
    ensures Consistent(Run(env, actions).store[id])
  {
    AllFollowed(env, actions);
    hide Run;
  }

  lemma {:induction false} AllFollowed(env: Env, actions: seq<Action>)
    ensures Followed(Run(env, actions))
  {
    hide Numbered, Followed, Next;
    if actions == [] {
      assert Followed(Initial(env)) by { NoneFollowed(env); }
    } else {
      RunNumbered(env, actions[..|actions| - 1]);
      AllFollowed(env, actions[..|actions| - 1]);
      NextFollowed(Run(env, actions[..|actions| - 1]), actions[|actions| - 1]);
    }
  }

  lemma NoneFollowed(env: Env)
    ensures Followed(Initial(env))
  {
  }

  // ---- what two reads of a generation tell ----

  /** How many updates of `id` were committed between two points of a run. */
  function CommitsBetween(env: Env, before: seq<Action>, after: seq<Action>, id: Id): int {
    |Past(Run(env, before + after), id)| - |Past(Run(env, before), id)|
  }

  /** Two records of one identity, read at any two points of a run of any length, show the same generation if and
      only if the number of commits between them is a multiple of 2^64; when it is zero they show the same digest
      and specification. */
  lemma SameGenerationIff(env: Env, before: seq<Action>, after: seq<Action>, id: Id)
    requires id in Run(env, before).store && id in Run(env, before + after).store
    ensures
      var r, r', n := Run(env, before).store[id], Run(env, before + after).store[id],
          CommitsBetween(env, before, after, id);
      && n >= 0
      && (r.desiredGeneration == r'.desiredGeneration <==> n % U64 == 0)
      && (n == 0 ==> Snapshot(r) == Snapshot(r'))
  {
    hide Next;
    RunNumbered(env, before);
    RunNumbered(env, before + after);
    PastGrows(env, before, after, id);
    assert NumberedRecord(Run(env, before), id) && NumberedRecord(Run(env, before + after), id);
    hide Run;
    SameResidue(|Past(Run(env, before), id)|, |Past(Run(env, before + after), id)|);
  }

  lemma SameResidue(a: nat, b: nat)
    ensures a % U64 == b % U64 <==> (b - a) % U64 == 0
  {
  }

  /** So while fewer than 2^64 updates of it are committed in between, a generation names one digest and
      specification. */
  lemma GenerationNamesOnePair(env: Env, before: seq<Action>, after: seq<Action>, id: Id)
    requires id in Run(env, before).store && id in Run(env, before + after).store
    requires CommitsBetween(env, before, after, id) < U64
    requires Run(env, before).store[id].desiredGeneration == Run(env, before + after).store[id].desiredGeneration
    ensures Snapshot(Run(env, before).store[id]) == Snapshot(Run(env, before + after).store[id])
  {
    hide Next, Past, Run;
    SameGenerationIff(env, before, after, id);
  }

  // ---- what happens beyond ----

  /** One more update, with a digest other than the record's, committed by its own handler. */
  lemma CommitOne(env: Env, actions: seq<Action>, id: Id, spec: string) returns (after: seq<Action>)
    requires id in Run(env, actions).store && Run(env, actions).store[id].desiredDigest != env.hash(spec)
    ensures
      var s, s' := Run(env, actions), Run(env, actions + after);
      && id in s'.store && Past(s', id) == Past(s, id) + [Pair(env.hash(spec), spec)]
      && s'.store[id].desiredDigest == env.hash(spec) && s'.store[id].desiredSpec == spec
  {
    hide Next;
    var s := Run(env, actions);
    HistoryShort(env, actions, id);
    var tid := |s.threads|;
    after := [DesiredOf(id, spec), Advance(tid, false)];
    RunNext(env, actions, DesiredOf(id, spec));
    RunNext(env, actions + [DesiredOf(id, spec)], Advance(tid, false));
    assert actions + [DesiredOf(id, spec)] + [Advance(tid, false)] == actions + after;
    hide Run;
    Commits(s, id, spec);
  }

  lemma Commits(s: Sys, id: Id, spec: string)
    requires id in s.store && s.store[id].desiredDigest != s.env.hash(spec)
    ensures
      var s' := Next(Next(s, DesiredOf(id, spec)), Advance(|s.threads|, false));
      && id in s'.store && Past(s', id) == Past(s, id) + [Pair(s.env.hash(spec), spec)]
      && s'.store[id].desiredDigest == s.env.hash(spec) && s'.store[id].desiredSpec == spec
  {
    var s1 := s.(threads := s.threads + [Fresh(id, Committing).(spec := spec)]);
    assert Next(s, DesiredOf(id, spec)) == s1;
    CommitStepNow(s1, |s.threads|);
    hide Next;
    CommitPast(s1, |s.threads|);
  }

  lemma CommitStepNow(s: Sys, tid: nat)
    requires tid < |s.threads| && s.threads[tid].pc == Committing
    ensures Next(s, Advance(tid, false)) == Commit(s, tid, false)
  {
    hide Reserve, Cancel, Activate, Detach, Revoke, Release, Send, Enter, Load, SendSnapshot, Delete, Put, Check, Leave;
    hide Announce, Commit;
  }

  /** `n` more updates that alternate between two specifications. */
  lemma {:induction false} CommitMany(env: Env, actions: seq<Action>, id: Id, a: string, b: string, n: nat)
    returns (after: seq<Action>)
    requires id in Run(env, actions).store && env.hash(a) != env.hash(b)
    ensures
      var s, s' := Run(env, actions), Run(env, actions + after);
      && id in s'.store && |Past(s', id)| == |Past(s, id)| + n
      && (n > 0 ==> s'.store[id].desiredDigest in {env.hash(a), env.hash(b)})
  {
    hide Run, Next, Past;
    if n == 0 {
      after := [];
      assert actions + [] == actions;
    } else {
      var front := CommitMany(env, actions, id, a, b, n - 1);
      var digest := Run(env, actions + front).store[id].desiredDigest;
      var last := CommitOne(env, actions + front, id, if digest == env.hash(a) then b else a);
      after := front + last;
      assert actions + front + last == actions + after;
    }
  }

  /** The bound is exact: a run with 2^64 commits between two reads in which one generation names two digests. */
  lemma WrapRenames(env: Env, id: Id, a: string, b: string, c: string) returns (before: seq<Action>, after: seq<Action>)
    requires env.hash(a) != "" && env.hash(a) != env.hash(b) && env.hash(c) !in {env.hash(a), env.hash(b)}
    ensures id in Run(env, before).store && id in Run(env, before + after).store
    ensures CommitsBetween(env, before, after, id) == U64
    ensures Run(env, before).store[id].desiredGeneration == Run(env, before + after).store[id].desiredGeneration
    ensures Run(env, before).store[id].desiredDigest != Run(env, before + after).store[id].desiredDigest
  {
    Enrols(env, id);
    hide Run, Next, Past;
    var create := [Create(id, false), Advance(0, false)];
    var first := CommitOne(env, create, id, a);
    before := create + first;
    var many := CommitMany(env, before, id, a, b, U64 - 1);
    var last := CommitOne(env, before + many, id, c);
    after := many + last;
    assert before + many + last == before + after;
    SameGenerationIff(env, before, after, id);
  }

  lemma Enrols(env: Env, id: Id)
    ensures
      var s := Run(env, [Create(id, false), Advance(0, false)]);
      id in s.store && s.store[id].desiredDigest == ""
  {
    var s1 := Initial(env).(threads := [Fresh(id, Putting(false))]);
    RunNext(env, [], Create(id, false));
    assert [] + [Create(id, false)] == [Create(id, false)];
    assert Run(env, [Create(id, false)]) == s1;
    RunNext(env, [Create(id, false)], Advance(0, false));
    assert [Create(id, false)] + [Advance(0, false)] == [Create(id, false), Advance(0, false)];
    hide Run;
    PutNow(s1);
  }

  lemma PutNow(s: Sys)
    requires |s.threads| == 1 && s.threads[0].pc == Putting(false) && s.threads[0].id !in s.used
    ensures
      var s' := Next(s, Advance(0, false));
      s.threads[0].id in s'.store && s'.store[s.threads[0].id] == ENROLLED
  {
    hide Reserve, Cancel, Activate, Detach, Revoke, Release, Send, Enter, Load, SendSnapshot, Delete, Commit, Check;
    hide Leave;
    hide Announce;
  }
}
