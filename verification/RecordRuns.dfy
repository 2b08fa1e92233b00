/** What a stored record says after any run: whose update it holds, when an update takes no generation, and which
    report or connection wrote the rest of it last. */
module RecordRuns {
  import opened Prelude
  import opened Records
  import opened AgentState
  import opened Control
  import opened ControlSafety
  import opened Agreement
  import opened Generations
  import Hub = HubSpec

  // ---- updates ----

  /** An update of an enrolled instance commits the next generation if its digest is not the record's, and
      otherwise leaves records and history alone. */
  lemma {:induction false} UpdateTakes(env: Env, actions: seq<Action>, tid: nat, fails: bool)
    requires tid < |Run(env, actions).threads| && Run(env, actions).threads[tid].pc.Committing?
    ensures
      var s, s' := Run(env, actions), Run(env, actions + [Advance(tid, fails)]);
      var id, spec, digest := s.threads[tid].id, s.threads[tid].spec, env.hash(s.threads[tid].spec);
      && tid < |s'.threads|
      && (fails || id !in s.store ==>
            s'.store == s.store && s'.history == s.history && s'.threads[tid].pc == Done)
      && (!fails && id in s.store ==>
            id in s'.store && s'.threads[tid].pc == Sending && s'.threads[tid].snap == s'.store[id])
      && (!fails && id in s.store && s.store[id].desiredDigest == digest ==>
            s'.store == s.store && s'.history == s.history)
      && (!fails && id in s.store && s.store[id].desiredDigest != digest ==>
            && s'.store == s.store[id := s.store[id].(desiredGeneration := (s.store[id].desiredGeneration + 1) % U64,
                                                      desiredDigest := digest, desiredSpec := spec)]
            && s'.history == s.history[id := Past(s, id) + [Pair(digest, spec)]])
  {
    var s := Run(env, actions);
    RunNext(env, actions, Advance(tid, fails));
    HistoryShort(env, actions, s.threads[tid].id);
    hide Run;
    CommitNow(s, tid, fails);
    hide Next;
    assert s.threads[tid].id in s.store ==> s.store[s.threads[tid].id := s.store[s.threads[tid].id]] == s.store;
  }

  lemma CommitNow(s: Sys, tid: nat, fails: bool)
    requires tid < |s.threads| && s.threads[tid].pc == Committing
    ensures Next(s, Advance(tid, fails)) == Commit(s, tid, fails)
  {
    hide Reserve, Cancel, Activate, Detach, Revoke, Release, Send, Enter, Load, SendSnapshot, Delete, Put, Check, Leave;
    hide Announce, Commit;
  }

  /** No two updates in a row carry the same digest, and the first does not carry the empty one. */
  predicate Alternate(past: seq<Pair>) {
    past == [] ||
    var n := |past| - 1;
    Alternate(past[..n]) && past[n].digest != (if n == 0 then "" else past[n - 1].digest)
  }

  ghost predicate Alternates(s: Sys) {
    forall id :: Alternate(Past(s, id))
  }

  lemma {:induction false} AlternateNext(past: seq<Pair>, pair: Pair)
    requires Alternate(past) && pair.digest != (if |past| == 0 then "" else past[|past| - 1].digest)
    ensures Alternate(past + [pair])
  {
    assert (past + [pair])[..|past|] == past;
  }

  lemma CommitAlternatesOne(s: Sys, tid: nat)
    requires tid < |s.threads| && s.threads[tid].id in s.store && NumberedRecord(s, s.threads[tid].id)
    requires Alternate(Past(s, s.threads[tid].id)) && ProperHash(s.env)
    ensures Alternate(Past(Commit(s, tid, false), s.threads[tid].id))
  {
    var id, past := s.threads[tid].id, Past(s, s.threads[tid].id);
    CommitPast(s, tid);
    var r' := Commit(s, tid, false).store[id];
    hide Commit, Past, Alternate, Extends;
    if r' != s.store[id] {
      AlternateNext(past, Pair(r'.desiredDigest, r'.desiredSpec));
    }
  }

  lemma CommitAlternates(s: Sys, tid: nat, fails: bool)
    requires Numbered(s) && Alternates(s) && ProperHash(s.env) && tid < |s.threads|
    ensures Alternates(Commit(s, tid, fails))
  {
    hide Alternate, SetDesired, NumberedRecord, ProperHash;
    var th, s' := s.threads[tid], Commit(s, tid, fails);
    if !fails && th.id in s.store {
      CommitAlternatesOne(s, tid);
      CommitPast(s, tid);
      hide Commit, Past, Extends;
    } else {
      assert s'.history == s.history;
      hide Commit;
      KeptAlternates(s, s');
    }
  }

  lemma KeptAlternates(s: Sys, s': Sys)
    requires Alternates(s) && s'.history == s.history
    ensures Alternates(s')
  {
    hide Alternate;
    forall id ensures Alternate(Past(s', id)) {
      assert Past(s', id) == Past(s, id);
    }
  }

  lemma NextAlternates(s: Sys, a: Action)
    requires Numbered(s) && Alternates(s) && ProperHash(s.env)
    ensures Alternates(Next(s, a))
  {
    hide Alternates, AdvanceThread, Commit;
    if a.Advance? {
      if a.tid < |s.threads| {
        NextAdvance(s, a.tid, a.fails);
        if s.threads[a.tid].pc.Committing? {
          CommitNow(s, a.tid, a.fails);
          CommitAlternates(s, a.tid, a.fails);
        } else {
          AdvanceKeeps(s, a.tid, a.fails);
          KeptAlternates(s, Next(s, a));
        }
      } else {
        KeptAlternates(s, Next(s, a));
      }
    } else {
      ServeKeeps(s, a);
      hide Next;
      KeptAlternates(s, Next(s, a));
    }
  }

  /** In every run, neighbouring updates of an instance differ in their digest. */
  lemma {:induction false} RunAlternates(env: Env, actions: seq<Action>)
    requires ProperHash(env)
    ensures Alternates(Run(env, actions))
  {
    hide Alternates, Numbered, Next;
    if actions == [] {
      assert Alternates(Initial(env)) by { NoneAlternate(env); }
    } else {
      var front := actions[..|actions| - 1];
      RunAlternates(env, front);
      RunNumbered(env, front);
      HistoryShort(env, front, "");
      NextAlternates(Run(env, front), actions[|actions| - 1]);
    }
  }

  lemma {:induction false} NoneAlternate(env: Env)
    ensures Alternates(Initial(env))
  {
  }

  // ---- reports and connections ----

  /** What is written into a record beside the desired state. */
  datatype Seen = Seen(generation: uint64, digest: string, phase: string, reason: string)

  function SeenIn(r: Record): Seen {
    Seen(r.appliedGeneration, r.appliedDigest, r.phase, r.reason)
  }

  /** A report may not be ahead of the desired state, nor differ from it at its own positive generation. */
  predicate Acceptable(r: Record, status: Status) {
    && status.generation <= r.desiredGeneration
    && (status.generation == r.desiredGeneration && status.generation > 0 ==> status.digest == r.desiredDigest)
  }

  /** Step `a` takes a report of `id` from a stream. */
  predicate Reports(s: Sys, a: Action, id: Id) {
    a.TakeStatus? && InServing(s, a.tid) && s.threads[a.tid].id == id && s.threads[a.tid].uplink != []
  }

  /** Step `a` is the transaction of a handler of `id` that stands at `pc`. */
  predicate Transacts(s: Sys, a: Action, id: Id, pc: PC) {
    a.Advance? && !a.fails && a.tid < |s.threads| && s.threads[a.tid].id == id && s.threads[a.tid].pc == pc
  }

  function SeenAfter(s: Sys, a: Action, id: Id, seen: Seen): Seen {
    if id !in s.store then seen
    else if Reports(s, a, id) && !a.fails && Acceptable(s.store[id], s.threads[a.tid].uplink[0]) then
      var status := s.threads[a.tid].uplink[0];
      Seen(status.generation, status.digest, status.phase, status.reason)
    else if Transacts(s, a, id, Loading) && seen.phase in {"enrolled", "offline"} then seen.(phase := "connected")
    else if Transacts(s, a, id, Checking(Disconnected)) then seen.(phase := "offline")
    else seen
  }

  /** What was last written about `id`: by a report that was accepted, by a stream that connected, or by one that
      went. */
  function LastSeen(env: Env, actions: seq<Action>, id: Id): Seen {
    if actions == [] then Seen(0, "", "enrolled", "")
    else
      var front, last := actions[..|actions| - 1], actions[|actions| - 1];
      SeenAfter(Run(env, front), last, id, LastSeen(env, front, id))
  }

  /** Every record keeps what is written about it, or is new. */
  ghost predicate KeepsSeen(s: Sys, s': Sys) {
    && s.used <= s'.used && s'.store.Keys <= s'.used
    && forall id | id in s'.store ::
      if id in s.store then SeenIn(s'.store[id]) == SeenIn(s.store[id])
      else id !in s.used && SeenIn(s'.store[id]) == Seen(0, "", "enrolled", "")
  }

  /** ... except that of one identity. */
  ghost predicate WritesSeen(s: Sys, s': Sys, id: Id, seen: Seen) {
    && s'.used == s.used && id in s.store && id in s'.store && s'.store == s.store[id := s'.store[id]]
    && SeenIn(s'.store[id]) == seen
  }

  lemma LoadSeen(s: Sys, tid: nat, fails: bool)
    requires tid < |s.threads| && s.threads[tid].pc.Loading?
    ensures
      var id, s' := s.threads[tid].id, Load(s, tid, fails);
      if fails || id !in s.store then s'.store == s.store && s'.used == s.used
      else WritesSeen(s, s', id, SeenAfter(s, Advance(tid, fails), id, SeenIn(s.store[id])))
  {
  }

  lemma CheckSeen(s: Sys, tid: nat, fails: bool)
    requires tid < |s.threads| && s.threads[tid].pc.Checking?
    ensures
      var id, s' := s.threads[tid].id, Check(s, tid, fails);
      if fails || id !in s.store then s'.store == s.store && s'.used == s.used
      else WritesSeen(s, s', id, SeenAfter(s, Advance(tid, fails), id, SeenIn(s.store[id])))
  {
  }

  lemma StatusSeen(s: Sys, tid: nat, fails: bool)
    requires InServing(s, tid)
    ensures
      var th, s' := s.threads[tid], StatusTaken(s, tid, fails);
      if fails || th.id !in s.store || th.uplink == [] || !Acceptable(s.store[th.id], th.uplink[0])
      then s'.store == s.store && s'.used == s.used
      else WritesSeen(s, s', th.id, SeenAfter(s, TakeStatus(tid, fails), th.id, SeenIn(s.store[th.id])))
  {
  }

  lemma CommitSeen(s: Sys, tid: nat, fails: bool)
    requires tid < |s.threads|
    ensures
      var id, s' := s.threads[tid].id, Commit(s, tid, fails);
      if fails || id !in s.store then s'.store == s.store && s'.used == s.used
      else WritesSeen(s, s', id, SeenIn(s.store[id]))
  {
  }

  /** A step that is none of those three writes nothing about anyone. */
  lemma QuietSeen(s: Sys, s': Sys)
    requires s'.store == s.store && s'.used == s.used && s.store.Keys <= s.used
    ensures KeepsSeen(s, s')
  {
    hide SeenIn;
  }

  lemma DeleteSeen(s: Sys, tid: nat, fails: bool)
    requires tid < |s.threads| && s.store.Keys <= s.used
    ensures KeepsSeen(s, Delete(s, tid, fails))
  {
    hide SeenIn;
  }

  lemma PutSeen(s: Sys, tid: nat, fails: bool)
    requires tid < |s.threads| && s.threads[tid].pc.Putting? && s.store.Keys <= s.used
    ensures KeepsSeen(s, Put(s, tid, fails))
  {
  }

  /** The records of the identities other than `id`, and that of `id`, after a step. */
  ghost predicate Follows(s: Sys, a: Action) {
    var s' := Next(s, a);
    && s.used <= s'.used && s'.store.Keys <= s'.used
    && forall id | id in s'.store ::
      if id in s.store then SeenIn(s'.store[id]) == SeenAfter(s, a, id, SeenIn(s.store[id]))
      else id !in s.used && SeenIn(s'.store[id]) == Seen(0, "", "enrolled", "")
  }

  lemma KeptFollows(s: Sys, a: Action)
    requires KeepsSeen(s, Next(s, a))
    requires a.TakeStatus? && InServing(s, a.tid) ==>
      || s.threads[a.tid].uplink == [] || a.fails || s.threads[a.tid].id !in s.store
      || !Acceptable(s.store[s.threads[a.tid].id], s.threads[a.tid].uplink[0])
    requires a.Advance? && a.tid < |s.threads| && s.threads[a.tid].pc in {Loading, Checking(Disconnected)} ==>
      a.fails || s.threads[a.tid].id !in s.store
    ensures Follows(s, a)
  {
    hide Next, SeenIn, Acceptable;
  }

  lemma WrittenFollows(s: Sys, a: Action, tid: nat, seen: Seen)
    requires a == Advance(tid, false) || a == TakeStatus(tid, false)
    requires tid < |s.threads| && s.store.Keys <= s.used && WritesSeen(s, Next(s, a), s.threads[tid].id, seen)
    requires seen == SeenAfter(s, a, s.threads[tid].id, SeenIn(s.store[s.threads[tid].id]))
    ensures Follows(s, a)
  {
    hide Next, SeenIn, Acceptable;
  }

  lemma AdvanceFollows(s: Sys, tid: nat, fails: bool)
    requires tid < |s.threads| && s.store.Keys <= s.used
    ensures Follows(s, Advance(tid, fails))
  {
    var a, pc, id := Advance(tid, fails), s.threads[tid].pc, s.threads[tid].id;
    NextAdvance(s, tid, fails);
    if pc.Loading? || pc.Checking? || pc.Committing? || pc.Deleting? || pc.Putting? {
      Transaction(s, tid, fails);
      hide Next, AdvanceThread, Follows, KeepsSeen, WritesSeen, SeenAfter, SeenIn, Load, Check, Commit, Delete, Put;
      match pc {
        case Loading => LoadSeen(s, tid, fails);
        case Checking(_) => CheckSeen(s, tid, fails);
        case Committing => CommitSeen(s, tid, fails);
        case Deleting => DeleteSeen(s, tid, fails);
        case Putting(_) => PutSeen(s, tid, fails);
      }
      if (pc.Loading? || pc.Checking? || pc.Committing?) && !fails && id in s.store {
        if pc.Committing? || (pc.Checking? && pc.kind != Disconnected) { UnchangedSeen(s, a, id); }
        WrittenFollows(s, a, tid, SeenAfter(s, a, id, SeenIn(s.store[id])));
      } else {
        if !pc.Deleting? && !pc.Putting? { QuietSeen(s, Next(s, a)); }
        KeptFollows(s, a);
      }
    } else {
      OtherStoreSame(s, tid, fails);
      hide Next, AdvanceThread, Follows, KeepsSeen;
      QuietSeen(s, Next(s, a));
      KeptFollows(s, a);
    }
  }

  lemma UnchangedSeen(s: Sys, a: Action, id: Id)
    requires a.Advance? && a.tid < |s.threads| && id in s.store
    requires s.threads[a.tid].pc !in {Loading, Checking(Disconnected)}
    ensures SeenAfter(s, a, id, SeenIn(s.store[id])) == SeenIn(s.store[id])
  {
  }

  lemma Transaction(s: Sys, tid: nat, fails: bool)
    requires tid < |s.threads|
    ensures
      var pc, s' := s.threads[tid].pc, AdvanceThread(s, tid, fails);
      && (pc.Loading? ==> s' == Load(s, tid, fails)) && (pc.Checking? ==> s' == Check(s, tid, fails))
      && (pc.Committing? ==> s' == Commit(s, tid, fails)) && (pc.Deleting? ==> s' == Delete(s, tid, fails))
      && (pc.Putting? ==> s' == Put(s, tid, fails))
  {
    hide Reserve, Cancel, Activate, Detach, Revoke, Release, Send, Enter, SendSnapshot, Leave, Announce;
    hide Load, Check, Commit, Delete, Put;
  }

  lemma OtherStoreSame(s: Sys, tid: nat, fails: bool)
    requires tid < |s.threads|
    requires
      var pc := s.threads[tid].pc;
      !pc.Loading? && !pc.Checking? && !pc.Committing? && !pc.Deleting? && !pc.Putting?
    ensures AdvanceThread(s, tid, fails).store == s.store && AdvanceThread(s, tid, fails).used == s.used
  {
    if NeedsMutex(s.threads[tid].pc) {
      MutexStoreSame(s, tid, fails);
      hide AdvanceThread;
    } else {
      hide Load, Check, Commit, Delete, Put, Reserve, Cancel, Activate, Detach, Revoke, Release, Send, Enter, After;
    }
  }

  lemma MutexStoreSame(s: Sys, tid: nat, fails: bool)
    requires tid < |s.threads| && NeedsMutex(s.threads[tid].pc)
    ensures AdvanceThread(s, tid, fails).store == s.store && AdvanceThread(s, tid, fails).used == s.used
  {
    hide Load, Check, Commit, Delete, Put, Hub.Reserve, Hub.Revoke, Hub.Cancel, Hub.Activate, Hub.Detach, Hub.Release;
    hide Hub.Send, MayEnter, After, SendSnapshot, Leave, Announce;
  }

  lemma ServeFollows(s: Sys, a: Action)
    requires !a.Advance? && s.store.Keys <= s.used
    ensures Follows(s, a)
  {
    if a.TakeStatus? && InServing(s, a.tid) {
      StatusSeen(s, a.tid, a.fails);
      var th := s.threads[a.tid];
      assert Next(s, a) == StatusTaken(s, a.tid, a.fails);
      hide Next, Follows, KeepsSeen, WritesSeen, SeenAfter, SeenIn, StatusTaken, Acceptable;
      if a.fails || th.id !in s.store || th.uplink == [] || !Acceptable(s.store[th.id], th.uplink[0]) {
        QuietSeen(s, Next(s, a));
        KeptFollows(s, a);
      } else {
        WrittenFollows(s, a, a.tid, SeenAfter(s, a, th.id, SeenIn(s.store[th.id])));
      }
    } else {
      ServeStoreSame(s, a);
      hide Next, Follows, KeepsSeen;
      QuietSeen(s, Next(s, a));
      KeptFollows(s, a);
    }
  }

  lemma ServeStoreSame(s: Sys, a: Action)
    requires !a.Advance? && !(a.TakeStatus? && InServing(s, a.tid))
    ensures Next(s, a).store == s.store && Next(s, a).used == s.used
  {
    hide AdvanceThread, Hub.Take, Reconcile, Report;
  }

  /** In every run a stored record shows what was last written about its instance: the last accepted report with its
      generation, digest, phase and reason, "offline" since the last stream went, or "connected" since one came to a
      record that said "enrolled" or "offline". */
  lemma {:induction false} RecordShowsLast(env: Env, actions: seq<Action>, id: Id)
    requires id in Run(env, actions).store
    ensures SeenIn(Run(env, actions).store[id]) == LastSeen(env, actions, id)
  {
    AllShowLast(env, actions, id);
  }

  lemma {:induction false} AllShowLast(env: Env, actions: seq<Action>, id: Id)
    ensures Run(env, actions).store.Keys <= Run(env, actions).used
    ensures
      var s := Run(env, actions);
      && (id in s.store ==> SeenIn(s.store[id]) == LastSeen(env, actions, id))
      && (id !in s.used ==> LastSeen(env, actions, id) == Seen(0, "", "enrolled", ""))
  {
    hide Next, SeenIn, Reports, Transacts, Acceptable;
    if actions == [] {
    } else {
      var front, a := actions[..|actions| - 1], actions[|actions| - 1];
      AllShowLast(env, front, id);
      assert Follows(Run(env, front), a) by {
        hide Follows;
        if a.Advance? {
          if a.tid < |Run(env, front).threads| { AdvanceFollows(Run(env, front), a.tid, a.fails); }
          else { NowhereFollows(Run(env, front), a); }
        } else {
          ServeFollows(Run(env, front), a);
        }
      }
    }
  }

  lemma NowhereFollows(s: Sys, a: Action)
    requires a.Advance? && a.tid >= |s.threads| && s.store.Keys <= s.used
    ensures Follows(s, a)
  {
    assert Next(s, a) == s by { hide AdvanceThread; }
    hide Next, Follows, KeepsSeen;
    QuietSeen(s, s);
    KeptFollows(s, a);
  }
}
