/** Host and agent agree: whatever the interleaving of updates, sends, reconnects and restarts, every pair an agent
    holds is one the host committed, and the host never refuses its report. */
module Agreement {
  import opened Prelude
  import opened Records
  import opened AgentState
  import opened Control
  import opened ControlSafety
  import Hub = HubSpec

  /** SHA-256 in hexadecimal is never empty; nothing else is assumed about it. */
  ghost predicate ProperHash(env: Env) {
    forall spec :: env.hash(spec) != ""
  }

  function Past(s: Sys, id: Id): seq<Pair> {
    if id in s.history then s.history[id] else []
  }

  /** The message carries a generation of `id` exactly as the host committed it. */
  predicate Names(s: Sys, id: Id, m: Message) {
    1 <= m.generation <= |Past(s, id)| && Past(s, id)[m.generation - 1] == Pair(m.digest, m.spec)
  }

  /** Nothing applied yet, or a generation with the digest it was committed with. */
  predicate PairOk(s: Sys, id: Id, generation: uint64, digest: string) {
    (generation == 0 && digest == "")
    || (1 <= generation <= |Past(s, id)| && Past(s, id)[generation - 1].digest == digest)
  }

  predicate SnapOk(s: Sys, id: Id, r: Record) {
    (r.desiredGeneration == 0 && r.desiredDigest == "") || Names(s, id, Snapshot(r))
  }

  // ---- the invariant, component by component ----

  /** The record's desired state is the last committed generation. */
  predicate RecordAgrees(s: Sys, id: Id)
    requires id in s.store
  {
    var r, past := s.store[id], Past(s, id);
    && r.desiredGeneration == |past|
    && if past == [] then r.desiredDigest == "" && r.desiredSpec == ""
       else past[|past| - 1] == Pair(r.desiredDigest, r.desiredSpec)
  }

  ghost predicate ThreadAgrees(s: Sys, th: Thread) {
    && SnapOk(s, th.id, th.snap)
    && (th.pc.Sending? ==> Names(s, th.id, Snapshot(th.snap)))
    && (forall m | m in th.wire :: Names(s, th.id, m))
    && (th.ours ==> forall st | st in th.uplink :: PairOk(s, th.id, st.generation, st.digest))
  }

  ghost predicate LinkAgrees(s: Sys, link: Hub.Link) {
    forall m | m in link.buffer :: Names(s, link.id, m)
  }

  /** What the agent holds was committed; on its stream it is at the largest generation it was sent or came with. */
  ghost predicate AgentAgrees(s: Sys, id: Id, a: Agent) {
    && PairOk(s, id, a.state.generation, a.state.digest)
    && (a.stream.Some? ==>
          && a.stream.value < |s.threads| && s.threads[a.stream.value].id == id && s.threads[a.stream.value].ours
          && a.consumed <= |s.threads[a.stream.value].wire|
          && a.base <= a.state.generation
          && (forall k: nat | k < a.consumed :: s.threads[a.stream.value].wire[k].generation <= a.state.generation)
          && (a.state.generation == a.base
              || exists k: nat | k < a.consumed :: s.threads[a.stream.value].wire[k].generation == a.state.generation))
  }

  ghost predicate Agree(s: Sys) {
    && ProperHash(s.env) && s.history.Keys <= s.used
    && (forall id | id in s.store :: RecordAgrees(s, id))
    && (forall tid: nat | tid < |s.threads| :: ThreadAgrees(s, s.threads[tid]))
    && (forall t: nat | t < |s.hub.links| :: LinkAgrees(s, s.hub.links[t]))
    && (forall id | id in s.agents :: AgentAgrees(s, id, s.agents[id]))
  }

  // ---- history only grows ----

  ghost predicate Extends(s: Sys, s': Sys) {
    s'.env == s.env && forall id :: |Past(s, id)| <= |Past(s', id)| && Past(s', id)[..|Past(s, id)|] == Past(s, id)
  }

  lemma PastAt(s: Sys, s': Sys, id: Id, k: nat)
    requires Extends(s, s') && k < |Past(s, id)|
    ensures k < |Past(s', id)| && Past(s', id)[k] == Past(s, id)[k]
  {
    assert Past(s, id)[k] == Past(s', id)[..|Past(s, id)|][k];
  }

  lemma NamesStays(s: Sys, s': Sys, id: Id, m: Message)
    requires Extends(s, s') && Names(s, id, m)
    ensures Names(s', id, m)
  {
    PastAt(s, s', id, m.generation - 1);
  }

  lemma PairStays(s: Sys, s': Sys, id: Id, generation: uint64, digest: string)
    requires Extends(s, s') && PairOk(s, id, generation, digest)
    ensures PairOk(s', id, generation, digest)
  {
    if generation > 0 { PastAt(s, s', id, generation - 1); }
  }

  lemma ThreadStays(s: Sys, s': Sys, th: Thread)
    requires Extends(s, s') && ThreadAgrees(s, th)
    ensures ThreadAgrees(s', th)
  {
    hide Names, PairOk, Extends;
    if Names(s, th.id, Snapshot(th.snap)) { NamesStays(s, s', th.id, Snapshot(th.snap)); }
    forall m | m in th.wire ensures Names(s', th.id, m) { NamesStays(s, s', th.id, m); }
    if th.ours {
      forall st | st in th.uplink ensures PairOk(s', th.id, st.generation, st.digest) {
        PairStays(s, s', th.id, st.generation, st.digest);
      }
    }
  }

  lemma LinkStays(s: Sys, s': Sys, link: Hub.Link)
    requires Extends(s, s') && LinkAgrees(s, link)
    ensures LinkAgrees(s', link)
  {
    hide Names, Extends;
    forall m | m in link.buffer ensures Names(s', link.id, m) { NamesStays(s, s', link.id, m); }
  }

  /** Streams only get longer. */
  ghost predicate StreamsGrow(s: Sys, s': Sys) {
    && |s.threads| <= |s'.threads|
    && forall tid: nat | tid < |s.threads| ::
         && s'.threads[tid].id == s.threads[tid].id && s'.threads[tid].ours == s.threads[tid].ours
         && s.threads[tid].wire <= s'.threads[tid].wire
  }

  lemma AgentStays(s: Sys, s': Sys, id: Id, a: Agent)
    requires Extends(s, s') && StreamsGrow(s, s') && AgentAgrees(s, id, a)
    ensures AgentAgrees(s', id, a)
  {
    hide PairOk, Extends;
    PairStays(s, s', id, a.state.generation, a.state.digest);
    if a.stream.Some? {
      var w, w' := s.threads[a.stream.value].wire, s'.threads[a.stream.value].wire;
      assert forall k: nat | k < |w| :: w'[k] == w[k];
      if a.state.generation != a.base {
        var k: nat :| k < a.consumed && w[k].generation == a.state.generation;
        assert w'[k].generation == a.state.generation;
      }
    }
  }

  // ---- one step ----

  predicate SameDesired(s: Sys, s': Sys, id: Id)
    requires id in s.store && id in s'.store
  {
    Past(s', id) == Past(s, id) && Snapshot(s'.store[id]) == Snapshot(s.store[id])
  }

  /** What a step must justify: new records, threads, buffers and agents; everything else is as it was. */
  ghost predicate StepAgrees(s: Sys, s': Sys) {
    && Extends(s, s') && StreamsGrow(s, s') && s'.history.Keys <= s'.used
    && (forall id | id in s'.store :: (id in s.store && SameDesired(s, s', id)) || RecordAgrees(s', id))
    && (forall tid: nat | tid < |s'.threads| ::
          (tid < |s.threads| && s'.threads[tid] == s.threads[tid]) || ThreadAgrees(s', s'.threads[tid]))
    && (forall t: nat | t < |s'.hub.links| ::
          (t < |s.hub.links| && s'.hub.links[t].id == s.hub.links[t].id &&
              s'.hub.links[t].buffer == s.hub.links[t].buffer)
          || LinkAgrees(s', s'.hub.links[t]))
    && (forall id | id in s'.agents ::
         (id in s.agents && s'.agents[id] == s.agents[id]) || AgentAgrees(s', id, s'.agents[id]))
  }

  lemma StepKeepsAgree(s: Sys, s': Sys)
    requires Agree(s) && StepAgrees(s, s')
    ensures Agree(s')
  {
    hide ThreadAgrees, LinkAgrees, AgentAgrees;
    forall tid: nat | tid < |s'.threads| ensures ThreadAgrees(s', s'.threads[tid]) {
      if tid < |s.threads| && s'.threads[tid] == s.threads[tid] { ThreadStays(s, s', s.threads[tid]); }
    }
    forall t: nat | t < |s'.hub.links| ensures LinkAgrees(s', s'.hub.links[t]) {
      if t < |s.hub.links| && s'.hub.links[t].id == s.hub.links[t].id &&
          s'.hub.links[t].buffer == s.hub.links[t].buffer {
        LinkStays(s, s', s.hub.links[t]);
        SameLink(s', s.hub.links[t], s'.hub.links[t]);
      }
    }
    forall id | id in s'.agents ensures AgentAgrees(s', id, s'.agents[id]) {
      if id in s.agents && s'.agents[id] == s.agents[id] { AgentStays(s, s', id, s.agents[id]); }
    }
  }

  lemma SameLink(s: Sys, link: Hub.Link, link': Hub.Link)
    requires LinkAgrees(s, link) && link'.id == link.id && link'.buffer == link.buffer
    ensures LinkAgrees(s, link')
  {
  }

  /** Only the handler's place changed. */
  lemma MovedThread(s: Sys, th: Thread, th': Thread)
    requires ThreadAgrees(s, th) && th' == th.(pc := th'.pc, token := th'.token, release := th'.release) &&
        !th'.pc.Sending?
    ensures ThreadAgrees(s, th')
  {
  }

  /** A hub operation other than Send and Take: the handler moves on, buffers stay, new links have none. */
  lemma HubStepAgrees(s: Sys, s': Sys, tid: nat)
    requires Agree(s) && tid < |s.threads|
    requires s' == s.(hub := s'.hub, lock := s'.lock, threads := s'.threads)
    requires |s'.threads| == |s.threads| && s'.threads == s.threads[tid := s'.threads[tid]]
    requires
      var th, th' := s.threads[tid], s'.threads[tid];
      th' == th.(pc := th'.pc, token := th'.token, release := th'.release) && !th'.pc.Sending?
    requires |s.hub.links| <= |s'.hub.links|
    requires forall t: nat | t < |s.hub.links| ::
      s'.hub.links[t].id == s.hub.links[t].id && s'.hub.links[t].buffer == s.hub.links[t].buffer
    requires forall t: nat | |s.hub.links| <= t < |s'.hub.links| :: s'.hub.links[t].buffer == []
    ensures Agree(s')
  {
    hide ThreadAgrees, AgentAgrees, RecordAgrees;
    MovedThread(s, s.threads[tid], s'.threads[tid]);
    ThreadStays(s, s', s'.threads[tid]);
    StepKeepsAgree(s, s');
  }

  /** A step of one handler that leaves the hub's buffers, the agents and all desired states alone. */
  lemma StoreStepAgrees(s: Sys, s': Sys, tid: nat)
    requires Agree(s) && tid < |s.threads|
    requires s'.env == s.env && s'.hub == s.hub && s'.agents == s.agents && s'.history == s.history && s.used <= s'.used
    requires |s'.threads| == |s.threads| && s'.threads == s.threads[tid := s'.threads[tid]]
    requires s'.threads[tid].id == s.threads[tid].id && s'.threads[tid].ours == s.threads[tid].ours
    requires s.threads[tid].wire <= s'.threads[tid].wire && ThreadAgrees(s', s'.threads[tid])
    requires forall id | id in s'.store ::
        (id in s.store && Snapshot(s'.store[id]) == Snapshot(s.store[id])) || RecordAgrees(s', id)
    ensures Agree(s')
  {
    hide ThreadAgrees, AgentAgrees, RecordAgrees, LinkAgrees;
    StepKeepsAgree(s, s');
  }

  // ---- each handler step ----

  lemma BuffersKept(h: Hub.HubState, id: Id, t: nat, k: nat)
    ensures
      && SameBuffers(h, Hub.Reserve(h, id).0) && SameBuffers(h, Hub.Revoke(h, id).0)
      && (t < |h.links| ==>
            SameBuffers(h, Hub.Cancel(h, t)) && SameBuffers(h, Hub.Activate(h, t).0) &&
                SameBuffers(h, Hub.Detach(h, t).0))
      && (k < |h.revocations| ==> SameBuffers(h, Hub.Release(h, k)))
  {
    assert SameBuffers(h, Hub.Reserve(h, id).0) && SameBuffers(h, Hub.Revoke(h, id).0) by {
      hide Hub.Cancel, Hub.Activate, Hub.Detach, Hub.Release;
    }
    if t < |h.links| {
      assert SameBuffers(h, Hub.Cancel(h, t));
      ActivateKeepsBuffers(h, t);
      assert SameBuffers(h, Hub.Detach(h, t).0);
    }
    hide Hub.Reserve, Hub.Revoke, Hub.Cancel, Hub.Activate, Hub.Detach;
  }

  lemma ActivateKeepsBuffers(h: Hub.HubState, t: nat)
    requires t < |h.links|
    ensures SameBuffers(h, Hub.Activate(h, t).0)
  {
  }

  ghost predicate SameBuffers(h: Hub.HubState, h': Hub.HubState) {
    && |h.links| <= |h'.links|
    && (forall t: nat | t < |h.links| :: h'.links[t].id == h.links[t].id && h'.links[t].buffer == h.links[t].buffer)
    && (forall t: nat | |h.links| <= t < |h'.links| :: h'.links[t].buffer == [])
  }

  lemma MutexStepAgrees(s: Sys, tid: nat)
    requires Agree(s) && tid < |s.threads|
    ensures
      var th := s.threads[tid];
      && (th.pc.Reserving? ==> Agree(Reserve(s, tid)))
      && (th.pc.Revoking? ==> Agree(Revoke(s, tid)))
      && (th.pc.Releasing? && th.release < |s.hub.revocations| ==> Agree(Release(s, tid)))
      && (th.pc.Entering? ==> Agree(Enter(s, tid)))
  {
    hide Agree, Hub.Reserve, Hub.Revoke, Hub.Release, MayEnter;
    var th := s.threads[tid];
    BuffersKept(s.hub, th.id, th.token, th.release);
    if th.pc.Reserving? {
      hide Revoke, Release, Enter;
      HubStepAgrees(s, Reserve(s, tid), tid);
    } else if th.pc.Revoking? {
      hide Reserve, Release, Enter;
      HubStepAgrees(s, Revoke(s, tid), tid);
    } else if th.pc.Releasing? && th.release < |s.hub.revocations| {
      hide Reserve, Revoke, Enter;
      HubStepAgrees(s, Release(s, tid), tid);
    } else if th.pc.Entering? {
      hide Reserve, Revoke, Release;
      HubStepAgrees(s, Enter(s, tid), tid);
    }
  }

  lemma TokenStepAgrees(s: Sys, tid: nat)
    requires Agree(s) && tid < |s.threads| && s.threads[tid].token < |s.hub.links|
    ensures Agree(Cancel(s, tid)) && Agree(Activate(s, tid)) && Agree(Detach(s, tid))
  {
    hide Agree, Hub.Cancel, Hub.Activate, Hub.Detach;
    var th := s.threads[tid];
    BuffersKept(s.hub, th.id, th.token, th.release);
    HubStepAgrees(s, Cancel(s, tid), tid);
    HubStepAgrees(s, Activate(s, tid), tid);
    HubStepAgrees(s, Detach(s, tid), tid);
  }

  lemma SendAgrees(s: Sys, tid: nat)
    requires Agree(s) && Hub.HubInv(s.hub) && tid < |s.threads| && s.threads[tid].pc.Sending?
    ensures Agree(Send(s, tid))
  {
    hide AgentAgrees, RecordAgrees, Names, SnapOk, PairOk;
    var th, s' := s.threads[tid], Send(s, tid);
    forall t: nat | t < |s'.hub.links|
      ensures s'.hub.links[t].id == s.hub.links[t].id
      ensures s'.hub.links[t].buffer == s.hub.links[t].buffer || LinkAgrees(s', s'.hub.links[t])
    {
      LinkStays(s, s', s.hub.links[t]);
      NamesStays(s, s', th.id, Snapshot(th.snap));
    }
    ThreadStays(s, s', th);
    MovedSender(s', th, s'.threads[tid]);
    StepKeepsAgree(s, s');
  }

  lemma MovedSender(s: Sys, th: Thread, th': Thread)
    requires ThreadAgrees(s, th) && th' == th.(pc := th'.pc) && !th'.pc.Sending?
    ensures ThreadAgrees(s, th')
  {
  }

  lemma LoadAgrees(s: Sys, tid: nat, fails: bool)
    requires Agree(s) && tid < |s.threads|
    ensures Agree(Load(s, tid, fails))
  {
    hide AgentAgrees, LinkAgrees;
    var th, s' := s.threads[tid], Load(s, tid, fails);
    assert ThreadAgrees(s, th);
    if !fails && th.id in s.store {
      assert RecordAgrees(s, th.id);
      assert Snapshot(s'.store[th.id]) == Snapshot(s.store[th.id]);
      assert SnapOk(s', th.id, s'.store[th.id]);
    }
    StoreStepAgrees(s, s', tid);
  }

  lemma SnapshotAgrees(s: Sys, tid: nat, fails: bool)
    requires Agree(s) && tid < |s.threads|
    ensures Agree(SendSnapshot(s, tid, fails))
  {
    hide AgentAgrees, LinkAgrees, RecordAgrees;
    assert ThreadAgrees(s, s.threads[tid]);
    StoreStepAgrees(s, SendSnapshot(s, tid, fails), tid);
  }

  lemma CommitStep(s: Sys, tid: nat)
    requires Agree(s) && tid < |s.threads| && s.store.Keys <= s.used && s.threads[tid].id in s.store
    requires |Past(s, s.threads[tid].id)| + 1 < U64
    ensures StepAgrees(s, Commit(s, tid, false))
  {
    hide SetDesired, AgentAgrees, LinkAgrees, RecordAgrees, Names, PairOk;
    var th, s' := s.threads[tid], Commit(s, tid, false);
    Committed(s, tid);
    ThreadStays(s, s', th);
    assert ThreadAgrees(s', s'.threads[tid]);
  }

  lemma CommitAgrees(s: Sys, tid: nat, fails: bool)
    requires Agree(s) && tid < |s.threads| && s.store.Keys <= s.used
    requires |Past(s, s.threads[tid].id)| + 1 < U64
    ensures Agree(Commit(s, tid, fails))
  {
    hide SetDesired, Agree, StepAgrees;
    if fails || s.threads[tid].id !in s.store {
      AnnounceAgrees(s, tid, Enrolled, true, Done);
    } else {
      CommitStep(s, tid);
      StepKeepsAgree(s, Commit(s, tid, false));
    }
  }

  /** A committed update is the next generation with the digest of its specification, or repeats the last one. */
  lemma Committed(s: Sys, tid: nat)
    requires Agree(s) && tid < |s.threads| && s.threads[tid].id in s.store
    requires |Past(s, s.threads[tid].id)| + 1 < U64
    ensures
      var id, s' := s.threads[tid].id, Commit(s, tid, false);
      && Extends(s, s') && id in s'.store && RecordAgrees(s', id) && Names(s', id, Snapshot(s'.store[id]))
      && s'.threads[tid].snap == s'.store[id]
      && Past(s', id) == (if s'.store[id] == s.store[id] then Past(s, id)
                          else Past(s, id) + [Pair(s'.store[id].desiredDigest, s'.store[id].desiredSpec)])
      && (forall i | i != id :: Past(s', i) == Past(s, i))
  {
    hide ThreadAgrees, LinkAgrees, AgentAgrees;
    var id, s' := s.threads[tid].id, Commit(s, tid, false);
    assert RecordAgrees(s, id);
    CommitPast(s, tid);
    assert (s.store[id].desiredGeneration + 1) % U64 == s.store[id].desiredGeneration + 1;
    hide Past, Extends;
  }

  lemma CommitPast(s: Sys, tid: nat)
    requires tid < |s.threads| && s.threads[tid].id in s.store
    ensures
      var id, s' := s.threads[tid].id, Commit(s, tid, false);
      && id in s'.store && s'.store[id] == SetDesired(s.store[id], s.threads[tid].spec, s.env.hash(s.threads[tid].spec))
      && Extends(s, s')
      && Past(s', id) == (if s'.store[id] == s.store[id] then Past(s, id)
                          else Past(s, id) + [Pair(s'.store[id].desiredDigest, s'.store[id].desiredSpec)])
      && (forall i | i != id :: Past(s', i) == Past(s, i))
  {
    hide SetDesired;
    var s' := Commit(s, tid, false);
    forall i ensures |Past(s, i)| <= |Past(s', i)| && Past(s', i)[..|Past(s, i)|] == Past(s, i) {
    }
  }

  lemma PutAgrees(s: Sys, tid: nat, fails: bool)
    requires Agree(s) && tid < |s.threads| && s.threads[tid].pc.Putting?
    ensures Agree(Put(s, tid, fails))
  {
    hide AgentAgrees, LinkAgrees, ThreadAgrees, Names, PairOk;
    var th, s' := s.threads[tid], Put(s, tid, fails);
    ThreadStays(s, s', th);
    MovedThread(s', th, s'.threads[tid]);
    StoreStepAgrees(s, s', tid);
  }

  lemma DeleteAgrees(s: Sys, tid: nat, fails: bool)
    requires Agree(s) && tid < |s.threads|
    ensures Agree(Delete(s, tid, fails))
  {
    hide AgentAgrees, LinkAgrees, ThreadAgrees, RecordAgrees, Names, PairOk;
    var th, s' := s.threads[tid], Delete(s, tid, fails);
    ThreadStays(s, s', th);
    MovedThread(s', th, s'.threads[tid]);
    StoreStepAgrees(s, s', tid);
  }

  lemma GuardAgrees(s: Sys, tid: nat, fails: bool)
    requires Agree(s) && tid < |s.threads|
    ensures s.threads[tid].pc.Checking? ==> Agree(Check(s, tid, fails))
    ensures s.threads[tid].pc.Leaving? ==> Agree(Leave(s, tid))
  {
    hide AgentAgrees, LinkAgrees, RecordAgrees, ThreadAgrees, Names, PairOk;
    if s.threads[tid].pc.Checking? || s.threads[tid].pc.Leaving? {
      var th, s' := s.threads[tid], if s.threads[tid].pc.Checking? then Check(s, tid, fails) else Leave(s, tid);
      ThreadStays(s, s', th);
      MovedThread(s', th, s'.threads[tid]);
      StoreStepAgrees(s, s', tid);
    }
  }

  lemma AnnounceAgrees(s: Sys, tid: nat, kind: EventKind, fails: bool, next: PC)
    requires Agree(s) && tid < |s.threads| && !next.Sending?
    ensures Agree(Announce(s, tid, kind, fails, next)) && Agree(Goto(s, tid, next))
  {
    hide AgentAgrees, LinkAgrees, RecordAgrees, ThreadAgrees, Names, PairOk;
    var th, s1, s2 := s.threads[tid], Announce(s, tid, kind, fails, next), Goto(s, tid, next);
    ThreadStays(s, s1, th);
    ThreadStays(s, s2, th);
    MovedThread(s1, th, s1.threads[tid]);
    MovedThread(s2, th, s2.threads[tid]);
    StoreStepAgrees(s, s1, tid);
    StoreStepAgrees(s, s2, tid);
  }

  lemma AdvanceAgrees(s: Sys, tid: nat, fails: bool)
    requires Agree(s) && Safe(s) && tid < |s.threads|
    requires |Past(s, s.threads[tid].id)| + 1 < U64
    ensures Agree(AdvanceThread(s, tid, fails))
  {
    hide Agree, LogOk, Base;
    hide Reserve, Cancel, Activate, Detach, Revoke, Release, Send, Enter, Load, SendSnapshot, Delete, Commit, Put;
    hide Check, Leave, Announce;
    AtThread(s, tid);
    assert s.store.Keys <= s.used by { UsedCovers(s); }
    match s.threads[tid].pc {
      case Sending => SendAgrees(s, tid);
      case Loading => LoadAgrees(s, tid, fails);
      case Snapshotting => SnapshotAgrees(s, tid, fails);
      case Committing => CommitAgrees(s, tid, fails);
      case Putting(ssh) => PutAgrees(s, tid, fails);
      case Deleting => DeleteAgrees(s, tid, fails);
      case Checking(kind) => GuardAgrees(s, tid, fails);
      case Leaving(kind, ok) => GuardAgrees(s, tid, fails);
      case Failing => AnnounceAgrees(s, tid, InstallFailed, fails, Deleting);
      case Announcing => AnnounceAgrees(s, tid, Deleted, fails, Releasing);
      case Enrolling(ssh) => AnnounceAgrees(s, tid, Enrolled, fails, if ssh then Starting else Done);
      case Starting => AnnounceAgrees(s, tid, InstallStarted, fails, Working);
      case Appending(kind) => AnnounceAgrees(s, tid, kind, fails, Leaving(kind, true));
      case Working =>
        AnnounceAgrees(s, tid, Enrolled, fails, if fails then Revoking(true) else Entering(InstallSucceeded));
      case Serving =>
      case Done =>
      case _ =>
        MutexStepAgrees(s, tid);
        if s.threads[tid].token < |s.hub.links| { TokenStepAgrees(s, tid); }
    }
  }

  lemma UsedCovers(s: Sys)
    requires Safe(s)
    ensures s.store.Keys <= s.used
  {
  }

  // ---- serving, peers and agents ----

  lemma ForwardedLinks(s: Sys, tid: nat, fails: bool)
    requires InServing(s, tid) && s.hub.links[s.threads[tid].token].buffer != []
    ensures
      var h, h' := s.hub, Forwarded(s, tid, fails).hub;
      && |h'.links| == |h.links|
      && (forall t: nat | t < |h.links| ::
            h'.links[t].id == h.links[t].id && forall m | m in h'.links[t].buffer :: m in h.links[t].buffer)
  {
  }

  lemma ForwardedThread(s: Sys, tid: nat, fails: bool)
    requires InServing(s, tid) && s.hub.links[s.threads[tid].token].buffer != []
    requires s.hub.links[s.threads[tid].token].id == s.threads[tid].id
    requires ThreadAgrees(s, s.threads[tid]) && LinkAgrees(s, s.hub.links[s.threads[tid].token])
    ensures ThreadAgrees(Forwarded(s, tid, fails), Forwarded(s, tid, fails).threads[tid])
  {
    hide Names, PairOk, SnapOk;
    var th, s' := s.threads[tid], Forwarded(s, tid, fails);
    ThreadStays(s, s', th);
    NamesStays(s, s', th.id, s.hub.links[th.token].buffer[0]);
  }

  lemma ForwardAgrees(s: Sys, tid: nat, fails: bool)
    requires Agree(s) && InServing(s, tid) && s.hub.links[s.threads[tid].token].id == s.threads[tid].id
    ensures Agree(Forwarded(s, tid, fails))
  {
    hide AgentAgrees, RecordAgrees, ThreadAgrees, Names, PairOk, SnapOk, Hub.Take;
    if s.hub.links[s.threads[tid].token].buffer != [] {
      var s' := Forwarded(s, tid, fails);
      ForwardedThread(s, tid, fails);
      ForwardedLinks(s, tid, fails);
      forall t: nat | t < |s'.hub.links| ensures LinkAgrees(s', s'.hub.links[t]) {
        LinkStays(s, s', s.hub.links[t]);
      }
      StepKeepsAgree(s, s');
    }
  }

  lemma StatusAgrees(s: Sys, tid: nat, fails: bool)
    requires Agree(s) && InServing(s, tid)
    ensures Agree(StatusTaken(s, tid, fails))
  {
    hide AgentAgrees, LinkAgrees, RecordAgrees, Names, PairOk, SnapOk;
    var s' := StatusTaken(s, tid, fails);
    ThreadStays(s, s', s.threads[tid]);
    StoreStepAgrees(s, s', tid);
  }

  lemma MetersAgree(s: Sys, tid: nat, fails: bool)
    requires Agree(s) && InServing(s, tid)
    ensures Agree(MetersTaken(s, tid, fails))
  {
    hide Agree;
    MovesAgree(s, tid, Detaching);
    MovesAgree(s, tid, Entering(TrafficUpdated));
  }

  lemma MovesAgree(s: Sys, tid: nat, pc: PC)
    requires Agree(s) && InServing(s, tid) && (pc == Detaching || pc == Entering(TrafficUpdated))
    ensures Agree(Goto(s, tid, pc))
  {
    hide AgentAgrees, LinkAgrees, RecordAgrees, Names, PairOk, SnapOk;
    var s' := Goto(s, tid, pc);
    ThreadStays(s, s', s.threads[tid]);
    StoreStepAgrees(s, s', tid);
  }

  /** New handlers, foreign statuses and agents that merely come and go. */
  lemma SpawnAgrees(s: Sys, s': Sys, th: Thread)
    requires Agree(s) && s'.threads == s.threads + [th] && th.wire == [] && th.uplink == [] && th.snap == ENROLLED &&
        !th.pc.Sending?
    requires s' == s.(threads := s'.threads, agents := s'.agents)
    requires forall id | id in s'.agents ::
        (id in s.agents && s'.agents[id] == s.agents[id]) || AgentAgrees(s', id, s'.agents[id])
    ensures Agree(s')
  {
    hide AgentAgrees, LinkAgrees, RecordAgrees;
    StepKeepsAgree(s, s');
  }

  lemma DialAgrees(s: Sys, id: Id)
    requires Agree(s)
    ensures Agree(Next(s, Dial(id)))
  {
    hide LinkAgrees, RecordAgrees, ThreadAgrees;
    var s' := Next(s, Dial(id));
    assert AgentAgrees(s', id, s'.agents[id]) by {
      assert id in s.agents ==> AgentAgrees(s, id, s.agents[id]);
    }
    SpawnAgrees(s, s', Fresh(id, Reserving).(ours := true));
  }

  lemma InjectAgrees(s: Sys, tid: nat, status: Status)
    requires Agree(s)
    ensures Agree(Next(s, Inject(tid, status)))
  {
    hide AgentAgrees, LinkAgrees, RecordAgrees, Names, PairOk, SnapOk;
    if tid < |s.threads| && !s.threads[tid].ours {
      var th, s' := s.threads[tid], Next(s, Inject(tid, status));
      ThreadStays(s, s', th);
      StoreStepAgrees(s, s', tid);
    }
  }

  lemma AgentAgreesIn(s: Sys, id: Id, a: Agent)
    requires Agree(s) && AgentAgrees(s, id, a)
    ensures Agree(s.(agents := s.agents[id := a]))
  {
    hide LinkAgrees, RecordAgrees, ThreadAgrees, Names, PairOk;
    var s' := s.(agents := s.agents[id := a]);
    AgentStays(s, s', id, a);
    StepKeepsAgree(s, s');
  }

  lemma QuitAgentAgrees(s: Sys, id: Id)
    requires Agree(s)
    ensures Agree(s.(agents := s.agents[id := AgentOf(s, id).(stream := None)]))
    ensures Agree(s.(agents := s.agents[id := NEW_AGENT]))
  {
    assert AgentAgrees(s, id, AgentOf(s, id).(stream := None)) && AgentAgrees(s, id, NEW_AGENT) by {
      hide LinkAgrees, RecordAgrees, ThreadAgrees;
      assert id in s.agents ==> AgentAgrees(s, id, s.agents[id]);
    }
    hide Agree, AgentAgrees;
    AgentAgreesIn(s, id, AgentOf(s, id).(stream := None));
    AgentAgreesIn(s, id, NEW_AGENT);
  }

  /** A report of a committed pair goes up the agent's own stream. */
  lemma ReportedAgrees(s: Sys, id: Id, tid: nat, state: RuntimeState)
    requires Agree(s) && tid < |s.threads| && s.threads[tid].id == id && PairOk(s, id, state.generation, state.digest)
    ensures Agree(Reported(s, tid, state))
  {
    hide AgentAgrees, LinkAgrees, RecordAgrees, Names, SnapOk;
    var th, s' := s.threads[tid], Reported(s, tid, state);
    ThreadStays(s, s', th);
    PairStays(s, s', id, state.generation, state.digest);
    StoreStepAgrees(s, s', tid);
  }

  lemma AppliedPair(s: Sys, id: Id, state: RuntimeState, m: Message)
    requires Names(s, id, m) && Reconcile(s.env, state, m).Applied?
    ensures
      var after := Reconcile(s.env, state, m).state;
      PairOk(s, id, after.generation, after.digest) && after.generation == m.generation >= state.generation
  {
  }

  lemma MidPair(s: Sys, id: Id, a: Agent, state: RuntimeState)
    requires PairOk(s, id, state.generation, state.digest)
    ensures PairOk(s.(agents := s.agents[id := a]), id, state.generation, state.digest)
  {
  }

  lemma ReceiveAgrees(s: Sys, id: Id)
    requires Agree(s)
    ensures Agree(Received(s, id))
  {
    hide LinkAgrees, RecordAgrees, Names, PairOk, SnapOk, Reconcile;
    var a := AgentOf(s, id);
    if a.stream.Some? && a.stream.value < |s.threads| && a.consumed < |s.threads[a.stream.value].wire| {
      assert AgentAgrees(s, id, a);
      var tid := a.stream.value;
      var m := s.threads[tid].wire[a.consumed];
      assert ThreadAgrees(s, s.threads[tid]);
      var outcome := Reconcile(s.env, a.state, m);
      if outcome.Applied? {
        AppliedPair(s, id, a.state, m);
        var a' := a.(state := outcome.state, consumed := a.consumed + 1);
        var mid := s.(agents := s.agents[id := a']);
        assert s.threads[tid].wire[a.consumed] == m;
        assert AgentAgrees(s, id, a');
        AgentAgreesIn(s, id, a');
        MidPair(s, id, a', outcome.state);
        ReportedAgrees(mid, id, tid, outcome.state);
      } else {
        QuitAgentAgrees(s, id);
      }
    }
  }

  lemma BeatAgrees(s: Sys, id: Id)
    requires Agree(s)
    ensures Agree(Next(s, Beat(id)))
  {
    hide LinkAgrees, RecordAgrees, ThreadAgrees, Reported;
    var a := AgentOf(s, id);
    if a.stream.Some? && a.stream.value < |s.threads| {
      assert AgentAgrees(s, id, a);
      ReportedAgrees(s, id, a.stream.value, a.state);
    }
  }

  lemma NextAgrees(s: Sys, a: Action)
    requires Agree(s) && Safe(s) && forall id :: |Past(s, id)| + 1 < U64
    ensures Agree(Next(s, a))
  {
    hide Agree, Base, LogOk, AdvanceThread, Forwarded, StatusTaken, MetersTaken, Received;
    match a {
      case ConnectFrom(id) => PlainSpawnAgrees(s, Fresh(id, Reserving));
      case DeleteOf(id) => PlainSpawnAgrees(s, Fresh(id, Revoking(false)));
      case DesiredOf(id, spec) => PlainSpawnAgrees(s, Fresh(id, Committing).(spec := spec));
      case Create(id, ssh) => PlainSpawnAgrees(s, Fresh(id, Putting(ssh)));
      case Advance(tid, fails) => if tid < |s.threads| { AdvanceAgrees(s, tid, fails); }
      case Forward(tid, fails) =>
        if InServing(s, tid) {
          AtThread(s, tid);
          ForwardAgrees(s, tid, fails);
        }
      case TakeStatus(tid, fails) => if InServing(s, tid) { StatusAgrees(s, tid, fails); }
      case TakeMeters(tid, fails) =>
        if InServing(s, tid) { MetersAgree(s, tid, fails); }
      case Quit(tid) => if InServing(s, tid) { MovesAgree(s, tid, Detaching); }
      case Inject(tid, status) => InjectAgrees(s, tid, status);
      case Dial(id) => DialAgrees(s, id);
      case HangUp(id) => QuitAgentAgrees(s, id);
      case Restart(id) => QuitAgentAgrees(s, id);
      case Receive(id) => ReceiveAgrees(s, id);
      case Beat(id) => BeatAgrees(s, id);
    }
  }

  lemma PlainSpawnAgrees(s: Sys, th: Thread)
    requires Agree(s) && th.wire == [] && th.uplink == [] && th.snap == ENROLLED && !th.pc.Sending?
    ensures Agree(s.(threads := s.threads + [th]))
  {
    SpawnAgrees(s, s.(threads := s.threads + [th]), th);
  }

  // ---- whole runs ----

  /** One step commits at most one generation, at the end of one history. */
  lemma HistoryStep(s: Sys, a: Action)
    ensures Next(s, a).env == s.env
    ensures forall id :: |Past(s, id)| <= |Past(Next(s, a), id)| <= |Past(s, id)| + 1
    ensures forall id :: Past(Next(s, a), id)[..|Past(s, id)|] == Past(s, id)
  {
    hide Hub.Reserve, Hub.Revoke, Hub.Cancel, Hub.Activate, Hub.Detach, Hub.Release, Hub.Send, Hub.Take, MayEnter;
    hide After;
    hide SetDesired, Hello, MarkOffline, Reconcile, Report, ApplyStatus;
    if a.Advance? && a.tid < |s.threads| {
      hide Next;
      HistoryAdvance(s, a.tid, a.fails);
      NextAdvance(s, a.tid, a.fails);
    } else {
      hide AdvanceThread;
      assert Next(s, a).history == s.history && Next(s, a).env == s.env;
    }
  }

  lemma NextAdvance(s: Sys, tid: nat, fails: bool)
    requires tid < |s.threads|
    ensures Next(s, Advance(tid, fails)) == AdvanceThread(s, tid, fails)
  {
    hide AdvanceThread;
  }

  lemma HistoryAdvance(s: Sys, tid: nat, fails: bool)
    requires tid < |s.threads|
    ensures
      var s' := AdvanceThread(s, tid, fails);
      && s'.env == s.env
      && (!s.threads[tid].pc.Committing? ==> s'.history == s.history)
      && forall id :: |Past(s, id)| <= |Past(s', id)| <= |Past(s, id)| + 1 &&
           Past(s', id)[..|Past(s, id)|] == Past(s, id)
  {
    hide Hub.Reserve, Hub.Revoke, Hub.Cancel, Hub.Activate, Hub.Detach, Hub.Release, Hub.Send, Hub.Take, MayEnter;
    hide After;
    hide SetDesired, Hello, MarkOffline;
    if s.threads[tid].pc.Committing? {
      hide Reserve, Cancel, Activate, Detach, Revoke, Release, Send, Enter, Load, SendSnapshot, Delete, Put, Check;
      hide Leave, Announce;
      var s' := AdvanceThread(s, tid, fails);
      forall id
        ensures |Past(s, id)| <= |Past(s', id)| <= |Past(s, id)| + 1 && Past(s', id)[..|Past(s, id)|] == Past(s, id)
      {
      }
    } else {
      hide AdvanceThread;
      if NeedsMutex(s.threads[tid].pc) { MutexHistory(s, tid, fails); } else { PlainHistory(s, tid, fails); }
    }
  }

  lemma MutexHistory(s: Sys, tid: nat, fails: bool)
    requires tid < |s.threads| && NeedsMutex(s.threads[tid].pc)
    ensures AdvanceThread(s, tid, fails).history == s.history && AdvanceThread(s, tid, fails).env == s.env
  {
    hide Hub.Reserve, Hub.Revoke, Hub.Cancel, Hub.Activate, Hub.Detach, Hub.Release, Hub.Send, MayEnter, After;
    hide Load, SendSnapshot, Delete, Commit, Put, Check, Leave, Announce;
  }

  lemma PlainHistory(s: Sys, tid: nat, fails: bool)
    requires tid < |s.threads| && !NeedsMutex(s.threads[tid].pc) && !s.threads[tid].pc.Committing?
    ensures AdvanceThread(s, tid, fails).history == s.history && AdvanceThread(s, tid, fails).env == s.env
  {
    hide Hello, MarkOffline, After, Reserve, Cancel, Activate, Detach, Revoke, Release, Send, Enter, Commit;
  }

  lemma {:induction false} HistoryShort(env: Env, actions: seq<Action>, id: Id)
    ensures |Past(Run(env, actions), id)| <= |actions| && Run(env, actions).env == env
  {
    hide Next;
    if actions != [] {
      HistoryShort(env, actions[..|actions| - 1], id);
      HistoryStep(Run(env, actions[..|actions| - 1]), actions[|actions| - 1]);
    }
  }

  /** In every run of fewer than 2^64 steps host and agents agree. */
  lemma {:induction false} RunAgrees(env: Env, actions: seq<Action>)
    requires ProperHash(env) && |actions| < U64
    ensures Agree(Run(env, actions)) && Safe(Run(env, actions))
  {
    RunSafe(env, actions);
    if actions != [] {
      var n := |actions| - 1;
      hide Next, Agree, Safe;
      RunAgrees(env, actions[..n]);
      forall id ensures |Past(Run(env, actions[..n]), id)| + 1 < U64 { HistoryShort(env, actions[..n], id); }
      NextAgrees(Run(env, actions[..n]), actions[n]);
    }
  }

  lemma RunSplit(env: Env, before: seq<Action>, after: seq<Action>)
    requires after != []
    ensures
      var n := |after| - 1;
      Run(env, before + after) == Next(Run(env, before + after[..n]), after[n])
  {
    assert (before + after)[..|before + after| - 1] == before + after[..|after| - 1];
  }

  lemma {:induction false} PastGrows(env: Env, before: seq<Action>, after: seq<Action>, id: Id)
    ensures Past(Run(env, before), id) <= Past(Run(env, before + after), id)
  {
    hide Next;
    if after == [] {
      assert before + after == before;
    } else {
      var n := |after| - 1;
      PastGrows(env, before, after[..n], id);
      RunSplit(env, before, after);
      HistoryStep(Run(env, before + after[..n]), after[n]);
    }
  }

  /** After the first `k` steps of the run, the record's desired state was `m`. */
  ghost predicate WasDesired(env: Env, actions: seq<Action>, id: Id, m: Message, k: nat) {
    k <= |actions| && id in Run(env, actions[..k]).store && Snapshot(Run(env, actions[..k]).store[id]) == m
  }

  /** Every generation in a history was at some point the record's desired state. */
  lemma {:induction false} PairWasCommitted(env: Env, actions: seq<Action>, id: Id, m: Message)
    requires ProperHash(env) && |actions| < U64 && Names(Run(env, actions), id, m)
    ensures exists k: nat :: WasDesired(env, actions, id, m, k)
  {
    hide Next, Agree, Safe;
    var s := Run(env, actions);
    if id in s.store && s.store[id].desiredGeneration == m.generation {
      LastCommitted(env, actions, id, m);
      assert actions[..|actions|] == actions;
      assert WasDesired(env, actions, id, m, |actions|);
    } else {
      assert actions != [] by { assert Run(env, []).history == map[]; }
      var n := |actions| - 1;
      PastGrows(env, actions[..n], [actions[n]], id);
      assert actions[..n] + [actions[n]] == actions;
      CommittedBefore(env, actions, id, m.generation);
      PairWasCommitted(env, actions[..n], id, m);
      var k: nat :| WasDesired(env, actions[..n], id, m, k);
      assert actions[..n][..k] == actions[..k];
      assert WasDesired(env, actions, id, m, k);
    }
  }

  lemma LastCommitted(env: Env, actions: seq<Action>, id: Id, m: Message)
    requires ProperHash(env) && |actions| < U64 && Names(Run(env, actions), id, m)
    requires id in Run(env, actions).store && Run(env, actions).store[id].desiredGeneration == m.generation
    ensures Snapshot(Run(env, actions).store[id]) == m
  {
    hide Next, Safe;
    RunAgrees(env, actions);
    assert RecordAgrees(Run(env, actions), id);
  }

  /** A generation that is not the record's current one was there a step earlier. */
  lemma CommittedBefore(env: Env, actions: seq<Action>, id: Id, g: nat)
    requires ProperHash(env) && 0 < |actions| < U64 && 1 <= g <= |Past(Run(env, actions), id)|
    requires !(id in Run(env, actions).store && Run(env, actions).store[id].desiredGeneration == g)
    ensures g <= |Past(Run(env, actions[..|actions| - 1]), id)|
  {
    hide Next, Safe;
    var n := |actions| - 1;
    HistoryStep(Run(env, actions[..n]), actions[n]);
    GrowsByCommit(Run(env, actions[..n]), actions[n], id);
    RunAgrees(env, actions);
    if id in Run(env, actions).store {
      assert RecordAgrees(Run(env, actions), id);
    }
  }

  /** Only a commit grows a history, and it leaves the record in the store. */
  lemma GrowsByCommit(s: Sys, a: Action, id: Id)
    ensures |Past(Next(s, a), id)| > |Past(s, id)| ==> id in Next(s, a).store
  {
    hide Hub.Reserve, Hub.Revoke, Hub.Cancel, Hub.Activate, Hub.Detach, Hub.Release, Hub.Send, Hub.Take, MayEnter;
    hide After;
    hide SetDesired, Hello, MarkOffline, Reconcile, Report, ApplyStatus;
    if a.Advance? && a.tid < |s.threads| {
      hide Next;
      NextAdvance(s, a.tid, a.fails);
      if s.threads[a.tid].pc.Committing? {
        hide Reserve, Cancel, Activate, Detach, Revoke, Release, Send, Enter, Load, SendSnapshot, Delete, Put, Check;
        hide Leave, Announce;
        assert AdvanceThread(s, a.tid, a.fails) == Commit(s, a.tid, a.fails);
      } else {
        hide AdvanceThread;
        HistoryAdvance(s, a.tid, a.fails);
      }
    } else {
      hide AdvanceThread;
      assert Next(s, a).history == s.history;
    }
  }

  /** What an agent holds, unless it is fresh, was the host's desired state at some earlier point of the run. */
  lemma AppliedWasDesired(env: Env, actions: seq<Action>, id: Id)
    requires ProperHash(env) && |actions| < U64 && AgentOf(Run(env, actions), id).state.generation > 0
    ensures
      var a := AgentOf(Run(env, actions), id).state;
      exists m, k: nat :: WasDesired(env, actions, id, m, k) && m.generation == a.generation && m.digest == a.digest
  {
    var s := Run(env, actions);
    var a := AgentOf(s, id).state;
    hide Next, Safe;
    RunAgrees(env, actions);
    assert AgentAgrees(s, id, AgentOf(s, id));
    hide Agree, WasDesired;
    var m := Message(a.generation, a.digest, Past(s, id)[a.generation - 1].spec);
    PairWasCommitted(env, actions, id, m);
    var k: nat :| WasDesired(env, actions, id, m, k);
  }

  /** While its instance is enrolled, the host accepts every report that is still on the agent's own stream. */
  lemma HostNeverRefuses(env: Env, actions: seq<Action>, tid: nat, st: Status)
    requires ProperHash(env) && |actions| < U64
    requires
      var s := Run(env, actions);
      tid < |s.threads| && s.threads[tid].ours && st in s.threads[tid].uplink && s.threads[tid].id in s.store
    ensures StatusAccepted(Run(env, actions).store[Run(env, actions).threads[tid].id], st)
  {
    hide Next, Safe;
    RunAgrees(env, actions);
    var s := Run(env, actions);
    assert ThreadAgrees(s, s.threads[tid]) && RecordAgrees(s, s.threads[tid].id);
  }

  lemma StepNeverRegresses(s: Sys, a: Action, id: Id)
    requires a != Restart(id)
    ensures AgentOf(Next(s, a), id).state.generation >= AgentOf(s, id).state.generation
  {
    hide Hub.Take, ApplyStatus, AdvanceThread;
    if a.Advance? && a.tid < |s.threads| {
      AdvanceKeepsAgents(s, a.tid, a.fails);
    }
  }

  lemma AdvanceKeepsAgents(s: Sys, tid: nat, fails: bool)
    requires tid < |s.threads|
    ensures AdvanceThread(s, tid, fails).agents == s.agents
  {
    hide Hub.Reserve, Hub.Revoke, Hub.Cancel, Hub.Activate, Hub.Detach, Hub.Release, Hub.Send, MayEnter, After;
    hide SetDesired, Hello, MarkOffline;
    if NeedsMutex(s.threads[tid].pc) {
      hide Load, SendSnapshot, Delete, Commit, Put, Check, Leave, Announce;
      assert AdvanceThread(s, tid, fails).agents == s.agents;
    } else {
      hide Reserve, Cancel, Activate, Detach, Revoke, Release, Send, Enter;
      assert AdvanceThread(s, tid, fails).agents == s.agents;
    }
  }

  /** Between restarts an agent's generation never goes back, over any number of streams. */
  lemma {:induction false} AgentNeverRegresses(env: Env, before: seq<Action>, after: seq<Action>, id: Id)
    requires Restart(id) !in after
    ensures AgentOf(Run(env, before + after), id).state.generation >= AgentOf(Run(env, before), id).state.generation
  {
    hide Next;
    if after == [] {
      assert before + after == before;
    } else {
      var n := |after| - 1;
      AgentNeverRegresses(env, before, after[..n], id);
      RunSplit(env, before, after);
      StepNeverRegresses(Run(env, before + after[..n]), after[n], id);
    }
  }
}
