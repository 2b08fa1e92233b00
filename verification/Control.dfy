/** The control plane as one step machine: request handlers, agents, the hub, the instance store and the event log.
    Every store transaction, every hub critical section and every log append is a step of its own. The hub mutex is
    explicit, because the guarded sections (IfNotRevoked, IfOnline) hold it across a transaction and an append. */
module Control {
  import opened Prelude
  import opened Records
  import opened AgentState
  import Hub = HubSpec

  datatype EventKind =
    | Enrolled | InstallStarted | InstallFailed | InstallSucceeded | Deleted
    | Connected | Disconnected | StatusReported | TrafficUpdated | DesiredChanged

  datatype Event = Event(kind: EventKind, id: Id)

  /** Where a handler stands; each value names the step it takes next. */
  datatype PC =
    // Connect
    | Reserving | Loading | Canceling | Activating | Abandoning | Snapshotting | Serving | Detaching
    // deletion, by the operator or by the rollback of an SSH installation
    | Revoking(rollback: bool) | Failing | Deleting | Announcing | Releasing
    // setDesired
    | Committing | Sending
    // createInstance and Install
    | Putting(ssh: bool) | Enrolling(ssh: bool) | Starting | Working
    // a guarded section that publishes an event of this kind
    | Entering(kind: EventKind) | Checking(kind: EventKind) | Appending(kind: EventKind)
    | Leaving(kind: EventKind, ok: bool)
    | Done

  /** One running request. `token` is its hub reservation, `release` its revocation, `snap` the record its transaction
      returned, `wire` what it sent to its peer, `uplink` what the peer sent and it has not read;
      `ours` tells that the peer is the agent of this model rather than any other certificate holder. */
  datatype Thread = Thread(
    id: Id, pc: PC, token: nat, release: nat, snap: Record, wire: seq<Message>, uplink: seq<Status>, ours: bool,
    spec: string)

  function Fresh(id: Id, pc: PC): Thread {
    Thread(id, pc, 0, 0, ENROLLED, [], [], false, "")
  }

  /** The agent of one identity: its state, the stream it reads, how much of it was applied,
      and the generation it had when it opened that stream. */
  datatype Agent = Agent(state: RuntimeState, stream: Option<nat>, consumed: nat, base: uint64)

  const NEW_AGENT := Agent(IDLE, None, 0, 0)

  datatype Pair = Pair(digest: string, spec: string)

  /** `history` lists what each generation of an identity was committed as, `accepted` the messages whose Send
      returned true with the link that took them; both only record, no step reads them. */
  datatype Sys = Sys(
    env: Env, hub: Hub.HubState, store: map<Id, Record>, used: set<Id>, log: seq<Event>, lock: Option<nat>,
    threads: seq<Thread>, agents: map<Id, Agent>, history: map<Id, seq<Pair>>, accepted: set<(nat, Message)>)

  function Initial(env: Env): Sys {
    Sys(env, Hub.EMPTY, map[], {}, [], None, [], map[], map[], {})
  }

  datatype Action =
    | ConnectFrom(id: Id)                  // some certificate holder opens a stream
    | DeleteOf(id: Id)
    | DesiredOf(id: Id, spec: string)
    | Create(id: Id, ssh: bool)
    | Advance(tid: nat, fails: bool)       // the handler's next step; `fails` lets an operation of it fail
    | Forward(tid: nat, fails: bool)       // a serving handler passes on one outbound message
    | TakeStatus(tid: nat, fails: bool)    // ... reads a status
    | TakeMeters(tid: nat, fails: bool)    // ... reads a meter batch
    | Quit(tid: nat)                       // ... leaves its loop
    | Inject(tid: nat, status: Status)     // a foreign peer sends any status
    | Dial(id: Id) | HangUp(id: Id) | Receive(id: Id) | Beat(id: Id) | Restart(id: Id)   // the agent

  function AgentOf(s: Sys, id: Id): Agent {
    if id in s.agents then s.agents[id] else NEW_AGENT
  }

  function With(s: Sys, tid: nat, th: Thread): Sys
    requires tid < |s.threads|
  {
    s.(threads := s.threads[tid := th])
  }

  function Goto(s: Sys, tid: nat, pc: PC): Sys
    requires tid < |s.threads|
  {
    With(s, tid, s.threads[tid].(pc := pc))
  }

  function Publish(s: Sys, kind: EventKind, id: Id, fails: bool): Sys {
    if fails then s else s.(log := s.log + [Event(kind, id)])
  }

  /** Where a handler goes after its guarded section. */
  function After(kind: EventKind, ok: bool): PC {
    match kind
    case Connected => if ok then Snapshotting else Abandoning
    case StatusReported => if ok then Serving else Detaching
    case TrafficUpdated => if ok then Serving else Detaching
    case InstallSucceeded => if ok then Done else Revoking(true)
    case _ => Done
  }

  predicate MayEnter(s: Sys, kind: EventKind, id: Id) {
    !Hub.Blocked(s.hub, id) && (kind == InstallSucceeded ==> Hub.Online(s.hub, id))
  }

  // ---- steps that need the hub mutex ----

  function Reserve(s: Sys, tid: nat): Sys
    requires tid < |s.threads|
  {
    var (h, r) := Hub.Reserve(s.hub, s.threads[tid].id);
    if r.None? then Goto(s, tid, Done)
    else With(s.(hub := h), tid, s.threads[tid].(token := r.value, pc := Loading))
  }

  function Cancel(s: Sys, tid: nat): Sys
    requires tid < |s.threads| && s.threads[tid].token < |s.hub.links|
  {
    Goto(s.(hub := Hub.Cancel(s.hub, s.threads[tid].token)), tid, Done)
  }

  function Activate(s: Sys, tid: nat): Sys
    requires tid < |s.threads| && s.threads[tid].token < |s.hub.links|
  {
    var (h, ok) := Hub.Activate(s.hub, s.threads[tid].token);
    Goto(s.(hub := h), tid, if ok then Entering(Connected) else Done)
  }

  /** detach(); only a stream that was announced owns the offline transition. */
  function Detach(s: Sys, tid: nat): Sys
    requires tid < |s.threads| && s.threads[tid].token < |s.hub.links|
  {
    var (h, mine) := Hub.Detach(s.hub, s.threads[tid].token);
    Goto(s.(hub := h), tid, if mine && s.threads[tid].pc.Detaching? then Entering(Disconnected) else Done)
  }

  function Revoke(s: Sys, tid: nat): Sys
    requires tid < |s.threads| && s.threads[tid].pc.Revoking?
  {
    var (h, k) := Hub.Revoke(s.hub, s.threads[tid].id);
    With(s.(hub := h), tid,
        s.threads[tid].(release := k, pc := if s.threads[tid].pc.rollback then Failing else Deleting))
  }

  function Release(s: Sys, tid: nat): Sys
    requires tid < |s.threads| && s.threads[tid].release < |s.hub.revocations|
  {
    Goto(s.(hub := Hub.Release(s.hub, s.threads[tid].release)), tid, Done)
  }

  function Send(s: Sys, tid: nat): Sys
    requires tid < |s.threads|
  {
    var id, message := s.threads[tid].id, Snapshot(s.threads[tid].snap);
    var (h, ok) := Hub.Send(s.hub, id, message);
    Goto(s.(hub := h, accepted := if ok then s.accepted + {(s.hub.connections[id], message)} else s.accepted),
         tid, Entering(DesiredChanged))
  }

  function Enter(s: Sys, tid: nat): Sys
    requires tid < |s.threads| && s.threads[tid].pc.Entering?
  {
    var kind := s.threads[tid].pc.kind;
    if MayEnter(s, kind, s.threads[tid].id) then Goto(s.(lock := Some(tid)), tid, Checking(kind))
    else Goto(s, tid, After(kind, false))
  }

  // ---- steps that do not: transactions, appends, sends, and leaving a guarded section ----

  function Load(s: Sys, tid: nat, fails: bool): Sys
    requires tid < |s.threads|
  {
    var id := s.threads[tid].id;
    if fails || id !in s.store then Goto(s, tid, Canceling)
    else
      var record := Hello(s.store[id]);
      With(s.(store := s.store[id := record]), tid, s.threads[tid].(snap := record, pc := Activating))
  }

  function SendSnapshot(s: Sys, tid: nat, fails: bool): Sys
    requires tid < |s.threads|
  {
    var th := s.threads[tid];
    if th.snap.desiredGeneration == 0 then Goto(s, tid, Serving)
    else if fails then Goto(s, tid, Detaching)
    else With(s, tid, th.(wire := th.wire + [Snapshot(th.snap)], pc := Serving))
  }

  function Delete(s: Sys, tid: nat, fails: bool): Sys
    requires tid < |s.threads|
  {
    var id := s.threads[tid].id;
    if fails || id !in s.store then Goto(s, tid, Releasing) else Goto(s.(store := s.store - {id}), tid, Announcing)
  }

  function Commit(s: Sys, tid: nat, fails: bool): Sys
    requires tid < |s.threads|
  {
    var th := s.threads[tid];
    if fails || th.id !in s.store then Goto(s, tid, Done)
    else
      var record := SetDesired(s.store[th.id], th.spec, s.env.hash(th.spec));
      var past := if th.id in s.history then s.history[th.id] else [];
      var history := if record == s.store[th.id] then s.history
                     else s.history[th.id := past + [Pair(record.desiredDigest, record.desiredSpec)]];
      With(s.(store := s.store[th.id := record], history := history), tid, th.(snap := record, pc := Sending))
  }

  /** PutInstance under a new UUID. */
  function Put(s: Sys, tid: nat, fails: bool): Sys
    requires tid < |s.threads| && s.threads[tid].pc.Putting?
  {
    var id := s.threads[tid].id;
    if fails || id in s.used then Goto(s, tid, Done)
    else Goto(s.(store := s.store[id := ENROLLED], used := s.used + {id}), tid, Enrolling(s.threads[tid].pc.ssh))
  }

  /** An append outside any guarded section. */
  function Announce(s: Sys, tid: nat, kind: EventKind, fails: bool, next: PC): Sys
    requires tid < |s.threads|
  {
    Goto(Publish(s, kind, s.threads[tid].id, fails), tid, next)
  }

  /** The transaction of a guarded section: read the record, or mark it offline. */
  function Check(s: Sys, tid: nat, fails: bool): Sys
    requires tid < |s.threads| && s.threads[tid].pc.Checking?
  {
    var id, kind := s.threads[tid].id, s.threads[tid].pc.kind;
    if fails || id !in s.store then Goto(s, tid, Leaving(kind, false))
    else
      var record := if kind == Disconnected then MarkOffline(s.store[id]) else s.store[id];
      Goto(s.(store := s.store[id := record]), tid, Appending(kind))
  }

  function Leave(s: Sys, tid: nat): Sys
    requires tid < |s.threads| && s.threads[tid].pc.Leaving?
  {
    Goto(s.(lock := None), tid, After(s.threads[tid].pc.kind, s.threads[tid].pc.ok))
  }

  predicate InServing(s: Sys, tid: nat) {
    tid < |s.threads| && s.threads[tid].pc == Serving && s.threads[tid].token < |s.hub.links|
  }

  function Forwarded(s: Sys, tid: nat, fails: bool): Sys
    requires InServing(s, tid)
  {
    var th := s.threads[tid];
    var buffer := s.hub.links[th.token].buffer;
    if buffer == [] then s
    else if fails then Goto(s.(hub := Hub.Take(s.hub, th.token)), tid, Detaching)
    else With(s.(hub := Hub.Take(s.hub, th.token)), tid, th.(wire := th.wire + [buffer[0]]))
  }

  function StatusTaken(s: Sys, tid: nat, fails: bool): Sys
    requires InServing(s, tid)
  {
    var th := s.threads[tid];
    if th.uplink == [] then s
    else
      var rest := th.(uplink := th.uplink[1..]);
      if fails || th.id !in s.store then With(s, tid, rest.(pc := Detaching))
      else
        match ApplyStatus(s.store[th.id], th.uplink[0])
        case None => With(s, tid, rest.(pc := Detaching))
        case Some(record) => With(s.(store := s.store[th.id := record]), tid, rest.(pc := Entering(StatusReported)))
  }

  function MetersTaken(s: Sys, tid: nat, fails: bool): Sys
    requires InServing(s, tid)
  {
    Goto(s, tid, if fails || s.threads[tid].id !in s.store then Detaching else Entering(TrafficUpdated))
  }

  // ---- the agent ----

  function Reported(s: Sys, tid: nat, state: RuntimeState): Sys
    requires tid < |s.threads|
  {
    With(s, tid, s.threads[tid].(uplink := s.threads[tid].uplink + [Report(state)]))
  }

  function Received(s: Sys, id: Id): Sys {
    var a := AgentOf(s, id);
    if a.stream.None? || a.stream.value >= |s.threads| || a.consumed >= |s.threads[a.stream.value].wire| then s
    else
      match Reconcile(s.env, a.state, s.threads[a.stream.value].wire[a.consumed])
      case Applied(state) =>
        Reported(s.(agents := s.agents[id := a.(state := state, consumed := a.consumed + 1)]), a.stream.value, state)
      case _ => s.(agents := s.agents[id := a.(stream := None)])
  }

  /** One step of any participant; an action that cannot happen leaves everything as it is. */
  function Next(s: Sys, a: Action): Sys {
    match a
    case ConnectFrom(id) => s.(threads := s.threads + [Fresh(id, Reserving)])
    case DeleteOf(id) => s.(threads := s.threads + [Fresh(id, Revoking(false))])
    case DesiredOf(id, spec) => s.(threads := s.threads + [Fresh(id, Committing).(spec := spec)])
    case Create(id, ssh) => s.(threads := s.threads + [Fresh(id, Putting(ssh))])
    case Advance(tid, fails) => if tid < |s.threads| then AdvanceThread(s, tid, fails) else s
    case Forward(tid, fails) => if InServing(s, tid) then Forwarded(s, tid, fails) else s
    case TakeStatus(tid, fails) => if InServing(s, tid) then StatusTaken(s, tid, fails) else s
    case TakeMeters(tid, fails) => if InServing(s, tid) then MetersTaken(s, tid, fails) else s
    case Quit(tid) => if InServing(s, tid) then Goto(s, tid, Detaching) else s
    case Inject(tid, status) =>
      if tid < |s.threads| && !s.threads[tid].ours
      then With(s, tid, s.threads[tid].(uplink := s.threads[tid].uplink + [status])) else s
    case Dial(id) =>
      var agent := AgentOf(s, id);
      s.(threads := s.threads + [Fresh(id, Reserving).(ours := true)],
         agents := s.agents[id := Agent(agent.state, Some(|s.threads|), 0, agent.state.generation)])
    case HangUp(id) => s.(agents := s.agents[id := AgentOf(s, id).(stream := None)])
    case Receive(id) => Received(s, id)
    case Beat(id) =>
      var agent := AgentOf(s, id);
      if agent.stream.Some? && agent.stream.value < |s.threads| then Reported(s, agent.stream.value, agent.state) else s
    case Restart(id) => s.(agents := s.agents[id := NEW_AGENT])
  }

  predicate NeedsMutex(pc: PC) {
    pc.Reserving? || pc.Canceling? || pc.Activating? || pc.Abandoning? || pc.Detaching? || pc.Revoking? || pc.Releasing?
    || pc.Sending? || pc.Entering?
  }

  predicate NeedsToken(pc: PC) {
    pc.Canceling? || pc.Activating? || pc.Abandoning? || pc.Detaching?
  }

  /** A handler that needs the mutex waits while another one holds it. */
  function AdvanceThread(s: Sys, tid: nat, fails: bool): Sys
    requires tid < |s.threads|
  {
    var th := s.threads[tid];
    if (NeedsMutex(th.pc) && s.lock != None) || (NeedsToken(th.pc) && th.token >= |s.hub.links|) then s
    else
      match th.pc
      case Reserving => Reserve(s, tid)
      case Loading => Load(s, tid, fails)
      case Canceling => Cancel(s, tid)
      case Activating => Activate(s, tid)
      case Abandoning => Detach(s, tid)
      case Snapshotting => SendSnapshot(s, tid, fails)
      case Serving => s
      case Detaching => Detach(s, tid)
      case Revoking(rollback) => Revoke(s, tid)
      case Failing => Announce(s, tid, InstallFailed, fails, Deleting)
      case Deleting => Delete(s, tid, fails)
      case Announcing => Announce(s, tid, Deleted, fails, Releasing)
      case Releasing => if th.release < |s.hub.revocations| then Release(s, tid) else s
      case Committing => Commit(s, tid, fails)
      case Sending => Send(s, tid)
      case Putting(ssh) => Put(s, tid, fails)
      case Enrolling(ssh) => Announce(s, tid, Enrolled, fails, if ssh then Starting else Done)
      case Starting => Announce(s, tid, InstallStarted, fails, Working)
      case Working => Goto(s, tid, if fails then Revoking(true) else Entering(InstallSucceeded))
      case Entering(kind) => Enter(s, tid)
      case Checking(kind) => Check(s, tid, fails)
      case Appending(kind) => Announce(s, tid, kind, fails, Leaving(kind, true))
      case Leaving(kind, ok) => Leave(s, tid)
      case Done => s
  }

  function Run(env: Env, actions: seq<Action>): Sys {
    if actions == [] then Initial(env)
    else Next(Run(env, actions[..|actions| - 1]), actions[|actions| - 1])
  }
}
