/** The agent's side of reconciliation: one runtime state, held in memory and lost when the agent restarts. */
module AgentState {
  import opened Prelude
  import opened Records

  datatype RuntimeState = RuntimeState(generation: uint64, digest: string, phase: string, reason: string)

  const IDLE := RuntimeState(0, "", "idle", "")

  datatype Spec = Spec(engine: string, desiredPhase: string)

  /** The two library computations: the SHA-256 digest of a specification, and its JSON decoding. */
  datatype Env = Env(hash: string -> string, parse: string -> Option<Spec>)

  datatype Outcome =
    | Applied(state: RuntimeState)
    | Regressed
    | DigestChanged
    | DigestMismatch
    | Undecodable
    | Unreadable
    | Unwritable

  function Reconcile(env: Env, state: RuntimeState, desired: Message): Outcome {
    if desired.generation < state.generation then Regressed
    else if desired.generation == state.generation && state.digest != "" && desired.digest != state.digest
    then DigestChanged
    else if env.hash(desired.spec) != desired.digest then DigestMismatch
    else
      match env.parse(desired.spec)
      case None => Undecodable
      case Some(spec) =>
        if spec.desiredPhase == "stopped"
        then Applied(RuntimeState(desired.generation, desired.digest, "stopped", ""))
        else Applied(RuntimeState(desired.generation, desired.digest, "unsupported",
                                  "adapter " + spec.engine + " is catalogued but not enabled in this build"))
  }

  function Report(state: RuntimeState): Status {
    Status(state.generation, state.digest, state.phase, state.reason)
  }

  /** The agent's key-value store holds the state under one key, or nothing yet. */
  class StateStore {
    var stored: Option<RuntimeState>

    constructor ()
      ensures State() == IDLE
    {
      stored := None;
    }

    ghost function State(): RuntimeState
      reads this
    {
      if stored.Some? then stored.value else IDLE
    }

    /** None when the store cannot be read. */
    method Load(unreadable: bool) returns (state: Option<RuntimeState>)
      ensures state == if unreadable then None else Some(State())
    {
      var loaded := RuntimeState(0, "", "idle", "");
      if unreadable {
        return None;
      }
      if stored.Some? {
        loaded := stored.value;
      }
      return Some(loaded);
    }

    /** The store may fail to be read before, or to be written after, the message is judged. */
    method Apply(env: Env, desired: Message, unreadable: bool, unwritable: bool) returns (outcome: Outcome)
      modifies this
      ensures outcome ==
        if unreadable then Unreadable
        else if Reconcile(env, old(State()), desired).Applied? && unwritable then Unwritable
        else Reconcile(env, old(State()), desired)
      ensures State() == if outcome.Applied? then outcome.state else old(State())
    {
      var loaded := Load(unreadable);
      if loaded.None? {
        return Unreadable;
      }
      var state := loaded.value;
      if desired.generation < state.generation {
        return Regressed;
      }
      if desired.generation == state.generation && state.digest != "" && desired.digest != state.digest {
        return DigestChanged;
      }
      if env.hash(desired.spec) != desired.digest {
        return DigestMismatch;
      }
      match env.parse(desired.spec) {
        case None => return Undecodable;
        case Some(spec) =>
          state := state.(generation := desired.generation, digest := desired.digest);
          state := state.(phase := "unsupported",
                          reason := "adapter " + spec.engine + " is catalogued but not enabled in this build");
          if spec.desiredPhase == "stopped" {
            state := state.(phase := "stopped", reason := "");
          }
          if unwritable {
            return Unwritable;
          }
          stored := Some(state);
          return Applied(state);
      }
    }
  }

  function ApplyAll(env: Env, state: RuntimeState, messages: seq<Message>): RuntimeState
    decreases |messages|
  {
    if messages == [] then state
    else
      var next := Reconcile(env, state, messages[0]);
      ApplyAll(env, if next.Applied? then next.state else state, messages[1..])
  }

  /** Whatever arrives between two points of one agent's life, messages that fail included, the applied generation
      never goes back, and staying at a generation means staying at its digest once there is one. */
  lemma {:induction false} NeverRegresses(env: Env, state: RuntimeState, messages: seq<Message>)
    decreases |messages|
    ensures ApplyAll(env, state, messages).generation >= state.generation
    ensures ApplyAll(env, state, messages).generation == state.generation && state.digest != "" ==>
      ApplyAll(env, state, messages).digest == state.digest
  {
    if messages != [] {
      var next := Reconcile(env, state, messages[0]);
      NeverRegresses(env, if next.Applied? then next.state else state, messages[1..]);
    }
  }

  /** A snapshot sent again after a reconnect is accepted and changes nothing. */
  lemma ResendAccepted(env: Env, state: RuntimeState, desired: Message)
    requires Reconcile(env, state, desired).Applied?
    ensures Reconcile(env, Reconcile(env, state, desired).state, desired) == Reconcile(env, state, desired)
  {
  }

  // ---- what an agent that was sent these messages reports ----

  /** The message decodes and matches its digest, is not older than the last applied one, and does not change the
      digest of its generation. */
  predicate MayFollow(env: Env, last: Option<Message>, m: Message) {
    && env.hash(m.spec) == m.digest && env.parse(m.spec).Some?
    && (last.Some? ==>
          || m.generation > last.value.generation
          || (m.generation == last.value.generation && (last.value.digest in {"", m.digest})))
  }

  function LastApplied(env: Env, messages: seq<Message>): Option<Message> {
    if messages == [] then None
    else
      var last, m := LastApplied(env, messages[..|messages| - 1]), messages[|messages| - 1];
      if MayFollow(env, last, m) then Some(m) else last
  }

  /** The report names generation and digest of the message, and says "stopped" exactly when its specification asks for
      that. */
  predicate Shows(env: Env, status: Status, m: Message) {
    && status.generation == m.generation && status.digest == m.digest && env.parse(m.spec).Some?
    && var spec := env.parse(m.spec).value;
       if spec.desiredPhase == "stopped" then status.phase == "stopped" && status.reason == ""
       else && status.phase == "unsupported"
            && status.reason == "adapter " + spec.engine + " is catalogued but not enabled in this build"
  }

  /** From its start, and whatever it is sent, an agent reports the last message that could follow those before, or
      that it is idle. */
  lemma {:induction false} ReportsLastApplied(env: Env, messages: seq<Message>)
    ensures
      var status, last := Report(ApplyAll(env, IDLE, messages)), LastApplied(env, messages);
      if last.None? then status == Status(0, "", "idle", "") else Shows(env, status, last.value)
  {
    if messages != [] {
      var n := |messages| - 1;
      var state := ApplyAll(env, IDLE, messages[..n]);
      ReportsLastApplied(env, messages[..n]);
      ApplyLast(env, IDLE, messages);
      hide ApplyAll;
    }
  }

  lemma {:induction false} ApplyLast(env: Env, state: RuntimeState, messages: seq<Message>)
    requires messages != []
    ensures
      var n := |messages| - 1;
      var before := ApplyAll(env, state, messages[..n]);
      var next := Reconcile(env, before, messages[n]);
      ApplyAll(env, state, messages) == if next.Applied? then next.state else before
    decreases |messages|
  {
    hide Reconcile;
    var n := |messages| - 1;
    var next := Reconcile(env, state, messages[0]);
    var state' := if next.Applied? then next.state else state;
    if n > 0 {
      assert messages[1..][..n - 1] == messages[..n][1..];
      ApplyLast(env, state', messages[1..]);
    } else {
      assert ApplyAll(env, state', messages[1..]) == state';
    }
  }
}
