/** One-time authentication of the operator: the TOTP search and the transactions that consume codes. */
module Auth {
  import opened Prelude

  /** `generate` is the RFC 6238 code of a secret at a step (None: an error); `trim` strips space from what was typed;
      `digest` names the recovery key of what was typed. */
  datatype Env = Env(generate: (string, nat) -> Option<string>, trim: string -> string, digest: string -> string)

  const PERIOD := 30
  const OFFSETS: seq<int> := [0, 1, -1]

  /** Go's integer division truncates toward zero. */
  function Quotient(t: int): int {
    if t >= 0 then t / PERIOD else -((-t) / PERIOD)
  }

  /** What one candidate says: it is before the epoch, its code cannot be made, it matches, or it does not. */
  datatype Verdict = Skipped | Broken | Matches | Differs

  function Judge(env: Env, secret: string, code: string, step: int): Verdict {
    if step < 0 then Skipped
    else match env.generate(secret, step)
      case None => Broken
      case Some(candidate) => if candidate == env.trim(code) then Matches else Differs
  }

  function Search(env: Env, secret: string, code: string, current: int, i: nat): Option<nat>
    requires i <= |OFFSETS|
    decreases |OFFSETS| - i
  {
    if i == |OFFSETS| then None else
    match Judge(env, secret, code, current + OFFSETS[i])
    case Broken => None
    case Matches => Some(current + OFFSETS[i])
    case _ => Search(env, secret, code, current, i + 1)
  }

  /** The step that a code typed at time `t` stands for. */
  function Match(env: Env, secret: string, code: string, t: int): Option<nat> {
    Search(env, secret, code, Quotient(t), 0)
  }

  method MatchTOTPStep(env: Env, secret: string, code: string, now: int) returns (step: Option<nat>)
    ensures step == Match(env, secret, code, now)
  {
    var current := if now >= 0 then now / PERIOD else -((-now) / PERIOD);
    var i := 0;
    while i < |OFFSETS|
      invariant 0 <= i <= |OFFSETS|
      invariant Match(env, secret, code, now) == Search(env, secret, code, current, i)
    {
      var candidate := current + OFFSETS[i];
      i := i + 1;
      if candidate < 0 { continue; }
      var made := env.generate(secret, candidate);
      if made.None? { return None; }
      if made.value == env.trim(code) { return Some(candidate); }
    }
    return None;
  }

  /** The step of the clock: seconds divided by thirty, truncated toward zero. */
  function Now(t: int): int {
    if t >= 0 then t / 30 else -(-t / 30)
  }

  /** There is no such step, or its code can be made and is not the one typed. */
  predicate Other(env: Env, secret: string, code: string, step: int) {
    step < 0 || (env.generate(secret, step).Some? && env.generate(secret, step).value != env.trim(code))
  }

  /** For every clock, code and generator: a step is returned exactly when the code typed is its code, it is the clock's
      own step, the next or the one before, and those of them that come earlier in this order have other codes. */
  lemma MatchIff(env: Env, secret: string, code: string, t: int, step: nat)
    ensures Match(env, secret, code, t) == Some(step) <==>
      && env.generate(secret, step) == Some(env.trim(code))
      && (|| step == Now(t)
          || (step == Now(t) + 1 && Other(env, secret, code, Now(t)))
          || (step == Now(t) - 1 && Other(env, secret, code, Now(t)) && Other(env, secret, code, Now(t) + 1)))
    ensures Match(env, secret, code, t) == Some(step) ==>
      -1 <= step - Quotient(t) <= 1 && env.generate(secret, step) == Some(env.trim(code))
  {
    var current := Quotient(t);
    assert current == Now(t);
    hide Quotient, Now;
    forall s: int
      ensures Judge(env, secret, code, s) == Matches <==> s >= 0 && env.generate(secret, s) == Some(env.trim(code))
      ensures Judge(env, secret, code, s) in {Skipped, Differs} <==> Other(env, secret, code, s)
    {
    }
    hide Judge, Other;
    var v0, v1, v2 := Judge(env, secret, code, current + 0), Judge(env, secret, code, current + 1),
        Judge(env, secret, code, current + -1);
    assert OFFSETS[0] == 0 && OFFSETS[1] == 1 && OFFSETS[2] == -1;
    assert Search(env, secret, code, current, 3) == None;
    assert Search(env, secret, code, current, 2) == if v2 == Matches then Some(current - 1) else None;
    assert Search(env, secret, code, current, 1) ==
        if v1 == Broken then None else if v1 == Matches then Some(current + 1)
        else Search(env, secret, code, current, 2);
  }

  /** So a code made for a step at most one period away is answered with that step, if the other two have other
      codes. */
  lemma OnePeriodEachWay(env: Env, secret: string, code: string, t: int, step: nat)
    requires -1 <= step - Now(t) <= 1 && env.generate(secret, step) == Some(env.trim(code))
    requires forall other: int | -1 <= other - Now(t) <= 1 && other != step :: Other(env, secret, code, other)
    ensures Match(env, secret, code, t) == Some(step)
  {
    MatchIff(env, secret, code, t, step);
    hide Match, Now, Other;
  }

  // ---- the keys of the operator ----

  /** The stored step: missing, not eight bytes long, or a number. */
  datatype Counter = Absent | Malformed | Stored(last: nat)

  /** The operator's keys: the secret in force, the one being set up, the last consumed step, and the recovery
      codes left. */
  datatype Keys = Keys(
    secret: Option<string>, pending: Option<string>, step: Counter, ready: bool, recovery: set<string>)

  const BLANK := Keys(None, None, Absent, false, {})

  predicate Fresh(k: Keys, step: nat) {
    k.step.Absent? || (k.step.Stored? && step > k.step.last)
  }

  function Consumed(k: Keys, step: nat): Keys {
    if Fresh(k, step) then k.(step := Stored(step)) else k
  }

  function Pended(k: Keys, secret: string): Keys {
    k.(step := Absent, pending := Some(secret))
  }

  function Completed(k: Keys, secret: string, step: nat, hashes: set<string>): Keys {
    if k.ready then k else Keys(Some(secret), None, Stored(step), true, k.recovery + hashes)
  }

  class OperatorStore {
    var secret: Option<string>
    var pending: Option<string>
    var step: Counter
    var ready: bool
    var recovery: set<string>

    function View(): Keys
      reads this
    {
      Keys(secret, pending, step, ready, recovery)
    }

    constructor ()
      ensures View() == BLANK
    {
      secret, pending, step, ready, recovery := None, None, Absent, false, {};
    }

    /** None is the error of a stored step that is not eight bytes long. */
    method ConsumeTOTPStep(next: nat) returns (consumed: Option<bool>)
      modifies this`step
      ensures old(step) == Absent ==> consumed == Some(true) && step == Stored(next)
      ensures old(step) == Malformed ==> consumed == None && step == old(step)
      ensures old(step).Stored? && next > old(step).last ==> consumed == Some(true) && step == Stored(next)
      ensures old(step).Stored? && next <= old(step).last ==> consumed == Some(false) && step == old(step)
      ensures View() == Consumed(old(View()), next)
    {
      if step.Malformed? { return None; }
      if step.Stored? && next <= step.last { return Some(false); }
      step := Stored(next);
      return Some(true);
    }

    method SetPendingTOTP(candidate: string)
      modifies this`step, this`pending
      ensures step == Absent && pending == Some(candidate) && View() == Pended(old(View()), candidate)
    {
      step := Absent;
      pending := Some(candidate);
    }

    method CompleteOperator(candidate: string, first: nat, hashes: seq<string>) returns (ok: bool)
      modifies this
      ensures ok == !old(ready)
      ensures ok ==> secret == Some(candidate) && step == Stored(first) && ready && pending == None
      ensures recovery == old(recovery) + if ok then set h | h in hashes else {}
      ensures View() == Completed(old(View()), candidate, first, set h | h in hashes)
    {
      if ready { return false; }
      secret, step, ready, pending := Some(candidate), Stored(first), true, None;
      for i := 0 to |hashes|
        invariant secret == Some(candidate) && step == Stored(first) && ready && pending == None
        invariant recovery == old(recovery) + set h | h in hashes[..i]
      {
        assert hashes[..i + 1] == hashes[..i] + [hashes[i]];
        recovery := recovery + {hashes[i]};
      }
      assert hashes[..|hashes|] == hashes;
      return true;
    }

    method ConsumeRecoveryCode(digest: string) returns (found: bool)
      modifies this`recovery
      ensures found == (digest in old(recovery)) && View() == old(View()).(recovery := old(recovery) - {digest})
    {
      found := digest in recovery;
      recovery := recovery - {digest};
    }
  }
}
