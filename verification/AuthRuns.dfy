/** Setup and login requests as interleaved steps over the operator's keys: every transaction, every clock reading and
    every look at the setup token is a step of its own. */
module AuthRuns {
  import opened Prelude
  import opened Auth

  datatype Call =
    | Login(code: string)
    | Begin(token: string, secret: string)
    | Complete(offered: string, entered: string, hashes: set<string>)

  /** Where a request stands. `Matching` holds the secret it read, `Consuming` and `Committing` the step found at a
      clock. */
  datatype PC =
    | CheckReady | CheckToken | Pend | ReadSecret
    | Matching(secret: string)
    | Consuming(step: nat, clock: int)
    | Recovering | Issuing
    | Committing(chosen: string, first: nat, at: int)
    | Clearing | Done

  datatype Thread = Thread(call: Call, pc: PC)

  /** An accepted TOTP step, with the clock that found it and the number of pending secrets set before it. */
  datatype Accepted = Accepted(step: nat, clock: int, code: string, epoch: nat)

  /** The rest is history: TOTP steps accepted (the setup step first), recovery digests used, digests issued, sessions
      opened, and how often a pending secret was set. */
  datatype Sys = Sys(
    keys: Keys, setupToken: string, threads: seq<Thread>, accepted: seq<Accepted>, recovered: seq<string>,
    issued: set<string>, sessions: nat, resets: nat)

  function Start(setupToken: string): Sys {
    Sys(BLANK, setupToken, [], [], [], {}, 0, 0)
  }

  function First(call: Call): PC {
    if call.Login? then ReadSecret else CheckReady
  }

  datatype Action = Arrive(call: Call) | Step(i: nat, clock: int)

  function LoginStep(env: Env, y: Sys, code: string, pc: PC, clock: int): (Sys, PC) {
    match pc
    case ReadSecret => (y, if y.keys.secret.Some? then Matching(y.keys.secret.value) else Done)
    case Matching(secret) =>
      (y, match Match(env, secret, code, clock) case Some(step) => Consuming(step, clock) case None => Recovering)
    case Consuming(step, at) =>
      if y.keys.step.Malformed? then (y, Done)
      else if Fresh(y.keys, step) then
        (y.(keys := Consumed(y.keys, step), accepted := y.accepted + [Accepted(step, at, code, y.resets)]), Issuing)
      else (y, Recovering)
    case Recovering =>
      var digest := env.digest(code);
      if digest in y.keys.recovery then
        (y.(keys := y.keys.(recovery := y.keys.recovery - {digest}), recovered := y.recovered + [digest]), Issuing)
      else (y, Done)
    case Issuing => (y.(sessions := y.sessions + 1), Done)
    case _ => (y, Done)
  }

  function CheckSteps(y: Sys, token: string, pc: PC, next: PC): PC {
    match pc
    case CheckReady => if y.keys.ready then Done else CheckToken
    case CheckToken => if y.setupToken != "" && token == y.setupToken then next else Done
    case _ => Done
  }

  function BeginStep(y: Sys, token: string, secret: string, pc: PC): (Sys, PC) {
    if pc == Pend then (y.(keys := Pended(y.keys, secret), resets := y.resets + 1), Done)
    else (y, CheckSteps(y, token, pc, Pend))
  }

  function CompleteStep(env: Env, y: Sys, token: string, code: string, hashes: set<string>, pc: PC, clock: int)
    : (Sys, PC)
  {
    match pc
    case ReadSecret => (y, if y.keys.pending.Some? then Matching(y.keys.pending.value) else Done)
    case Matching(secret) =>
      (y, match Match(env, secret, code, clock) case Some(step) => Committing(secret, step, clock) case None => Done)
    case Committing(secret, step, at) =>
      if y.keys.ready then (y, Done) else
        (y.(keys := Completed(y.keys, secret, step, hashes),
            accepted := y.accepted + [Accepted(step, at, code, y.resets)],
            issued := y.issued + hashes, sessions := y.sessions + 1), Clearing)
    case Clearing => (y.(setupToken := ""), Done)
    case _ => (y, CheckSteps(y, token, pc, ReadSecret))
  }

  function StepOf(env: Env, y: Sys, t: Thread, clock: int): (Sys, PC) {
    match t.call
    case Login(code) => LoginStep(env, y, code, t.pc, clock)
    case Begin(token, secret) => BeginStep(y, token, secret, t.pc)
    case Complete(token, code, hashes) => CompleteStep(env, y, token, code, hashes, t.pc, clock)
  }

  function Next(env: Env, y: Sys, a: Action): Sys {
    match a
    case Arrive(call) => y.(threads := y.threads + [Thread(call, First(call))])
    case Step(i, clock) =>
      if i < |y.threads| then
        var (y', pc) := StepOf(env, y, y.threads[i], clock);
        y'.(threads := y.threads[i := y.threads[i].(pc := pc)])
      else y
  }

  function Run(env: Env, y: Sys, actions: seq<Action>): Sys
    decreases |actions|
  {
    if actions == [] then y else Run(env, Next(env, y, actions[0]), actions[1..])
  }

  // ---- the invariant ----

  predicate Near(step: nat, clock: int) {
    -1 <= step - Quotient(clock) <= 1
  }

  ghost predicate Sound(env: Env, y: Sys, a: Accepted) {
    && a.epoch <= y.resets && Near(a.step, a.clock)
    && y.keys.secret.Some? && env.generate(y.keys.secret.value, a.step) == Some(env.trim(a.code))
  }

  /** What a request holds is what it read. */
  ghost predicate Held(env: Env, keys: Keys, t: Thread) {
    match t.call
    case Login(code) =>
      (match t.pc
       case Matching(secret) => keys.secret == Some(secret)
       case Consuming(step, clock) =>
         keys.secret.Some? && Near(step, clock) && env.generate(keys.secret.value, step) == Some(env.trim(code))
       case Recovering => keys.ready
       case _ => true)
    case Complete(_, code, _) =>
      (t.pc.Committing? ==> Near(t.pc.first, t.pc.at) && env.generate(t.pc.chosen, t.pc.first) == Some(env.trim(code)))
      && t.pc != Issuing
    case Begin(_, _) => t.pc != Issuing
  }

  ghost predicate Rising(accepted: seq<Accepted>) {
    forall i: nat, j: nat | i < j < |accepted| ::
      accepted[i].epoch <= accepted[j].epoch &&
          (accepted[i].epoch == accepted[j].epoch ==> accepted[i].step < accepted[j].step)
  }

  /** The stored step is the last accepted one, unless a pending secret has been set since. */
  ghost predicate Remembered(y: Sys) {
    if y.accepted == [] then !y.keys.ready && y.keys.secret.None? && y.keys.step.Absent?
    else
      var last := y.accepted[|y.accepted| - 1];
      y.keys.ready && y.keys.secret.Some? && y.keys.step == if last.epoch == y.resets then Stored(last.step) else Absent
  }

  /** Recovery digests are issued once, and each is either left or used once. */
  ghost predicate Spent(y: Sys) {
    && (!y.keys.ready ==> y.issued == {} && y.recovered == [] && y.keys.recovery == {})
    && (forall d :: d in y.issued <==> d in y.keys.recovery || d in y.recovered)
    && (forall d | d in y.recovered :: d !in y.keys.recovery)
    && (forall i: nat, j: nat | i < j < |y.recovered| :: y.recovered[i] != y.recovered[j])
  }

  /** Requests that have authenticated and still owe a session. */
  function Owed(threads: seq<Thread>): nat {
    if threads == [] then 0 else Owed(threads[..|threads| - 1]) + if threads[|threads| - 1].pc == Issuing then 1 else 0
  }

  ghost predicate Safe(env: Env, y: Sys) {
    && Core(env, y)
    && (forall i: nat | i < |y.threads| :: Held(env, y.keys, y.threads[i]))
    && y.sessions + Owed(y.threads) == |y.accepted| + |y.recovered|
  }

  lemma {:induction false} OwedAfter(threads: seq<Thread>, i: nat, t: Thread)
    requires i < |threads|
    ensures Owed(threads[i := t]) + (if threads[i].pc == Issuing then 1 else 0) ==
        Owed(threads) + (if t.pc == Issuing then 1 else 0)
  {
    var n := |threads| - 1;
    if i == n {
      assert threads[i := t][..n] == threads[..n];
    } else {
      assert threads[i := t][..n] == threads[..n][i := t];
      OwedAfter(threads[..n], i, t);
    }
  }

  ghost predicate Core(env: Env, y: Sys) {
    && Rising(y.accepted) && Remembered(y) && Spent(y)
    && (forall k: nat | k < |y.accepted| :: Sound(env, y, y.accepted[k]))
  }

  /** The secret in force never changes, and completion is final. */
  predicate Later(keys: Keys, keys': Keys) {
    (keys.secret.Some? ==> keys'.secret == keys.secret) && (keys.ready ==> keys'.ready)
  }

  lemma ConsumeKeeps(env: Env, y: Sys, code: string, step: nat, at: int)
    requires Core(env, y) && Fresh(y.keys, step) && Held(env, y.keys, Thread(Login(code), Consuming(step, at)))
    ensures Core(env, LoginStep(env, y, code, Consuming(step, at), at).0)
  {
    hide Near, Spent;
    var y' := LoginStep(env, y, code, Consuming(step, at), at).0;
    var n := |y.accepted|;
    assert y'.accepted[n] == Accepted(step, at, code, y.resets);
    assert forall k: nat | k < n :: y'.accepted[k] == y.accepted[k] && Sound(env, y, y.accepted[k]);
    if n > 0 {
      assert forall k: nat | k < n :: y.accepted[k].epoch <= y.accepted[n - 1].epoch;
    }
    assert Spent(y') by { SpentFrame(y, y'); }
  }

  lemma SpentFrame(y: Sys, y': Sys)
    requires Spent(y) && y'.issued == y.issued && y'.recovered == y.recovered && y'.keys.recovery == y.keys.recovery
    requires y.keys.ready == y'.keys.ready
    ensures Spent(y')
  {
  }

  lemma RecoverKeeps(env: Env, y: Sys, code: string, clock: int)
    requires Core(env, y) && y.keys.ready
    ensures Core(env, LoginStep(env, y, code, Recovering, clock).0)
  {
    hide Near, Rising;
    var y' := LoginStep(env, y, code, Recovering, clock).0;
    assert forall k: nat | k < |y.accepted| :: Sound(env, y, y.accepted[k]);
  }

  lemma LoginKeeps(env: Env, y: Sys, code: string, pc: PC, clock: int)
    requires Core(env, y) && Held(env, y.keys, Thread(Login(code), pc))
    ensures
      var (y', pc') := LoginStep(env, y, code, pc, clock);
      Core(env, y') && Later(y.keys, y'.keys) && Held(env, y'.keys, Thread(Login(code), pc'))
  {
    match pc {
      case Matching(secret) =>
        hide Core, Match;
        if Match(env, secret, code, clock).Some? {
          MatchIff(env, secret, code, clock, Match(env, secret, code, clock).value);
        }
        assert y.keys.ready by { ReadyWithSecret(env, y); }
      case Consuming(step, at) =>
        assert y.keys.ready;
        if Fresh(y.keys, step) { ConsumeKeeps(env, y, code, step, at); }
        hide Core, Near;
      case Recovering =>
        RecoverKeeps(env, y, code, clock);
        hide Core;
      case Issuing =>
        hide Rising, Near;
      case _ =>
    }
  }

  lemma ReadyWithSecret(env: Env, y: Sys)
    requires Core(env, y)
    ensures y.keys.ready == y.keys.secret.Some?
  {
  }

  lemma BeginKeeps(env: Env, y: Sys, token: string, secret: string, pc: PC)
    requires Core(env, y)
    ensures
      var (y', pc') := BeginStep(y, token, secret, pc);
      Core(env, y') && Later(y.keys, y'.keys) && Held(env, y'.keys, Thread(Begin(token, secret), pc'))
  {
    hide Near;
    assert forall k: nat | k < |y.accepted| :: Sound(env, y, y.accepted[k]);
  }

  lemma CompleteKeeps(env: Env, y: Sys, token: string, code: string, hashes: set<string>, pc: PC, clock: int)
    requires Core(env, y) && Held(env, y.keys, Thread(Complete(token, code, hashes), pc))
    ensures
      var (y', pc') := CompleteStep(env, y, token, code, hashes, pc, clock);
      Core(env, y') && Later(y.keys, y'.keys) && Held(env, y'.keys, Thread(Complete(token, code, hashes), pc'))
  {
    match pc {
      case Matching(secret) =>
        hide Core, Match;
        if Match(env, secret, code, clock).Some? {
          MatchIff(env, secret, code, clock, Match(env, secret, code, clock).value);
        }
      case Committing(secret, step, at) =>
        hide Near;
        if !y.keys.ready { assert y.accepted == []; }
      case Clearing =>
        hide Near, Rising;
      case _ =>
    }
  }

  /** Every accepted credential is owed one session, and a session is opened for nothing else. */
  lemma StepPays(env: Env, y: Sys, t: Thread, clock: int)
    requires Held(env, y.keys, t)
    ensures
      var (y', pc) := StepOf(env, y, t, clock);
      y'.sessions + (if pc == Issuing then 1 else 0) + |y.accepted| + |y.recovered|
      == y.sessions + (if t.pc == Issuing then 1 else 0) + |y'.accepted| + |y'.recovered|
  {
    hide Match;
  }

  lemma HeldLater(env: Env, keys: Keys, keys': Keys, t: Thread)
    requires Held(env, keys, t) && Later(keys, keys')
    ensures Held(env, keys', t)
  {
    hide Near;
  }

  lemma StepKeeps(env: Env, y: Sys, t: Thread, clock: int)
    requires Core(env, y) && Held(env, y.keys, t)
    ensures
      var (y', pc) := StepOf(env, y, t, clock);
      Core(env, y') && Later(y.keys, y'.keys) && Held(env, y'.keys, t.(pc := pc)) && y'.threads == y.threads
  {
    hide Core, Held, Later;
    match t.call {
      case Login(code) => LoginKeeps(env, y, code, t.pc, clock);
      case Begin(token, secret) => BeginKeeps(env, y, token, secret, t.pc);
      case Complete(token, code, hashes) => CompleteKeeps(env, y, token, code, hashes, t.pc, clock);
    }
  }

  lemma CoreIgnoresThreads(env: Env, y: Sys, threads: seq<Thread>)
    ensures Core(env, y.(threads := threads)) == Core(env, y)
  {
    hide Rising, Near;
    var y' := y.(threads := threads);
    assert forall a :: Sound(env, y', a) == Sound(env, y, a);
    assert Spent(y') == Spent(y);
  }

  lemma NextSafe(env: Env, y: Sys, a: Action)
    requires Safe(env, y)
    ensures Safe(env, Next(env, y, a))
  {
    var y' := Next(env, y, a);
    match a {
      case Arrive(call) =>
        CoreIgnoresThreads(env, y, y'.threads);
        assert y'.threads[..|y.threads|] == y.threads;
        hide Core;
      case Step(i, clock) =>
        if i < |y.threads| {
          var t := y.threads[i];
          var (z, pc) := StepOf(env, y, t, clock);
          StepKeeps(env, y, t, clock);
          StepPays(env, y, t, clock);
          OwedAfter(y.threads, i, t.(pc := pc));
          CoreIgnoresThreads(env, z, y'.threads);
          hide Core, Held, StepOf, Later;
          forall j: nat | j < |y.threads| ensures Held(env, y'.keys, y'.threads[j]) {
            if j != i { HeldLater(env, y.keys, y'.keys, y.threads[j]); }
          }
        }
    }
  }

  lemma {:induction false} RunSafe(env: Env, y: Sys, actions: seq<Action>)
    requires Safe(env, y)
    ensures Safe(env, Run(env, y, actions))
    decreases |actions|
  {
    hide Safe, Next;
    if actions != [] {
      NextSafe(env, y, actions[0]);
      RunSafe(env, Next(env, y, actions[0]), actions[1..]);
    }
  }

  lemma FromStart(env: Env, setupToken: string, actions: seq<Action>)
    ensures Safe(env, Run(env, Start(setupToken), actions))
  {
    RunSafe(env, Start(setupToken), actions);
  }

  // ---- one-time use ----

  /** Over any run and any clocks: accepted steps, the setup step included, strictly increase, except across the
      setting of a pending secret. */
  lemma StepsIncrease(env: Env, setupToken: string, actions: seq<Action>)
    ensures Rising(Run(env, Start(setupToken), actions).accepted)
  {
    FromStart(env, setupToken, actions);
  }

  /** When no pending secret is set once setup is complete, no step is ever accepted twice or out of order. */
  lemma EachStepOnce(env: Env, setupToken: string, actions: seq<Action>)
    requires var y := Run(env, Start(setupToken), actions); y.accepted != [] ==> y.resets == y.accepted[0].epoch
    ensures
      var accepted := Run(env, Start(setupToken), actions).accepted;
      forall i: nat, j: nat | i < j < |accepted| :: accepted[i].step < accepted[j].step
  {
    FromStart(env, setupToken, actions);
    hide Run;
    var y := Run(env, Start(setupToken), actions);
    forall i: nat, j: nat | i < j < |y.accepted| ensures y.accepted[i].step < y.accepted[j].step {
      assert Sound(env, y, y.accepted[j]) && Sound(env, y, y.accepted[i]);
      assert y.accepted[0].epoch <= y.accepted[i].epoch <= y.accepted[j].epoch;
    }
  }

  /** In every reachable state with a completed setup: a login that has found a step is let in if and only if the step
      is above the last accepted one or a pending secret has been set since; otherwise its code is tried as a recovery
      code. */
  lemma ReplayIff(env: Env, setupToken: string, actions: seq<Action>, i: nat, clock: int)
    requires
      var y := Run(env, Start(setupToken), actions);
      y.accepted != [] && i < |y.threads| && y.threads[i].call.Login? && y.threads[i].pc.Consuming?
    ensures
      var y, y' := Run(env, Start(setupToken), actions),
          Next(env, Run(env, Start(setupToken), actions), Step(i, clock));
      var last, step := y.accepted[|y.accepted| - 1], y.threads[i].pc.step;
      && i < |y'.threads|
      && (y'.threads[i].pc == Issuing <==> step > last.step || last.epoch < y.resets)
      && (y'.threads[i].pc == Issuing ==>
            && |y'.accepted| == |y.accepted| + 1 && y'.accepted[|y.accepted|].step == step
            && y'.accepted[..|y.accepted|] == y.accepted)
      && (y'.threads[i].pc != Issuing ==> y'.threads[i].pc == Recovering && y' == y.(threads := y'.threads))
  {
    FromStart(env, setupToken, actions);
    hide Run, Spent, Rising, Owed;
    var y := Run(env, Start(setupToken), actions);
    assert Sound(env, y, y.accepted[|y.accepted| - 1]);
  }

  /** Each recovery code opens at most one session, however it is typed, and only if it was issued at setup. */
  lemma RecoveryOnce(env: Env, setupToken: string, actions: seq<Action>)
    ensures
      var y := Run(env, Start(setupToken), actions);
      && (forall i: nat, j: nat | i < j < |y.recovered| :: y.recovered[i] != y.recovered[j])
      && (forall d :: d in y.issued <==> d in y.keys.recovery || d in y.recovered)
      && |y.recovered| + |y.keys.recovery| == |y.issued|
  {
    FromStart(env, setupToken, actions);
    hide Run, Rising, Remembered;
    var y := Run(env, Start(setupToken), actions);
    CountDistinct(y.recovered, y.keys.recovery, y.issued);
  }

  lemma {:induction false} CountDistinct(used: seq<string>, left: set<string>, all: set<string>)
    requires forall i: nat, j: nat | i < j < |used| :: used[i] != used[j]
    requires forall d | d in used :: d !in left
    requires forall d :: d in all <==> d in left || d in used
    ensures |used| + |left| == |all|
  {
    if used == [] {
      assert all == left;
    } else {
      var n := |used| - 1;
      forall d ensures d in all - {used[n]} <==> d in left || d in used[..n] {
        if d in used && d != used[n] { var i: nat :| i < |used| && used[i] == d; assert used[..n][i] == d; }
      }
      CountDistinct(used[..n], left, all - {used[n]});
    }
  }

  /** Sessions opened never exceed the one-time credentials spent, and catch up once no request is half-way. */
  lemma SessionsArePaid(env: Env, setupToken: string, actions: seq<Action>)
    ensures
      var y := Run(env, Start(setupToken), actions);
      && y.sessions <= |y.accepted| + |y.recovered|
      && ((forall i: nat | i < |y.threads| :: y.threads[i].pc != Issuing) ==>
           y.sessions == |y.accepted| + |y.recovered|)
  {
    FromStart(env, setupToken, actions);
    hide Run, Core, Held;
    var y := Run(env, Start(setupToken), actions);
    if forall i: nat | i < |y.threads| :: y.threads[i].pc != Issuing { NoneOwed(y.threads); }
  }

  lemma {:induction false} NoneOwed(threads: seq<Thread>)
    requires forall i: nat | i < |threads| :: threads[i].pc != Issuing
    ensures Owed(threads) == 0
  {
    if threads != [] { NoneOwed(threads[..|threads| - 1]); }
  }

  // ---- how many codes a stretch of time is good for ----

  function Within(accepted: seq<Accepted>, from: int, to: int): (r: seq<Accepted>)
    ensures |r| <= |accepted|
  {
    if accepted == [] then [] else
      var last := accepted[|accepted| - 1];
      Within(accepted[..|accepted| - 1], from, to) + if from <= last.clock <= to then [last] else []
  }

  function Positive(n: int): nat {
    if n < 0 then 0 else n
  }

  lemma QuotientMonotone(a: int, b: int)
    requires a <= b
    ensures Quotient(a) <= Quotient(b)
  {
  }

  lemma {:induction false} WithinBound(accepted: seq<Accepted>, from: int, to: int)
    requires from <= to
    requires forall i: nat, j: nat | i < j < |accepted| :: accepted[i].step < accepted[j].step
    requires forall k: nat | k < |accepted| :: Near(accepted[k].step, accepted[k].clock)
    ensures |Within(accepted, from, to)| <= Quotient(to) - Quotient(from) + 3
    ensures accepted != [] ==>
        |Within(accepted, from, to)| <= Positive(accepted[|accepted| - 1].step - Quotient(from) + 2)
  {
    QuotientMonotone(from, to);
    if accepted != [] {
      var n := |accepted| - 1;
      var last := accepted[n];
      WithinBound(accepted[..n], from, to);
      if from <= last.clock <= to {
        QuotientMonotone(from, last.clock);
        QuotientMonotone(last.clock, to);
      }
      hide Quotient;
    }
  }

  /** With no pending secret set after setup: among the accepted codes whose clock readings lie in [from, to] there
      are at most to/30 - from/30 + 3, whatever the order of the readings. */
  lemma CodesPerStretch(env: Env, setupToken: string, actions: seq<Action>, from: int, to: int)
    requires from <= to
    requires var y := Run(env, Start(setupToken), actions); y.accepted != [] ==> y.resets == y.accepted[0].epoch
    ensures |Within(Run(env, Start(setupToken), actions).accepted, from, to)| <= Quotient(to) - Quotient(from) + 3
  {
    FromStart(env, setupToken, actions);
    EachStepOnce(env, setupToken, actions);
    hide Run, Within, Quotient;
    var y := Run(env, Start(setupToken), actions);
    forall k: nat | k < |y.accepted|
        ensures Near(y.accepted[k].step, y.accepted[k].clock) { assert Sound(env, y, y.accepted[k]); }
    WithinBound(y.accepted, from, to);
  }

  // ---- a pending secret set too late ----

  /** A generator with which "0" is the code of step 0. */
  const SAMPLE: Env := Env((secret, step) => Some(if step == 0 then "0" else "1"), typed => typed, typed => typed)

  const SETUP: seq<Action> := [Arrive(Begin("token", "a")), Step(0, 0), Step(0, 0), Step(0, 0)]
  const STALLED: seq<Action> := [Arrive(Begin("token", "b")), Step(1, 0), Step(1, 0)]
  const FINISH: seq<Action> :=
    [Arrive(Complete("token", "0", {})), Step(2, 0), Step(2, 0), Step(2, 0), Step(2, 0), Step(2, 0)]
  const REUSE: seq<Action> := [Step(1, 0), Arrive(Login("0")), Step(3, 0), Step(3, 0), Step(3, 0), Step(3, 0)]

  lemma {:induction false} RunSplit(env: Env, y: Sys, a: seq<Action>, b: seq<Action>)
    ensures Run(env, y, a + b) == Run(env, Run(env, y, a), b)
    decreases |a|
  {
    if a == [] {
      assert a + b == b;
    } else {
      assert (a + b)[1..] == a[1..] + b;
      RunSplit(env, Next(env, y, a[0]), a[1..], b);
    }
  }

  lemma RunOfThree(env: Env, y: Sys, actions: seq<Action>)
    requires |actions| >= 3
    ensures Run(env, y, actions) ==
        Run(env, Next(env, Next(env, Next(env, y, actions[0]), actions[1]), actions[2]), actions[3..])
  {
    hide Next;
    var y1 := Next(env, y, actions[0]);
    var y2 := Next(env, y1, actions[1]);
    assert Run(env, y, actions) == Run(env, y1, actions[1..]);
    assert actions[1..][1..] == actions[2..] && actions[2..][1..] == actions[3..];
    assert Run(env, y1, actions[1..]) == Run(env, y2, actions[2..]);
    assert Run(env, y2, actions[2..]) == Run(env, Next(env, y2, actions[2]), actions[3..]);
  }

  function Stalled(): Sys {
    Sys(Keys(None, Some("a"), Absent, false, {}), "token",
        [Thread(Begin("token", "a"), Done), Thread(Begin("token", "b"), Pend)], [], [], {}, 0, 1)
  }

  function Finished(): Sys {
    Sys(Keys(Some("a"), None, Stored(0), true, {}), "token",
        [Thread(Begin("token", "a"), Done), Thread(Begin("token", "b"), Pend),
            Thread(Complete("token", "0", {}), Clearing)],
        [Accepted(0, 0, "0", 1)], [], {}, 1, 1)
  }

  lemma Stalls()
    ensures Run(SAMPLE, Start("token"), SETUP + STALLED) == Stalled()
  {
    var y0 := Start("token");
    var y3 := y0.(threads := [Thread(Begin("token", "a"), Pend)]);
    assert Run(SAMPLE, y0, SETUP) == Run(SAMPLE, y3, [Step(0, 0)]) by {
      RunOfThree(SAMPLE, y0, SETUP);
      assert SETUP[3..] == [Step(0, 0)];
    }
    var y4 := y0.(keys := Pended(BLANK, "a"), resets := 1, threads := [Thread(Begin("token", "a"), Done)]);
    assert Next(SAMPLE, y3, Step(0, 0)) == y4;
    assert Run(SAMPLE, y3, [Step(0, 0)]) == Run(SAMPLE, y4, []);
    RunOfThree(SAMPLE, y4, STALLED);
    assert Next(SAMPLE, Next(SAMPLE, Next(SAMPLE, y4, STALLED[0]), STALLED[1]), STALLED[2]) == Stalled();
    assert STALLED[3..] == [];
    RunSplit(SAMPLE, y0, SETUP, STALLED);
  }

  lemma Finishes()
    ensures Run(SAMPLE, Stalled(), FINISH) == Finished()
  {
    var y0, c := Stalled(), Complete("token", "0", {});
    var y3 := y0.(threads := y0.threads + [Thread(c, ReadSecret)]);
    assert Next(SAMPLE, Next(SAMPLE, Next(SAMPLE, y0, FINISH[0]), FINISH[1]), FINISH[2]) == y3;
    RunOfThree(SAMPLE, y0, FINISH);
    var rest := FINISH[3..];
    var y4 := y0.(threads := y0.threads + [Thread(c, Matching("a"))]);
    var y5 := y0.(threads := y0.threads + [Thread(c, Committing("a", 0, 0))]);
    assert Match(SAMPLE, "a", "0", 0) == Some(0);
    assert Next(SAMPLE, y3, rest[0]) == y4;
    assert Next(SAMPLE, y4, rest[1]) == y5;
    var y6 := Next(SAMPLE, y5, rest[2]);
    assert y6 == Finished();
    RunOfThree(SAMPLE, y3, rest);
    assert rest[3..] == [];
  }

  lemma Reuses()
    ensures
      var y := Run(SAMPLE, Finished(), REUSE);
      && y.accepted == [Accepted(0, 0, "0", 1), Accepted(0, 0, "0", 2)] && y.sessions == 2
  {
    var y0, l := Finished(), Login("0");
    var y2 := y0.(keys := Pended(y0.keys, "b"), resets := 2,
                  threads := [y0.threads[0], Thread(Begin("token", "b"), Done), y0.threads[2], Thread(l, ReadSecret)]);
    assert Next(SAMPLE, Next(SAMPLE, y0, REUSE[0]), REUSE[1]) == y2;
    var y3 := y2.(threads := y2.threads[3 := Thread(l, Matching("a"))]);
    assert Next(SAMPLE, y2, REUSE[2]) == y3;
    RunOfThree(SAMPLE, y0, REUSE);
    var rest := REUSE[3..];
    assert Match(SAMPLE, "a", "0", 0) == Some(0);
    var y4 := y2.(threads := y2.threads[3 := Thread(l, Consuming(0, 0))]);
    assert Next(SAMPLE, y3, rest[0]) == y4;
    var y5 := Next(SAMPLE, y4, rest[1]);
    assert y5.accepted == [Accepted(0, 0, "0", 1), Accepted(0, 0, "0", 2)];
    RunOfThree(SAMPLE, y3, rest);
    assert rest[3..] == [];
  }

  /** Two overlapping setup requests: the pending secret set by the slower one lets the setup code open a second
      session. */
  lemma LatePendingReplays()
    ensures
      var y := Run(SAMPLE, Start("token"), SETUP + STALLED + FINISH + REUSE);
      && y.accepted == [Accepted(0, 0, "0", 1), Accepted(0, 0, "0", 2)] && y.sessions == 2
  {
    Stalls();
    Finishes();
    RunSplit(SAMPLE, Start("token"), SETUP + STALLED, FINISH);
    RunSplit(SAMPLE, Start("token"), SETUP + STALLED + FINISH, REUSE);
    Reuses();
    hide Next;
  }
}
