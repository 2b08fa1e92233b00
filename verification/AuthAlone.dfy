/** What one request does when nothing comes in between, from every state that interleaved requests can leave behind. */
module AuthAlone {
  import opened Prelude
  import opened Auth
  import opened AuthRuns

  const STEPS: nat := 6

  function Repeat(a: Action, k: nat): seq<Action> {
    if k == 0 then [] else [a] + Repeat(a, k - 1)
  }

  /** The request arrives as number `i` and is carried through, with one clock. */
  function Alone(call: Call, i: nat, clock: int): seq<Action> {
    [Arrive(call)] + Repeat(Step(i, clock), STEPS)
  }

  /** The steps of one request, apart from the table of requests. */
  function Walk(env: Env, y: Sys, t: Thread, clock: int, k: nat): (Sys, PC)
    decreases k
  {
    if k == 0 then (y, t.pc)
    else
      var (y', pc) := StepOf(env, y, t, clock);
      Walk(env, y', t.(pc := pc), clock, k - 1)
  }

  lemma {:induction false} StepKeepsThreads(env: Env, y: Sys, t: Thread, clock: int, threads: seq<Thread>)
    ensures
      var (y', pc) := StepOf(env, y, t, clock);
      StepOf(env, y.(threads := threads), t, clock) == (y'.(threads := threads), pc)
  {
    hide Match;
  }

  lemma {:induction false} WalkRuns(env: Env, y: Sys, i: nat, clock: int, k: nat)
    requires i < |y.threads|
    ensures
      var (y', pc) := Walk(env, y, y.threads[i], clock, k);
      Run(env, y, Repeat(Step(i, clock), k)) == y'.(threads := y.threads[i := y.threads[i].(pc := pc)])
    decreases k
  {
    var t := y.threads[i];
    if k == 0 {
      assert y.threads[i := t] == y.threads;
      WalkKeepsThreads(env, y, t, clock, 0, y.threads);
    } else {
      var (z, pc) := StepOf(env, y, t, clock);
      var y1 := Next(env, y, Step(i, clock));
      assert y1 == z.(threads := y.threads[i := t.(pc := pc)]);
      assert Repeat(Step(i, clock), k)[1..] == Repeat(Step(i, clock), k - 1);
      hide StepOf, Next;
      WalkRuns(env, y1, i, clock, k - 1);
      WalkKeepsThreads(env, z, t.(pc := pc), clock, k - 1, y1.threads);
      var end := Walk(env, z, t.(pc := pc), clock, k - 1).1;
      assert y1.threads[i := y1.threads[i].(pc := end)] == y.threads[i := t.(pc := end)];
    }
  }

  lemma {:induction false} WalkKeepsThreads(env: Env, y: Sys, t: Thread, clock: int, k: nat, threads: seq<Thread>)
    ensures
      var (y', pc) := Walk(env, y, t, clock, k);
      Walk(env, y.(threads := threads), t, clock, k) == (y'.(threads := threads), pc)
    decreases k
  {
    if k > 0 {
      StepKeepsThreads(env, y, t, clock, threads);
      var (y', pc) := StepOf(env, y, t, clock);
      hide StepOf;
      WalkKeepsThreads(env, y', t.(pc := pc), clock, k - 1, threads);
    }
  }

  lemma {:induction false} AloneWalks(env: Env, y: Sys, call: Call, clock: int)
    ensures
      var (y', pc) := Walk(env, y, Thread(call, First(call)), clock, STEPS);
      Run(env, y, Alone(call, |y.threads|, clock)) == y'.(threads := y.threads + [Thread(call, pc)])
  {
    var n, t := |y.threads|, Thread(call, First(call));
    var y1 := Next(env, y, Arrive(call));
    assert y1 == y.(threads := y.threads + [t]);
    assert Alone(call, n, clock)[1..] == Repeat(Step(n, clock), STEPS);
    hide Walk, Repeat, Next;
    WalkRuns(env, y1, n, clock, STEPS);
    WalkKeepsThreads(env, y, t, clock, STEPS, y1.threads);
    var pc := Walk(env, y, t, clock, STEPS).1;
    assert y1.threads[n := y1.threads[n].(pc := pc)] == y.threads + [Thread(call, pc)];
  }

  // ---- a login ----

  /** The step that the code stands for may still be used. */
  predicate Usable(y: Sys, step: Option<nat>) {
    y.accepted != [] && step.Some? &&
    var last := y.accepted[|y.accepted| - 1];
    step.value > last.step || last.epoch < y.resets
  }

  predicate Unspent(y: Sys, digest: string) {
    digest in y.issued && digest !in y.recovered
  }

  /** From every reachable state: a login opens exactly one session if its code stands for a usable step of the secret
      in force or is an unspent recovery code, in that order of preference, and spends just that; otherwise it changes
      nothing. */
  lemma {:induction false} LoginAlone(env: Env, setupToken: string, actions: seq<Action>, code: string, clock: int)
    ensures
      var y := Run(env, Start(setupToken), actions);
      var y' := Run(env, y, Alone(Login(code), |y.threads|, clock));
      var step := if y.keys.secret.None? then None else Match(env, y.keys.secret.value, code, clock);
      var byStep, byCode := Usable(y, step), y.keys.secret.Some? && Unspent(y, env.digest(code));
      && y'.sessions == y.sessions + (if byStep || byCode then 1 else 0)
      && y'.accepted == y.accepted + (if byStep then [Accepted(step.value, clock, code, y.resets)] else [])
      && y'.recovered == y.recovered + (if !byStep && byCode then [env.digest(code)] else [])
      && y'.issued == y.issued && y'.setupToken == y.setupToken && y'.resets == y.resets
      && y'.keys.secret == y.keys.secret && y'.keys.pending == y.keys.pending && y'.keys.ready == y.keys.ready
      && y'.threads == y.threads + [Thread(Login(code), Done)]
  {
    var y := Run(env, Start(setupToken), actions);
    FromStart(env, setupToken, actions);
    AloneWalks(env, y, Login(code), clock);
    hide Run, Alone, Rising, Held, Owed;
    if y.accepted != [] { assert Sound(env, y, y.accepted[|y.accepted| - 1]); }
    hide Sound;
    LoginWalks(env, y, code, clock);
    hide Walk;
  }

  lemma {:induction false} LoginWalks(env: Env, y: Sys, code: string, clock: int)
    requires Remembered(y) && Spent(y)
    requires y.accepted != [] ==> y.accepted[|y.accepted| - 1].epoch <= y.resets
    ensures
      var (y', pc) := Walk(env, y, Thread(Login(code), ReadSecret), clock, STEPS);
      var step := if y.keys.secret.None? then None else Match(env, y.keys.secret.value, code, clock);
      var byStep, byCode := Usable(y, step), y.keys.secret.Some? && Unspent(y, env.digest(code));
      && y'.sessions == y.sessions + (if byStep || byCode then 1 else 0)
      && y'.accepted == y.accepted + (if byStep then [Accepted(step.value, clock, code, y.resets)] else [])
      && y'.recovered == y.recovered + (if !byStep && byCode then [env.digest(code)] else [])
      && y'.issued == y.issued && y'.setupToken == y.setupToken && y'.resets == y.resets
      && y'.keys.secret == y.keys.secret && y'.keys.pending == y.keys.pending && y'.keys.ready == y.keys.ready
      && pc == Done
  {
    var l := Login(code);
    hide Match;
    if y.keys.secret.Some? {
      var m := Match(env, y.keys.secret.value, code, clock);
      if m.Some? && Usable(y, m) {
        var y3 := y.(keys := Consumed(y.keys, m.value),
                     accepted := y.accepted + [Accepted(m.value, clock, code, y.resets)]);
        assert Walk(env, y, Thread(l, ReadSecret), clock, 6) == Walk(env, y3, Thread(l, Issuing), clock, 3);
      } else {
        assert Walk(env, y, Thread(l, ReadSecret), clock, 6)
            == Walk(env, y, Thread(l, Recovering), clock, if m.Some? then 3 else 4);
      }
    }
  }

  // ---- the two setup requests ----

  /** From every reachable state: a request to begin setup with the token, before setup is complete, makes its
      secret the pending one and forgets the consumed step; any other changes nothing. */
  lemma {:induction false} BeginAlone(env: Env, setupToken: string, actions: seq<Action>, token: string,
      secret: string, clock: int)
    ensures
      var y, call := Run(env, Start(setupToken), actions), Begin(token, secret);
      var y' := Run(env, y, Alone(call, |y.threads|, clock));
      var ok := y.accepted == [] && y.setupToken != "" && token == y.setupToken;
      && y'.threads == y.threads + [Thread(call, Done)]
      && (!ok ==> y' == y.(threads := y'.threads))
      && (ok ==> y' == y.(threads := y'.threads, keys := y'.keys, resets := y.resets + 1))
      && (ok ==> y'.keys == y.keys.(pending := Some(secret), step := Absent))
  {
    var y := Run(env, Start(setupToken), actions);
    FromStart(env, setupToken, actions);
    AloneWalks(env, y, Begin(token, secret), clock);
    hide Run, Alone, Rising, Held, Owed, Spent;
  }

  /** From every reachable state: a request to complete setup succeeds if and only if setup is not complete, the
      token is right, and the code stands for a step of the pending secret. Then that secret is in force, the step
      is spent, the recovery codes are issued, one session is opened, and the token is void; otherwise nothing
      changes. */
  lemma {:induction false} CompleteAlone(env: Env, setupToken: string, actions: seq<Action>, token: string,
      code: string, hashes: set<string>, clock: int)
    ensures
      var y, call := Run(env, Start(setupToken), actions), Complete(token, code, hashes);
      var y' := Run(env, y, Alone(call, |y.threads|, clock));
      var step := if y.keys.pending.None? then None else Match(env, y.keys.pending.value, code, clock);
      var ok := y.accepted == [] && y.setupToken != "" && token == y.setupToken && step.Some?;
      && y'.threads == y.threads + [Thread(call, Done)]
      && (!ok ==> y' == y.(threads := y'.threads))
      && (ok ==> y'.keys == Keys(y.keys.pending, None, Stored(step.value), true, hashes))
      && (ok ==> y'.accepted == [Accepted(step.value, clock, code, y.resets)] && y'.recovered == y.recovered == [])
      && (ok ==> y'.issued == hashes && y'.sessions == y.sessions + 1 && y'.setupToken == "" && y'.resets == y.resets)
  {
    var y, call := Run(env, Start(setupToken), actions), Complete(token, code, hashes);
    FromStart(env, setupToken, actions);
    AloneWalks(env, y, call, clock);
    hide Run, Alone, Rising, Held, Owed, Match;
    if y.accepted == [] && y.setupToken != "" && token == y.setupToken {
      assert Walk(env, y, Thread(call, CheckReady), clock, 6) == Walk(env, y, Thread(call, ReadSecret), clock, 4);
    }
  }
}
