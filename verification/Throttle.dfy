/** Login requests against the limiter. Each reads the clock, asks in one critical section, and if it fails reads
    the clock again and is counted in another; nothing orders the steps of different requests, so readings can be
    counted out of order. */
module Throttle {
  import opened Prelude
  import opened Limiter

  /** The steps of request `id`: it reads the clock, asks with that reading, reads the clock when it has failed, is
      counted with that reading, succeeds, or ends as malformed. */
  datatype Move =
    | ReadAsk(id: nat)
    | Enter(id: nat)
    | ReadEnd(id: nat)
    | Count(id: nat)
    | Succeed(id: nat)
    | Abort(id: nat)

  /** A step happens at a time of the clock; only the two reading steps look at it. */
  datatype Step = Step(move: Move, now: int)

  /** A request that was let in: how many failures of the streak were counted by then, and its second reading. */
  datatype Flight = Flight(seen: nat, read: Option<int>)

  /** A counted failure: its reading, and how many failures of the streak were counted when its request was let in. */
  datatype Failure = Failure(at: int, seen: nat)

  /** `failed` lists the failures since the last success in the order of counting, `asking` the requests that have
      a reading to ask with, `flight` those let in that have not ended. */
  datatype Sys = Sys(limiter: State, failed: seq<Failure>, asking: map<nat, int>, flight: map<nat, Flight>)

  const IDLE := Sys(INITIAL, [], map[], map[])

  /** One step; a step that is not enabled changes nothing. */
  function Next(y: Sys, step: Step): Sys {
    match step.move
    case ReadAsk(id) =>
      if id in y.asking || id in y.flight then y else y.(asking := y.asking[id := step.now])
    case Enter(id) =>
      if id !in y.asking || id in y.flight then y
      else if y.asking[id] < y.limiter.blockedUntil then y.(asking := y.asking - {id})
      else y.(asking := y.asking - {id}, flight := y.flight[id := Flight(|y.failed|, None)])
    case ReadEnd(id) =>
      if id in y.flight && y.flight[id].read.None?
      then y.(flight := y.flight[id := Flight(y.flight[id].seen, Some(step.now))]) else y
    case Count(id) =>
      if id in y.flight && y.flight[id].read.Some? then
        var at := y.flight[id].read.value;
        Sys(Fail(y.limiter, at), y.failed + [Failure(at, y.flight[id].seen)], y.asking, y.flight - {id})
      else y
    case Succeed(id) =>
      if id in y.flight && y.flight[id].read.None? then
        var rest := y.flight - {id};
        Sys(INITIAL, [], y.asking, map i | i in rest :: Flight(0, rest[i].read))
      else y
    case Abort(id) =>
      if id in y.flight && y.flight[id].read.None? then y.(flight := y.flight - {id}) else y
  }

  function Run(steps: seq<Step>): Sys {
    if steps == [] then IDLE else Next(Run(steps[..|steps| - 1]), steps[|steps| - 1])
  }

  /** The clock never goes back. */
  ghost predicate Clocked(steps: seq<Step>) {
    && (forall i: nat | i < |steps| :: NEVER <= steps[i].now)
    && (forall i: nat, j: nat | i <= j < |steps| :: steps[i].now <= steps[j].now)
  }

  function Counts(steps: seq<Step>): nat {
    if steps == [] then 0 else Counts(steps[..|steps| - 1]) + if steps[|steps| - 1].move.Count? then 1 else 0
  }

  /** Never more than `m` requests that were let in and have not ended. */
  ghost predicate AtMost(steps: seq<Step>, m: nat) {
    forall n: nat | n <= |steps| :: |Run(steps[..n]).flight| <= m
  }

  /** No failure is counted after one whose reading is more than `d` later. */
  ghost predicate Inverted(failed: seq<Failure>, d: int) {
    forall i: nat, j: nat | i <= j < |failed| :: failed[i].at - failed[j].at <= d
  }

  /** Failures are always counted in the order of their readings. */
  ghost predicate Sequenced(steps: seq<Step>) {
    forall n: nat | n <= |steps| :: Inverted(Run(steps[..n]).failed, 0)
  }

  /** No int64 product can wrap: few enough failures are counted, or at most nine requests overlap, are counted in
      the order of their readings, and the run takes less than 2^63 ns (292 years). */
  ghost predicate Bounded(steps: seq<Step>, m: nat) {
    || Counts(steps) <= FITS + 4
    || (1 <= m <= 9 && AtMost(steps, m) && Sequenced(steps) &&
        (steps != [] ==> steps[|steps| - 1].now - steps[0].now < I63))
  }

  // ---- what every run keeps ----

  lemma CappedGrows(j: int, k: int)
    requires j <= k
    ensures Capped(j) <= Capped(k)
    ensures k >= 5 ==> Capped(k) > 0
  {
  }

  /** Readings: none lies in the future, and none is earlier than one that was counted before its request was let in. */
  ghost predicate Readable(y: Sys, now: int) {
    && (forall id | id in y.asking :: y.asking[id] <= now)
    && (forall i: nat | i < |y.failed| :: y.failed[i].at <= now && y.failed[i].seen <= i)
    && (forall id | id in y.flight :: y.flight[id].seen <= |y.failed|)
    && (forall i: nat, x: nat | i < |y.failed| && x < y.failed[i].seen :: y.failed[x].at <= y.failed[i].at)
    && (forall id, x: nat | id in y.flight && y.flight[id].read.Some? && x < y.flight[id].seen ::
          y.failed[x].at <= y.flight[id].read.value)
    && (forall id | id in y.flight && y.flight[id].read.Some? :: y.flight[id].read.value <= now)
  }

  /** Each request let in after a block has waited it out: that of the last failure counted by then. */
  ghost predicate Timely(y: Sys, now: int) {
    && (forall i: nat | i < |y.failed| && 5 <= y.failed[i].seen <= i ::
          y.failed[i].at >= y.failed[y.failed[i].seen - 1].at + Capped(y.failed[i].seen))
    && (forall id | id in y.flight && 5 <= y.flight[id].seen <= |y.failed| ::
          (if y.flight[id].read.Some? then y.flight[id].read.value else now)
          >= y.failed[y.flight[id].seen - 1].at + Capped(y.flight[id].seen))
  }

  /** The limiter holds the streak and the intended block. */
  ghost predicate Counting(y: Sys) {
    && y.limiter.failures == |y.failed| <= FITS + 4
    && y.limiter.blockedUntil == (if |y.failed| < 5 then NEVER else y.failed[|y.failed| - 1].at + Capped(|y.failed|))
  }

  lemma {:induction false} ReadAskReadable(y: Sys, now: int, id: nat, at: int)
    requires Readable(y, now) && now <= at
    ensures Readable(Next(y, Step(ReadAsk(id), at)), at)
  {
  }

  lemma {:induction false} EnterReadable(y: Sys, now: int, id: nat, at: int)
    requires Readable(y, now) && now <= at
    ensures Readable(Next(y, Step(Enter(id), at)), at)
  {
  }

  lemma {:induction false} ReadEndReadable(y: Sys, now: int, id: nat, at: int)
    requires Readable(y, now) && now <= at
    ensures Readable(Next(y, Step(ReadEnd(id), at)), at)
  {
  }

  lemma {:induction false} CountReadable(y: Sys, now: int, id: nat, at: int)
    requires Readable(y, now) && now <= at
    ensures Readable(Next(y, Step(Count(id), at)), at)
  {
    hide Fail;
  }

  lemma {:induction false} SucceedReadable(y: Sys, now: int, id: nat, at: int)
    requires Readable(y, now) && now <= at
    ensures Readable(Next(y, Step(Succeed(id), at)), at)
  {
  }

  lemma {:induction false} AbortReadable(y: Sys, now: int, id: nat, at: int)
    requires Readable(y, now) && now <= at
    ensures Readable(Next(y, Step(Abort(id), at)), at)
  {
  }

  lemma {:induction false} NextReadable(y: Sys, now: int, step: Step)
    requires Readable(y, now) && now <= step.now
    ensures Readable(Next(y, step), step.now)
  {
    hide Readable, Next;
    match step.move {
      case ReadAsk(id) => ReadAskReadable(y, now, id, step.now);
      case Enter(id) => EnterReadable(y, now, id, step.now);
      case ReadEnd(id) => ReadEndReadable(y, now, id, step.now);
      case Count(id) => CountReadable(y, now, id, step.now);
      case Succeed(id) => SucceedReadable(y, now, id, step.now);
      case Abort(id) => AbortReadable(y, now, id, step.now);
    }
  }

  lemma {:induction false} EnterTimely(y: Sys, now: int, id: nat, at: int)
    requires Readable(y, now) && Timely(y, now) && Counting(y) && now <= at
    ensures Timely(Next(y, Step(Enter(id), at)), at)
  {
    hide Capped;
    var y' := Next(y, Step(Enter(id), at));
    if id in y.asking && id !in y.flight && y.asking[id] >= y.limiter.blockedUntil {
      assert y.asking[id] <= now;
      assert y'.failed == y.failed && y'.flight == y.flight[id := Flight(|y.failed|, None)];
      hide Next, Readable;
    } else {
      assert y'.failed == y.failed && y'.flight == y.flight;
      hide Next, Readable, Counting;
    }
  }

  lemma {:induction false} CountTimely(y: Sys, now: int, id: nat, at: int)
    requires Readable(y, now) && Timely(y, now) && now <= at
    ensures Timely(Next(y, Step(Count(id), at)), at)
  {
    hide Capped, Fail;
    if id in y.flight { assert y.flight[id].seen <= |y.failed|; }
    hide Readable;
  }

  lemma {:induction false} OtherTimely(y: Sys, now: int, step: Step)
    requires Timely(y, now) && now <= step.now && !step.move.Enter? && !step.move.Count?
    ensures Timely(Next(y, step), step.now)
  {
    hide Capped;
  }

  lemma {:induction false} NextTimely(y: Sys, now: int, step: Step)
    requires Readable(y, now) && Timely(y, now) && Counting(y) && now <= step.now
    ensures Timely(Next(y, step), step.now)
  {
    hide *;
    match step.move {
      case Enter(id) => EnterTimely(y, now, id, step.now);
      case Count(id) => CountTimely(y, now, id, step.now);
      case _ => OtherTimely(y, now, step);
    }
  }

  // ---- how many later failures can have missed one ----

  function StaleFlight(y: Sys, k: nat): set<nat> {
    set id | id in y.flight && y.flight[id].seen < k
  }

  function StaleFailed(y: Sys, k: nat): set<nat> {
    set i: nat | k <= i < |y.failed| && y.failed[i].seen < k
  }


  /** When failure k is counted fewer than m other requests are under way, so fewer than m later failures can have
      missed it. */
  ghost predicate FewStale(y: Sys, m: nat) {
    forall k: nat | 1 <= k <= |y.failed| :: |StaleFlight(y, k)| + |StaleFailed(y, k)| < m
  }


  lemma FlightLeaves(y: Sys, y': Sys, id: nat, k: nat)
    requires id in y.flight && y'.flight == y.flight - {id}
    ensures |StaleFlight(y', k)| == |StaleFlight(y, k)| - if y.flight[id].seen < k then 1 else 0
  {
    assert StaleFlight(y', k) == StaleFlight(y, k) - {id};
  }


  lemma FailureJoins(y: Sys, y': Sys, seen: nat, at: int, k: nat)
    requires k <= |y.failed| && (y'.failed == y.failed || y'.failed == y.failed + [Failure(at, seen)])
    ensures |StaleFailed(y', k)| <= |StaleFailed(y, k)| + if seen < k then 1 else 0
  {
    var n, before, after := |y.failed|, StaleFailed(y, k), StaleFailed(y', k);
    assert after <= before + (if seen < k then {n} else {});
    hide StaleFailed;
    SubsetSmaller(after, before + (if seen < k then {n} else {}));
  }

  /** A request that leaves takes its staleness with it into the list of failures, or out of the count. */
  lemma StaleLeaves(y: Sys, y': Sys, id: nat, at: int, k: nat)
    requires id in y.flight && y'.flight == y.flight - {id} && 1 <= k <= |y.failed|
    requires y'.failed == y.failed || y'.failed == y.failed + [Failure(at, y.flight[id].seen)]
    ensures |StaleFlight(y', k)| + |StaleFailed(y', k)| <= |StaleFlight(y, k)| + |StaleFailed(y, k)|
  {
    FlightLeaves(y, y', id, k);
    FailureJoins(y, y', y.flight[id].seen, at, k);
    hide StaleFlight, StaleFailed;
  }

  /** Letting a request in, or its second reading, makes none stale. */
  lemma StaleStays(y: Sys, y': Sys, k: nat)
    requires y'.failed == y.failed && k <= |y.failed|
    requires forall id :: (id in y'.flight && y'.flight[id].seen < k) <==> (id in y.flight && y.flight[id].seen < k)
    ensures StaleFlight(y', k) == StaleFlight(y, k) && StaleFailed(y', k) == StaleFailed(y, k)
  {
    assert StaleFailed(y', k) == StaleFailed(y, k);
  }

  lemma {:induction false} LeaveFewStale(y: Sys, y': Sys, id: nat, at: int, m: nat)
    requires FewStale(y, m) && |y.flight| <= m && id in y.flight && y'.flight == y.flight - {id}
    requires y'.failed == y.failed || y'.failed == y.failed + [Failure(at, y.flight[id].seen)]
    ensures FewStale(y', m)
  {
    hide StaleFlight, StaleFailed;
    forall k: nat | 1 <= k <= |y'.failed| ensures |StaleFlight(y', k)| + |StaleFailed(y', k)| < m {
      if k <= |y.failed| { StaleLeaves(y, y', id, at, k); } else { CountsFresh(y, y', id, k, m); }
    }
  }

  lemma {:induction false} StayFewStale(y: Sys, y': Sys, m: nat)
    requires FewStale(y, m) && y'.failed == y.failed
    requires forall id :: id in y.flight ==> id in y'.flight && y'.flight[id].seen == y.flight[id].seen
    requires forall id | id in y'.flight && id !in y.flight :: y'.flight[id].seen == |y.failed|
    ensures FewStale(y', m)
  {
    hide StaleFlight, StaleFailed;
    forall k: nat | 1 <= k <= |y'.failed| ensures |StaleFlight(y', k)| + |StaleFailed(y', k)| < m {
      StaleStays(y, y', k);
    }
  }

  lemma {:induction false} NextFewStale(y: Sys, step: Step, m: nat)
    requires FewStale(y, m) && |y.flight| <= m
    ensures FewStale(Next(y, step), m)
  {
    hide Fail;
    var id, y' := step.move.id, Next(y, step);
    if y' != y {
      match step.move {
        case Count(_) => hide FewStale; LeaveFewStale(y, y', id, y.flight[id].read.value, m);
        case Abort(_) => hide FewStale; LeaveFewStale(y, y', id, 0, m);
        case Succeed(_) =>
        case _ => hide FewStale; StayFewStale(y, y', m);
      }
    }
  }

  /** Nobody has missed the failure that is counted now but the requests still under way. */
  lemma CountsFresh(y: Sys, y': Sys, id: nat, k: nat, m: nat)
    requires id in y.flight && |y.flight| <= m && y'.flight == y.flight - {id} && k == |y'.failed|
    ensures |StaleFlight(y', k)| + |StaleFailed(y', k)| < m
  {
    assert StaleFailed(y', k) == {};
    SubsetSmaller(StaleFlight(y', k), y.flight.Keys - {id});
    assert |y.flight.Keys - {id}| == |y.flight.Keys| - 1 == |y.flight| - 1;
  }


  lemma {:induction false} SubsetSmaller(a: set<nat>, b: set<nat>)
    requires a <= b
    ensures |a| <= |b|
  {
    if x :| x in a {
      SubsetSmaller(a - {x}, b - {x});
    }
  }


  lemma {:induction false} RangeSize(a: set<nat>, lo: nat, n: nat)
    requires forall i: nat | lo <= i < lo + n :: i in a
    ensures |a| >= n
    decreases n
  {
    if n > 0 {
      RangeSize(a - {lo + n - 1}, lo, n - 1);
    }
  }


  lemma {:induction false} RunFewStale(steps: seq<Step>, m: nat)
    requires m >= 1 && Clocked(steps) && AtMost(steps, m)
    ensures FewStale(Run(steps), m)
  {
    if steps == [] {
      NoneStale(m);
    } else {
      var n := |steps| - 1;
      Front(steps, m);
      RunFewStale(steps[..n], m);
      RunReadable(steps[..n]);
      hide Next, FewStale;
      NextFewStale(Run(steps[..n]), steps[n], m);
    }
  }

  lemma NoneStale(m: nat)
    requires m >= 1
    ensures FewStale(IDLE, m)
  {
  }

  /** The time of the last step. */
  function Now(steps: seq<Step>): int {
    if steps == [] then NEVER else steps[|steps| - 1].now
  }


  lemma Front(steps: seq<Step>, m: nat)
    requires steps != []
    ensures
      var front := steps[..|steps| - 1];
      && (Clocked(steps) ==> Clocked(front) && Now(front) <= Now(steps) && (front != [] ==> front[0] == steps[0]))
      && (AtMost(steps, m) ==> AtMost(front, m) && |Run(front).flight| <= m)
      && (Sequenced(steps) ==> Sequenced(front))
      && (Clocked(steps) && Bounded(steps, m) ==> Bounded(front, m))
  {
    hide Run, Inverted;
    var front := steps[..|steps| - 1];
    assert forall n: nat | n <= |front| :: front[..n] == steps[..n];
    assert front == front[..|front|];
  }

  lemma {:induction false} RunReadable(steps: seq<Step>)
    requires Clocked(steps)
    ensures Readable(Run(steps), Now(steps))
  {
    if steps != [] {
      var n := |steps| - 1;
      Front(steps, 0);
      RunReadable(steps[..n]);
      hide Readable, Next;
      NextReadable(Run(steps[..n]), Now(steps[..n]), steps[n]);
    }
  }

  /** Requests that take turns are counted in the order of their readings. */
  lemma {:induction false} TurnsInOrder(steps: seq<Step>)
    requires Clocked(steps) && AtMost(steps, 1)
    ensures Sequenced(steps)
  {
    forall n: nat | n <= |steps| ensures Inverted(Run(steps[..n]).failed, 0) {
      var front := steps[..n];
      assert Clocked(front);
      assert AtMost(front, 1) by { assert forall k: nat | k <= n :: front[..k] == steps[..k]; }
      RunReadable(front);
      RunFewStale(front, 1);
      hide Run;
      NoneMissed(Run(front), Now(front));
    }
  }

  lemma NoneMissed(y: Sys, now: int)
    requires Readable(y, now) && FewStale(y, 1)
    ensures Inverted(y.failed, 0)
  {
    forall i: nat, j: nat | i <= j < |y.failed| ensures y.failed[i].at <= y.failed[j].at {
      if i < j {
        assert |StaleFlight(y, j)| + |StaleFailed(y, j)| < 1;
        if y.failed[j].seen < j { RangeSize(StaleFailed(y, j), j, 1); }
      }
    }
  }

  // ---- spacing ----

  /** The latest reading among the first `n` counted failures. */
  function Peak(failed: seq<Failure>, n: nat): int
    requires 1 <= n <= |failed|
    decreases n
  {
    if n == 1 || failed[n - 1].at > Peak(failed, n - 1) then failed[n - 1].at else Peak(failed, n - 1)
  }

  lemma {:induction false} PeakIs(failed: seq<Failure>, n: nat, d: int)
    requires 1 <= n <= |failed|
    ensures forall i: nat | i < n :: failed[i].at <= Peak(failed, n)
    ensures Inverted(failed, d) ==> forall j: nat | n - 1 <= j < |failed| :: failed[j].at >= Peak(failed, n) - d
    ensures Inverted(failed, 0) ==> Peak(failed, n) == failed[n - 1].at
    decreases n
  {
    if n > 1 { PeakIs(failed, n - 1, d); }
  }

  /** Counted in order but for `d`: m failures after the k-th, its block has been waited out but for `d`. */
  ghost predicate Spaced(failed: seq<Failure>, m: nat, d: int) {
    forall k: nat | 5 <= k <= |failed| - m :: Peak(failed, k + m) - Peak(failed, k) >= Capped(k) - d
  }

  lemma {:induction false} LaterSpaced(y: Sys, now: int, k: nat, i: nat, d: int)
    requires Readable(y, now) && Timely(y, now) && Inverted(y.failed, d)
    requires i < |y.failed| && 5 <= k <= y.failed[i].seen
    ensures k <= i && y.failed[i].at >= Peak(y.failed, k) + Capped(k) - d
  {
    var seen := y.failed[i].seen;
    PeakIs(y.failed, k, d);
    CappedGrows(k, seen);
    hide Capped, Peak;
    assert y.failed[i].at >= y.failed[seen - 1].at + Capped(seen);
  }

  /** Of m failures in a row after the k-th, one was let in after it was counted. */
  lemma {:induction false} FewStaleSpaced(y: Sys, now: int, m: nat, d: int)
    requires Readable(y, now) && Timely(y, now) && Inverted(y.failed, d) && FewStale(y, m) && m >= 1
    ensures Spaced(y.failed, m, d)
  {
    hide Capped, Peak, Readable, Timely;
    forall k: nat | 5 <= k <= |y.failed| - m ensures Peak(y.failed, k + m) - Peak(y.failed, k) >= Capped(k) - d {
      if forall i: nat | k <= i < k + m :: y.failed[i].seen < k {
        RangeSize(StaleFailed(y, k), k, m);
      } else {
        var i: nat :| k <= i < k + m && y.failed[i].seen >= k;
        LaterSpaced(y, now, k, i, d);
        PeakIs(y.failed, k + m, d);
      }
    }
  }

  /** The blocks that lie between the fifth failure and the n-th when every m-th waits, each short of `d`. */
  function Wait(n: int, m: nat, d: int): int
    requires m >= 1
    decreases n
  {
    if n < 5 + m then 0 else Wait(n - m, m, d) + Capped(n - m) - d
  }

  /** The n-th failure comes at least those blocks after the fifth. */
  ghost predicate Waited(failed: seq<Failure>, m: nat, d: int)
    requires m >= 1
  {
    forall n: nat | 5 <= n <= |failed| :: Peak(failed, n) - Peak(failed, 5) >= Wait(n, m, d)
  }

  lemma {:induction false} SpacedWaits(failed: seq<Failure>, m: nat, d: int, n: nat)
    requires m >= 1 && Spaced(failed, m, d) && 5 <= n <= |failed|
    ensures Peak(failed, n) - Peak(failed, 5) >= Wait(n, m, d)
    decreases n
  {
    hide Capped;
    if n >= 5 + m {
      SpacedWaits(failed, m, d, n - m);
      var k: nat := n - m;
      assert Peak(failed, k + m) - Peak(failed, k) >= Capped(k) - d;
    } else {
      PeakGrows(failed, 5, n);
    }
  }

  lemma {:induction false} PeakGrows(failed: seq<Failure>, k: nat, n: nat)
    requires 1 <= k <= n <= |failed|
    ensures Peak(failed, k) <= Peak(failed, n)
    decreases n
  {
    if k < n { PeakGrows(failed, k, n - 1); }
  }

  lemma {:induction false} WaitGrows(n: int, m: nat)
    requires m >= 1
    ensures Wait(n, m, 0) >= 0 && m * Wait(n, m, 0) >= CAP * (n - 14 - m)
    decreases n
  {
    if n >= 5 + m {
      WaitGrows(n - m, m);
      assert Capped(n - m) >= 0 && (n >= 14 + m ==> Capped(n - m) == CAP);
      OneMoreWait(n, m, Wait(n - m, m, 0), Capped(n - m));
    }
  }


  lemma OneMoreWait(n: int, m: nat, w: int, c: int)
    requires m >= 1 && w >= 0 && c >= 0 && m * w >= CAP * (n - m - 14 - m) && (n >= 14 + m ==> c == CAP)
    ensures m * (w + c) >= CAP * (n - 14 - m)
  {
    if n >= 14 + m {
      Distributes(m, w, CAP);
      Distributes(CAP, n - m - 14 - m, m);
    } else {
      assert m * (w + c) >= 0;
    }
  }


  lemma Distributes(m: int, a: int, b: int)
    ensures m * (a + b) == m * a + m * b
  {
  }


  /** More failures than that, counted in order, need more than 2^63 ns. */
  lemma {:induction false} SpacedFits(failed: seq<Failure>, m: nat)
    requires 1 <= m <= 9 && Spaced(failed, m, 0)
    requires |failed| >= 5 ==> Peak(failed, |failed|) - Peak(failed, 5) < I63
    ensures |failed| <= FITS + 4
  {
    hide Capped, Wait, Spaced, Peak;
    var n := |failed|;
    if n >= 5 {
      SpacedWaits(failed, m, 0, n);
      WaitGrows(n, m);
      assert m * Wait(n, m, 0) <= 9 * Wait(n, m, 0);
    }
  }

  // ---- whole runs ----

  lemma NextCounts(y: Sys, step: Step)
    ensures |Next(y, step).failed| <= |y.failed| + if step.move.Count? then 1 else 0
  {
    hide Fail;
  }

  lemma {:induction false} FailedBound(steps: seq<Step>)
    ensures |Run(steps).failed| <= Counts(steps)
  {
    hide Next;
    if steps != [] {
      var n := |steps| - 1;
      FailedBound(steps[..n]);
      NextCounts(Run(steps[..n]), steps[n]);
    }
  }

  lemma NextCounting(y: Sys, step: Step)
    requires Counting(y) && |Next(y, step).failed| <= FITS + 4
    ensures Counting(Next(y, step))
  {
    if step.move.Count? && step.move.id in y.flight && y.flight[step.move.id].read.Some? {
      FailIs(y.limiter, y.flight[step.move.id].read.value);
    }
    hide Fail, Capped;
  }

  /** No second reading is earlier than `from`. */
  ghost predicate Since(y: Sys, from: int) {
    && (forall id | id in y.flight && y.flight[id].read.Some? :: from <= y.flight[id].read.value)
    && (forall i: nat | i < |y.failed| :: from <= y.failed[i].at)
  }

  lemma {:induction false} ReadSince(steps: seq<Step>, from: int)
    requires forall i: nat | i < |steps| :: from <= steps[i].now
    ensures Since(Run(steps), from)
  {
    if steps != [] {
      var n := |steps| - 1;
      ReadSince(steps[..n], from);
      hide Since, Next;
      NextSince(Run(steps[..n]), steps[n], from);
    }
  }

  lemma NextSince(y: Sys, step: Step, from: int)
    requires from <= step.now && Since(y, from)
    ensures Since(Next(y, step), from)
  {
    hide Fail;
  }

  /** What every bounded run keeps. */
  ghost predicate Kept(y: Sys, now: int) {
    Timely(y, now) && Counting(y)
  }

  lemma {:induction false} RunKept(steps: seq<Step>, m: nat)
    requires Clocked(steps) && Bounded(steps, m)
    ensures Kept(Run(steps), Now(steps)) && Readable(Run(steps), Now(steps))
  {
    if steps != [] {
      var n := |steps| - 1;
      var y, step := Run(steps[..n]), steps[n];
      Front(steps, m);
      RunKept(steps[..n], m);
      RunReadable(steps);
      hide Readable, Timely, Counting, Bounded, Next;
      NextTimely(y, Now(steps[..n]), step);
      StillFits(steps, m);
      NextCounting(y, step);
    }
  }

  /** The number of failures is within bounds, whether because few are counted or because more would take too long. */
  lemma {:induction false} StillFits(steps: seq<Step>, m: nat)
    requires Clocked(steps) && Bounded(steps, m) && steps != [] && Timely(Run(steps), Now(steps))
    ensures |Run(steps).failed| <= FITS + 4
  {
    FailedBound(steps);
    if Counts(steps) > FITS + 4 {
      RunReadable(steps);
      RunFewStale(steps, m);
      ReadSince(steps, steps[0].now);
      assert steps[..|steps|] == steps;
      var y := Run(steps);
      assert Inverted(y.failed, 0);
      hide Run, Sequenced, AtMost, Timely;
      FewStaleSpaced(y, Now(steps), m, 0);
      if |y.failed| >= 5 {
        PeakIs(y.failed, |y.failed|, 0);
        PeakIs(y.failed, 5, 0);
        assert y.failed[|y.failed| - 1].at <= Now(steps);
      }
      SpacedFits(y.failed, m);
    }
  }

  // ---- what every run promises ----

  /** For every run, whatever the other requests do: a failure whose request was let in when `seen` failures were
      counted, at least five, comes at least the block of the last of them after that one's reading; and at least
      the block of an earlier one after the earlier reading, unless that reading is later than the last one's. */
  lemma LetInIsSpaced(steps: seq<Step>, i: nat, k: nat)
    requires Clocked(steps) && Counts(steps) <= FITS + 4
    requires i < |Run(steps).failed| && 5 <= k <= Run(steps).failed[i].seen
    ensures
      var failed := Run(steps).failed;
      var seen := failed[i].seen;
      && seen <= i && failed[i].at - failed[seen - 1].at >= Capped(seen)
      && (failed[k - 1].at <= failed[seen - 1].at ==> failed[i].at - failed[k - 1].at >= Capped(k))
  {
    RunKept(steps, 0);
    hide Run, Counts;
    CappedGrows(k, Run(steps).failed[i].seen);
    hide Capped;
  }

  /** For every run with at most m requests let in at a time and inversions of at most d: m failures after the
      k-th, its block has been waited out but for d, so the n-th comes at least the sum of every m-th block after
      the fifth, each short of d; and no product wraps. */
  lemma {:induction false} OverlapBound(steps: seq<Step>, m: nat, d: int)
    requires m >= 1 && Clocked(steps) && AtMost(steps, m) && Bounded(steps, m) && Inverted(Run(steps).failed, d)
    ensures
      var failed := Run(steps).failed;
      Spaced(failed, m, d) && Waited(failed, m, d) && |failed| <= FITS + 4
  {
    RunKept(steps, m);
    RunFewStale(steps, m);
    var y := Run(steps);
    hide Run, Capped, Wait, Spaced, Peak, Readable, Timely;
    FewStaleSpaced(y, Now(steps), m, d);
    forall n: nat | 5 <= n <= |y.failed| ensures Peak(y.failed, n) - Peak(y.failed, 5) >= Wait(n, m, d) {
      SpacedWaits(y.failed, m, d, n);
    }
  }

  /** Every failure is counted at most `d` after its reading. */
  ghost predicate Prompt(steps: seq<Step>, d: int) {
    forall n: nat | n < |steps| && steps[n].move.Count? && steps[n].move.id in Run(steps[..n]).flight
                    && Run(steps[..n]).flight[steps[n].move.id].read.Some? ::
      steps[n].now - Run(steps[..n]).flight[steps[n].move.id].read.value <= d
  }

  /** Then no inversion exceeds `d`. */
  lemma {:induction false} PromptInverts(steps: seq<Step>, d: int)
    requires Clocked(steps) && Prompt(steps, d) && d >= 0
    ensures Inverted(Run(steps).failed, d)
  {
    if steps != [] {
      var n := |steps| - 1;
      var front := steps[..n];
      assert forall k: nat | k <= n :: front[..k] == steps[..k];
      Front(steps, 0);
      PromptInverts(front, d);
      RunReadable(front);
      hide Run, Inverted;
      assert Run(steps) == Next(Run(front), steps[n]) by { RunLast(steps); }
      NextInverted(Run(front), Now(front), steps[n], d);
    }
  }

  lemma RunLast(steps: seq<Step>)
    requires steps != []
    ensures Run(steps) == Next(Run(steps[..|steps| - 1]), steps[|steps| - 1])
  {
    hide Next;
  }

  lemma {:induction false} NextInverted(y: Sys, now: int, step: Step, d: int)
    requires Readable(y, now) && Inverted(y.failed, d) && now <= step.now && d >= 0
    requires step.move.Count? && step.move.id in y.flight && y.flight[step.move.id].read.Some? ==>
      step.now - y.flight[step.move.id].read.value <= d
    ensures Inverted(Next(y, step).failed, d)
  {
    hide Fail;
  }

  /** Requests that take turns, in a run of less than 2^63 ns: each failure from the fifth on is followed by its
      whole block, so the n-th comes at least the sum of all of them after the fifth. */
  lemma {:induction false} ThrottleBound(steps: seq<Step>)
    requires Clocked(steps) && AtMost(steps, 1) && (steps != [] ==> Now(steps) - steps[0].now < I63)
    ensures
      var failed := Run(steps).failed;
      && (forall k: nat | 5 <= k < |failed| :: failed[k].at - failed[k - 1].at >= Capped(k))
      && (forall n: nat | 5 <= n <= |failed| :: failed[n - 1].at - failed[4].at >= Wait(n, 1, 0))
      && |failed| <= FITS + 4
  {
    TurnsInOrder(steps);
    assert Inverted(Run(steps).failed, 0) by { assert steps[..|steps|] == steps; }
    assert Bounded(steps, 1);
    OverlapBound(steps, 1, 0);
    hide Run, Capped, Waited, Spaced, AtMost, Clocked, Inverted, Wait, Bounded, Sequenced;
    InOrder(Run(steps).failed);
  }

  lemma {:induction false} InOrder(failed: seq<Failure>)
    requires Inverted(failed, 0) && Spaced(failed, 1, 0) && Waited(failed, 1, 0)
    ensures forall k: nat | 5 <= k < |failed| :: failed[k].at - failed[k - 1].at >= Capped(k)
    ensures forall n: nat | 5 <= n <= |failed| :: failed[n - 1].at - failed[4].at >= Wait(n, 1, 0)
  {
    hide Capped, Wait, Inverted, Peak;
    forall k: nat | 5 <= k < |failed| ensures failed[k].at - failed[k - 1].at >= Capped(k) {
      PeakIs(failed, k, 0);
      PeakIs(failed, k + 1, 0);
      assert Peak(failed, k + 1) - Peak(failed, k) >= Capped(k);
    }
    forall n: nat | 5 <= n <= |failed| ensures failed[n - 1].at - failed[4].at >= Wait(n, 1, 0) {
      PeakIs(failed, n, 0);
      PeakIs(failed, 5, 0);
    }
  }

  /** After every run: a request is refused if and only if at least five failures in a row were counted and its
      reading lies before the end of the intended block of the last one counted. */
  lemma RefusedIff(steps: seq<Step>, m: nat, reading: int)
    requires Clocked(steps) && Bounded(steps, m) && NEVER <= reading
    ensures
      var y := Run(steps);
      var n := |y.failed|;
      reading < y.limiter.blockedUntil <==> n >= 5 && reading < y.failed[n - 1].at + Capped(n)
  {
    RunKept(steps, m);
    hide Run, Timely, Readable, Capped;
  }

  // ---- inverted readings ----

  /** A request that does everything alone: it asks with the reading `t` and is counted with the reading `u`. */
  function Alone(id: nat, t: int, u: int): seq<Step> {
    [Step(ReadAsk(id), t), Step(Enter(id), t), Step(ReadEnd(id), u), Step(Count(id), u)]
  }

  /** A request that does everything alone fails at least the block of the k-th failure after it. */
  ghost predicate NextSpaced(steps: seq<Step>, id: nat, k: nat, t: int, u: int)
    requires k >= 1
  {
    var failed := Run(steps + Alone(id, t, u)).failed;
    k < |failed| && failed[|failed| - 1].at - failed[k - 1].at >= Capped(k)
  }

  /** After every run with n failures: each request that is let in next and fails comes at least the block of the
      k-th failure after it, whatever it reads, if and only if the clock or the end of the last block is past the
      end of that block. It is not when the n-th was counted with a reading so much earlier. */
  lemma {:induction false} NextIsSpacedIff(steps: seq<Step>, id: nat, k: nat)
    requires Clocked(steps) && Counts(steps) <= FITS + 4
    requires id !in Run(steps).asking && id !in Run(steps).flight && 5 <= k <= |Run(steps).failed|
    ensures
      var y := Run(steps);
      var n := |y.failed|;
      (forall t: int, u: int | Now(steps) <= t <= u && t >= y.limiter.blockedUntil :: NextSpaced(steps, id, k, t, u))
      <==> (Now(steps) >= y.failed[k - 1].at + Capped(k) ||
            y.failed[n - 1].at + Capped(n) >= y.failed[k - 1].at + Capped(k))
  {
    RunKept(steps, 0);
    hide Run, Capped, Timely, Readable, NextSpaced;
    var y := Run(steps);
    forall t: int, u: int | Now(steps) <= t <= u && t >= y.limiter.blockedUntil
      ensures NextSpaced(steps, id, k, t, u) <==> u - y.failed[k - 1].at >= Capped(k)
    {
      NextSpacedWhen(steps, id, k, t, u);
    }
    var first := if Now(steps) >= y.limiter.blockedUntil then Now(steps) else y.limiter.blockedUntil;
    assert Now(steps) <= first <= first && first >= y.limiter.blockedUntil;
    if forall t: int, u: int | Now(steps) <= t <= u && t >= y.limiter.blockedUntil :: NextSpaced(steps, id, k, t, u) {
      assert NextSpaced(steps, id, k, first, first);
    }
  }

  lemma {:induction false} NextSpacedWhen(steps: seq<Step>, id: nat, k: nat, t: int, u: int)
    requires id !in Run(steps).asking && id !in Run(steps).flight && 1 <= k <= |Run(steps).failed|
    requires t >= Run(steps).limiter.blockedUntil
    ensures NextSpaced(steps, id, k, t, u) <==> u - Run(steps).failed[k - 1].at >= Capped(k)
  {
    hide Run, Capped;
    RunOfFour(steps, Alone(id, t, u));
    CountsAlone(Run(steps), id, t, u);
    hide Next;
  }

  lemma RunNext(front: seq<Step>, step: Step)
    ensures Run(front + [step]) == Next(Run(front), step)
  {
    hide Next;
    assert (front + [step])[..|front|] == front;
  }

  lemma RunOfFour(front: seq<Step>, a: seq<Step>)
    requires |a| == 4
    ensures Run(front + a) == Next(Next(Next(Next(Run(front), a[0]), a[1]), a[2]), a[3])
  {
    hide Next, Run;
    RunNext(front, a[0]);
    RunNext(front + [a[0]], a[1]);
    RunNext(front + [a[0]] + [a[1]], a[2]);
    RunNext(front + [a[0]] + [a[1]] + [a[2]], a[3]);
    assert front + a == front + [a[0]] + [a[1]] + [a[2]] + [a[3]];
  }

  lemma CountsAlone(y: Sys, id: nat, t: int, u: int)
    requires id !in y.asking && id !in y.flight && t >= y.limiter.blockedUntil
    ensures
      var a := Alone(id, t, u);
      var y' := Next(Next(Next(Next(y, a[0]), a[1]), a[2]), a[3]);
      y'.failed == y.failed + [Failure(u, |y.failed|)]
  {
    hide Fail;
    var y2 := Next(Next(y, Step(ReadAsk(id), t)), Step(Enter(id), t));
    assert y2.flight == y.flight[id := Flight(|y.failed|, None)];
  }

  // ---- without a bound on the overlap there is none on the failures ----

  /** `k` requests ask with one reading, then `j` of them fail with it. */
  function Burst(k: nat, j: nat, now: int): seq<Step> {
    if j > 0 then Burst(k, j - 1, now) + [Step(ReadEnd(j - 1), now), Step(Count(j - 1), now)]
    else if k > 0 then Burst(k - 1, 0, now) + [Step(ReadAsk(k - 1), now), Step(Enter(k - 1), now)]
    else []
  }

  ghost predicate Bursting(y: Sys, k: nat, j: nat, now: int) {
    && y.asking == map[]
    && (forall id :: id in y.flight <==> j <= id < k) && (forall id | id in y.flight :: y.flight[id] == Flight(0, None))
    && |y.failed| == j == y.limiter.failures
    && (forall i: nat | i < j :: y.failed[i] == Failure(now, 0))
    && y.limiter.blockedUntil == if j < 5 then NEVER else now + Capped(j)
  }

  lemma RunOfTwo(front: seq<Step>, a: Step, b: Step)
    ensures Run(front + [a, b]) == Next(Next(Run(front), a), b)
  {
    hide Next, Run;
    RunNext(front, a);
    RunNext(front + [a], b);
    assert front + [a, b] == front + [a] + [b];
  }

  lemma BurstAsks(y: Sys, k: nat, now: int)
    requires Bursting(y, k, 0, now) && NEVER <= now
    ensures Bursting(Next(Next(y, Step(ReadAsk(k), now)), Step(Enter(k), now)), k + 1, 0, now)
  {
    hide Fail, Capped;
    assert map[][k := now] - {k} == map[];
  }

  lemma BurstFails(y: Sys, k: nat, j: nat, now: int)
    requires Bursting(y, k, j, now) && j < k <= FITS
    ensures Bursting(Next(Next(y, Step(ReadEnd(j), now)), Step(Count(j), now)), k, j + 1, now)
  {
    FailIs(y.limiter, now);
    hide Fail, Capped;
  }

  /** Any number of requests, let in while there is no failure, can all fail with one reading, though the fifth of
      these failures starts a block. */
  lemma {:induction false} BurstEscapes(k: nat, j: nat, now: int)
    requires j <= k <= FITS && NEVER <= now
    ensures Bursting(Run(Burst(k, j, now)), k, j, now)
    ensures forall i: nat | i < |Burst(k, j, now)| :: Burst(k, j, now)[i].now == now
  {
    hide Next, Bursting, Run;
    if j > 0 {
      BurstEscapes(k, j - 1, now);
      BurstFails(Run(Burst(k, j - 1, now)), k, j - 1, now);
      RunOfTwo(Burst(k, j - 1, now), Step(ReadEnd(j - 1), now), Step(Count(j - 1), now));
    } else if k > 0 {
      BurstEscapes(k - 1, 0, now);
      BurstAsks(Run(Burst(k - 1, 0, now)), k - 1, now);
      RunOfTwo(Burst(k - 1, 0, now), Step(ReadAsk(k - 1), now), Step(Enter(k - 1), now));
    } else {
      NoBurst(now);
    }
  }

  lemma NoBurst(now: int)
    ensures Bursting(Run([]), 0, 0, now)
  {
  }

  /** So a run of overlapping requests escapes the bound of requests that take turns, from the sixth failure on. */
  lemma {:induction false} OverlapEscapes(n: nat, now: int)
    requires 6 <= n <= FITS && NEVER <= now
    ensures
      var steps := Burst(n, n, now);
      var failed := Run(steps).failed;
      && Clocked(steps) && |failed| == n
      && (forall k: nat | 5 <= k < n :: failed[k].at - failed[k - 1].at < Capped(k))
  {
    BurstEscapes(n, n, now);
    hide Run, Burst, Capped;
    forall k: nat | 5 <= k < n ensures Capped(k) > 0 { CappedGrows(k, k); }
  }

  /** After four failures two requests fail; the one that read the clock later is counted first, and the other, with
      a reading 40 seconds earlier, then sets the block. A request that asks at the end of that block fails 20 seconds
      after the reading of the fifth failure, whose block is 30 seconds, though it was let in after that failure was
      counted. */
  lemma InversionShortens(now: int) returns (steps: seq<Step>)
    requires NEVER <= now
    ensures Clocked(steps) && |Run(steps).failed| == 7
    ensures
      var failed := Run(steps).failed;
      failed[6].seen == 6 && failed[6].at - failed[4].at == 20 * SECOND < Capped(5)
  {
    BurstEscapes(6, 4, now);
    var front, last := Burst(6, 4, now), Alone(6, now + 60 * SECOND, now + 60 * SECOND);
    steps := front + Swapped(now) + last;
    hide Run, Burst;
    InversionClocked(front, now);
    hide Clocked;
    SwapRuns(front, now);
    RunOfFour(front + Swapped(now), last);
    CountsAlone(Run(front + Swapped(now)), 6, now + 60 * SECOND, now + 60 * SECOND);
    assert Capped(5) == 30 * SECOND;
    hide Next, Capped;
  }

  lemma {:induction false} InversionClocked(front: seq<Step>, now: int)
    requires NEVER <= now && forall i: nat | i < |front| :: front[i].now == now
    ensures Clocked(front + Swapped(now) + Alone(6, now + 60 * SECOND, now + 60 * SECOND))
  {
    ClockedJoins(front, Swapped(now));
    ClockedJoins(front + Swapped(now), Alone(6, now + 60 * SECOND, now + 60 * SECOND));
  }

  /** Request 5 reads later than request 4 and is counted first. */
  function Swapped(now: int): seq<Step> {
    [Step(ReadEnd(4), now), Step(ReadEnd(5), now + 40 * SECOND),
     Step(Count(5), now + 40 * SECOND), Step(Count(4), now + 40 * SECOND)]
  }

  lemma SwapRuns(front: seq<Step>, now: int)
    requires Bursting(Run(front), 6, 4, now)
    ensures
      var y, y' := Run(front), Run(front + Swapped(now));
      && y'.failed == y.failed + [Failure(now + 40 * SECOND, 0), Failure(now, 0)] && y'.asking == map[]
      && 6 !in y'.flight && y'.limiter.blockedUntil == now + 60 * SECOND
  {
    hide Run;
    RunOfFour(front, Swapped(now));
    CountsInverted(Run(front), now);
    hide Next;
  }

  lemma {:induction false} ClockedJoins(front: seq<Step>, back: seq<Step>)
    requires Clocked(front) && Clocked(back)
    requires forall i: nat, j: nat | i < |front| && j < |back| :: front[i].now <= back[j].now
    ensures Clocked(front + back)
  {
  }

  lemma CountsInverted(y: Sys, now: int)
    requires Bursting(y, 6, 4, now)
    ensures
      var later := now + 40 * SECOND;
      var y' := Next(Next(Next(Next(y, Step(ReadEnd(4), now)), Step(ReadEnd(5), later)), Step(Count(5), later)),
          Step(Count(4), later));
      && y'.failed == y.failed + [Failure(later, 0), Failure(now, 0)] && y'.asking == map[]
      && 6 !in y'.flight && y'.limiter.blockedUntil == now + 60 * SECOND
  {
    var later := now + 40 * SECOND;
    var l := Fail(y.limiter, later);
    FailIs(y.limiter, later);
    FailIs(l, now);
    assert Capped(6) == 60 * SECOND;
    hide Fail, Capped;
  }
}
