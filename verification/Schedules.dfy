/** Which schedules of login requests the limiter slows down, whatever the clock. */
module Schedules {
  import opened Prelude
  import opened Limiter
  import opened Throttle

  /** A counted failure: the step at which its request read the clock, and its number in the streak. */
  datatype Counted = Counted(at: nat, rank: nat)

  /** A schedule without its clock, as far as it has come; a reading is named by the step at which it is taken.
      `edges` says of each step whether the request that read there was let in after at least five failures, and
      which one was the last; `gaps` lists the failures, from the fifth of a streak on, that are followed by
      another one. Both name failures by their place in `counted`. */
  datatype Plan = Plan(asking: map<nat, nat>, flight: map<nat, Option<nat>>, counted: seq<Counted>, streak: nat,
                       edges: seq<Option<nat>>, gaps: seq<nat>)

  function PlanNext(p: Plan, move: Move): Plan {
    var n, q := |p.counted|, p.(edges := p.edges + [None]);
    match move
    case ReadAsk(id) =>
      if id in p.asking || id in p.flight then q else q.(asking := p.asking[id := |p.edges|])
    case Enter(id) =>
      if id !in p.asking || id in p.flight then q else
      var edges := if p.streak >= 5 && n > 0 && p.asking[id] < |p.edges|
                   then q.edges[p.asking[id] := Some(n - 1)] else q.edges;
      q.(asking := p.asking - {id}, flight := p.flight[id := None], edges := edges)
    case ReadEnd(id) =>
      if id in p.flight && p.flight[id].None? then q.(flight := p.flight[id := Some(|p.edges|)]) else q
    case Count(id) =>
      if id in p.flight && p.flight[id].Some? then
        q.(flight := p.flight - {id}, counted := p.counted + [Counted(p.flight[id].value, p.streak + 1)],
           streak := p.streak + 1,
           gaps := if p.streak >= 5 && n > 0 then p.gaps + [n - 1] else p.gaps)
      else q
    case Succeed(id) =>
      if id in p.flight && p.flight[id].None? then q.(flight := p.flight - {id}, streak := 0) else q
    case Abort(id) =>
      if id in p.flight && p.flight[id].None? then q.(flight := p.flight - {id}) else q
  }

  const NOTHING := Plan(map[], map[], [], 0, [], [])

  function PlanOf(moves: seq<Move>): Plan {
    if moves == [] then NOTHING
    else PlanNext(PlanOf(moves[..|moves| - 1]), moves[|moves| - 1])
  }

  /** Readings to ask with come from different steps, each still without an edge. */
  ghost predicate AskingOk(p: Plan) {
    && (forall id | id in p.asking :: p.asking[id] < |p.edges| && p.edges[p.asking[id]].None?)
    && (forall i, j | i in p.asking && j in p.asking && i != j :: p.asking[i] != p.asking[j])
  }

  ghost predicate CountedOk(p: Plan) {
    && (forall id | id in p.flight && p.flight[id].Some? :: p.flight[id].value < |p.edges|)
    && (forall x: nat | x < |p.counted| :: p.counted[x].at < |p.edges|)
    && p.streak <= |p.counted| && (p.streak > 0 ==> p.counted[|p.counted| - 1].rank == p.streak)
  }

  ghost predicate EdgesOk(p: Plan) {
    && (forall a: nat | a < |p.edges| && p.edges[a].Some? ::
          p.edges[a].value < |p.counted| && p.counted[p.edges[a].value].rank >= 5)
    && (forall g: nat | g < |p.gaps| :: p.gaps[g] + 1 < |p.counted| && p.counted[p.gaps[g]].rank >= 5)
  }

  ghost predicate PlanOk(p: Plan) {
    AskingOk(p) && CountedOk(p) && EdgesOk(p)
  }

  lemma {:induction false} AskAsking(p: Plan, id: nat)
    requires AskingOk(p)
    ensures AskingOk(PlanNext(p, ReadAsk(id)))
  {
    var p' := PlanNext(p, ReadAsk(id));
    assert forall i | i in p'.asking && i != id :: i in p.asking && p'.asking[i] == p.asking[i];
    assert forall i | i in p.asking :: p'.edges[p.asking[i]] == p.edges[p.asking[i]];
    hide PlanNext;
  }

  lemma {:induction false} EnterAsking(p: Plan, id: nat)
    requires AskingOk(p)
    ensures AskingOk(PlanNext(p, Enter(id)))
  {
    var p' := PlanNext(p, Enter(id));
    assert forall i | i in p'.asking :: i in p.asking && p'.asking[i] == p.asking[i];
    forall i | i in p'.asking ensures p'.asking[i] < |p'.edges| && p'.edges[p'.asking[i]].None? {
      assert p.edges[p.asking[i]].None?;
      assert id in p.asking && id != i ==> p.asking[i] != p.asking[id];
    }
    hide PlanNext;
  }

  lemma {:induction false} NextAsking(p: Plan, move: Move)
    requires AskingOk(p)
    ensures AskingOk(PlanNext(p, move)) && |PlanNext(p, move).edges| == |p.edges| + 1
  {
    var p' := PlanNext(p, move);
    match move {
      case ReadAsk(id) => AskAsking(p, id); hide AskingOk;
      case Enter(id) => EnterAsking(p, id); hide AskingOk;
      case _ =>
        assert p'.asking == p.asking && p'.edges == p.edges + [None];
        hide PlanNext;
    }
  }

  lemma {:induction false} NextCounted(p: Plan, move: Move)
    requires CountedOk(p)
    ensures CountedOk(PlanNext(p, move))
  {
  }

  lemma {:induction false} NextEdges(p: Plan, move: Move)
    requires CountedOk(p) && EdgesOk(p)
    ensures EdgesOk(PlanNext(p, move))
  {
  }

  lemma {:induction false} NextOk(p: Plan, move: Move)
    requires PlanOk(p)
    ensures PlanOk(PlanNext(p, move)) && |PlanNext(p, move).edges| == |p.edges| + 1
  {
    hide AskingOk, CountedOk, EdgesOk, PlanNext;
    NextAsking(p, move);
    NextCounted(p, move);
    NextEdges(p, move);
  }

  lemma {:induction false} PlanIsOk(moves: seq<Move>)
    ensures PlanOk(PlanOf(moves)) && |PlanOf(moves).edges| == |moves|
  {
    if moves != [] {
      PlanIsOk(moves[..|moves| - 1]);
      hide PlanOk, PlanNext;
      NextOk(PlanOf(moves[..|moves| - 1]), moves[|moves| - 1]);
    }
  }

  // ---- a schedule with its clock ----

  function Timed(moves: seq<Move>, times: seq<int>): seq<Step>
    requires |times| == |moves|
  {
    seq(|moves|, i requires 0 <= i < |moves| => Step(moves[i], times[i]))
  }

  /** The step lets its request in, if it asks. */
  predicate LetsIn(y: Sys, step: Step) {
    step.move.Enter? && step.move.id in y.asking && step.move.id !in y.flight ==>
      y.asking[step.move.id] >= y.limiter.blockedUntil
  }

  /** The clock lets every request of the schedule in. A refused request changes nothing but itself, so every run
      is, for the others, the run of a schedule that its clock admits. */
  predicate Admits(steps: seq<Step>) {
    steps == [] ||
    var n := |steps| - 1;
    Admits(steps[..n]) && LetsIn(Run(steps[..n]), steps[n])
  }

  /** The step counts no failure, or one that has waited out the block of the one counted before it. */
  predicate Waits(y: Sys, step: Step) {
    step.move.Count? && step.move.id in y.flight && y.flight[step.move.id].read.Some? && |y.failed| >= 5 ==>
      y.flight[step.move.id].read.value - y.failed[|y.failed| - 1].at >= Capped(|y.failed|)
  }

  predicate SlowedDown(steps: seq<Step>) {
    steps == [] ||
    var n := |steps| - 1;
    SlowedDown(steps[..n]) && Waits(Run(steps[..n]), steps[n])
  }

  /** The plan is the run without its times. */
  ghost predicate Matches(p: Plan, y: Sys, times: seq<int>)
    requires PlanOk(p) && |p.edges| <= |times|
  {
    MatchesAsking(p, y, times) && MatchesFlight(p, y, times) && MatchesFailed(p, y, times)
  }

  ghost predicate MatchesAsking(p: Plan, y: Sys, times: seq<int>)
    requires AskingOk(p) && |p.edges| <= |times|
  {
    p.asking.Keys == y.asking.Keys && forall id | id in p.asking :: y.asking[id] == times[p.asking[id]]
  }

  ghost predicate MatchesFlight(p: Plan, y: Sys, times: seq<int>)
    requires CountedOk(p) && |p.edges| <= |times|
  {
    && p.flight.Keys == y.flight.Keys
    && forall id | id in p.flight ::
         y.flight[id].read == if p.flight[id].Some? then Some(times[p.flight[id].value]) else None
  }

  ghost predicate MatchesFailed(p: Plan, y: Sys, times: seq<int>)
    requires CountedOk(p) && |p.edges| <= |times|
  {
    && |y.failed| == p.streak
    && (p.streak > 0 ==> y.failed[p.streak - 1].at == times[p.counted[|p.counted| - 1].at])
  }

  /** How a step changes who is about to ask, in the plan and in the run. */
  lemma {:induction false} AskingMoves(p: Plan, y: Sys, move: Move, now: int)
    requires p.asking.Keys == y.asking.Keys && p.flight.Keys == y.flight.Keys && LetsIn(y, Step(move, now))
    ensures
      var p', y' := PlanNext(p, move), Next(y, Step(move, now));
      || (p'.asking == p.asking && y'.asking == y.asking)
      || (p'.asking == p.asking - {move.id} && y'.asking == y.asking - {move.id})
      || (p'.asking == p.asking[move.id := |p.edges|] && y'.asking == y.asking[move.id := now])
  {
    hide Fail;
  }

  lemma {:induction false} AskingMatches(p: Plan, y: Sys, times: seq<int>, move: Move)
    requires AskingOk(p) && |p.edges| < |times|
    requires MatchesAsking(p, y, times) && p.flight.Keys == y.flight.Keys && LetsIn(y, Step(move, times[|p.edges|]))
    ensures
      var p' := PlanNext(p, move);
      AskingOk(p') && |p'.edges| <= |times| && MatchesAsking(p', Next(y, Step(move, times[|p.edges|])), times)
  {
    NextAsking(p, move);
    AskingMoves(p, y, move, times[|p.edges|]);
    hide Next, PlanNext, LetsIn;
    assert forall i | i in p.asking :: p.asking[i] < |p.edges|;
    hide AskingOk;
  }

  lemma {:induction false} EnterFlight(p: Plan, y: Sys, times: seq<int>, id: nat)
    requires CountedOk(p) && CountedOk(PlanNext(p, Enter(id))) && |p.edges| < |times|
    requires |PlanNext(p, Enter(id)).edges| <= |times| && MatchesFlight(p, y, times)
    requires p.asking.Keys == y.asking.Keys && LetsIn(y, Step(Enter(id), times[|p.edges|]))
    ensures MatchesFlight(PlanNext(p, Enter(id)), Next(y, Step(Enter(id), times[|p.edges|])), times)
  {
    hide AskingOk, CountedOk, Fail;
  }

  lemma {:induction false} ReadEndFlight(p: Plan, y: Sys, times: seq<int>, id: nat)
    requires CountedOk(p) && CountedOk(PlanNext(p, ReadEnd(id))) && |p.edges| < |times|
    requires |PlanNext(p, ReadEnd(id)).edges| <= |times| && MatchesFlight(p, y, times)
    ensures MatchesFlight(PlanNext(p, ReadEnd(id)), Next(y, Step(ReadEnd(id), times[|p.edges|])), times)
  {
    hide AskingOk, CountedOk, Fail;
  }

  lemma {:induction false} CountFlight(p: Plan, y: Sys, times: seq<int>, id: nat)
    requires CountedOk(p) && CountedOk(PlanNext(p, Count(id))) && |p.edges| < |times|
    requires |PlanNext(p, Count(id)).edges| <= |times| && MatchesFlight(p, y, times)
    ensures MatchesFlight(PlanNext(p, Count(id)), Next(y, Step(Count(id), times[|p.edges|])), times)
  {
    hide AskingOk, CountedOk, Fail;
  }

  lemma {:induction false} SucceedFlight(p: Plan, y: Sys, times: seq<int>, id: nat)
    requires CountedOk(p) && CountedOk(PlanNext(p, Succeed(id))) && |p.edges| < |times|
    requires |PlanNext(p, Succeed(id)).edges| <= |times| && MatchesFlight(p, y, times)
    ensures MatchesFlight(PlanNext(p, Succeed(id)), Next(y, Step(Succeed(id), times[|p.edges|])), times)
  {
    hide AskingOk, CountedOk, Fail;
  }

  lemma {:induction false} FlightMatches(p: Plan, y: Sys, times: seq<int>, move: Move)
    requires CountedOk(p) && CountedOk(PlanNext(p, move)) && |p.edges| < |times|
    requires |PlanNext(p, move).edges| <= |times| && p.asking.Keys == y.asking.Keys
    requires MatchesFlight(p, y, times) && LetsIn(y, Step(move, times[|p.edges|]))
    ensures MatchesFlight(PlanNext(p, move), Next(y, Step(move, times[|p.edges|])), times)
  {
    hide AskingOk, CountedOk, Fail;
    match move {
      case Enter(id) => EnterFlight(p, y, times, id); hide *;
      case ReadEnd(id) => ReadEndFlight(p, y, times, id); hide *;
      case Count(id) => CountFlight(p, y, times, id); hide *;
      case Succeed(id) => SucceedFlight(p, y, times, id); hide *;
      case _ => hide LetsIn;
    }
  }

  lemma {:induction false} FailedMatches(p: Plan, y: Sys, times: seq<int>, move: Move)
    requires CountedOk(p) && |p.edges| < |times| && AskingOk(p)
    requires MatchesFlight(p, y, times) && MatchesFailed(p, y, times)
    ensures
      var p' := PlanNext(p, move);
      CountedOk(p') && |p'.edges| <= |times| && MatchesFailed(p', Next(y, Step(move, times[|p.edges|])), times)
  {
    NextAsking(p, move);
    NextCounted(p, move);
    hide AskingOk, CountedOk, Fail;
  }

  lemma {:induction false} NextMatches(p: Plan, y: Sys, times: seq<int>, move: Move)
    requires PlanOk(p) && PlanOk(PlanNext(p, move)) && |p.edges| < |times|
    requires Matches(p, y, times) && LetsIn(y, Step(move, times[|p.edges|]))
    ensures |PlanNext(p, move).edges| <= |times| &&
        Matches(PlanNext(p, move), Next(y, Step(move, times[|p.edges|])), times)
  {
    assert p.asking.Keys == y.asking.Keys && p.flight.Keys == y.flight.Keys;
    hide AskingOk, CountedOk, EdgesOk, MatchesAsking, MatchesFlight, MatchesFailed, PlanNext, Next, LetsIn;
    AskingMatches(p, y, times, move);
    NextAsking(p, move);
    FlightMatches(p, y, times, move);
    FailedMatches(p, y, times, move);
  }

  // ---- what the clock must satisfy ----

  /** Each request let in after a block read the clock after its end. */
  ghost predicate Fit(p: Plan, times: seq<int>)
    requires CountedOk(p) && EdgesOk(p) && |p.edges| <= |times|
  {
    forall a: nat | a < |p.edges| && p.edges[a].Some? ::
      times[a] >= times[p.counted[p.edges[a].value].at] + Capped(p.counted[p.edges[a].value].rank)
  }

  /** Each failure after the fifth waited out the block of the one before it. */
  ghost predicate GapsKept(p: Plan, times: seq<int>)
    requires CountedOk(p) && EdgesOk(p) && |p.edges| <= |times|
  {
    forall g: nat | g < |p.gaps| :: GapKept(p, times, p.gaps[g])
  }

  ghost predicate GapKept(p: Plan, times: seq<int>, x: nat)
    requires CountedOk(p) && |p.edges| <= |times| && x + 1 < |p.counted|
  {
    times[p.counted[x + 1].at] - times[p.counted[x].at] >= Capped(p.counted[x].rank)
  }

  /** One more step, and an edge of an earlier one if `a` is given. */
  lemma {:induction false} FitGrows(p: Plan, p': Plan, times: seq<int>, a: Option<nat>)
    requires CountedOk(p) && EdgesOk(p) && CountedOk(p') && EdgesOk(p')
    requires |p'.edges| == |p.edges| + 1 <= |times| && p.counted <= p'.counted && p.counted != []
    requires a.None? ==> p'.edges == p.edges + [None]
    requires a.Some? ==>
      a.value < |p.edges| && p.edges[a.value].None? && p'.edges == (p.edges + [None])[a.value := Some(|p.counted| - 1)]
    ensures
      var last := p.counted[|p.counted| - 1];
      Fit(p', times) <==> Fit(p, times) && (a.Some? ==> times[a.value] >= times[last.at] + Capped(last.rank))
  {
    hide Capped, CountedOk;
    assert forall x: nat | x < |p.counted| :: p'.counted[x] == p.counted[x];
    assert forall b: nat | b < |p.edges| && (a.None? || b != a.value) :: p'.edges[b] == p.edges[b];
    assert p'.edges[|p.edges|].None?;
    if a.Some? { assert p'.edges[a.value] == Some(|p.counted| - 1); }
  }

  /** The plan's edge is the block of the limiter. */
  lemma {:induction false} EnterIs(p: Plan, y: Sys, times: seq<int>, id: nat)
    requires PlanOk(p) && |p.edges| < |times| && Matches(p, y, times) && Counting(y)
    requires forall i: nat | i < |times| :: NEVER <= times[i]
    requires id in p.asking && id !in p.flight
    ensures p.asking[id] < |p.edges|
    ensures p.streak >= 5 ==> p.counted != []
    ensures p.streak >= 5 ==>
      (LetsIn(y, Step(Enter(id), times[|p.edges|])) <==>
         times[p.asking[id]] >= times[p.counted[|p.counted| - 1].at] + Capped(p.counted[|p.counted| - 1].rank))
    ensures p.streak < 5 ==> LetsIn(y, Step(Enter(id), times[|p.edges|]))
  {
    hide Capped;
  }

  lemma {:induction false} NextFit(p: Plan, y: Sys, times: seq<int>, move: Move)
    requires PlanOk(p) && PlanOk(PlanNext(p, move)) && |p.edges| < |times| && |PlanNext(p, move).edges| <= |times|
    requires Matches(p, y, times) && Counting(y) && forall i: nat | i < |times| :: NEVER <= times[i]
    ensures Fit(PlanNext(p, move), times) <==> Fit(p, times) && LetsIn(y, Step(move, times[|p.edges|]))
  {
    var p', id := PlanNext(p, move), move.id;
    if move.Enter? && id in p.asking && id !in p.flight {
      EnterIs(p, y, times, id);
      assert p.edges[p.asking[id]].None?;
      hide Matches, AskingOk, CountedOk, EdgesOk, Fit, LetsIn, Capped;
      if p.streak >= 5 { FitGrows(p, p', times, Some(p.asking[id])); } else { FitSame(p, p', times); }
    } else {
      assert LetsIn(y, Step(move, times[|p.edges|]));
      assert p'.edges == p.edges + [None] && p.counted <= p'.counted;
      hide Matches, AskingOk, CountedOk, EdgesOk, Fit, LetsIn, PlanNext;
      FitSame(p, p', times);
    }
  }

  lemma {:induction false} FitSame(p: Plan, p': Plan, times: seq<int>)
    requires CountedOk(p) && EdgesOk(p) && CountedOk(p') && EdgesOk(p')
    requires |p'.edges| <= |times| && p.counted <= p'.counted && p'.edges == p.edges + [None]
    ensures Fit(p', times) <==> Fit(p, times)
  {
    hide Capped, CountedOk;
    assert forall x: nat | x < |p.counted| :: p'.counted[x] == p.counted[x];
    assert forall b: nat | b < |p.edges| :: p'.edges[b] == p.edges[b];
  }

  lemma {:induction false} GapsGrow(p: Plan, p': Plan, times: seq<int>, x: nat)
    requires CountedOk(p) && EdgesOk(p) && CountedOk(p') && EdgesOk(p') && |p.edges| <= |p'.edges| <= |times|
    requires p.counted <= p'.counted && p'.gaps == p.gaps + [x]
    ensures x + 1 < |p'.counted|
    ensures GapsKept(p', times) <==> GapsKept(p, times) && GapKept(p', times, x)
  {
    hide Capped, CountedOk;
    assert p'.gaps[|p.gaps|] == x;
    assert forall x: nat | x < |p.counted| :: p'.counted[x] == p.counted[x];
    assert forall g: nat | g < |p.gaps| ::
        p'.gaps[g] == p.gaps[g] && GapKept(p', times, p.gaps[g]) == GapKept(p, times, p.gaps[g]);
  }

  /** Edges that are known stay, and failures are only added. */
  lemma {:induction false} PlanGrows(p: Plan, move: Move)
    requires AskingOk(p)
    ensures |p.edges| < |PlanNext(p, move).edges|
    ensures forall a: nat | a < |p.edges| && p.edges[a].Some? :: PlanNext(p, move).edges[a] == p.edges[a]
    ensures p.counted <= PlanNext(p, move).counted
  {
  }

  lemma {:induction false} NextGaps(p: Plan, y: Sys, times: seq<int>, move: Move)
    requires PlanOk(p) && PlanOk(PlanNext(p, move)) && |p.edges| < |times| && |PlanNext(p, move).edges| <= |times|
    requires Matches(p, y, times)
    ensures GapsKept(PlanNext(p, move), times) <==> GapsKept(p, times) && Waits(y, Step(move, times[|p.edges|]))
  {
    hide Capped;
    var p', n, id := PlanNext(p, move), |p.counted|, move.id;
    if move.Count? && id in p.flight && p.flight[id].Some? && p.streak >= 5 {
      CountIs(p, y, times, id);
      hide Waits, Matches, AskingOk, GapKept, GapsKept, CountedOk, EdgesOk;
      GapsGrow(p, p', times, n - 1);
    } else {
      assert Waits(y, Step(move, times[|p.edges|])) by { hide PlanNext; }
      PlanGrows(p, move);
      assert p'.gaps == p.gaps by { hide Waits, Matches, AskingOk, GapsKept, CountedOk, EdgesOk; }
      hide Waits, Matches, AskingOk, PlanNext, GapsKept, CountedOk, EdgesOk;
      GapsSame(p, p', times);
    }
  }

  lemma {:induction false} GapsSame(p: Plan, p': Plan, times: seq<int>)
    requires CountedOk(p) && EdgesOk(p) && CountedOk(p') && EdgesOk(p') && |p.edges| <= |p'.edges| <= |times|
    requires p.counted <= p'.counted && p'.gaps == p.gaps
    ensures GapsKept(p', times) <==> GapsKept(p, times)
  {
    hide Capped, CountedOk;
    assert forall x: nat | x < |p.counted| :: p'.counted[x] == p.counted[x];
    assert forall g: nat | g < |p.gaps| :: GapKept(p', times, p.gaps[g]) == GapKept(p, times, p.gaps[g]);
  }

  /** The plan's gap is the distance of the two readings. */
  lemma {:induction false} CountIs(p: Plan, y: Sys, times: seq<int>, id: nat)
    requires PlanOk(p) && PlanOk(PlanNext(p, Count(id))) && |p.edges| < |times| &&
        |PlanNext(p, Count(id)).edges| <= |times|
    requires Matches(p, y, times) && id in p.flight && p.flight[id].Some? && p.streak >= 5
    ensures |p.counted| > 0 && PlanNext(p, Count(id)).gaps == p.gaps + [|p.counted| - 1]
    ensures |p.counted| < |PlanNext(p, Count(id)).counted|
    ensures
      GapKept(PlanNext(p, Count(id)), times, |p.counted| - 1) <==> Waits(y, Step(Count(id), times[|p.edges|]))
  {
    hide Capped, AskingOk, EdgesOk;
  }

  /** A clock for a schedule: one time for each step, never going back. */
  ghost predicate Clock(times: seq<int>) {
    && (forall i: nat | i < |times| :: NEVER <= times[i])
    && (forall i: nat, j: nat | i <= j < |times| :: times[i] <= times[j])
  }

  function CountsOf(moves: seq<Move>): nat {
    if moves == [] then 0 else CountsOf(moves[..|moves| - 1]) + if moves[|moves| - 1].Count? then 1 else 0
  }

  lemma {:induction false} TimedCounts(moves: seq<Move>, times: seq<int>)
    requires |times| == |moves|
    ensures Counts(Timed(moves, times)) == CountsOf(moves)
    decreases |moves|
  {
    if moves != [] {
      var n := |moves| - 1;
      TimedCounts(moves[..n], times[..n]);
      assert Timed(moves, times)[..n] == Timed(moves[..n], times[..n]);
    }
  }

  /** A clock admits the first n steps exactly when it fits their plan, and then slows them down exactly when it
      keeps the gaps. */
  lemma {:induction false} PlanIsExact(moves: seq<Move>, times: seq<int>, n: nat)
    requires n <= |moves| == |times| && Clock(times) && CountsOf(moves[..n]) <= FITS + 4
    ensures |PlanOf(moves[..n]).edges| == n && PlanOk(PlanOf(moves[..n]))
    ensures Exact(PlanOf(moves[..n]), times, Timed(moves[..n], times[..n]))
    decreases n
  {
    if n == 0 {
      NothingExact(moves[..0], times, Timed(moves[..0], times[..0]));
    } else {
      var k := n - 1;
      assert moves[..n][..k] == moves[..k];
      PlanIsExact(moves, times, k);
      TimedGrows(moves, times, k);
      RunIsCounting(moves[..k], times[..k]);
      PlanLast(moves, k);
      hide PlanNext, PlanOk, Exact, CountsOf, Run, PlanOf, Counting, Timed;
      ExactNext(PlanOf(moves[..k]), times, moves[k], Timed(moves[..k], times[..k]), Timed(moves[..n], times[..n]));
    }
  }

  lemma {:induction false} NothingPlanned(moves: seq<Move>, steps: seq<Step>)
    requires |moves| == |steps| == 0
    ensures PlanOf(moves) == NOTHING && Run(steps) == IDLE && Admits(steps) && SlowedDown(steps)
  {
    hide PlanNext, LetsIn, Waits, Next;
  }

  lemma {:induction false} NothingFits(times: seq<int>)
    ensures PlanOk(NOTHING) && Fit(NOTHING, times) && GapsKept(NOTHING, times)
  {
    hide Capped;
  }

  lemma {:induction false} NothingMatches(times: seq<int>)
    ensures PlanOk(NOTHING) && Matches(NOTHING, IDLE, times)
  {
    hide PlanOk;
    NothingFits(times);
  }

  lemma {:induction false} NothingExact(moves: seq<Move>, times: seq<int>, steps: seq<Step>)
    requires |moves| == |steps| == 0
    ensures PlanOk(PlanOf(moves)) && |PlanOf(moves).edges| == 0 && Exact(PlanOf(moves), times, steps)
  {
    hide PlanOf, Run, Admits, SlowedDown, Fit, GapsKept, Matches, PlanOk;
    NothingPlanned(moves, steps);
    NothingFits(times);
    NothingMatches(times);
  }

  /** The plan `p` says what a clock must satisfy for `steps`. */
  ghost predicate Exact(p: Plan, times: seq<int>, steps: seq<Step>)
    requires PlanOk(p) && |p.edges| <= |times|
  {
    && (Admits(steps) <==> Fit(p, times))
    && (Admits(steps) ==> Matches(p, Run(steps), times) && (SlowedDown(steps) <==> GapsKept(p, times)))
  }

  lemma {:induction false} ExactNext(p: Plan, times: seq<int>, move: Move, front: seq<Step>, steps: seq<Step>)
    requires PlanOk(p) && |p.edges| < |times| && Clock(times) && Counting(Run(front)) && Exact(p, times, front)
    requires steps == front + [Step(move, times[|p.edges|])]
    ensures PlanOk(PlanNext(p, move)) && |PlanNext(p, move).edges| == |p.edges| + 1
    ensures Exact(PlanNext(p, move), times, steps)
  {
    var step := Step(move, times[|p.edges|]);
    NextOk(p, move);
    assert steps[..|steps| - 1] == front && steps[|steps| - 1] == step;
    assert Admits(steps) <==> Admits(front) && LetsIn(Run(front), step);
    assert SlowedDown(steps) <==> SlowedDown(front) && Waits(Run(front), step);
    assert Run(steps) == Next(Run(front), step) by { RunLast(steps); }
    var p' := PlanNext(p, move);
    hide PlanNext, Next, Run, Admits, SlowedDown, LetsIn, Waits, Fit, GapsKept, Matches, AskingOk, CountedOk;
    hide EdgesOk, Counting;
    if Fit(p', times) { FitBefore(p, move, times); }
    if Admits(front) {
      NextFit(p, Run(front), times, move);
      if LetsIn(Run(front), step) {
        NextMatches(p, Run(front), times, move);
        NextGaps(p, Run(front), times, move);
      }
    }
  }

  /** A clock that does not fit a plan does not fit what it grows to. */
  lemma {:induction false} FitBefore(p: Plan, move: Move, times: seq<int>)
    requires PlanOk(p) && PlanOk(PlanNext(p, move)) && |p.edges| < |times| && |PlanNext(p, move).edges| <= |times|
    requires Fit(PlanNext(p, move), times)
    ensures Fit(p, times)
  {
    hide Capped, PlanNext, CountedOk, AskingOk;
    PlanGrows(p, move);
  }

  lemma PlanLast(moves: seq<Move>, k: nat)
    requires k < |moves|
    ensures PlanOf(moves[..k + 1]) == PlanNext(PlanOf(moves[..k]), moves[k])
  {
    hide PlanNext;
    assert moves[..k + 1][..k] == moves[..k];
  }

  lemma TimedGrows(moves: seq<Move>, times: seq<int>, k: nat)
    requires k < |moves| == |times|
    ensures
      var front, steps := Timed(moves[..k], times[..k]), Timed(moves[..k + 1], times[..k + 1]);
      steps == front + [Step(moves[k], times[k])]
  {
  }

  lemma {:induction false} RunIsCounting(moves: seq<Move>, times: seq<int>)
    requires |moves| == |times| && CountsOf(moves) <= FITS + 4 && Clock(times)
    ensures Counting(Run(Timed(moves, times)))
  {
    TimedCounts(moves, times);
    RunKept(Timed(moves, times), 0);
    hide Run;
  }

  // ---- the least lead that the blocks force ----

  /** No request asks with a reading from before that of the failure whose block it is let in after. */
  ghost predicate Realizable(p: Plan)
    requires EdgesOk(p)
  {
    forall a: nat | a < |p.edges| && p.edges[a].Some? :: p.counted[p.edges[a].value].at < a
  }

  /** By how much the reading at step `i` must be later than the one at step `from`: each step no earlier than the
      one before, and each request let in after a block of a failure read since `from` that much later than its
      reading. */
  function Lead(p: Plan, from: nat, i: nat): int
    requires EdgesOk(p) && from <= i < |p.edges|
    decreases i
  {
    if i == from then 0
    else
      var before := Lead(p, from, i - 1);
      if p.edges[i].None? then before
      else
        var c := p.counted[p.edges[i].value];
        if from <= c.at < i && Lead(p, from, c.at) + Capped(c.rank) > before
        then Lead(p, from, c.at) + Capped(c.rank)
        else before
  }

  lemma {:induction false} LeadIsForced(p: Plan, times: seq<int>, from: nat, i: nat)
    requires PlanOk(p) && |p.edges| <= |times| && Clock(times) && Fit(p, times) && from <= i < |p.edges|
    ensures times[i] - times[from] >= Lead(p, from, i)
    decreases i
  {
    hide Capped;
    if i > from {
      LeadIsForced(p, times, from, i - 1);
      if p.edges[i].Some? {
        var c := p.counted[p.edges[i].value];
        if from <= c.at < i { LeadIsForced(p, times, from, c.at); }
      }
    }
  }

  /** The clock that keeps exactly that lead, with long pauses before `from`. */
  function Earliest(p: Plan, from: nat): seq<int>
    requires EdgesOk(p) && from < |p.edges|
  {
    seq(|p.edges|, i requires 0 <= i < |p.edges| =>
      CAP * from + if i < from then CAP * (i - from) else Lead(p, from, i))
  }

  lemma {:induction false} LeadGrows(p: Plan, from: nat, i: nat, j: nat)
    requires EdgesOk(p) && from <= i <= j < |p.edges|
    ensures 0 <= Lead(p, from, i) <= Lead(p, from, j)
    decreases j
  {
    hide Capped;
    if i < j { LeadGrows(p, from, i, j - 1); } else if from < i { LeadGrows(p, from, from, i - 1); }
  }

  lemma {:induction false} EarliestClock(p: Plan, from: nat)
    requires EdgesOk(p) && from < |p.edges|
    ensures Clock(Earliest(p, from))
  {
    hide Lead;
    var times := Earliest(p, from);
    forall i: nat, j: nat | i <= j < |times| ensures 0 <= times[i] <= times[j] {
      if from <= i { LeadGrows(p, from, i, j); } else if from <= j { LeadGrows(p, from, j, j); }
    }
  }

  lemma {:induction false} EarliestFits(p: Plan, from: nat)
    requires PlanOk(p) && Realizable(p) && from < |p.edges|
    ensures Fit(p, Earliest(p, from))
  {
    var times := Earliest(p, from);
    forall a: nat | a < |p.edges| && p.edges[a].Some?
      ensures times[a] >= times[p.counted[p.edges[a].value].at] + Capped(p.counted[p.edges[a].value].rank)
    {
      var c := p.counted[p.edges[a].value];
      assert c.at < a && Capped(c.rank) <= CAP;
      if from <= c.at {
        assert Lead(p, from, a) >= Lead(p, from, c.at) + Capped(c.rank);
      } else if from <= a {
        LeadGrows(p, from, a, a);
      }
    }
  }

  /** A gap is safe when the readings are in order and the lead between them is at least the block. */
  ghost predicate Safe(p: Plan, x: nat)
    requires PlanOk(p) && x + 1 < |p.counted|
  {
    var prev, next := p.counted[x], p.counted[x + 1];
    prev.at < next.at && Lead(p, prev.at, next.at) >= Capped(prev.rank)
  }

  /** For every schedule: it is slowed down by every clock that admits it, that is each failure after the fifth
      comes at least the block of the one before it later, if and only if every such pair is safe. A schedule that
      is not realizable is admitted by no clock. */
  lemma {:induction false} SlowedDownIff(moves: seq<Move>)
    requires CountsOf(moves) <= FITS + 4
    ensures PlanOk(PlanOf(moves))
    ensures Realizable(PlanOf(moves)) ==>
      ((forall times: seq<int> | |times| == |moves| && Clock(times) && Admits(Timed(moves, times)) ::
          SlowedDown(Timed(moves, times)))
       <==> (forall g: nat | g < |PlanOf(moves).gaps| :: Safe(PlanOf(moves), PlanOf(moves).gaps[g])))
    ensures !Realizable(PlanOf(moves)) ==>
      forall times: seq<int> | |times| == |moves| && Clock(times) :: !Admits(Timed(moves, times))
  {
    PlanIsOk(moves);
    var p := PlanOf(moves);
    hide PlanOf, CountsOf, AskingOk, Admits, SlowedDown, Safe, Fit, GapsKept, Clock, Realizable;
    forall times: seq<int> | |times| == |moves| && Clock(times)
      ensures Admits(Timed(moves, times)) <==> Fit(p, times)
      ensures Admits(Timed(moves, times)) ==> (SlowedDown(Timed(moves, times)) <==> GapsKept(p, times))
      ensures Admits(Timed(moves, times)) ==> Realizable(p)
    {
      ExactAtEnd(moves, times);
      if Fit(p, times) { FitRealizes(p, times); }
    }
    if forall g: nat | g < |p.gaps| :: Safe(p, p.gaps[g]) {
      forall times: seq<int> | |times| == |moves| && Clock(times) && Admits(Timed(moves, times))
        ensures SlowedDown(Timed(moves, times))
      {
        SafeKeeps(p, times);
      }
    } else if Realizable(p) {
      var g: nat :| g < |p.gaps| && !Safe(p, p.gaps[g]);
      var times := UnsafeClock(p, g);
      assert Admits(Timed(moves, times)) && !SlowedDown(Timed(moves, times));
    }
  }

  lemma ExactAtEnd(moves: seq<Move>, times: seq<int>)
    requires |times| == |moves| && Clock(times) && CountsOf(moves) <= FITS + 4
    ensures PlanOk(PlanOf(moves)) && |PlanOf(moves).edges| == |moves| &&
        Exact(PlanOf(moves), times, Timed(moves, times))
  {
    hide PlanOf, Exact, Timed, CountsOf;
    assert moves[..|moves|] == moves && times[..|moves|] == times;
    PlanIsExact(moves, times, |moves|);
  }

  lemma {:induction false} FitRealizes(p: Plan, times: seq<int>)
    requires PlanOk(p) && |p.edges| <= |times| && Clock(times) && Fit(p, times)
    ensures Realizable(p)
  {
    forall a: nat | a < |p.edges| && p.edges[a].Some? ensures p.counted[p.edges[a].value].at < a {
      CappedGrows(5, p.counted[p.edges[a].value].rank);
    }
  }

  lemma {:induction false} SafeKeeps(p: Plan, times: seq<int>)
    requires PlanOk(p) && |p.edges| <= |times| && Clock(times) && Fit(p, times)
    requires forall g: nat | g < |p.gaps| :: Safe(p, p.gaps[g])
    ensures GapsKept(p, times)
  {
    hide Capped, Lead, Fit, Clock;
    forall g: nat | g < |p.gaps| ensures GapKept(p, times, p.gaps[g]) {
      var x := p.gaps[g];
      assert Safe(p, x);
      LeadIsForced(p, times, p.counted[x].at, p.counted[x + 1].at);
    }
  }

  lemma {:induction false} UnsafeClock(p: Plan, g: nat) returns (times: seq<int>)
    requires PlanOk(p) && Realizable(p) && g < |p.gaps| && !Safe(p, p.gaps[g])
    ensures |times| == |p.edges| && Clock(times) && Fit(p, times) && !GapsKept(p, times)
  {
    var x := p.gaps[g];
    var from := p.counted[x].at;
    times := Earliest(p, from);
    EarliestClock(p, from);
    EarliestFits(p, from);
    assert Capped(p.counted[x].rank) > 0 by { CappedGrows(5, p.counted[x].rank); }
    hide Capped, Fit, Realizable, AskingOk;
    assert !GapKept(p, times, x);
  }

  // ---- the same when failures are counted in the order of their readings ----

  ghost predicate InOrder(p: Plan) {
    forall x: nat, y: nat | x < y < |p.counted| :: p.counted[x].at < p.counted[y].at
  }

  /** Some request that was let in while the x-th counted failure was the last one read the clock before the next
      failure did. */
  ghost predicate LetInBetween(p: Plan, x: nat)
    requires x + 1 < |p.counted|
  {
    exists a: nat :: p.counted[x].at < a <= p.counted[x + 1].at && a < |p.edges| && p.edges[a] == Some(x)
  }

  /** That is enough in every schedule. */
  lemma {:induction false} LetInIsSafe(p: Plan, x: nat)
    requires PlanOk(p) && x + 1 < |p.counted| && LetInBetween(p, x)
    ensures Safe(p, x)
  {
    var prev, next := p.counted[x], p.counted[x + 1];
    var a: nat :| prev.at < a <= next.at && a < |p.edges| && p.edges[a] == Some(x);
    LeadGrows(p, prev.at, a, next.at);
    hide Capped;
    assert Lead(p, prev.at, a) >= Capped(prev.rank);
    hide Lead;
  }

  /** And it is needed when failures are counted in the order of their readings. */
  lemma {:induction false} InOrderSafeIff(p: Plan, x: nat)
    requires PlanOk(p) && Realizable(p) && InOrder(p) && x + 1 < |p.counted| && p.counted[x].rank >= 5
    ensures Safe(p, x) <==> LetInBetween(p, x)
  {
    if LetInBetween(p, x) {
      LetInIsSafe(p, x);
      hide Safe;
    } else {
      NoLead(p, x, p.counted[x + 1].at);
      CappedGrows(5, p.counted[x].rank);
      hide Lead, Capped;
    }
  }

  lemma {:induction false} NoLead(p: Plan, x: nat, i: nat)
    requires PlanOk(p) && Realizable(p) && InOrder(p) && x + 1 < |p.counted| && !LetInBetween(p, x)
    requires p.counted[x].at <= i <= p.counted[x + 1].at
    ensures Lead(p, p.counted[x].at, i) == 0
    decreases i
  {
    hide Capped;
    var from := p.counted[x].at;
    if i > from {
      NoLead(p, x, i - 1);
      if p.edges[i].Some? {
        var v := p.edges[i].value;
        assert v != x;
        if v < x { assert p.counted[v].at < from; }
      }
    }
  }

  /** So such a schedule is slowed down by every clock that admits it if and only if, after each failure from the
      fifth on, some request let in while it was the last reads the clock no later than the next one does. */
  lemma {:induction false} InOrderSlowedDownIff(moves: seq<Move>)
    requires CountsOf(moves) <= FITS + 4
    requires InOrder(PlanOf(moves))
    ensures PlanOk(PlanOf(moves))
    ensures Realizable(PlanOf(moves)) ==>
      ((forall times: seq<int> | |times| == |moves| && Clock(times) && Admits(Timed(moves, times)) ::
          SlowedDown(Timed(moves, times)))
      <==> (forall g: nat | g < |PlanOf(moves).gaps| :: LetInBetween(PlanOf(moves), PlanOf(moves).gaps[g])))
  {
    SlowedDownIff(moves);
    var p := PlanOf(moves);
    hide PlanOf, CountsOf, Admits, SlowedDown, Safe, LetInBetween, Clock, Realizable, InOrder;
    forall g: nat | Realizable(p) && g < |p.gaps| ensures Safe(p, p.gaps[g]) <==> LetInBetween(p, p.gaps[g]) {
      InOrderSafeIff(p, p.gaps[g]);
    }
  }
}
