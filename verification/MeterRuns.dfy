/** The traffic ledger over whole runs: nothing is counted twice, lost or invented, whatever is re-sent, split or
    deleted. */
module MeterRuns {
  import opened Prelude
  import opened Records
  import opened Meters

  // ---- sums over a finite map ----

  ghost function SumMap(m: map<Id, nat>): nat {
    if m == map[] then 0
    else
      var k :| k in m;
      m[k] + SumMap(m - {k})
  }

  lemma {:induction false} SumWithout(m: map<Id, nat>, k: Id)
    requires k in m
    ensures SumMap(m) == m[k] + SumMap(m - {k})
    decreases |m|
  {
    var c: Id :| c in m && SumMap(m) == m[c] + SumMap(m - {c});
    if c != k {
      SumWithout(m - {c}, k);
      SumWithout(m - {k}, c);
      assert m - {c} - {k} == m - {k} - {c};
    }
  }

  lemma SumAfterUpdate(m: map<Id, nat>, k: Id, v: nat)
    ensures SumMap(m[k := v]) == SumMap(m) - (if k in m then m[k] else 0) + v
  {
    SumWithout(m[k := v], k);
    assert m[k := v] - {k} == m - {k};
    if k in m { SumWithout(m, k); } else { assert m - {k} == m; }
  }

  function At(m: map<Id, nat>, k: Id): nat {
    if k in m then m[k] else 0
  }

  lemma SumRemove(m: map<Id, nat>, k: Id)
    ensures SumMap(m) == At(m, k) + SumMap(m - {k})
    ensures forall i :: At(m - {k}, i) == if i == k then 0 else At(m, i)
  {
    if k in m { SumWithout(m, k); } else { assert m - {k} == m; }
  }

  lemma RemoveBoth(m: map<Id, nat>, m': map<Id, nat>, k: Id)
    requires forall i :: At(m, i) == At(m', i)
    ensures SumMap(m) - SumMap(m - {k}) == SumMap(m') - SumMap(m' - {k})
    ensures forall i :: At(m - {k}, i) == At(m' - {k}, i)
  {
    SumRemove(m, k);
    SumRemove(m', k);
    hide SumMap, At;
  }

  /** Keys that carry zero do not matter. */
  lemma {:induction false} SumIgnoresZeros(m: map<Id, nat>, m': map<Id, nat>)
    requires forall k :: At(m, k) == At(m', k)
    ensures SumMap(m) == SumMap(m')
    decreases |m| + |m'|, if m == map[] then 1 else 0
  {
    hide SumMap, At;
    if m != map[] {
      var k :| k in m;
      RemoveBoth(m, m', k);
      Shrinks(m, m', k);
      SumIgnoresZeros(m - {k}, m' - {k});
    } else if m' != map[] {
      SumIgnoresZeros(m', m);
    }
  }

  lemma Shrinks(m: map<Id, nat>, m': map<Id, nat>, k: Id)
    requires k in m
    ensures |m - {k}| + |m' - {k}| < |m| + |m'|
  {
  }

  // ---- runs ----

  datatype Step = Enrol(id: Id, record: Record) | Batch(id: Id, deltas: seq<Option<Delta>>) | Drop(id: Id)

  /** The ledger with what it stands for: per identity, the deltas credited since it was enrolled, those of its earlier
      enrolments, and its acknowledgement at each deletion. */
  datatype Books = Books(ledger: Ledger, credited: map<Id, seq<Delta>>, frozen: map<Id, seq<Delta>>,
      deletions: map<Id, seq<nat>>)

  const OPENED := Books(EMPTY, map[], map[], map[])

  function Or<T>(m: map<Id, seq<T>>, id: Id): seq<T> {
    if id in m then m[id] else []
  }

  function Next(b: Books, step: Step): Books {
    match step
    case Enrol(id, record) => b.(ledger := b.ledger.(instances := b.ledger.instances[id := record]))
    case Batch(id, deltas) =>
      var (l, r) := ApplyBatch(b.ledger, id, deltas);
      if r.Rejected? then b
      else b.(ledger := l, credited := b.credited[id := Or(b.credited, id) + Credits(AckOf(b.ledger, id), deltas)])
    case Drop(id) =>
      if id !in b.ledger.instances then b
      else Books(DeleteInstance(b.ledger, id), b.credited[id := []],
                 b.frozen[id := Or(b.frozen, id) + Or(b.credited, id)],
                 b.deletions[id := Or(b.deletions, id) + [AckOf(b.ledger, id)]])
  }

  function Run(steps: seq<Step>): Books {
    if steps == [] then OPENED else Next(Run(steps[..|steps| - 1]), steps[|steps| - 1])
  }

  function UpBy(m: map<Id, seq<Delta>>): map<Id, nat> {
    map id | id in m :: Uplink(m[id])
  }

  function DownBy(m: map<Id, seq<Delta>>): map<Id, nat> {
    map id | id in m :: Downlink(m[id])
  }

  ghost predicate CreditedOnce(deltas: seq<Delta>, ack: uint64) {
    |deltas| == ack && forall k: nat | k < |deltas| :: deltas[k].sequence == k + 1
  }

  /** The totals are the credited amounts, enrolled and frozen; the credits of an identity are its sequences 1 to
      ack, one each; only enrolled identities have an acknowledgement. */
  ghost predicate Balanced(b: Books) {
    && b.ledger.usage.uplink == SumMap(UpBy(b.credited)) + SumMap(UpBy(b.frozen))
    && b.ledger.usage.downlink == SumMap(DownBy(b.credited)) + SumMap(DownBy(b.frozen))
    && (forall id :: CreditedOnce(Or(b.credited, id), AckOf(b.ledger, id)))
    && b.ledger.acks.Keys <= b.ledger.instances.Keys
  }

  lemma {:induction false} ScanCredits(ack: uint64, usage: Usage, deltas: seq<Option<Delta>>)
    requires ScanBatch(ack, usage, deltas).Scanned?
    ensures
      var c := Credits(ack, deltas);
      var r := ScanBatch(ack, usage, deltas);
      && r.ack == ack + |c|
      && r.usage.uplink == usage.uplink + Uplink(c) && r.usage.downlink == usage.downlink + Downlink(c)
      && forall k: nat | k < |c| :: c[k].sequence == ack + 1 + k && Some(c[k]) in deltas
    decreases |deltas|
  {
    if deltas != [] {
      var d := deltas[0].value;
      if d.sequence <= ack {
        ScanCredits(ack, usage, deltas[1..]);
      } else if d.sequence == Succ(ack) {
        SuccNeverWraps(ack, d.sequence);
        ScanCredits(d.sequence, Add(usage, d), deltas[1..]);
        SumsFromFront(d, Credits(d.sequence, deltas[1..]));
      }
    }
  }

  lemma {:induction false} SumsAppend(a: seq<Delta>, b: seq<Delta>)
    ensures Uplink(a + b) == Uplink(a) + Uplink(b) && Downlink(a + b) == Downlink(a) + Downlink(b)
  {
    if b == [] {
      assert a + b == a;
    } else {
      var n := |b| - 1;
      assert (a + b)[..|a| + n] == a + b[..n];
      SumsAppend(a, b[..n]);
    }
  }

  lemma UpdatedBy(m: map<Id, seq<Delta>>, id: Id, deltas: seq<Delta>)
    ensures UpBy(m[id := deltas]) == UpBy(m)[id := Uplink(deltas)]
    ensures DownBy(m[id := deltas]) == DownBy(m)[id := Downlink(deltas)]
  {
    hide Uplink, Downlink;
  }

  /** Replacing one entry moves the sums by the difference. */
  lemma SumsReplace(m: map<Id, seq<Delta>>, id: Id, deltas: seq<Delta>)
    ensures SumMap(UpBy(m[id := deltas])) == SumMap(UpBy(m)) - Uplink(Or(m, id)) + Uplink(deltas)
    ensures SumMap(DownBy(m[id := deltas])) == SumMap(DownBy(m)) - Downlink(Or(m, id)) + Downlink(deltas)
  {
    assert Uplink([]) == 0 && Downlink([]) == 0;
    hide Uplink, Downlink, SumMap;
    SumAfterUpdate(UpBy(m), id, Uplink(deltas));
    SumAfterUpdate(DownBy(m), id, Downlink(deltas));
    UpdatedBy(m, id, deltas);
  }

  lemma BatchBalanced(b: Books, id: Id, deltas: seq<Option<Delta>>)
    requires Balanced(b)
    ensures Balanced(Next(b, Batch(id, deltas)))
  {
    hide Uplink, Downlink, SumMap, UpBy, DownBy, ScanBatch, Credits;
    if ApplyBatch(b.ledger, id, deltas).1.Acknowledged? {
      var b' := Next(b, Batch(id, deltas));
      var ack, c, kept := AckOf(b.ledger, id), Credits(AckOf(b.ledger, id), deltas), Or(b.credited, id);
      ScanCredits(ack, b.ledger.usage, deltas);
      SumsAppend(kept, c);
      SumsReplace(b.credited, id, kept + c);
      assert CreditedOnce(kept, ack);
      forall i ensures CreditedOnce(Or(b'.credited, i), AckOf(b'.ledger, i)) {
        assert CreditedOnce(Or(b.credited, i), AckOf(b.ledger, i));
      }
    }
  }

  lemma DropBalanced(b: Books, id: Id)
    requires Balanced(b)
    ensures Balanced(Next(b, Drop(id)))
  {
    hide SumMap, UpBy, DownBy;
    if id in b.ledger.instances {
      var b' := Next(b, Drop(id));
      SumsReplace(b.credited, id, []);
      SumsAppend(Or(b.frozen, id), Or(b.credited, id));
      SumsReplace(b.frozen, id, Or(b.frozen, id) + Or(b.credited, id));
      forall i ensures CreditedOnce(Or(b'.credited, i), AckOf(b'.ledger, i)) {
        assert CreditedOnce(Or(b.credited, i), AckOf(b.ledger, i));
      }
    }
  }

  /** Conservation over every run of enrolments, batches and deletions of any number of instances. */
  lemma {:induction false} TrafficConserved(steps: seq<Step>)
    ensures Balanced(Run(steps))
  {
    if steps != [] {
      var b := Run(steps[..|steps| - 1]);
      TrafficConserved(steps[..|steps| - 1]);
      match steps[|steps| - 1] {
        case Enrol(id, record) =>
        case Batch(id, deltas) => BatchBalanced(b, id, deltas);
        case Drop(id) => DropBalanced(b, id);
      }
    }
  }

  /** Nothing is invented: every credited delta was in a batch of that instance. */
  lemma {:induction false} CreditsWereSent(steps: seq<Step>, id: Id, d: Delta)
    requires d in Or(Run(steps).credited, id) || d in Or(Run(steps).frozen, id)
    ensures exists step :: step in steps && step.Batch? && step.id == id && Some(d) in step.deltas
  {
    if steps != [] {
      var n := |steps| - 1;
      var b, step := Run(steps[..n]), steps[n];
      if d in Or(b.credited, id) || d in Or(b.frozen, id) {
        CreditsWereSent(steps[..n], id, d);
        var earlier :| earlier in steps[..n] && earlier.Batch? && earlier.id == id && Some(d) in earlier.deltas;
        assert earlier in steps;
      } else if step.Batch? && ApplyBatch(b.ledger, step.id, step.deltas).1.Acknowledged? {
        ScanCredits(AckOf(b.ledger, step.id), b.ledger.usage, step.deltas);
        assert step in steps;
      }
    }
  }

  // ---- who is enrolled ----

  /** The n-th step enrolled `id` and none since has deleted or enrolled it. */
  ghost predicate EnrolledAt(steps: seq<Step>, id: Id, n: nat) {
    && n < |steps| && steps[n].Enrol? && steps[n].id == id
    && forall j: nat | n < j < |steps| :: !(steps[j].Enrol? && steps[j].id == id) && steps[j] != Drop(id)
  }

  /** An instance has a record exactly when the last enrolment or deletion of it was an enrolment, and it is that
      one's; exactly then a batch of it is not answered with NotFound. */
  lemma {:induction false} EnrolledIff(steps: seq<Step>, id: Id, deltas: seq<Option<Delta>>)
    ensures
      var l := Run(steps).ledger;
      && (id in l.instances <==> exists n: nat :: EnrolledAt(steps, id, n))
      && (forall n: nat | EnrolledAt(steps, id, n) :: id in l.instances && l.instances[id] == steps[n].record)
      && (id !in l.instances <==> ApplyBatch(l, id, deltas).1 == Rejected(NotFound))
      && (id !in l.instances ==> ApplyBatch(l, id, deltas).0 == l)
  {
    RecordIsLast(steps, id);
    hide Run, EnrolledAt;
    NeverNotFound(AckOf(Run(steps).ledger, id), Run(steps).ledger.usage, deltas);
  }

  lemma {:induction false} NeverNotFound(ack: uint64, usage: Usage, deltas: seq<Option<Delta>>)
    ensures ScanBatch(ack, usage, deltas) != Failed(NotFound)
    decreases |deltas|
  {
    if deltas != [] && deltas[0].Some? {
      NeverNotFound(ack, usage, deltas[1..]);
      var d := deltas[0].value;
      if Fits(usage, d) { NeverNotFound(d.sequence, Add(usage, d), deltas[1..]); }
    }
  }

  lemma {:induction false} RecordIsLast(steps: seq<Step>, id: Id)
    ensures
      var l := Run(steps).ledger;
      && (id in l.instances <==> exists n: nat :: EnrolledAt(steps, id, n))
      && (forall n: nat | EnrolledAt(steps, id, n) :: id in l.instances && l.instances[id] == steps[n].record)
  {
    if steps != [] {
      var k := |steps| - 1;
      RecordIsLast(steps[..k], id);
      StepEnrols(Run(steps[..k]), steps[k], id);
      hide Next;
      assert forall n: nat | n < k && !(steps[k].Enrol? && steps[k].id == id) && steps[k] != Drop(id) ::
          EnrolledAt(steps, id, n) <==> EnrolledAt(steps[..k], id, n);
      if steps[k].Enrol? && steps[k].id == id { assert EnrolledAt(steps, id, k); }
      if n: nat :| EnrolledAt(steps[..k], id, n) {
        assert id in Run(steps[..k]).ledger.instances;
      }
    }
  }

  lemma StepEnrols(b: Books, step: Step, id: Id)
    ensures
      var m, m' := b.ledger.instances, Next(b, step).ledger.instances;
      && (step.Enrol? && step.id == id ==> id in m' && m'[id] == step.record)
      && (step == Drop(id) ==> id !in m')
      && (!(step.Enrol? && step.id == id) && step != Drop(id) ==>
            (id in m <==> id in m') && (id in m ==> m'[id] == m[id]))
  {
    hide ScanBatch, Credits;
  }

  // ---- sending again, and sending in parts ----

  lemma {:induction false} ScanAgain(ack: uint64, usage: Usage, deltas: seq<Option<Delta>>, later: Usage)
    requires ScanBatch(ack, usage, deltas).Scanned?
    ensures ScanBatch(ack, usage, deltas).ack >= ack
    ensures ScanBatch(ScanBatch(ack, usage, deltas).ack, later, deltas) ==
        Scanned(ScanBatch(ack, usage, deltas).ack, later)
    decreases |deltas|
  {
    if deltas != [] {
      var d := deltas[0].value;
      if d.sequence <= ack {
        ScanAgain(ack, usage, deltas[1..], later);
      } else {
        SuccNeverWraps(ack, d.sequence);
        if d.sequence == ack + 1 {
          ScanAgain(d.sequence, Add(usage, d), deltas[1..], later);
        }
      }
    }
  }

  /** A batch that is sent again changes nothing and gets the same answer, whatever the first answer was. */
  lemma ReplayChangesNothing(l: Ledger, id: Id, deltas: seq<Option<Delta>>)
    ensures ApplyBatch(ApplyBatch(l, id, deltas).0, id, deltas) == ApplyBatch(l, id, deltas)
  {
    if ApplyBatch(l, id, deltas).1.Acknowledged? {
      var first := ScanBatch(AckOf(l, id), l.usage, deltas);
      ScanAgain(AckOf(l, id), l.usage, deltas, first.usage);
      assert l.acks[id := first.ack][id := first.ack] == l.acks[id := first.ack];
    }
  }

  /** The loop reached the end of the batch instead of stopping at a gap. */
  predicate Gapless(ack: uint64, deltas: seq<Option<Delta>>)
    requires NoNil(deltas)
  {
    Stop(ack, deltas) == |deltas|
  }

  lemma {:induction false} ScanSplits(ack: uint64, usage: Usage, front: seq<Option<Delta>>, back: seq<Option<Delta>>)
    requires NoNil(front) && ScanBatch(ack, usage, front).Scanned?
    ensures
      var mid := ScanBatch(ack, usage, front);
      ScanBatch(ack, usage, front + back) == if Gapless(ack, front) then ScanBatch(mid.ack, mid.usage, back) else mid
    decreases |front|
  {
    if front == [] {
      assert front + back == back;
    } else {
      assert (front + back)[1..] == front[1..] + back;
      var d := front[0].value;
      if d.sequence <= ack {
        ScanSplits(ack, usage, front[1..], back);
      } else if d.sequence == Succ(ack) {
        ScanSplits(d.sequence, Add(usage, d), front[1..], back);
      }
    }
  }

  lemma {:induction false} ScanFailsEarly(ack: uint64, usage: Usage, front: seq<Option<Delta>>,
      back: seq<Option<Delta>>)
    requires ScanBatch(ack, usage, front).Failed?
    ensures ScanBatch(ack, usage, front + back) == ScanBatch(ack, usage, front)
    decreases |front|
  {
    assert (front + back)[1..] == front[1..] + back;
    if front[0].Some? {
      var d := front[0].value;
      if d.sequence <= ack {
        ScanFailsEarly(ack, usage, front[1..], back);
      } else if Fits(usage, d) {
        ScanFailsEarly(d.sequence, Add(usage, d), front[1..], back);
      }
    }
  }

  /** The first nil entry fails the batch, changing nothing, exactly when the loop reaches it: when what comes
      before neither overflows nor has a gap. Otherwise it and everything after it might as well not be there. */
  lemma NilOnlyIfMet(l: Ledger, id: Id, front: seq<Option<Delta>>, rest: seq<Option<Delta>>)
    requires id in l.instances && NoNil(front)
    ensures ApplyBatch(l, id, front + ([None] + rest)) ==
      if ApplyBatch(l, id, front).1.Rejected? || !Gapless(AckOf(l, id), front) then ApplyBatch(l, id, front)
      else (l, Rejected(NilDelta))
  {
    var back := [None] + rest;
    if ScanBatch(AckOf(l, id), l.usage, front).Failed? {
      ScanFailsEarly(AckOf(l, id), l.usage, front, back);
    } else {
      ScanSplits(AckOf(l, id), l.usage, front, back);
    }
  }

  lemma {:induction false} AckNeverFalls(ack: uint64, usage: Usage, deltas: seq<Option<Delta>>)
    requires ScanBatch(ack, usage, deltas).Scanned?
    ensures ScanBatch(ack, usage, deltas).ack >= ack
    decreases |deltas|
  {
    ScanAgain(ack, usage, deltas, usage);
  }

  lemma AckTwice(acks: map<Id, uint64>, id: Id, a: uint64, b: uint64)
    ensures acks[id := a][id := b] == acks[id := b]
  {
  }

  /** Splitting a batch: as long as no part fails, the two parts acknowledge at least as much as the whole, and
      leave the very same ledger when the first part has no gap. */
  lemma SplitKeepsUp(l: Ledger, id: Id, front: seq<Option<Delta>>, back: seq<Option<Delta>>)
    requires id in l.instances && NoNil(front)
    requires ApplyBatch(l, id, front).1.Acknowledged? &&
        ApplyBatch(ApplyBatch(l, id, front).0, id, back).1.Acknowledged?
    ensures ApplyBatch(l, id, front + back).1.Acknowledged?
    ensures ApplyBatch(ApplyBatch(l, id, front).0, id, back).1.ack >= ApplyBatch(l, id, front + back).1.ack
    ensures Gapless(AckOf(l, id), front) ==>
      ApplyBatch(ApplyBatch(l, id, front).0, id, back) == ApplyBatch(l, id, front + back)
  {
    var mid := ScanBatch(AckOf(l, id), l.usage, front);
    ScanSplits(AckOf(l, id), l.usage, front, back);
    AckTwice(l.acks, id, mid.ack, ScanBatch(mid.ack, mid.usage, back).ack);
    AckNeverFalls(mid.ack, mid.usage, back);
  }

  // ---- the totals depend only on how far each instance got ----

  /** The agent's own log: the delta of each sequence of each instance. */
  type Log = (Id, nat) -> Delta

  /** Batches quote that log. */
  ghost predicate Quotes(log: Log, steps: seq<Step>) {
    forall step | step in steps && step.Batch? ::
      forall d | Some(d) in step.deltas :: d == log(step.id, d.sequence)
  }

  function Upto(log: Log, id: Id, n: nat): seq<Delta> {
    if n == 0 then [] else Upto(log, id, n - 1) + [log(id, n)]
  }

  function UptoEach(log: Log, id: Id, ns: seq<nat>): seq<Delta> {
    if ns == [] then [] else UptoEach(log, id, ns[..|ns| - 1]) + Upto(log, id, ns[|ns| - 1])
  }

  lemma {:induction false} CreditsAreTheLog(log: Log, id: Id, deltas: seq<Delta>)
    requires forall k: nat | k < |deltas| :: deltas[k].sequence == k + 1 && deltas[k] == log(id, k + 1)
    ensures deltas == Upto(log, id, |deltas|)
  {
    if deltas != [] {
      CreditsAreTheLog(log, id, deltas[..|deltas| - 1]);
    }
  }

  /** Credits and frozen deltas are functions of the log, the acknowledgements and the acknowledgements at deletion. */
  lemma CreditsFromLog(log: Log, steps: seq<Step>, id: Id)
    requires Quotes(log, steps)
    ensures Or(Run(steps).credited, id) == Upto(log, id, AckOf(Run(steps).ledger, id))
  {
    hide Next, SumMap, UpBy, DownBy, Upto;
    var b := Run(steps);
    TrafficConserved(steps);
    assert CreditedOnce(Or(b.credited, id), AckOf(b.ledger, id));
    forall k: nat | k < |Or(b.credited, id)|
      ensures Or(b.credited, id)[k] == log(id, k + 1)
    {
      CreditsWereSent(steps, id, Or(b.credited, id)[k]);
    }
    CreditsAreTheLog(log, id, Or(b.credited, id));
  }

  lemma DropFreezes(b: Books, step: Step, id: Id)
    ensures
      var b' := Next(b, step);
      if step == Drop(id) && id in b.ledger.instances
      then && Or(b'.frozen, id) == Or(b.frozen, id) + Or(b.credited, id)
           && Or(b'.deletions, id) == Or(b.deletions, id) + [AckOf(b.ledger, id)]
      else Or(b'.frozen, id) == Or(b.frozen, id) && Or(b'.deletions, id) == Or(b.deletions, id)
  {
    hide ApplyBatch, Credits;
  }

  lemma NoneFrozen(id: Id)
    ensures Or(OPENED.frozen, id) == [] && Or(OPENED.deletions, id) == []
  {
  }

  lemma {:induction false} FrozenFromLog(log: Log, steps: seq<Step>, id: Id)
    requires Quotes(log, steps)
    ensures Or(Run(steps).frozen, id) == UptoEach(log, id, Or(Run(steps).deletions, id))
  {
    hide Next, Upto, Or;
    if steps == [] {
      NoneFrozen(id);
    } else {
      var n := |steps| - 1;
      var before, step := Run(steps[..n]), steps[n];
      FrozenFromLog(log, steps[..n], id);
      DropFreezes(before, step, id);
      if step == Drop(id) && id in before.ledger.instances {
        CreditsFromLog(log, steps[..n], id);
        var ns := Or(before.deletions, id);
        assert (ns + [AckOf(before.ledger, id)])[..|ns|] == ns;
      }
    }
  }

  /** Two runs that quote the same logs and reach the same acknowledgements, now and at each deletion, have the
      same totals, however their batches were cut, ordered, repeated or interleaved. */
  lemma TotalsArePathIndependent(log: Log, steps: seq<Step>, steps': seq<Step>)
    requires Quotes(log, steps) && Quotes(log, steps')
    requires forall id :: AckOf(Run(steps).ledger, id) == AckOf(Run(steps').ledger, id)
    requires forall id :: Or(Run(steps).deletions, id) == Or(Run(steps').deletions, id)
    ensures Run(steps).ledger.usage == Run(steps').ledger.usage
  {
    hide SumMap, UpBy, DownBy, Next, Upto, UptoEach, Quotes;
    var b, b' := Run(steps), Run(steps');
    TrafficConserved(steps);
    TrafficConserved(steps');
    forall id
      ensures Or(b.credited, id) == Or(b'.credited, id) && Or(b.frozen, id) == Or(b'.frozen, id)
    {
      CreditsFromLog(log, steps, id);
      CreditsFromLog(log, steps', id);
      FrozenFromLog(log, steps, id);
      FrozenFromLog(log, steps', id);
    }
    SameSums(b.credited, b'.credited);
    SameSums(b.frozen, b'.frozen);
  }

  lemma SameSums(m: map<Id, seq<Delta>>, m': map<Id, seq<Delta>>)
    requires forall id :: Or(m, id) == Or(m', id)
    ensures SumMap(UpBy(m)) == SumMap(UpBy(m')) && SumMap(DownBy(m)) == SumMap(DownBy(m'))
  {
    forall id
      ensures (if id in m then Uplink(m[id]) else 0) == (if id in m' then Uplink(m'[id]) else 0)
      ensures (if id in m then Downlink(m[id]) else 0) == (if id in m' then Downlink(m'[id]) else 0)
    {
      assert Or(m, id) == Or(m', id);
    }
    hide Uplink, Downlink;
    SumIgnoresZeros(UpBy(m), UpBy(m'));
    SumIgnoresZeros(DownBy(m), DownBy(m'));
  }
}
