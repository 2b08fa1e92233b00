/** The traffic ledger: batches of meter deltas are acknowledged contiguously and added once to one pair of totals. */
module Meters {
  import opened Prelude
  import opened Records

  datatype Delta = Delta(sequence: uint64, uplink: uint64, downlink: uint64)

  datatype Usage = Usage(uplink: uint64, downlink: uint64)

  datatype Error = NotFound | NilDelta | Overflow | Refused | Conflict

  datatype Ledger = Ledger(instances: map<Id, Record>, acks: map<Id, uint64>, usage: Usage)

  const EMPTY := Ledger(map[], map[], Usage(0, 0))

  /** A missing acknowledgement reads as zero. */
  function AckOf(l: Ledger, id: Id): uint64 {
    if id in l.acks then l.acks[id] else 0
  }

  // ---- one batch ----

  datatype Scan = Scanned(ack: uint64, usage: Usage) | Failed(error: Error)

  /** Go's `ack + 1` on a uint64. */
  function Succ(ack: uint64): uint64 {
    (ack + 1) % U64
  }

  function Fits(usage: Usage, d: Delta): bool {
    U64 - 1 - usage.uplink >= d.uplink && U64 - 1 - usage.downlink >= d.downlink
  }

  function Add(usage: Usage, d: Delta): Usage
    requires Fits(usage, d)
  {
    Usage(usage.uplink + d.uplink, usage.downlink + d.downlink)
  }

  /** The loop over a batch; a nil pointer is None. */
  function ScanBatch(ack: uint64, usage: Usage, deltas: seq<Option<Delta>>): Scan
    decreases |deltas|
  {
    if deltas == [] then Scanned(ack, usage)
    else
      match deltas[0]
      case None => Failed(NilDelta)
      case Some(d) =>
        if d.sequence <= ack then ScanBatch(ack, usage, deltas[1..])
        else if d.sequence != Succ(ack) then Scanned(ack, usage)
        else if !Fits(usage, d) then Failed(Overflow)
        else ScanBatch(d.sequence, Add(usage, d), deltas[1..])
  }

  datatype BatchResult = Acknowledged(ack: uint64) | Rejected(error: Error)

  /** The whole transaction: all of it or nothing. */
  function ApplyBatch(l: Ledger, id: Id, deltas: seq<Option<Delta>>): (Ledger, BatchResult) {
    if id !in l.instances then (l, Rejected(NotFound))
    else
      match ScanBatch(AckOf(l, id), l.usage, deltas)
      case Failed(error) => (l, Rejected(error))
      case Scanned(ack, usage) => (l.(acks := l.acks[id := ack], usage := usage), Acknowledged(ack))
  }

  function DeleteInstance(l: Ledger, id: Id): Ledger {
    l.(instances := l.instances - {id}, acks := l.acks - {id})
  }

  // ---- the store ----

  datatype Lookup = Found(record: Record) | Missing(error: Error)

  /** The attempts to delete from number `k` on; `rivals(k)` is the ledger whose commit makes attempt `k` conflict. */
  function DeleteTries(l: Ledger, id: Id, rivals: nat -> Option<Ledger>, k: nat): (Ledger, Lookup)
    requires k <= 8
    decreases 8 - k
  {
    if k == 8 then (l, Missing(Conflict))
    else if id !in l.instances then (l, Missing(NotFound))
    else
      match rivals(k)
      case None => (DeleteInstance(l, id), Found(l.instances[id]))
      case Some(rival) => DeleteTries(rival, id, rivals, k + 1)
  }

  /** The instance and meter keys of the database; a method is one call, its transactions serializable. */
  class Store {
    var instances: map<Id, Record>
    var acks: map<Id, uint64>
    var usage: Usage

    function View(): Ledger
      reads this
    {
      Ledger(instances, acks, usage)
    }

    constructor ()
      ensures View() == EMPTY
    {
      instances, acks, usage := map[], map[], Usage(0, 0);
    }

    method PutInstance(id: Id, record: Record)
      modifies this`instances
      ensures instances == old(instances)[id := record]
    {
      instances := instances[id := record];
    }

    /** After a commit conflict the record is looked up: a missing one means that the instance is not enrolled. */
    method AfterConflict(id: Id) returns (error: Error)
      ensures error == if id in instances then Conflict else NotFound
    {
      error := if id !in instances then NotFound else Conflict;
    }

    /** The transactions that won a commit conflict have left their ledger. */
    method Overtaken(rival: Ledger)
      modifies this
      ensures View() == rival
    {
      instances, acks, usage := rival.instances, rival.acks, rival.usage;
    }

    /** `mutate` returns None for the error that aborts the transaction; with a rival the commit conflicts, and the
        rival's ledger stands. */
    method UpdateInstance(id: Id, mutate: Record -> Option<Record>, rival: Option<Ledger>) returns (updated: Lookup)
      modifies this
      ensures id !in old(instances) ==> updated == Missing(NotFound) && View() == old(View())
      ensures id in old(instances) && mutate(old(instances)[id]).None? ==>
          updated == Missing(Refused) && View() == old(View())
      ensures id in old(instances) && mutate(old(instances)[id]).Some? && rival.None? ==>
        && updated == Found(mutate(old(instances)[id]).value)
        && View() == old(View()).(instances := old(instances)[id := updated.record])
      ensures id in old(instances) && mutate(old(instances)[id]).Some? && rival.Some? ==>
        && updated == Missing(if id in rival.value.instances then Conflict else NotFound)
        && View() == rival.value
    {
      if id !in instances {
        return Missing(NotFound);
      }
      var record := mutate(instances[id]);
      if record.None? {
        return Missing(Refused);
      }
      if rival.Some? {
        Overtaken(rival.value);
        var error := AfterConflict(id);
        return Missing(error);
      }
      instances := instances[id := record.value];
      return Found(record.value);
    }

    /** The transaction is tried eight times while commits conflict, each time on what the last rival left. */
    method Delete(id: Id, rivals: nat -> Option<Ledger>) returns (deleted: Lookup)
      modifies this
      ensures (View(), deleted) == DeleteTries(old(View()), id, rivals, 0)
    {
      for k := 0 to 8
        invariant DeleteTries(View(), id, rivals, k) == DeleteTries(old(View()), id, rivals, 0)
      {
        if id !in instances {
          return Missing(NotFound);
        }
        match rivals(k) {
          case None =>
            deleted := Found(instances[id]);
            instances := instances - {id};
            acks := acks - {id};
            return;
          case Some(rival) =>
            Overtaken(rival);
        }
      }
      return Missing(Conflict);
    }

    /** With a rival the commit of a batch that did not fail conflicts, and the rival's ledger stands. */
    method ApplyMeters(id: Id, deltas: seq<Option<Delta>>, rival: Option<Ledger>) returns (result: BatchResult)
      modifies this
      ensures rival.None? || ApplyBatch(old(View()), id, deltas).1.Rejected? ==>
        (View(), result) == ApplyBatch(old(View()), id, deltas)
      ensures rival.Some? && ApplyBatch(old(View()), id, deltas).1.Acknowledged? ==>
        && result == Rejected(if id in rival.value.instances then Conflict else NotFound)
        && View() == rival.value
    {
      if id !in instances {
        return Rejected(NotFound);
      }
      var acknowledged: uint64 := if id in acks then acks[id] else 0;
      var total := usage;
      var k := 0;
      while k < |deltas|
        invariant 0 <= k <= |deltas|
        invariant View() == old(View())
        invariant ScanBatch(AckOf(old(View()), id), old(usage), deltas) == ScanBatch(acknowledged, total, deltas[k..])
      {
        match deltas[k] {
          case None => return Rejected(NilDelta);
          case Some(d) =>
            if d.sequence > acknowledged {
              if d.sequence != (acknowledged + 1) % U64 {
                break;
              }
              if U64 - 1 - total.uplink < d.uplink || U64 - 1 - total.downlink < d.downlink {
                return Rejected(Overflow);
              }
              total := Usage(total.uplink + d.uplink, total.downlink + d.downlink);
              acknowledged := d.sequence;
            }
        }
        k := k + 1;
      }
      if rival.Some? {
        Overtaken(rival.value);
        var error := AfterConflict(id);
        return Rejected(error);
      }
      acks := acks[id := acknowledged];
      usage := total;
      return Acknowledged(acknowledged);
    }
  }

  // ---- what a deletion means ----

  /** The ledger that attempt `k` reads. */
  function Seen(l: Ledger, rivals: nat -> Option<Ledger>, k: nat): Ledger {
    if k == 0 || rivals(k - 1).None? then l else rivals(k - 1).value
  }

  /** Each attempt before `k` found the record and met a rival. */
  predicate Retried(l: Ledger, id: Id, rivals: nat -> Option<Ledger>, k: nat) {
    forall j: nat | j < k :: id in Seen(l, rivals, j).instances && rivals(j).Some?
  }

  /** Neither a record nor an acknowledgement of `id` is left, and everything else is as in `last`. */
  ghost predicate LacksOnly(end: Ledger, last: Ledger, id: Id) {
    && id !in end.instances && id !in end.acks && end.usage == last.usage
    && (forall i | i != id :: i in end.instances <==> i in last.instances)
    && (forall i | i != id :: i in end.acks <==> i in last.acks)
    && (forall i | i in end.instances :: end.instances[i] == last.instances[i])
    && (forall i | i in end.acks :: end.acks[i] == last.acks[i])
  }

  /** A record is deleted by exactly the first attempt that meets no rival, if no attempt until then missed it; else
      the ledger is the last rival's, and the error says whether the record was missing or all eight conflicted. */
  lemma {:induction false} DeleteContract(l: Ledger, id: Id, rivals: nat -> Option<Ledger>, k: nat)
    requires k <= 8 && Retried(l, id, rivals, k)
    ensures
      var last, (end, deleted) := Seen(l, rivals, k), DeleteTries(l, id, rivals, 0);
      && (k == 8 ==> deleted == Missing(Conflict) && end == last)
      && (k < 8 && id !in last.instances ==> deleted == Missing(NotFound) && end == last)
      && (k < 8 && id in last.instances && rivals(k).None? ==>
            deleted == Found(last.instances[id]) && LacksOnly(end, last, id))
  {
    TriesFrom(l, id, rivals, k);
  }

  lemma {:induction false} TriesFrom(l: Ledger, id: Id, rivals: nat -> Option<Ledger>, k: nat)
    requires k <= 8 && Retried(l, id, rivals, k)
    ensures DeleteTries(l, id, rivals, 0) == DeleteTries(Seen(l, rivals, k), id, rivals, k)
  {
    hide DeleteTries;
    if k > 0 {
      TriesFrom(l, id, rivals, k - 1);
      assert id in Seen(l, rivals, k - 1).instances && rivals(k - 1).Some?;
      hide Retried;
      TriesNext(Seen(l, rivals, k - 1), id, rivals, k - 1);
    }
  }

  lemma TriesNext(l: Ledger, id: Id, rivals: nat -> Option<Ledger>, k: nat)
    requires k < 8 && id in l.instances && rivals(k).Some?
    ensures DeleteTries(l, id, rivals, k) == DeleteTries(rivals(k).value, id, rivals, k + 1)
  {
  }

  // ---- what a batch means ----

  predicate NoNil(deltas: seq<Option<Delta>>) {
    forall k | 0 <= k < |deltas| :: deltas[k].Some?
  }

  function Max(a: uint64, b: uint64): uint64 {
    if a < b then b else a
  }

  /** The largest of `ack` and the first `n` sequences. */
  function RunningMax(ack: uint64, deltas: seq<Option<Delta>>, n: nat): uint64
    requires NoNil(deltas) && n <= |deltas|
  {
    if n == 0 then ack else Max(RunningMax(ack, deltas, n - 1), deltas[n - 1].value.sequence)
  }

  /** None of the first `n` sequences exceeds the maximum so far by more than one. */
  predicate Smooth(ack: uint64, deltas: seq<Option<Delta>>, n: nat)
    requires NoNil(deltas) && n <= |deltas|
  {
    forall k: nat | k < n :: deltas[k].value.sequence <= RunningMax(ack, deltas, k) + 1
  }

  /** `n` is the length of the longest smooth prefix. */
  predicate LongestSmooth(ack: uint64, deltas: seq<Option<Delta>>, n: nat)
    requires NoNil(deltas)
  {
    n <= |deltas| && Smooth(ack, deltas, n) && (n < |deltas| ==> !Smooth(ack, deltas, n + 1))
  }

  /** The first delta with this sequence. */
  function FirstWith(deltas: seq<Option<Delta>>, sequence: uint64): Option<Delta>
    requires NoNil(deltas)
  {
    if deltas == [] then None
    else if deltas[0].value.sequence == sequence then deltas[0]
    else FirstWith(deltas[1..], sequence)
  }

  function Uplink(deltas: seq<Delta>): nat {
    if deltas == [] then 0 else Uplink(deltas[..|deltas| - 1]) + deltas[|deltas| - 1].uplink
  }

  function Downlink(deltas: seq<Delta>): nat {
    if deltas == [] then 0 else Downlink(deltas[..|deltas| - 1]) + deltas[|deltas| - 1].downlink
  }

  /** The deltas a batch adds, ignoring overflow; a nil entry ends the batch. */
  function Credits(ack: uint64, deltas: seq<Option<Delta>>): seq<Delta>
    decreases |deltas|
  {
    if deltas == [] || deltas[0].None? then []
    else
      var d := deltas[0].value;
      if d.sequence <= ack then Credits(ack, deltas[1..])
      else if d.sequence != Succ(ack) then []
      else [d] + Credits(d.sequence, deltas[1..])
  }

  /** How many entries the loop looks at before it stops at a gap. */
  function Stop(ack: uint64, deltas: seq<Option<Delta>>): nat
    decreases |deltas|
    requires NoNil(deltas)
  {
    if deltas == [] then 0
    else
      var d := deltas[0].value;
      if d.sequence <= ack then 1 + Stop(ack, deltas[1..])
      else if d.sequence != Succ(ack) then 0
      else 1 + Stop(d.sequence, deltas[1..])
  }

  /** The comparison against a wrapped successor never decides anything: a larger sequence exists only below the
      last uint64. */
  lemma SuccNeverWraps(ack: uint64, sequence: uint64)
    requires sequence > ack
    ensures Succ(ack) == ack + 1
  {
  }

  lemma {:induction false} SumsFromFront(d: Delta, deltas: seq<Delta>)
    ensures Uplink([d] + deltas) == d.uplink + Uplink(deltas) && Downlink([d] + deltas) == d.downlink + Downlink(deltas)
  {
    if deltas == [] {
      assert [d] + deltas == [d] && [d][..0] == [];
    } else {
      var n := |deltas| - 1;
      assert ([d] + deltas)[..n + 1] == [d] + deltas[..n];
      SumsFromFront(d, deltas[..n]);
    }
  }

  /** The loop adds exactly the credited deltas, and fails exactly when their sum does not fit. */
  lemma {:induction false} ScanAddsCredits(ack: uint64, usage: Usage, deltas: seq<Option<Delta>>)
    decreases |deltas|
    requires NoNil(deltas)
    ensures ack + |Credits(ack, deltas)| < U64
    ensures
      var c := Credits(ack, deltas);
      ScanBatch(ack, usage, deltas) ==
        if usage.uplink + Uplink(c) < U64 && usage.downlink + Downlink(c) < U64
        then Scanned(ack + |c|, Usage(usage.uplink + Uplink(c), usage.downlink + Downlink(c)))
        else Failed(Overflow)
  {
    if deltas != [] {
      var d := deltas[0].value;
      if d.sequence <= ack {
        ScanAddsCredits(ack, usage, deltas[1..]);
      } else if d.sequence == Succ(ack) {
        SuccNeverWraps(ack, d.sequence);
        SumsFromFront(d, Credits(d.sequence, deltas[1..]));
        if Fits(usage, d) {
          ScanAddsCredits(d.sequence, Add(usage, d), deltas[1..]);
        } else {
          ScanAddsCredits(d.sequence, Usage(0, 0), deltas[1..]);
        }
      }
    }
  }

  lemma {:induction false} MaxOfTail(ack: uint64, deltas: seq<Option<Delta>>, n: nat)
    requires NoNil(deltas) && 0 < n <= |deltas|
    ensures RunningMax(ack, deltas, n) == RunningMax(Max(ack, deltas[0].value.sequence), deltas[1..], n - 1)
  {
    if n > 1 {
      MaxOfTail(ack, deltas, n - 1);
    }
  }

  lemma SmoothOfTail(ack: uint64, deltas: seq<Option<Delta>>, n: nat)
    requires NoNil(deltas) && 0 < n <= |deltas| && deltas[0].value.sequence <= ack + 1
    ensures Smooth(ack, deltas, n) <==> Smooth(Max(ack, deltas[0].value.sequence), deltas[1..], n - 1)
  {
    var ack' := Max(ack, deltas[0].value.sequence);
    forall k: nat | 0 < k < n
      ensures RunningMax(ack, deltas, k) == RunningMax(ack', deltas[1..], k - 1) && deltas[k] == deltas[1..][k - 1]
    {
      MaxOfTail(ack, deltas, k);
    }
    if Smooth(ack, deltas, n) {
      forall k: nat | k < n - 1 ensures deltas[1..][k].value.sequence <= RunningMax(ack', deltas[1..], k) + 1 {
        assert deltas[k + 1].value.sequence <= RunningMax(ack, deltas, k + 1) + 1;
      }
    }
    if Smooth(ack', deltas[1..], n - 1) {
      forall k: nat | k < n ensures deltas[k].value.sequence <= RunningMax(ack, deltas, k) + 1 {
        if k > 0 { assert deltas[1..][k - 1].value.sequence <= RunningMax(ack', deltas[1..], k - 1) + 1; }
      }
    }
  }

  /** An entry that the loop consumes extends a smooth prefix of the rest by one. */
  lemma ConsumedExtends(ack: uint64, deltas: seq<Option<Delta>>, n: nat)
    requires NoNil(deltas) && 0 < n <= |deltas| && deltas[0].value.sequence <= ack + 1
    requires LongestSmooth(Max(ack, deltas[0].value.sequence), deltas[1..], n - 1)
    ensures LongestSmooth(ack, deltas, n)
    ensures RunningMax(ack, deltas, n) == RunningMax(Max(ack, deltas[0].value.sequence), deltas[1..], n - 1)
  {
    hide Smooth, RunningMax;
    SmoothOfTail(ack, deltas, n);
    if n < |deltas| { SmoothOfTail(ack, deltas, n + 1); }
    MaxOfTail(ack, deltas, n);
  }

  lemma ConsumedStops(ack: uint64, deltas: seq<Option<Delta>>)
    requires NoNil(deltas) && deltas != [] && deltas[0].value.sequence <= ack + 1
    ensures
      var ack' := Max(ack, deltas[0].value.sequence);
      && Stop(ack, deltas) == 1 + Stop(ack', deltas[1..])
      && ack + |Credits(ack, deltas)| == ack' + |Credits(ack', deltas[1..])|
      && Stop(ack', deltas[1..]) <= |deltas| - 1
  {
    if deltas[0].value.sequence > ack { SuccNeverWraps(ack, deltas[0].value.sequence); }
    StopInside(Max(ack, deltas[0].value.sequence), deltas[1..]);
  }

  lemma {:induction false} StopInside(ack: uint64, deltas: seq<Option<Delta>>)
    requires NoNil(deltas)
    ensures Stop(ack, deltas) <= |deltas|
    decreases |deltas|
  {
    if deltas != [] {
      StopInside(ack, deltas[1..]);
      StopInside(deltas[0].value.sequence, deltas[1..]);
    }
  }

  /** At the end, or before an entry beyond the successor, the longest smooth prefix is empty and nothing is
      consumed. */
  lemma {:induction false} NothingConsumed(ack: uint64, deltas: seq<Option<Delta>>)
    requires NoNil(deltas) && (deltas == [] || deltas[0].value.sequence > ack + 1)
    ensures LongestSmooth(ack, deltas, 0) && RunningMax(ack, deltas, 0) == ack
    ensures Stop(ack, deltas) == 0 && Credits(ack, deltas) == []
  {
    if deltas != [] {
      SuccNeverWraps(ack, deltas[0].value.sequence);
      assert deltas[0].value.sequence > RunningMax(ack, deltas, 0) + 1;
    }
  }

  /** The loop stops at the end of the longest smooth prefix, having reached its maximum. */
  lemma {:induction false} StopsWhereSmoothEnds(ack: uint64, deltas: seq<Option<Delta>>)
    decreases |deltas|
    requires NoNil(deltas)
    ensures LongestSmooth(ack, deltas, Stop(ack, deltas))
    ensures ack + |Credits(ack, deltas)| == RunningMax(ack, deltas, Stop(ack, deltas))
  {
    hide Stop, Credits, LongestSmooth, RunningMax, Smooth;
    if deltas == [] || deltas[0].value.sequence > ack + 1 {
      NothingConsumed(ack, deltas);
    } else {
      StopsWhereSmoothEnds(Max(ack, deltas[0].value.sequence), deltas[1..]);
      ConsumedStops(ack, deltas);
      ConsumedExtends(ack, deltas, Stop(ack, deltas));
    }
  }

  /** The credited deltas carry the sequences after `ack` one by one, each the first of its sequence in the batch. */
  lemma {:induction false} CreditsInOrder(ack: uint64, deltas: seq<Option<Delta>>, k: nat)
    decreases |deltas|
    requires NoNil(deltas) && k < |Credits(ack, deltas)|
    ensures Credits(ack, deltas)[k].sequence == ack + 1 + k
    ensures FirstWith(deltas, ack + 1 + k) == Some(Credits(ack, deltas)[k])
  {
    ScanAddsCredits(ack, Usage(0, 0), deltas);
    var d := deltas[0].value;
    if d.sequence <= ack {
      CreditsInOrder(ack, deltas[1..], k);
    } else {
      SuccNeverWraps(ack, d.sequence);
      if k > 0 {
        CreditsInOrder(d.sequence, deltas[1..], k - 1);
      }
    }
  }

  /** The contract of a batch without nil entries, free of the loop: it consumes the longest prefix in which no
      sequence jumps past the maximum so far by more than one; the new acknowledgement is that maximum; every
      sequence in between is added exactly once, by the first delta that carries it; and it fails, changing
      nothing, exactly when the sums do not fit. */
  lemma BatchContract(l: Ledger, id: Id, deltas: seq<Option<Delta>>, n: nat)
    requires id in l.instances && NoNil(deltas) && LongestSmooth(AckOf(l, id), deltas, n)
    ensures
      var ack := AckOf(l, id);
      var ack' := RunningMax(ack, deltas, n);
      var c := Credits(ack, deltas);
      && ack <= ack' && |c| == ack' - ack
      && (forall k: nat | k < |c| :: c[k].sequence == ack + 1 + k && FirstWith(deltas, ack + 1 + k) == Some(c[k]))
      && ApplyBatch(l, id, deltas) ==
           if l.usage.uplink + Uplink(c) < U64 && l.usage.downlink + Downlink(c) < U64
           then (l.(acks := l.acks[id := ack'],
               usage := Usage(l.usage.uplink + Uplink(c), l.usage.downlink + Downlink(c))),
                 Acknowledged(ack'))
           else (l, Rejected(Overflow))
  {
    hide Smooth, NoNil, FirstWith, Uplink, Downlink;
    var ack := AckOf(l, id);
    StopsWhereSmoothEnds(ack, deltas);
    LongestIsUnique(ack, deltas, n, Stop(ack, deltas));
    ScanAddsCredits(ack, l.usage, deltas);
    forall k: nat | k < |Credits(ack, deltas)|
      ensures Credits(ack, deltas)[k].sequence == ack + 1 + k
      ensures FirstWith(deltas, ack + 1 + k) == Some(Credits(ack, deltas)[k])
    {
      CreditsInOrder(ack, deltas, k);
    }
  }

  lemma LongestIsUnique(ack: uint64, deltas: seq<Option<Delta>>, m: nat, n: nat)
    requires NoNil(deltas) && LongestSmooth(ack, deltas, m) && LongestSmooth(ack, deltas, n)
    ensures m == n
  {
  }
}
