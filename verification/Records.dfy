/** The host's record of one instance and the mutations that handlers run on it inside a store transaction. */
module Records {
  import opened Prelude

  /** The part of the stored instance that drives reconciliation. */
  datatype Record = Record(
    desiredGeneration: uint64,
    desiredDigest: string,
    desiredSpec: string,
    appliedGeneration: uint64,
    appliedDigest: string,
    phase: string,
    reason: string)

  const ENROLLED := Record(0, "", "", 0, "", "enrolled", "")

  /** The desired-state message that travels from host to agent. */
  datatype Message = Message(generation: uint64, digest: string, spec: string)

  datatype Status = Status(generation: uint64, digest: string, phase: string, reason: string)

  function Snapshot(record: Record): Message {
    Message(record.desiredGeneration, record.desiredDigest, record.desiredSpec)
  }

  /** A fresh stream says hello. */
  function Hello(record: Record): Record {
    if record.phase == "enrolled" || record.phase == "offline" then record.(phase := "connected") else record
  }

  /** An operator asks for a specification; asking for the current digest changes nothing. The counter is a uint64. */
  function SetDesired(record: Record, spec: string, digest: string): Record {
    if record.desiredDigest == digest then record
    else record.(desiredGeneration := (record.desiredGeneration + 1) % U64, desiredDigest := digest,
        desiredSpec := spec)
  }

  predicate StatusAccepted(record: Record, status: Status) {
    && status.generation <= record.desiredGeneration
    && !(status.generation == record.desiredGeneration && status.generation > 0 &&
         status.digest != record.desiredDigest)
  }

  /** An agent reports what it applied; None is the error that aborts the transaction. */
  function ApplyStatus(record: Record, status: Status): Option<Record> {
    if StatusAccepted(record, status)
    then Some(record.(appliedGeneration := status.generation, appliedDigest := status.digest,
                      phase := status.phase, reason := status.reason))
    else None
  }

  function MarkOffline(record: Record): Record {
    record.(phase := "offline")
  }

  datatype Mutation = HelloFrom | DesiredFrom(spec: string, digest: string) | StatusFrom(status: Status) | OfflineFrom

  function Mutate(record: Record, mutation: Mutation): Record {
    match mutation
    case HelloFrom => Hello(record)
    case DesiredFrom(spec, digest) => SetDesired(record, spec, digest)
    case StatusFrom(status) => (match ApplyStatus(record, status) case Some(r) => r case None => record)
    case OfflineFrom => MarkOffline(record)
  }

  function MutateAll(record: Record, mutations: seq<Mutation>): Record {
    if mutations == [] then record
    else Mutate(MutateAll(record, mutations[..|mutations| - 1]), mutations[|mutations| - 1])
  }

  /** What the operator may rely on: the agent is never ahead, and at the desired generation it runs the desired
      digest. */
  predicate Consistent(record: Record) {
    && record.appliedGeneration <= record.desiredGeneration
    && (record.appliedGeneration == record.desiredGeneration && record.appliedGeneration > 0 ==>
          record.appliedDigest == record.desiredDigest)
  }

  /** However the mutations fall and whatever agents report, the record stays consistent
      as long as the generation counter cannot have wrapped. */
  lemma {:induction false} RecordStaysConsistent(mutations: seq<Mutation>)
    requires |mutations| < U64
    ensures MutateAll(ENROLLED, mutations).desiredGeneration <= |mutations|
    ensures Consistent(MutateAll(ENROLLED, mutations))
  {
    if mutations != [] {
      RecordStaysConsistent(mutations[..|mutations| - 1]);
    }
  }

  /** At the last generation the counter wraps, and the stored record stops being consistent
      exactly when the agent had reported any generation but zero. */
  lemma WrapBreaksConsistency(record: Record, spec: string, digest: string)
    requires record.desiredGeneration == U64 - 1 && record.desiredDigest != digest
    ensures Consistent(SetDesired(record, spec, digest)) <==> record.appliedGeneration == 0
  {
  }
}
