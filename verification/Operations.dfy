/** What LastOperation tells the platform, and until when. Times are in nanoseconds. */
module Operations {
  import opened Aws

  datatype LastOperationState = InProgress | Succeeded | OperationFailed

  /** The state reported, and whether the service state was a known one. */
  function ProviderStatesMapping(state: Status): (r: (LastOperationState, bool))
    ensures r.0 == Succeeded <==> state == Available
    ensures r.0 == OperationFailed <==> state == CreateFailed
    ensures r.1 <==> !state.OtherStatus?
  {
    match state
    case Available => (Succeeded, true)
    case CreateFailed => (OperationFailed, true)
    case Creating => (InProgress, true)
    case Modifying => (InProgress, true)
    case Deleting => (InProgress, true)
    case Snapshotting => (InProgress, true)
    case OtherStatus(_) => (InProgress, false)
  }

  const SECOND: nat := 1_000_000_000
  const FAILOVER_TIMEOUT: nat := 45 * 60 * SECOND

  /** The deadline survives as text of whole seconds. */
  function Deadline(start: nat): (deadline: nat)
    ensures deadline % 1_000_000_000 == 0
    ensures deadline <= start + 2_700_000_000_000 < deadline + 1_000_000_000
  {
    (start + FAILOVER_TIMEOUT) / SECOND * SECOND
  }

  predicate IsPast(now: nat, deadline: nat) {
    now > deadline
  }

  /** No poll up to 45 minutes less a second after the start is late; every one past 45 minutes is. */
  lemma DeadlineBounds(start: nat, now: nat)
    ensures now + 1_000_000_000 <= start + 2_700_000_000_000 ==> !IsPast(now, Deadline(start))
    ensures now > start + 2_700_000_000_000 ==> IsPast(now, Deadline(start))
    ensures start % 1_000_000_000 == 0 ==> (IsPast(now, Deadline(start)) <==> now > start + 2_700_000_000_000)
  {
  }
}
