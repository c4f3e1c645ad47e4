/** The rows of the four tables and the small value types they share.
    Identifiers stand for UUIDs, times for instants of the database clock. */
module Model {

  type Id = nat
  type Time = int

  datatype Option<+T> = None | Some(value: T)

  datatype Status = Scheduled | InFlight | Delivered | PermanentlyFailed {
    predicate Terminal() {
      Delivered? || PermanentlyFailed?
    }
  }

  datatype Outcome = Success | TransientFailure | PermanentFailure | Timeout {
    predicate Retryable() {
      TransientFailure? || Timeout?
    }
  }

  datatype Delivery = Delivery(
    event: Id,
    endpoint: Id,
    tenant: Id,
    status: Status,
    attemptCount: nat,
    nextAttemptAt: Time,
    leaseUntil: Option<Time>,
    createdAt: Time,
    updatedAt: Time,
    source: Option<Id>)

  datatype Attempt = Attempt(startedAt: Time, completedAt: Option<Time>, outcome: Outcome)

  datatype Breaker = Closed | Open | HalfOpen

  /** The circuit_* columns of an endpoint row. */
  datatype Circuit = Circuit(
    state: Breaker,
    failures: nat,
    suspendedUntil: Option<Time>,
    sensitive: bool,
    probe: Option<Id>)

  datatype Config = Config(threshold: int, suspension: nat, batch: nat)

  datatype Endpoint = Endpoint(tenant: Id, circuit: Circuit)

  const FreshCircuit := Circuit(Closed, 0, None, false, None)
}
