/** The guarded delivery state machine of domain/delivery.go. */
module Domain {
  import opened Model

  datatype Move =
    | ToInFlight(leaseUntil: Time)
    | ToDelivered
    | ToFailed
    | ToScheduled(delay: int, now: Time)

  /** The transition a move makes; None is ErrInvalidTransition. */
  function Guarded(d: Delivery, m: Move): Option<Delivery> {
    match m
    case ToInFlight(leaseUntil) =>
      if d.status.Scheduled? then Some(d.(status := InFlight, leaseUntil := Some(leaseUntil))) else None
    case _ =>
      if !d.status.InFlight? then None
      else
        var d' := d.(leaseUntil := None, attemptCount := d.attemptCount + 1);
        Some(match m
             case ToDelivered => d'.(status := Delivered)
             case ToFailed => d'.(status := PermanentlyFailed)
             case ToScheduled(delay, now) => d'.(status := Scheduled, nextAttemptAt := now + delay))
  }

  class DeliveryEntity {
    const event: Id
    const endpoint: Id
    const tenant: Id
    const createdAt: Time
    const source: Option<Id>
    var status: Status
    var attemptCount: nat
    var nextAttemptAt: Time
    var leaseUntil: Option<Time>
    var updatedAt: Time

    constructor (d: Delivery)
      ensures View() == d
    {
      event, endpoint, tenant, createdAt, source := d.event, d.endpoint, d.tenant, d.createdAt, d.source;
      status, attemptCount, nextAttemptAt := d.status, d.attemptCount, d.nextAttemptAt;
      leaseUntil, updatedAt := d.leaseUntil, d.updatedAt;
    }

    function View(): Delivery
      reads this
    {
      Delivery(event, endpoint, tenant, status, attemptCount, nextAttemptAt, leaseUntil, createdAt, updatedAt, source)
    }

    /** What every transition method promises about move m. */
    twostate predicate Moved(m: Move, ok: bool)
      reads this
    {
      && ok == Guarded(old(View()), m).Some?
      && View() == if ok then Guarded(old(View()), m).value else old(View())
    }

    method MarkInFlight(lease: Time) returns (ok: bool)
      modifies this
      ensures Moved(ToInFlight(lease), ok)
    {
      if status != Scheduled { return false; }
      status := InFlight;
      leaseUntil := Some(lease);
      ok := true;
    }

    method MarkDelivered() returns (ok: bool)
      modifies this
      ensures Moved(ToDelivered, ok)
    {
      if status != InFlight { return false; }
      status := Delivered;
      leaseUntil := None;
      attemptCount := attemptCount + 1;
      ok := true;
    }

    method MarkPermanentlyFailed() returns (ok: bool)
      modifies this
      ensures Moved(ToFailed, ok)
    {
      if status != InFlight { return false; }
      status := PermanentlyFailed;
      leaseUntil := None;
      attemptCount := attemptCount + 1;
      ok := true;
    }

    method RescheduleAfter(delay: int, now: Time) returns (ok: bool)
      modifies this
      ensures Moved(ToScheduled(delay, now), ok)
    {
      if status != InFlight { return false; }
      status := Scheduled;
      leaseUntil := None;
      nextAttemptAt := now + delay;
      attemptCount := attemptCount + 1;
      ok := true;
    }
  }
}
