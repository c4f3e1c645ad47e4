/** The effect of each SQL statement on the tables, as functions on values. */
module Statements {
  import opened Model
  import opened CircuitBreaker
  import opened Retry

  type Deliveries = map<Id, Delivery>
  type Endpoints = map<Id, Endpoint>
  type Attempts = map<(Id, nat), Attempt>

  datatype Tables = Tables(deliveries: Deliveries, endpoints: Endpoints, attempts: Attempts)

  // ----- claiming ----------------------------------------------------------

  /** b is an earlier unfinished delivery of the same tenant. */
  predicate Blocks(ds: Deliveries, b: Id, id: Id) {
    && b in ds && id in ds && b != id
    && ds[b].tenant == ds[id].tenant
    && !ds[b].status.Terminal()
    && ds[b].createdAt < ds[id].createdAt
  }

  predicate CircuitAdmits(c: Circuit, id: Id) {
    c.state.Closed? || (c.state.HalfOpen? && c.probe == Some(id))
  }

  predicate Eligible(t: Tables, now: Time, id: Id) {
    && id in t.deliveries
    && t.deliveries[id].status.Scheduled?
    && t.deliveries[id].nextAttemptAt <= now
    && (forall b | b in t.deliveries :: !Blocks(t.deliveries, b, id))
    && t.deliveries[id].endpoint in t.endpoints
    && CircuitAdmits(t.endpoints[t.deliveries[id].endpoint].circuit, id)
  }

  function ClaimRow(d: Delivery, leaseUntil: Time, now: Time): Delivery {
    d.(status := InFlight, leaseUntil := Some(leaseUntil), updatedAt := now)
  }

  function Claim(ds: Deliveries, chosen: set<Id>, leaseUntil: Time, now: Time): Deliveries {
    map id | id in ds :: if id in chosen then ClaimRow(ds[id], leaseUntil, now) else ds[id]
  }

  // ----- the worker's final updates ----------------------------------------

  function DeliveredRow(d: Delivery, now: Time): Delivery {
    d.(status := Delivered, leaseUntil := None, attemptCount := d.attemptCount + 1, updatedAt := now)
  }

  function FailedRow(d: Delivery, now: Time): Delivery {
    d.(status := PermanentlyFailed, leaseUntil := None, attemptCount := d.attemptCount + 1, updatedAt := now)
  }

  function RescheduledRow(d: Delivery, nextAt: Time, now: Time): Delivery {
    d.(status := Scheduled, nextAttemptAt := nextAt, leaseUntil := None,
       attemptCount := d.attemptCount + 1, updatedAt := now)
  }

  /** Storing row at id would give its source a second non-terminal replay
      (unique index idx_deliveries_one_active_replay). */
  predicate DuplicatesReplay(ds: Deliveries, id: Id, row: Delivery) {
    && row.source.Some? && !row.status.Terminal()
    && exists r | r in ds :: r != id && ds[r].source == row.source && !ds[r].status.Terminal()
  }

  /** An UPDATE ... WHERE id = $1: no row, or a row the index rejects, changes nothing. */
  function UpdateRow(ds: Deliveries, id: Id, row: Delivery): Deliveries {
    if id !in ds || DuplicatesReplay(ds, id, row) then ds else ds[id := row]
  }

  /** The row the worker's last statement asks for, after attempt seqNo had outcome o. */
  function FinalRow(d: Delivery, o: Outcome, seqNo: nat, nextAt: Time, now: Time): Delivery {
    match o
    case Success => DeliveredRow(d, now)
    case PermanentFailure => FailedRow(d, now)
    case _ => if seqNo >= MAX_ATTEMPTS then FailedRow(d, now) else RescheduledRow(d, nextAt, now)
  }

  // ----- reaper -------------------------------------------------------------

  predicate LeaseExpired(d: Delivery, now: Time) {
    d.status.InFlight? && d.leaseUntil.Some? && d.leaseUntil.value < now
  }

  function ResurrectRow(d: Delivery, now: Time): Delivery {
    if LeaseExpired(d, now) then d.(status := Scheduled, leaseUntil := None, updatedAt := now) else d
  }

  function Resurrect(ds: Deliveries, now: Time): Deliveries {
    map id | id in ds :: ResurrectRow(ds[id], now)
  }

  // ----- attempts -----------------------------------------------------------

  function InsertAttempt(as_: Attempts, id: Id, seqNo: nat, now: Time): Attempts {
    if (id, seqNo) in as_ then as_ else as_[(id, seqNo) := Attempt(now, None, TransientFailure)]
  }

  function RecordOutcome(as_: Attempts, id: Id, seqNo: nat, o: Outcome, clock: Time): Attempts {
    if (id, seqNo) in as_
    then as_[(id, seqNo) := as_[(id, seqNo)].(outcome := o, completedAt := Some(clock))]
    else as_
  }

  // ----- circuit columns ----------------------------------------------------

  function SettleEndpoint(es: Endpoints, ep: Id, cfg: Config, now: Time, o: Outcome, seen: Breaker): Endpoints {
    if ep in es then es[ep := es[ep].(circuit := Settle(es[ep].circuit, cfg, now, o, seen))] else es
  }

  predicate Queued(ds: Deliveries, ep: Id) {
    exists d | d in ds :: ds[d].endpoint == ep && !ds[d].status.Terminal()
  }

  function ExpireSuspensions(es: Endpoints, ds: Deliveries, now: Time): Endpoints {
    map ep | ep in es :: es[ep].(circuit := ExpireSuspension(es[ep].circuit, now, Queued(ds, ep)))
  }

  /** The first statement of SetProbeDelivery may return choice. */
  predicate OldestQueued(ds: Deliveries, ep: Id, choice: Option<Id>) {
    match choice
    case None => !Queued(ds, ep)
    case Some(d) =>
      && d in ds && ds[d].endpoint == ep && !ds[d].status.Terminal()
      && forall x | x in ds && ds[x].endpoint == ep && !ds[x].status.Terminal() ::
           ds[d].createdAt <= ds[x].createdAt
  }

  /** Its second statement: assign the probe, or close an endpoint with an empty queue. */
  function StoreProbe(es: Endpoints, ep: Id, choice: Option<Id>): Endpoints {
    if ep !in es then es
    else
      var c := es[ep].circuit;
      es[ep := es[ep].(circuit := if choice.Some? then AssignProbe(c, choice.value) else CloseEmpty(c))]
  }

  /** Its third statement: the probe is due at once. */
  function PullForward(ds: Deliveries, d: Id, now: Time): Deliveries {
    if d in ds && ds[d].nextAttemptAt > now then ds[d := ds[d].(nextAttemptAt := now)] else ds
  }

  // ----- inserts ------------------------------------------------------------

  function NewDelivery(event: Id, ep: Id, tenant: Id, now: Time, source: Option<Id>): Delivery {
    Delivery(event, ep, tenant, Scheduled, 0, now, None, now, now, source)
  }

  /** The row CreateReplay inserts for source src. */
  function ReplayRow(ds: Deliveries, es: Endpoints, src: Id, now: Time): Delivery
    requires src in ds && ds[src].endpoint in es
  {
    NewDelivery(ds[src].event, ds[src].endpoint, es[ds[src].endpoint].tenant, now, Some(src))
  }

  // ----- dead letters ---------------------------------------------------------

  datatype Filter = Filter(tenant: Option<Id>, endpoint: Option<Id>)

  function FailedIds(ds: Deliveries, f: Filter): set<Id> {
    set id | id in ds && ds[id].status.PermanentlyFailed?
             && (f.tenant.Some? ==> ds[id].tenant == f.tenant.value)
             && (f.endpoint.Some? ==> ds[id].endpoint == f.endpoint.value)
  }

  predicate ActiveReplay(ds: Deliveries, src: Id) {
    exists r | r in ds :: ds[r].source == Some(src) && !ds[r].status.Terminal()
  }
}
