/** The tables as mutable state, with one method per SQL statement. */
module Database {
  import opened Model
  import opened CircuitBreaker
  import opened Statements

  /** NoTenant: the sub-select found no endpoint, and tenant_id is NOT NULL. */
  datatype InsertResult = Inserted | UniqueViolation | NoTenant

  datatype LoadedRow = LoadedRow(delivery: Delivery, circuitState: Breaker)

  lemma {:induction false} EarliestExists(ids: set<Id>, key: map<Id, Time>) returns (least: Id)
    requires ids != {} && ids <= key.Keys
    ensures least in ids && forall x | x in ids :: key[least] <= key[x]
  {
    least :| least in ids;
    if ids != {least} {
      var other := EarliestExists(ids - {least}, key);
      if key[other] < key[least] { least := other; }
    }
  }

  /** An id of ids with the least key. */
  method Earliest(ids: set<Id>, key: map<Id, Time>) returns (least: Id)
    requires ids != {} && ids <= key.Keys
    ensures least in ids && forall x | x in ids :: key[least] <= key[x]
  {
    ghost var e := EarliestExists(ids, key);
    least :| least in ids && forall x | x in ids :: key[least] <= key[x];
  }

  ghost predicate Distinct(ids: seq<Id>) {
    forall i, j | 0 <= i < j < |ids| :: ids[i] != ids[j]
  }

  function Elements(ids: seq<Id>): set<Id> {
    set id | id in ids
  }

  lemma DistinctExtends(ids: seq<Id>, id: Id)
    requires Distinct(ids) && id !in ids
    ensures Distinct(ids + [id]) && Elements(ids + [id]) == Elements(ids) + {id}
  {
  }

  /** The rows of a result set, in some order. */
  method Enumerate(ids: set<Id>) returns (rows: seq<Id>)
    ensures Distinct(rows) && Elements(rows) == ids
  {
    rows := [];
    var rest := ids;
    while rest != {}
      invariant rest <= ids && Distinct(rows) && Elements(rows) == ids - rest
      decreases rest
    {
      var id :| id in rest;
      DistinctExtends(rows, id);
      rows := rows + [id];
      rest := rest - {id};
    }
  }

  /** taken are the n elements of ids with the least keys (all, if fewer), in key order. */
  ghost predicate TakesLeast(ids: set<Id>, key: map<Id, Time>, n: nat, taken: seq<Id>)
    requires ids <= key.Keys
  {
    && Distinct(taken) && |taken| <= n && Elements(taken) <= ids
    && (forall i, j | 0 <= i < j < |taken| && taken[i] in ids && taken[j] in ids :: key[taken[i]] <= key[taken[j]])
    && (forall id | id in ids && id !in taken ::
          |taken| == n && forall c | c in taken && c in ids :: key[c] <= key[id])
  }

  /** ORDER BY key LIMIT n. */
  method TakeLeast(ids: set<Id>, key: map<Id, Time>, n: nat) returns (taken: seq<Id>)
    requires ids <= key.Keys
    ensures TakesLeast(ids, key, n, taken)
  {
    taken := [];
    var rest := ids;
    while |taken| < n && rest != {}
      invariant Distinct(taken) && |taken| <= n && rest <= ids && Elements(taken) == ids - rest
      invariant forall c, id | c in taken && c in ids && id in rest :: key[c] <= key[id]
      invariant forall i, j | 0 <= i < j < |taken| && taken[i] in ids && taken[j] in ids :: key[taken[i]] <= key[taken[j]]
      decreases rest
    {
      var id := Earliest(rest, key);
      assert id !in Elements(taken);
      DistinctExtends(taken, id);
      taken := taken + [id];
      rest := rest - {id};
    }
    assert forall id :: id in taken <==> id in Elements(taken);
  }

  function EligibleIds(t: Tables, now: Time): set<Id> {
    set id | id in t.deliveries && Eligible(t, now, id)
  }

  function DueTimes(ds: Deliveries): map<Id, Time> {
    map id | id in ds :: ds[id].nextAttemptAt
  }

  class Db {
    var now: Time
    var deliveries: Deliveries
    var endpoints: Endpoints
    var attempts: Attempts

    constructor (t: Tables, at: Time)
      ensures View() == t && now == at
    {
      deliveries, endpoints, attempts, now := t.deliveries, t.endpoints, t.attempts, at;
    }

    function View(): Tables
      reads this
    {
      Tables(deliveries, endpoints, attempts)
    }

    /** Some time passes before the next statement starts. */
    method Elapse()
      modifies this`now
      ensures now >= old(now)
    {
      var t: nat :| true;
      now := now + t;
    }

    method WaitUntil(t: Time)
      modifies this`now
      ensures now >= old(now) && now >= t
    {
      if now < t { now := t; }
      Elapse();
    }

    // ----- delivery_store.go ------------------------------------------------

    /** At most batch eligible rows, those due first, go in flight. */
    method ClaimReady(batch: nat, leaseUntil: Time) returns (claimed: seq<Id>)
      modifies this`deliveries
      ensures TakesLeast(EligibleIds(old(View()), now), DueTimes(old(deliveries)), batch, claimed)
      ensures deliveries == Claim(old(deliveries), Elements(claimed), leaseUntil, now)
    {
      claimed := TakeLeast(EligibleIds(View(), now), DueTimes(deliveries), batch);
      deliveries := Claim(deliveries, Elements(claimed), leaseUntil, now);
    }

    method LoadForWorker(id: Id) returns (row: Option<LoadedRow>)
      ensures row == if id in deliveries && deliveries[id].endpoint in endpoints
                     then Some(LoadedRow(deliveries[id], endpoints[deliveries[id].endpoint].circuit.state))
                     else None
    {
      if id in deliveries && deliveries[id].endpoint in endpoints {
        row := Some(LoadedRow(deliveries[id], endpoints[deliveries[id].endpoint].circuit.state));
      } else {
        row := None;
      }
    }

    method MarkDelivered(id: Id)
      modifies this`deliveries
      ensures id in old(deliveries) ==> deliveries == old(deliveries)[id := DeliveredRow(old(deliveries)[id], now)]
      ensures id !in old(deliveries) ==> deliveries == old(deliveries)
    {
      if id in deliveries { deliveries := deliveries[id := DeliveredRow(deliveries[id], now)]; }
    }

    method MarkPermanentlyFailed(id: Id)
      modifies this`deliveries
      ensures id in old(deliveries) ==> deliveries == old(deliveries)[id := FailedRow(old(deliveries)[id], now)]
      ensures id !in old(deliveries) ==> deliveries == old(deliveries)
    {
      if id in deliveries { deliveries := deliveries[id := FailedRow(deliveries[id], now)]; }
    }

    /** stored is false when the unique replay index rejects the row. */
    method Reschedule(id: Id, nextAt: Time) returns (stored: bool)
      modifies this`deliveries
      ensures id in old(deliveries) ==>
                deliveries == UpdateRow(old(deliveries), id, RescheduledRow(old(deliveries)[id], nextAt, now))
      ensures id !in old(deliveries) ==> deliveries == old(deliveries)
      ensures !stored ==> deliveries == old(deliveries)
    {
      stored := true;
      if id in deliveries {
        var row := RescheduledRow(deliveries[id], nextAt, now);
        if DuplicatesReplay(deliveries, id, row) {
          stored := false;
        } else {
          deliveries := deliveries[id := row];
        }
      }
    }

    method ResurrectExpiredLeases() returns (n: nat)
      modifies this`deliveries
      ensures deliveries == Resurrect(old(deliveries), now)
      ensures n == |set id | id in old(deliveries) && LeaseExpired(old(deliveries)[id], now)|
    {
      n := |set id | id in deliveries && LeaseExpired(deliveries[id], now)|;
      deliveries := Resurrect(deliveries, now);
    }

    method ListPermanentlyFailedIDs(f: Filter) returns (ids: seq<Id>)
      ensures Distinct(ids) && Elements(ids) == FailedIds(deliveries, f)
    {
      ids := Enumerate(FailedIds(deliveries, f));
    }

    method HasNonTerminalReplay(src: Id) returns (active: bool)
      ensures active <==> ActiveReplay(deliveries, src)
    {
      active := exists r | r in deliveries :: deliveries[r].source == Some(src) && !deliveries[r].status.Terminal();
    }

    /** Inserts a replay of the delivery read earlier; the tenant is the endpoint's. */
    method CreateReplay(event: Id, endpoint: Id, src: Id, id: Id) returns (r: InsertResult)
      requires id !in deliveries
      modifies this`deliveries
      ensures r.NoTenant? <==> endpoint !in endpoints
      ensures r.UniqueViolation? <==> endpoint in endpoints && ActiveReplay(old(deliveries), src)
      ensures deliveries == if r.Inserted?
                            then old(deliveries)[id := NewDelivery(event, endpoint, endpoints[endpoint].tenant, now, Some(src))]
                            else old(deliveries)
    {
      if endpoint !in endpoints { return NoTenant; }
      var active := HasNonTerminalReplay(src);
      if active { return UniqueViolation; }
      deliveries := deliveries[id := NewDelivery(event, endpoint, endpoints[endpoint].tenant, now, Some(src))];
      r := Inserted;
    }

    // ----- attempt_store.go ---------------------------------------------------

    /** ok is false on a violation of UNIQUE (delivery_id, sequence). */
    method InsertStarted(id: Id, seqNo: nat) returns (ok: bool)
      modifies this`attempts
      ensures ok <==> (id, seqNo) !in old(attempts)
      ensures attempts == InsertAttempt(old(attempts), id, seqNo, now)
    {
      ok := (id, seqNo) !in attempts;
      if ok { attempts := attempts[(id, seqNo) := Attempt(now, None, TransientFailure)]; }
    }

    method UpdateOutcome(id: Id, seqNo: nat, o: Outcome, clock: Time)
      modifies this`attempts
      ensures attempts == RecordOutcome(old(attempts), id, seqNo, o, clock)
    {
      if (id, seqNo) in attempts {
        attempts := attempts[(id, seqNo) := attempts[(id, seqNo)].(outcome := o, completedAt := Some(clock))];
      }
    }

    // ----- circuit_store.go ---------------------------------------------------

    method UpdateCircuit(ep: Id, c: Circuit)
      requires ep in endpoints
      modifies this`endpoints
      ensures endpoints == old(endpoints)[ep := old(endpoints)[ep].(circuit := c)]
    {
      endpoints := endpoints[ep := endpoints[ep].(circuit := c)];
    }

    method RecordSuccess(ep: Id)
      modifies this`endpoints
      ensures ep in old(endpoints) ==> endpoints == old(endpoints)[ep := old(endpoints)[ep].(
                circuit := HandleSuccess(old(endpoints)[ep].circuit))]
      ensures ep !in old(endpoints) ==> endpoints == old(endpoints)
    {
      if ep in endpoints { UpdateCircuit(ep, HandleSuccess(endpoints[ep].circuit)); }
    }

    method RecordTransientFailure(ep: Id, cfg: Config)
      modifies this`endpoints
      ensures ep in old(endpoints) ==> endpoints == old(endpoints)[ep := old(endpoints)[ep].(
                circuit := HandleTransientFailure(old(endpoints)[ep].circuit, cfg, now))]
      ensures ep !in old(endpoints) ==> endpoints == old(endpoints)
    {
      if ep in endpoints { UpdateCircuit(ep, HandleTransientFailure(endpoints[ep].circuit, cfg, now)); }
    }

    method RecordProbePermanentFailure(ep: Id, cfg: Config)
      modifies this`endpoints
      ensures ep in old(endpoints) ==> endpoints == old(endpoints)[ep := old(endpoints)[ep].(
                circuit := HandleProbePermanentFailure(old(endpoints)[ep].circuit, cfg, now))]
      ensures ep !in old(endpoints) ==> endpoints == old(endpoints)
    {
      if ep in endpoints { UpdateCircuit(ep, HandleProbePermanentFailure(endpoints[ep].circuit, cfg, now)); }
    }

    method ProcessExpiredSuspensions() returns (halfOpen: seq<Id>, closed: seq<Id>)
      modifies this`endpoints
      ensures endpoints == ExpireSuspensions(old(endpoints), deliveries, now)
      ensures Distinct(halfOpen) && Distinct(closed)
      ensures forall e :: e in halfOpen <==> e in old(endpoints) && Expired(old(endpoints)[e].circuit, now) && Queued(deliveries, e)
      ensures forall e :: e in closed <==> e in old(endpoints) && Expired(old(endpoints)[e].circuit, now) && !Queued(deliveries, e)
    {
      var rows := Enumerate(set e | e in endpoints && Expired(endpoints[e].circuit, now));
      assert forall e :: e in rows <==> e in Elements(rows);
      endpoints := ExpireSuspensions(endpoints, deliveries, now);
      halfOpen, closed := [], [];
      var i := 0;
      while i < |rows|
        invariant i <= |rows| && endpoints == ExpireSuspensions(old(endpoints), deliveries, now)
        invariant Distinct(halfOpen) && Distinct(closed)
        invariant forall e :: e in halfOpen <==> e in rows[..i] && Queued(deliveries, e)
        invariant forall e :: e in closed <==> e in rows[..i] && !Queued(deliveries, e)
      {
        var e := rows[i];
        assert e in rows && e !in rows[..i] && rows[..i+1] == rows[..i] + [e];
        if endpoints[e].circuit.state == HalfOpen {
          DistinctExtends(halfOpen, e);
          halfOpen := halfOpen + [e];
        } else {
          DistinctExtends(closed, e);
          closed := closed + [e];
        }
        i := i + 1;
      }
      assert rows[..i] == rows;
    }

    method OrphanedHalfOpenEndpoints() returns (orphans: seq<Id>)
      ensures Distinct(orphans)
      ensures forall e :: e in orphans <==>
                e in endpoints && endpoints[e].circuit.state.HalfOpen? && endpoints[e].circuit.probe.None?
    {
      orphans := Enumerate(set e | e in endpoints && endpoints[e].circuit.state.HalfOpen?
                                   && endpoints[e].circuit.probe.None?);
      assert forall e :: e in orphans <==> e in Elements(orphans);
    }

    // the three statements of SetProbeDelivery

    method SelectOldestQueued(ep: Id) returns (choice: Option<Id>)
      ensures OldestQueued(deliveries, ep, choice)
    {
      var queue := set d | d in deliveries && deliveries[d].endpoint == ep && !deliveries[d].status.Terminal();
      assert forall d | d in deliveries && deliveries[d].endpoint == ep && !deliveries[d].status.Terminal() :: d in queue;
      if queue == {} {
        choice := None;
      } else {
        var d := Earliest(queue, map d | d in deliveries :: deliveries[d].createdAt);
        choice := Some(d);
      }
    }

    method StoreProbeChoice(ep: Id, choice: Option<Id>)
      modifies this`endpoints
      ensures endpoints == StoreProbe(old(endpoints), ep, choice)
    {
      if ep in endpoints {
        var c := endpoints[ep].circuit;
        UpdateCircuit(ep, if choice.Some? then AssignProbe(c, choice.value) else CloseEmpty(c));
      }
    }

    method ResetProbeDue(d: Id)
      modifies this`deliveries
      ensures deliveries == PullForward(old(deliveries), d, now)
    {
      if d in deliveries && deliveries[d].nextAttemptAt > now {
        deliveries := deliveries[d := deliveries[d].(nextAttemptAt := now)];
      }
    }
  }
}
