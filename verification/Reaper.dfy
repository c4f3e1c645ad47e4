/** One reaper pass: expired leases first, then expired idempotency records. */
module Reaper {
  import opened Model
  import opened Statements
  import opened Pipeline
  import opened Database
  import opened Idempotency
  import opened Tracing
  import opened Scheduler
  import E = EventService

  datatype Fault = NoFault | ResurrectFails | PurgeFails

  /** Each pass works at its own NOW(). An error in the first pass leaves both
      tables alone; an error in the second keeps what the first did. */
  method Tick(db: Db, ledger: E.Ledger, fault: Fault, ghost s0: State, ghost acts: seq<Action>, ghost s: State)
    returns (ok: bool, ghost reapedAt: Time, ghost purgedAt: Time, ghost acts': seq<Action>, ghost s': State)
    requires Trace(s0, acts, s) && At(db, s) && ledger.Valid()
    modifies db`now, db`deliveries, ledger`records
    ensures Trace(s0, acts', s') && At(db, s') && SameActors(s, s') && ledger.Valid()
    ensures Good(s) && s.outbox == multiset{} && s.msgs == multiset{} && s.workers == map[] ==> Good(s')
    ensures ok <==> fault.NoFault?
    ensures old(db.now) <= reapedAt <= purgedAt <= db.now
    ensures db.deliveries == if fault.ResurrectFails? then old(db.deliveries) else Resurrect(old(db.deliveries), reapedAt)
    ensures ledger.records == if fault.NoFault? then Purge(old(ledger.records), purgedAt) else old(ledger.records)
    ensures ok ==> && (forall id | id in db.deliveries :: !LeaseExpired(db.deliveries[id], reapedAt))
                   && (forall slot | slot in ledger.records :: purgedAt <= ledger.records[slot].expiresAt)
  {
    hide Good, Trace, Resurrect, Purge;
    acts', s' := NextStatement(db, s0, acts, s);
    reapedAt, purgedAt := db.now, db.now;
    if fault.ResurrectFails? { return false, reapedAt, purgedAt, acts', s'; }
    var resurrected := db.ResurrectExpiredLeases();
    acts', s' := Extend(s0, acts', s', Schedule(Reap));
    acts', s' := NextStatement(db, s0, acts', s');
    purgedAt := db.now;
    if fault.PurgeFails? { return false, reapedAt, purgedAt, acts', s'; }
    var purged := ledger.PurgeExpired(db.now);
    ok := true;
    NothingExpired(old(db.deliveries), reapedAt, old(ledger.records), purgedAt);
  }

  lemma NothingExpired(ds: Deliveries, reapedAt: Time, rs: Records, purgedAt: Time)
    ensures forall id | id in Resurrect(ds, reapedAt) :: !LeaseExpired(Resurrect(ds, reapedAt)[id], reapedAt)
    ensures forall slot | slot in Purge(rs, purgedAt) :: purgedAt <= Purge(rs, purgedAt)[slot].expiresAt
  {
  }
}
