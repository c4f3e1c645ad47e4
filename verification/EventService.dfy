/** Submit as one transaction over the tables: it checks the request,
    deduplicates by key, and inserts an event and its scheduled delivery. Its
    statements are steps of SubmitRuns, its transaction one of Pipeline. */
module EventService {
  import opened Model
  import opened Statements
  import opened Idempotency
  import opened Database
  import opened Tracing
  import P = Pipeline
  import S = SubmitRuns
  import Scheduler

  datatype EventRow = EventRow(endpoint: Id, tenant: Id)

  /** The idempotency_records and events tables. */
  class Ledger {
    var records: Records
    var events: map<Id, EventRow>

    constructor ()
      ensures Valid() && records == map[] && events == map[]
    {
      records, events := map[], map[];
    }

    /** Every committed record is complete; SubmitRuns.InvAlways proves it of all runs. */
    predicate Valid()
      reads this
    {
      forall slot | slot in records :: records[slot].ids.Some?
    }

    method Lookup(slot: Slot, start: Time) returns (row: Option<Record>)
      ensures row.Some? <==> slot in records && records[slot].expiresAt >= start
      ensures row.Some? ==> row.value == records[slot]
    {
      row := Found(RowAt(records, slot), start);
    }

    method Claim(slot: Slot, hash: Hash, start: Time)
      modifies this`records
      ensures records == old(records)[slot := Claimed(RowAt(old(records), slot), hash, start)]
    {
      if slot !in records || records[slot].expiresAt < start {
        records := records[slot := Record(hash, None, start + WINDOW)];
      } else {
        assert records == records[slot := records[slot]];
      }
    }

    method Complete(slot: Slot, ids: Ids)
      modifies this`records
      ensures records == if slot in old(records) then old(records)[slot := Completed(old(records)[slot], ids)] else old(records)
    {
      if slot in records { records := records[slot := records[slot].(ids := Some(ids))]; }
    }

    /** Deletes exactly the rows with expires_at < NOW() and counts them. */
    method PurgeExpired(at: Time) returns (purged: nat)
      modifies this`records
      ensures records == Purge(old(records), at)
      ensures purged == |old(records)| - |records|
      ensures old(Valid()) ==> Valid()
    {
      var kept := Purge(records, at);
      KeysFewer(records, kept);
      purged := |records| - |kept|;
      records := kept;
    }
  }

  lemma KeysFewer(rs: Records, kept: Records)
    requires kept.Keys <= rs.Keys
    ensures |kept| <= |rs|
  {
    SubsetFewer(kept.Keys, rs.Keys);
    assert |kept.Keys| == |kept| && |rs.Keys| == |rs|;
  }

  lemma {:induction false} SubsetFewer<T>(a: set<T>, b: set<T>)
    requires a <= b
    ensures |a| <= |b|
  {
    if a != {} {
      var x :| x in a;
      SubsetFewer(a - {x}, b - {x});
    }
  }

  datatype Error = EndpointNotFound | TenantNotFound | TenantMismatch | PayloadConflict | StoreFailure

  datatype Reply = Accepted(ids: Ids) | Rejected(error: Error)

  datatype TxResult = Inserted(ids: Ids) | Hit(ids: Ids) | Aborted(error: Error)

  /** The statements of the transaction, in order; the fault oracle names the one that fails. */
  const LOCK := 0
  const LOOKUP := 1
  const CLAIM := 2
  const INSERT_EVENT := 3
  const INSERT_DELIVERY := 4
  const COMPLETE := 5
  const COMMIT := 6

  function Entries0(rs: Records): Entries {
    map slot | slot in rs && rs[slot].ids.Some? :: Entry(rs[slot].hash, rs[slot].ids.value, rs[slot].expiresAt)
  }

  /** Why a request is turned away before any transaction starts. */
  function Refusal(endpoints: Endpoints, tenants: Option<set<Id>>, endpoint: Id, tenant: Id): Option<Error> {
    if endpoint !in endpoints then Some(EndpointNotFound)
    else if tenants.Some? && tenant !in tenants.value then Some(TenantNotFound)
    else if endpoints[endpoint].tenant != tenant then Some(TenantMismatch)
    else None
  }

  // ----- the transaction as steps of SubmitRuns ----------------------------------------

  /** The committed state t with transaction tx, started at its NOW(), at stage g. */
  function Open(t: S.State, tx: Id, slot: Slot, hash: Hash, g: S.Stage): S.State {
    t.(txs := t.txs[tx := S.Tx(t.now, slot, hash, g)])
  }

  /** No other open transaction holds the lock of slot or has taken the new id. */
  ghost predicate Undisturbed(lockKey: Slot -> int, t: S.State, tx: Id, slot: Slot, ids: Ids) {
    && tx !in t.txs && ids.delivery !in t.deliveries
    && (forall u | u in t.txs && S.HoldsLock(t.txs[u]) :: lockKey(t.txs[u].slot) != lockKey(slot))
    && (forall u | u in t.txs :: !S.Uncommitted(t.txs[u], ids.delivery))
  }

  /** The stage after Lookup, and after Claim. */
  function LookedUp(t: S.State, slot: Slot, hash: Hash): S.Stage {
    S.AfterLookup(Found(RowAt(t.records, slot), t.now), hash)
  }

  function ClaimMade(t: S.State, slot: Slot, hash: Hash): Record {
    Claimed(RowAt(t.records, slot), hash, t.now)
  }

  lemma Locks(lockKey: Slot -> int, t0: S.State, ops: seq<S.Action>, t: S.State, tx: Id, slot: Slot, hash: Hash, ids: Ids)
    returns (ops': seq<S.Action>)
    requires Undisturbed(lockKey, t, tx, slot, ids) && slot.Keyed()
    requires S.Path(lockKey, t0, ops, Open(t, tx, slot, hash, S.Begun))
    ensures S.Path(lockKey, t0, ops', Open(t, tx, slot, hash, S.Locked))
  {
    hide S.Path;
    var t';
    ops', t' := S.Extend(lockKey, t0, ops, Open(t, tx, slot, hash, S.Begun), S.AcquireLock(tx));
    assert t' == Open(t, tx, slot, hash, S.Locked);
  }

  lemma LooksUp(lockKey: Slot -> int, t0: S.State, ops: seq<S.Action>, t: S.State, tx: Id, slot: Slot, hash: Hash)
    returns (ops': seq<S.Action>)
    requires S.Path(lockKey, t0, ops, Open(t, tx, slot, hash, S.Locked))
    ensures S.Path(lockKey, t0, ops', Open(t, tx, slot, hash, LookedUp(t, slot, hash)))
  {
    hide S.Path;
    var t';
    ops', t' := S.Extend(lockKey, t0, ops, Open(t, tx, slot, hash, S.Locked), S.Lookup(tx));
    assert t' == Open(t, tx, slot, hash, LookedUp(t, slot, hash));
  }

  lemma Claims(lockKey: Slot -> int, t0: S.State, ops: seq<S.Action>, t: S.State, tx: Id, slot: Slot, hash: Hash)
    returns (ops': seq<S.Action>)
    requires S.Path(lockKey, t0, ops, Open(t, tx, slot, hash, S.Missed))
    ensures S.Path(lockKey, t0, ops', Open(t, tx, slot, hash, S.Claiming(ClaimMade(t, slot, hash))))
  {
    hide S.Path;
    var t';
    ops', t' := S.Extend(lockKey, t0, ops, Open(t, tx, slot, hash, S.Missed), S.Claim(tx));
    assert t' == Open(t, tx, slot, hash, S.Claiming(ClaimMade(t, slot, hash)));
  }

  lemma Inserts(lockKey: Slot -> int, t0: S.State, ops: seq<S.Action>, t: S.State, tx: Id, slot: Slot, hash: Hash, ids: Ids, g: S.Stage)
    returns (ops': seq<S.Action>)
    requires Undisturbed(lockKey, t, tx, slot, ids) && (g.Claiming? || (g.Begun? && !slot.Keyed()))
    requires S.Path(lockKey, t0, ops, Open(t, tx, slot, hash, g))
    ensures S.Path(lockKey, t0, ops', Open(t, tx, slot, hash, S.Inserted(if g.Claiming? then Some(g.row) else None, ids)))
  {
    hide S.Path;
    var t';
    ops', t' := S.Extend(lockKey, t0, ops, Open(t, tx, slot, hash, g), S.Insert(tx, ids));
    assert t' == Open(t, tx, slot, hash, S.Inserted(if g.Claiming? then Some(g.row) else None, ids));
  }

  lemma Completes(lockKey: Slot -> int, t0: S.State, ops: seq<S.Action>, t: S.State, tx: Id, slot: Slot, hash: Hash, ids: Ids, row: Record)
    returns (ops': seq<S.Action>)
    requires S.Path(lockKey, t0, ops, Open(t, tx, slot, hash, S.Inserted(Some(row), ids)))
    ensures S.Path(lockKey, t0, ops', Open(t, tx, slot, hash, S.Ready(Completed(row, ids), ids)))
  {
    hide S.Path;
    var t';
    ops', t' := S.Extend(lockKey, t0, ops, Open(t, tx, slot, hash, S.Inserted(Some(row), ids)), S.Complete(tx));
    assert t' == Open(t, tx, slot, hash, S.Ready(Completed(row, ids), ids));
  }

  lemma Ends(lockKey: Slot -> int, t0: S.State, ops: seq<S.Action>, t: S.State, tx: Id, slot: Slot, hash: Hash, g: S.Stage)
    returns (ops': seq<S.Action>)
    requires tx !in t.txs && S.Path(lockKey, t0, ops, Open(t, tx, slot, hash, g))
    ensures S.Path(lockKey, t0, ops', t)
  {
    hide S.Path;
    var t';
    ops', t' := S.Extend(lockKey, t0, ops, Open(t, tx, slot, hash, g), S.Rollback(tx));
    assert t'.txs == t.txs;
  }

  /** The committed state after the transaction created ids. */
  function AfterCreation(t: S.State, slot: Slot, hash: Hash, ids: Ids): S.State {
    t.(deliveries := t.deliveries[ids.delivery := S.Row(ids.event, slot.endpoint, t.now)],
       records := if slot.Keyed() then t.records[slot := Record(hash, Some(ids), t.now + WINDOW)] else t.records)
  }

  /** The stage in which the body hands over to COMMIT. */
  function Written(t: S.State, slot: Slot, hash: Hash, ids: Ids): S.Stage {
    if slot.Keyed() then S.Ready(Record(hash, Some(ids), t.now + WINDOW), ids) else S.Inserted(None, ids)
  }

  lemma Commits(lockKey: Slot -> int, t0: S.State, ops: seq<S.Action>, t: S.State, tx: Id, slot: Slot, hash: Hash, ids: Ids)
    returns (ops': seq<S.Action>)
    requires tx !in t.txs && S.Path(lockKey, t0, ops, Open(t, tx, slot, hash, Written(t, slot, hash, ids)))
    ensures S.Path(lockKey, t0, ops', AfterCreation(t, slot, hash, ids))
  {
    hide S.Path;
    var t';
    ops', t' := S.Extend(lockKey, t0, ops, Open(t, tx, slot, hash, Written(t, slot, hash, ids)), S.Commit(tx));
    assert t'.txs == t.txs;
    assert t' == AfterCreation(t, slot, hash, ids);
  }

  /** The tables hold what t has committed. */
  ghost predicate Matches(db: Db, ledger: Ledger, t: S.State)
    reads db, ledger
  {
    && t.now == db.now && t.records == ledger.records
    && forall id | id in t.deliveries ::
         && id in db.deliveries
         && t.deliveries[id] == S.Row(db.deliveries[id].event, db.deliveries[id].endpoint, db.deliveries[id].createdAt)
  }

  /** Lock, lookup and claim of a keyed request; None if the transaction goes on. */
  method Deduplicate(ledger: Ledger, now: Time, slot: Slot, hash: Hash, ids: Ids, fault: nat,
                     ghost lockKey: Slot -> int, ghost tx: Id, ghost t0: S.State, ghost ops: seq<S.Action>, ghost t: S.State)
    returns (r: Option<TxResult>, ghost ops': seq<S.Action>, ghost g: S.Stage)
    requires slot.Keyed() && ledger.Valid() && t.records == ledger.records && t.now == now
    requires Undisturbed(lockKey, t, tx, slot, ids) && S.Path(lockKey, t0, ops, Open(t, tx, slot, hash, S.Begun))
    modifies ledger`records
    ensures S.Path(lockKey, t0, ops', Open(t, tx, slot, hash, g))
    ensures r == Some(Aborted(StoreFailure)) ==> fault < INSERT_EVENT
    ensures r.None? ==>
              && g == S.Claiming(Record(hash, None, now + WINDOW)) && ledger.records == old(ledger.records)[slot := g.row]
              && AnswerTo(Entries0(old(ledger.records)), slot, hash, now, ids) == Created(ids)
    ensures r.Some? && r != Some(Aborted(StoreFailure)) ==>
              match AnswerTo(Entries0(old(ledger.records)), slot, hash, now, ids)
              case Created(_) => false
              case Cached(firstIds) => r == Some(Hit(firstIds)) && g == S.Answered(Cached(firstIds))
              case Conflict => r == Some(Aborted(PayloadConflict)) && g == S.Answered(Conflict)
  {
    hide S.Path, Undisturbed;
    r, ops', g := Some(Aborted(StoreFailure)), ops, S.Begun;
    if fault == LOCK { return; }
    ops' := Locks(lockKey, t0, ops', t, tx, slot, hash, ids);
    g := S.Locked;
    if fault == LOOKUP { return; }
    var rec := ledger.Lookup(slot, now);
    ops' := LooksUp(lockKey, t0, ops', t, tx, slot, hash);
    g := LookedUp(t, slot, hash);
    if rec.Some? && rec.value.ids.Some? {
      r := Some(if rec.value.hash != hash then Aborted(PayloadConflict) else Hit(rec.value.ids.value));
      return;
    }
    if fault == CLAIM { return; }
    ledger.Claim(slot, hash, now);
    ops' := Claims(lockKey, t0, ops', t, tx, slot, hash);
    g := S.Claiming(ClaimMade(t, slot, hash));
    r := None;
  }

  /** The transaction body, from Begun to stage g of transaction tx, one step a
      statement: its writes are undone by the caller unless it returns Inserted. */
  method Body(db: Db, ledger: Ledger, slot: Slot, tenant: Id, hash: Hash, ids: Ids, fault: nat,
              ghost lockKey: Slot -> int, ghost tx: Id, ghost t0: S.State, ghost ops: seq<S.Action>, ghost t: S.State)
    returns (r: TxResult, ghost ops': seq<S.Action>, ghost g: S.Stage)
    requires ledger.Valid() && Matches(db, ledger, t) && Undisturbed(lockKey, t, tx, slot, ids)
    requires S.Path(lockKey, t0, ops, Open(t, tx, slot, hash, S.Begun))
    modifies db`deliveries, ledger
    ensures S.Path(lockKey, t0, ops', Open(t, tx, slot, hash, g))
    ensures r.Inserted? ==>
              && r.ids == ids && g == Written(t, slot, hash, ids)
              && db.deliveries == old(db.deliveries)[ids.delivery := NewDelivery(ids.event, slot.endpoint, tenant, db.now, None)]
              && ledger.events == old(ledger.events)[ids.event := EventRow(slot.endpoint, tenant)]
              && (slot.Keyed() ==> AnswerTo(Entries0(old(ledger.records)), slot, hash, db.now, ids) == Created(ids))
              && ledger.records == AfterCreation(t, slot, hash, ids).records
    ensures r.Hit? ==>
              slot.Keyed() && g == S.Answered(Cached(r.ids))
              && AnswerTo(Entries0(old(ledger.records)), slot, hash, db.now, ids) == Cached(r.ids)
    ensures r.Aborted? && r.error != StoreFailure ==>
              r.error == PayloadConflict && slot.Keyed() && g == S.Answered(Conflict)
              && AnswerTo(Entries0(old(ledger.records)), slot, hash, db.now, ids) == Conflict
    ensures r.Aborted? && r.error.StoreFailure? ==> fault < COMMIT
  {
    hide S.Path, Undisturbed, AnswerTo;
    ops', g := ops, S.Begun;
    if slot.Keyed() {
      var answered;
      answered, ops', g := Deduplicate(ledger, db.now, slot, hash, ids, fault, lockKey, tx, t0, ops, t);
      if answered.Some? { return answered.value, ops', g; }
    }
    if fault == INSERT_EVENT { return Aborted(StoreFailure), ops', g; }
    ledger.events := ledger.events[ids.event := EventRow(slot.endpoint, tenant)];
    if fault == INSERT_DELIVERY { return Aborted(StoreFailure), ops', g; }
    db.deliveries := db.deliveries[ids.delivery := NewDelivery(ids.event, slot.endpoint, tenant, db.now, None)];
    ops' := Inserts(lockKey, t0, ops', t, tx, slot, hash, ids, g);
    g := S.Inserted(if g.Claiming? then Some(g.row) else None, ids);
    if slot.Keyed() {
      if fault == COMPLETE { return Aborted(StoreFailure), ops', g; }
      ledger.Complete(slot, ids);
      ops' := Completes(lockKey, t0, ops', t, tx, slot, hash, ids, Record(hash, None, db.now + WINDOW));
      g := Written(t, slot, hash, ids);
    }
    r := TxResult.Inserted(ids);
  }

  lemma Begins(lockKey: Slot -> int, t0: S.State, ops: seq<S.Action>, t: S.State, tx: Id, slot: Slot, hash: Hash)
    returns (ops': seq<S.Action>)
    requires tx !in t.txs && S.Path(lockKey, t0, ops, t)
    ensures S.Path(lockKey, t0, ops', Open(t, tx, slot, hash, S.Begun))
  {
    hide S.Path;
    var t';
    ops', t' := S.Extend(lockKey, t0, ops, t, S.Begin(tx, slot, hash));
  }

  // ----- and as a submission of Pipeline ---------------------------------------------------

  lemma BeginsSubmission(s0: P.State, acts: seq<P.Action>, s: P.State, tx: Id, endpoint: Id)
    returns (acts': seq<P.Action>, s': P.State)
    requires Trace(s0, acts, s) && tx !in s.submissions && endpoint in s.db.endpoints
    ensures Trace(s0, acts', s') && s' == s.(submissions := s.submissions[tx := P.Submission(s.now, endpoint)])
  {
    hide Trace, Good;
    acts', s' := Tracing.Extend(s0, acts, s, P.Client(P.BeginSubmit(tx, endpoint)));
  }

  /** The submission ends with a new delivery, or without. */
  lemma EndsSubmission(s0: P.State, acts: seq<P.Action>, s: P.State, tx: Id, endpoint: Id, ids: Ids, created: bool)
    returns (acts': seq<P.Action>, s': P.State)
    requires tx !in s.submissions && endpoint in s.db.endpoints && (created ==> ids.delivery !in s.db.deliveries)
    requires Trace(s0, acts, s.(submissions := s.submissions[tx := P.Submission(s.now, endpoint)]))
    ensures Trace(s0, acts', s')
    ensures s' == if created
                  then P.WithDeliveries(s, s.db.deliveries[ids.delivery :=
                         NewDelivery(ids.event, endpoint, s.db.endpoints[endpoint].tenant, s.now, None)])
                  else s
  {
    hide Trace, Good;
    var open := s.(submissions := s.submissions[tx := P.Submission(s.now, endpoint)]);
    assert open.submissions - {tx} == s.submissions;
    if created {
      acts', s' := Tracing.Extend(s0, acts, open, P.Client(P.CommitSubmit(tx, ids.event, ids.delivery)));
    } else {
      acts', s' := Tracing.Extend(s0, acts, open, P.Client(P.AbortSubmit(tx)));
    }
  }

  // ----- Submit ------------------------------------------------------------------------------

  /** The ghost side of a call: a path of SubmitRuns and a run of Pipeline so far. */
  datatype Ghosts = Ghosts(t0: S.State, ops: seq<S.Action>, t: S.State, s0: P.State, acts: seq<P.Action>, s: P.State)

  /** Both lead to the present tables. */
  ghost predicate Current(lockKey: Slot -> int, x: Ghosts, db: Db, ledger: Ledger)
    reads db, ledger
  {
    && S.Path(lockKey, x.t0, x.ops, x.t) && Matches(db, ledger, x.t)
    && Trace(x.s0, x.acts, x.s) && Scheduler.At(db, x.s)
  }

  lemma AcceptedMatches(ds: Deliveries, ds': Deliveries, t: S.State, slot: Slot, hash: Hash, ids: Ids, tenant: Id)
    requires forall id | id in t.deliveries ::
               id in ds && t.deliveries[id] == S.Row(ds[id].event, ds[id].endpoint, ds[id].createdAt)
    requires ids.delivery !in ds && ds' == ds[ids.delivery := NewDelivery(ids.event, slot.endpoint, tenant, t.now, None)]
    ensures forall id | id in AfterCreation(t, slot, hash, ids).deliveries ::
              id in ds' && AfterCreation(t, slot, hash, ids).deliveries[id] == S.Row(ds'[id].event, ds'[id].endpoint, ds'[id].createdAt)
  {
  }

  /** store.InTx around the body: begin, and commit or roll back. */
  method InTx(db: Db, ledger: Ledger, slot: Slot, hash: Hash, ids: Ids, fault: nat,
              ghost lockKey: Slot -> int, ghost tx: Id, ghost x: Ghosts)
    returns (r: TxResult, ghost x': Ghosts)
    requires ledger.Valid() && ids.delivery !in db.deliveries && slot.endpoint in db.endpoints
    requires Current(lockKey, x, db, ledger) && Undisturbed(lockKey, x.t, tx, slot, ids) && tx !in x.s.submissions
    modifies db`deliveries, ledger
    ensures Current(lockKey, x', db, ledger) && x'.t0 == x.t0 && x'.s0 == x.s0 && SameActors(x.s, x'.s)
    ensures x'.t == if r.Inserted? then AfterCreation(x.t, slot, hash, ids) else x.t
    ensures r.Inserted? ==>
              && r.ids == ids
              && db.deliveries == old(db.deliveries)[ids.delivery :=
                   NewDelivery(ids.event, slot.endpoint, db.endpoints[slot.endpoint].tenant, db.now, None)]
              && ledger.events == old(ledger.events)[ids.event := EventRow(slot.endpoint, db.endpoints[slot.endpoint].tenant)]
              && (slot.Keyed() ==> AnswerTo(Entries0(old(ledger.records)), slot, hash, db.now, ids) == Created(ids))
    ensures ledger.records == if r.Inserted? && slot.Keyed() then old(ledger.records)[slot := Record(hash, Some(ids), db.now + WINDOW)]
                              else old(ledger.records)
    ensures !r.Inserted? ==> db.deliveries == old(db.deliveries) && ledger.events == old(ledger.events)
    ensures r.Hit? ==> slot.Keyed() && AnswerTo(Entries0(old(ledger.records)), slot, hash, db.now, ids) == Cached(r.ids)
    ensures r.Aborted? && r.error != StoreFailure ==>
              r.error == PayloadConflict && slot.Keyed()
              && AnswerTo(Entries0(old(ledger.records)), slot, hash, db.now, ids) == Conflict
    ensures r.Aborted? && r.error.StoreFailure? ==> fault <= COMMIT
  {
    hide S.Path, Trace, Undisturbed, AnswerTo, S.Apply;
    var deliveries, records, events := db.deliveries, ledger.records, ledger.events;
    NotOpen(lockKey, x.t, tx, slot, ids);
    ghost var ops := Begins(lockKey, x.t0, x.ops, x.t, tx, slot, hash);
    ghost var acts, s := BeginsSubmission(x.s0, x.acts, x.s, tx, slot.endpoint);
    ghost var g;
    r, ops, g := Body(db, ledger, slot, db.endpoints[slot.endpoint].tenant, hash, ids, fault, lockKey, tx, x.t0, ops, x.t);
    if r.Inserted? && fault != COMMIT {
      ops := Commits(lockKey, x.t0, ops, x.t, tx, slot, hash, ids);
      AcceptedMatches(deliveries, db.deliveries, x.t, slot, hash, ids, db.endpoints[slot.endpoint].tenant);
      acts, s := EndsSubmission(x.s0, acts, x.s, tx, slot.endpoint, ids, true);
      x' := Ghosts(x.t0, ops, AfterCreation(x.t, slot, hash, ids), x.s0, acts, s);
    } else {
      db.deliveries, ledger.records, ledger.events := deliveries, records, events;   // rollback
      ops := Ends(lockKey, x.t0, ops, x.t, tx, slot, hash, g);
      acts, s := EndsSubmission(x.s0, acts, x.s, tx, slot.endpoint, ids, false);
      x' := Ghosts(x.t0, ops, x.t, x.s0, acts, s);
      if r.Inserted? { r := Aborted(StoreFailure); }
    }
  }

  /** Submit, with no other actor between its statements and no other open
      transaction holding its lock: what it replies and stores is what the atomic
      map answers and stores, as a path of SubmitRuns and a submission of
      Pipeline; unless it inserts, no table changes. */
  method Submit(db: Db, ledger: Ledger, tenants: Option<set<Id>>, slot: Slot, tenant: Id, hash: Hash, ids: Ids, fault: nat,
                ghost lockKey: Slot -> int, ghost tx: Id, ghost x: Ghosts)
    returns (reply: Reply, ghost created: bool, ghost x': Ghosts)
    requires ledger.Valid() && ids.delivery !in db.deliveries && ids.event !in ledger.events
    requires Current(lockKey, x, db, ledger) && Undisturbed(lockKey, x.t, tx, slot, ids) && tx !in x.s.submissions
    modifies db`deliveries, ledger
    ensures ledger.Valid()
    ensures Current(lockKey, x', db, ledger) && x'.t0 == x.t0 && x'.s0 == x.s0
    ensures x'.t == if created then AfterCreation(x.t, slot, hash, ids) else x.t
    ensures SameActors(x.s, x'.s)
    ensures !created ==> db.deliveries == old(db.deliveries) && ledger.records == old(ledger.records) && ledger.events == old(ledger.events)
    ensures created ==>
              && Refusal(db.endpoints, tenants, slot.endpoint, tenant).None? && reply == Accepted(ids)
              && db.deliveries == old(db.deliveries)[ids.delivery := NewDelivery(ids.event, slot.endpoint, tenant, db.now, None)]
              && ledger.events == old(ledger.events)[ids.event := EventRow(slot.endpoint, tenant)]
              && (slot.Keyed() ==> AnswerTo(Entries0(old(ledger.records)), slot, hash, db.now, ids) == Created(ids))
    ensures Refusal(db.endpoints, tenants, slot.endpoint, tenant).Some? ==>
              reply == Rejected(Refusal(db.endpoints, tenants, slot.endpoint, tenant).value)
    ensures reply == Rejected(StoreFailure) ==> fault <= COMMIT
    ensures Refusal(db.endpoints, tenants, slot.endpoint, tenant).None? && reply != Rejected(StoreFailure) ==>
              if !slot.Keyed() then created && ledger.records == old(ledger.records)
              else
                && Entries0(ledger.records) == After(Entries0(old(ledger.records)), Op.Submit(slot, hash, db.now, ids))
                && match AnswerTo(Entries0(old(ledger.records)), slot, hash, db.now, ids)
                   case Created(_) => created
                   case Cached(firstIds) => !created && reply == Accepted(firstIds)
                   case Conflict => !created && reply == Rejected(PayloadConflict)
  {
    hide S.Path, Trace, Undisturbed, Current, SameActors;
    created, x' := false, x;
    SameActorsSelf(x.s);
    if slot.endpoint !in db.endpoints { reply := Rejected(EndpointNotFound); return; }
    if tenants.Some? && tenant !in tenants.value { reply := Rejected(TenantNotFound); return; }
    if db.endpoints[slot.endpoint].tenant != tenant { reply := Rejected(TenantMismatch); return; }
    var r;
    r, x' := InTx(db, ledger, slot, hash, ids, fault, lockKey, tx, x);
    match r {
      case Inserted(_) =>
        created, reply := true, Accepted(ids);
        assert slot.Keyed() ==> Entries0(ledger.records) == Entries0(old(ledger.records))[slot := Entry(hash, ids, db.now + WINDOW)];
      case Hit(firstIds) => reply := Accepted(firstIds);
      case Aborted(e) => reply := Rejected(e);
    }
  }

  lemma SameActorsSelf(s: P.State)
    ensures SameActors(s, s)
  {
  }

  lemma NotOpen(lockKey: Slot -> int, t: S.State, tx: Id, slot: Slot, ids: Ids)
    requires Undisturbed(lockKey, t, tx, slot, ids)
    ensures tx !in t.txs
  {
  }
}
