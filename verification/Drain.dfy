/** Liveness: from a quiet state of a sound run, the loop of clock, reaper,
    scheduler and workers finishes every delivery, whatever the outcomes, while
    only finitely many messages are lost. */
module Drain {
  import opened Model
  import opened CircuitBreaker
  import opened Retry
  import opened Statements
  import opened Pipeline
  import opened AttemptFence
  import opened ReplayForest
  import opened Fenced
  import opened Database
  import opened Tracing
  import opened Scheduler
  import opened Workers
  import P = ProbeDiscipline

  // ----- the remaining attempt budget ---------------------------------------------

  function Weight(d: Delivery): nat {
    if d.status.Terminal() || d.attemptCount >= MAX_ATTEMPTS then 0 else MAX_ATTEMPTS - d.attemptCount
  }

  ghost function WeightOf(ds: Deliveries, ids: set<Id>): nat
    requires ids <= ds.Keys
  {
    if ids == {} then 0
    else
      var id :| id in ids;
      Weight(ds[id]) + WeightOf(ds, ids - {id})
  }

  /** The attempts left to all unfinished deliveries together. */
  ghost function Remaining(ds: Deliveries): nat {
    WeightOf(ds, ds.Keys)
  }

  lemma {:induction false} WeightSplits(ds: Deliveries, ids: set<Id>, x: Id)
    requires ids <= ds.Keys && x in ids
    ensures WeightOf(ds, ids) == Weight(ds[x]) + WeightOf(ds, ids - {x})
  {
    var id :| id in ids && WeightOf(ds, ids) == Weight(ds[id]) + WeightOf(ds, ids - {id});
    if id != x {
      WeightSplits(ds, ids - {id}, x);
      WeightSplits(ds, ids - {x}, id);
      assert ids - {id} - {x} == ids - {x} - {id};
    }
  }

  lemma {:induction false} WeightAgrees(ds: Deliveries, ds': Deliveries, ids: set<Id>)
    requires ids <= ds.Keys && ids <= ds'.Keys
    requires forall id | id in ids :: Weight(ds[id]) == Weight(ds'[id])
    ensures WeightOf(ds, ids) == WeightOf(ds', ids)
  {
    if ids != {} {
      var id :| id in ids;
      WeightSplits(ds, ids, id);
      WeightSplits(ds', ids, id);
      WeightAgrees(ds, ds', ids - {id});
    }
  }

  lemma RemainingChanges(ds: Deliveries, id: Id, row: Delivery)
    requires id in ds
    ensures Remaining(ds[id := row]) + Weight(ds[id]) == Remaining(ds) + Weight(row)
  {
    var ds' := ds[id := row];
    WeightSplits(ds, ds.Keys, id);
    WeightSplits(ds', ds.Keys, id);
    WeightAgrees(ds, ds', ds.Keys - {id});
    assert ds'.Keys == ds.Keys;
  }

  /** Each completed attempt uses up at least one. */
  lemma AttemptUsesBudget(ds: Deliveries, id: Id, o: Outcome, nextAt: Time, now: Time)
    requires LiveRow(ds, id) && Budget(ds)
    ensures Remaining(ds[id := FinalRow(ds[id], o, ds[id].attemptCount + 1, nextAt, now)]) < Remaining(ds)
  {
    RemainingChanges(ds, id, FinalRow(ds[id], o, ds[id].attemptCount + 1, nextAt, now));
  }

  // ----- quiet states ---------------------------------------------------------------

  /** No claim, message or worker is under way. */
  predicate Quiet(s: State) {
    s.outbox == multiset{} && s.msgs == multiset{} && s.workers == map[]
  }

  /** The next attempt of every unfinished delivery is still free. */
  ghost predicate Clean(t: Tables) {
    forall id | id in t.deliveries && !t.deliveries[id].status.Terminal() ::
      (id, t.deliveries[id].attemptCount + 1) !in t.attempts
  }

  predicate AllTerminal(ds: Deliveries) {
    forall id | id in ds :: ds[id].status.Terminal()
  }

  /** Nothing stored refers to a time after t. */
  predicate Past(db: Tables, t: Time) {
    && (forall id | id in db.deliveries ::
          db.deliveries[id].nextAttemptAt <= t
          && (db.deliveries[id].leaseUntil.Some? ==> db.deliveries[id].leaseUntil.value < t))
    && (forall e | e in db.endpoints && db.endpoints[e].circuit.suspendedUntil.Some? ::
          db.endpoints[e].circuit.suspendedUntil.value <= t)
  }

  lemma {:induction false} PastExists(ds: Deliveries, es: Endpoints, ids: set<Id>, eps: set<Id>) returns (t: Time)
    requires ids <= ds.Keys && eps <= es.Keys
    ensures forall id | id in ids :: ds[id].nextAttemptAt <= t
                                     && (ds[id].leaseUntil.Some? ==> ds[id].leaseUntil.value < t)
    ensures forall e | e in eps && es[e].circuit.suspendedUntil.Some? :: es[e].circuit.suspendedUntil.value <= t
    decreases |ids| + |eps|
  {
    if ids != {} {
      var id :| id in ids;
      t := PastExists(ds, es, ids - {id}, eps);
      if t < ds[id].nextAttemptAt { t := ds[id].nextAttemptAt; }
      if ds[id].leaseUntil.Some? && t <= ds[id].leaseUntil.value { t := ds[id].leaseUntil.value + 1; }
    } else if eps != {} {
      var e :| e in eps;
      t := PastExists(ds, es, ids, eps - {e});
      if es[e].circuit.suspendedUntil.Some? && t < es[e].circuit.suspendedUntil.value {
        t := es[e].circuit.suspendedUntil.value;
      }
    } else {
      t := 0;
    }
  }

  // ----- something is always eligible ---------------------------------------------------

  lemma OldestPending(ds: Deliveries) returns (oldest: Id)
    requires !AllTerminal(ds)
    ensures oldest in ds && !ds[oldest].status.Terminal()
    ensures forall x | x in ds && !ds[x].status.Terminal() :: ds[oldest].createdAt <= ds[x].createdAt
  {
    var pending := set d | d in ds && !ds[d].status.Terminal();
    var some :| some in ds && !ds[some].status.Terminal();
    assert some in pending;
    var created := map d | d in ds :: ds[d].createdAt;
    oldest := EarliestExists(pending, created);
    assert forall x | x in ds && !ds[x].status.Terminal() :: x in pending && created[x] == ds[x].createdAt;
  }

  /** When nothing is in flight and everything is due, and the circuits have
      been repaired, the oldest unfinished delivery of all can be claimed. */
  lemma SomethingEligible(s: State)
    requires Good(s) && !AllTerminal(s.db.deliveries)
    requires forall id | id in s.db.deliveries :: !s.db.deliveries[id].status.InFlight?
                                                  && s.db.deliveries[id].nextAttemptAt <= s.now
    requires forall e | e in s.db.endpoints :: !s.db.endpoints[e].circuit.state.Open? && !P.Orphan(s.db.endpoints, e)
    ensures EligibleIds(s.db, s.now) != {}
  {
    var ds := s.db.deliveries;
    var d := OldestPending(ds);
    assert TenantOfEndpoint(ds, s.db.endpoints) && DistinctTimes(ds);
    var e := ds[d].endpoint;
    var c := s.db.endpoints[e].circuit;
    if c.state.HalfOpen? {
      assert P.Disciplined(s, e);
      var p := c.probe.value;
      assert P.OldestOf(ds, e, p);
      assert ds[p].tenant == ds[d].tenant && ds[p].createdAt == ds[d].createdAt;
      assert p == d;
    }
    assert Eligible(s.db, s.now, d);
    assert d in EligibleIds(s.db, s.now);
  }

  // ----- one round of the loop ------------------------------------------------------------

  lemma PastOf(db: Tables, t: Time)
    requires forall id | id in db.deliveries.Keys :: db.deliveries[id].nextAttemptAt <= t
               && (db.deliveries[id].leaseUntil.Some? ==> db.deliveries[id].leaseUntil.value < t)
    requires forall e | e in db.endpoints.Keys && db.endpoints[e].circuit.suspendedUntil.Some? ::
               db.endpoints[e].circuit.suspendedUntil.value <= t
    ensures Past(db, t)
  {
  }

  lemma PastStays(db: Tables, t: Time, t': Time)
    requires Past(db, t) && t <= t'
    ensures Past(db, t')
  {
  }

  /** Waits until every recorded time is past, then runs the reaper. */
  method WaitAndReap(db: Db, ghost s0: State, ghost acts: seq<Action>, ghost s: State)
    returns (ghost acts': seq<Action>, ghost s': State)
    requires Trace(s0, acts, s) && At(db, s) && Good(s) && Quiet(s)
    modifies db`now, db`deliveries
    ensures Trace(s0, acts', s') && At(db, s') && Good(s')
    ensures s' == s.(now := s'.now, db := s.db.(deliveries := Resurrect(s.db.deliveries, s'.now)))
    ensures Past(s.db, s'.now)
  {
    hide Good, Trace, Resurrect;
    ghost var horizon := PastExists(s.db.deliveries, s.db.endpoints, s.db.deliveries.Keys, s.db.endpoints.Keys);
    assert Past(s.db, horizon);
    var t: Time :| Past(db.View(), t);
    db.WaitUntil(t);
    PastStays(s.db, t, db.now);
    acts', s' := Extend(s0, acts, s, Advance(db.now));
    var n := db.ResurrectExpiredLeases();
    acts', s' := Extend(s0, acts', s', Schedule(Reap));
  }

  /** After that pass nothing is in flight and everything is due. */
  lemma ReapedRows(ds: Deliveries, es: Endpoints, as_: Attempts, now: Time)
    requires LeaseIffInFlight(ds) && Past(Tables(ds, es, as_), now) && Clean(Tables(ds, es, as_))
    ensures var ds' := Resurrect(ds, now);
            && (forall id | id in ds' :: !ds'[id].status.InFlight? && ds'[id].nextAttemptAt <= now)
            && Clean(Tables(ds', es, as_))
            && (AllTerminal(ds') <==> AllTerminal(ds))
    ensures Remaining(Resurrect(ds, now)) == Remaining(ds)
  {
    var ds' := Resurrect(ds, now);
    WeightAgrees(ds, ds', ds.Keys);
    assert ds'.Keys == ds.Keys;
    forall id | id in ds ensures ds'[id].status.Terminal() <==> ds[id].status.Terminal() {}
  }

  /** A worker run on a live delivery of clean tables completes its attempt. */
  lemma ProcessedCompletes(t: Tables, t': Tables, id: Id, o: Outcome, nextAt: Time, now: Time)
    requires LiveRow(t.deliveries, id) && OneActiveReplay(t.deliveries) && Budget(t.deliveries)
    requires AttemptRows(t.deliveries, t.attempts) && Clean(t)
    requires var d := t.deliveries[id];
             && t'.deliveries == UpdateRow(t.deliveries, id, FinalRow(d, o, d.attemptCount + 1, nextAt, now))
             && t'.attempts.Keys == t.attempts.Keys + {(id, d.attemptCount + 1)}
    ensures Clean(t') && Remaining(t'.deliveries) < Remaining(t.deliveries)
  {
    var ds, d := t.deliveries, t.deliveries[id];
    FinalRowFacts(d, o, d.attemptCount + 1, nextAt, now);
    AttemptUsesBudget(ds, id, o, nextAt, now);
    hide FinalRow, OneActiveReplay, UpdateRow, Remaining, Budget;
    LiveRowFits(ds, id, FinalRow(d, o, d.attemptCount + 1, nextAt, now));
  }

  /** In a clean fenced state process() cannot fail to start. */
  lemma ProcessStarts(s: State, id: Id)
    requires Good(s) && Clean(s.db) && id in s.msgs
    ensures id in s.db.deliveries && s.db.deliveries[id].endpoint in s.db.endpoints
    ensures (id, s.db.deliveries[id].attemptCount + 1) !in s.db.attempts
    ensures LiveRow(s.db.deliveries, id) && OneActiveReplay(s.db.deliveries) && Budget(s.db.deliveries)
    ensures AttemptRows(s.db.deliveries, s.db.attempts)
  {
    assert LiveRow(s.db.deliveries, id) && TenantOfEndpoint(s.db.deliveries, s.db.endpoints);
  }

  /** One message is processed, with any response. */
  method ProcessOne(db: Db, cfg: Config, id: Id, ghost s0: State, ghost acts: seq<Action>, ghost s: State)
    returns (ghost acts': seq<Action>, ghost s': State)
    requires Trace(s0, acts, s) && At(db, s) && Good(s) && Clean(s.db) && s.cfg == cfg
    requires s.outbox == multiset{} && s.workers == map[] && id in s.msgs
    modifies db`now, db`attempts, db`endpoints, db`deliveries
    ensures Trace(s0, acts', s') && At(db, s') && Good(s') && Clean(s'.db) && s'.cfg == cfg
    ensures s'.outbox == multiset{} && s'.workers == map[] && s'.msgs == s.msgs - multiset{id}
    ensures Remaining(s'.db.deliveries) < Remaining(s.db.deliveries)
  {
    hide Good, Trace, Clean, Remaining, OneActiveReplay, Budget, AttemptRows, UpdateRow, FinalRow, SettleEndpoint;
    ProcessStarts(s, id);
    var http: HttpResult :| true;
    var outcomeLost: bool :| true;
    var result: ProcessResult;
    ghost var settledAt, nextAt;
    result, settledAt, nextAt, acts', s' :=
      Process(db, cfg, id, http, WorkerFaults(outcomeLost, false, false), s0, acts, s);
    ProcessedCompletes(s.db, s'.db, id, Classify(http), nextAt, s'.now);
  }

  lemma LoseOne(s0: State, acts: seq<Action>, s: State, id: Id) returns (acts': seq<Action>, s': State)
    requires Trace(s0, acts, s) && Good(s) && id in s.msgs
    ensures Trace(s0, acts', s') && Good(s') && s' == s.(msgs := s.msgs - multiset{id})
  {
    hide Good, Trace;
    acts', s' := Extend(s0, acts, s, Queue(Lose(id)));
  }

  /** The workers' share of a round: each message is lost, while losses remain,
      or processed, with any response. */
  method ConsumeAll(db: Db, cfg: Config, published: seq<Id>, losses: nat, ghost s0: State, ghost acts: seq<Action>, ghost s: State)
    returns (left: nat, ghost acts': seq<Action>, ghost s': State)
    requires Trace(s0, acts, s) && At(db, s) && Good(s) && Clean(s.db) && s.cfg == cfg
    requires s.outbox == multiset{} && s.workers == map[] && s.msgs == multiset(published)
    modifies db`now, db`attempts, db`endpoints, db`deliveries
    ensures Trace(s0, acts', s') && At(db, s') && Good(s') && Clean(s'.db) && Quiet(s') && s'.cfg == cfg
    ensures left + Remaining(s'.db.deliveries) + |published| <= losses + Remaining(s.db.deliveries)
  {
    hide Good, Trace, Clean, Remaining;
    acts', s', left := acts, s, losses;
    var i := 0;
    assert published[0..] == published;
    while i < |published|
      invariant i <= |published| && Trace(s0, acts', s') && At(db, s') && Good(s') && Clean(s'.db) && s'.cfg == cfg
      invariant s'.outbox == multiset{} && s'.workers == map[]
      invariant s'.msgs == multiset(published[i..])
      invariant left + Remaining(s'.db.deliveries) + i <= losses + Remaining(s.db.deliveries)
    {
      var id := published[i];
      MultisetTail(published[i..]);
      assert published[i..][1..] == published[i+1..];
      var lost: bool :| true;
      if lost && left > 0 {
        acts', s' := LoseOne(s0, acts', s', id);
        left := left - 1;
      } else {
        acts', s' := ProcessOne(db, cfg, id, s0, acts', s');
      }
      i := i + 1;
    }
  }

  /** The driver loop: clock, reaper, one scheduler, its workers. It ends, and
      then every delivery is delivered or permanently_failed. */
  method Drain(db: Db, cfg: Config, losses: nat, ghost s0: State, ghost acts: seq<Action>, ghost s: State)
    returns (ghost acts': seq<Action>, ghost s': State)
    requires Trace(s0, acts, s) && At(db, s) && Good(s) && Clean(s.db) && Quiet(s) && s.cfg == cfg
    modifies db
    ensures Trace(s0, acts', s') && At(db, s') && Good(s')
    ensures AllTerminal(db.deliveries)
  {
    hide Good, Trace, Clean, AllTerminal, Resurrect, P.Orphan;
    acts', s' := acts, s;
    var left: nat := losses;
    while !AllTerminal(db.deliveries)
      invariant Trace(s0, acts', s') && At(db, s') && Good(s') && Clean(s'.db) && Quiet(s') && s'.cfg == cfg
      decreases left + Remaining(db.deliveries)
    {
      left, acts', s' := Round(db, cfg, left, s0, acts', s');
    }
  }

  /** One round completes an attempt of, or loses the message of, some delivery. */
  method Round(db: Db, cfg: Config, losses: nat, ghost s0: State, ghost acts: seq<Action>, ghost s: State)
    returns (left: nat, ghost acts': seq<Action>, ghost s': State)
    requires Trace(s0, acts, s) && At(db, s) && Good(s) && Clean(s.db) && Quiet(s) && s.cfg == cfg
    requires !AllTerminal(db.deliveries)
    modifies db
    ensures Trace(s0, acts', s') && At(db, s') && Good(s') && Clean(s'.db) && Quiet(s') && s'.cfg == cfg
    ensures left + Remaining(s'.db.deliveries) < losses + Remaining(s.db.deliveries)
  {
    hide Good, Trace, Clean, AllTerminal, Resurrect, P.Orphan, TakesLeast, EligibleIds, DueTimes, DueEarlier, Claim, Expired;
    acts', s' := WaitAndReap(db, s0, acts, s);
    ghost var reaped := s';
    GoodLeases(s);
    ReapedRows(s.db.deliveries, s.db.endpoints, s.db.attempts, s'.now);
    var leaseUntil: Time :| true;
    var ok: bool, published: seq<Id>;
    ghost var claimed: seq<Id>, expiredAt: Time, mid: State;
    ok, published, claimed, expiredAt, mid, acts', s' := Tick(db, cfg.batch, leaseUntil, NoFaults, s0, acts', s');
    ClaimedSomething(s, reaped, mid, s', claimed, expiredAt, leaseUntil);
    left, acts', s' := ConsumeAll(db, cfg, published, losses, s0, acts', s');
  }

  lemma GoodLeases(s: State)
    requires Good(s)
    ensures LeaseIffInFlight(s.db.deliveries)
  {
  }

  lemma GoodRows(s: State)
    requires Good(s)
    ensures forall e | e in s.db.endpoints :: RowInv(s.db.endpoints[e].circuit, s.cfg)
    ensures s.cfg.batch >= 1
  {
  }

  /** At the claim of a round, after the repair of the circuits, something is eligible. */
  lemma MidEligible(s: State, reaped: State, mid: State, expiredAt: Time)
    requires Good(mid) && !AllTerminal(mid.db.deliveries)
    requires reaped.db.endpoints == s.db.endpoints && Past(s.db, reaped.now) && reaped.now <= expiredAt <= mid.now
    requires forall id | id in mid.db.deliveries :: !mid.db.deliveries[id].status.InFlight?
                                                    && mid.db.deliveries[id].nextAttemptAt <= mid.now
    requires mid.db.endpoints.Keys == reaped.db.endpoints.Keys
    requires forall e | e in mid.db.endpoints && mid.db.endpoints[e].circuit.state.Open? ::
               mid.db.endpoints[e] == reaped.db.endpoints[e]
    requires forall e | e in mid.db.endpoints :: !P.Orphan(mid.db.endpoints, e) && !Expired(mid.db.endpoints[e].circuit, expiredAt)
    ensures EligibleIds(mid.db, mid.now) != {}
  {
    GoodRows(mid);
    hide Good, EligibleIds, AllTerminal;
    forall e | e in mid.db.endpoints
      ensures !mid.db.endpoints[e].circuit.state.Open?
    {
    }
    SomethingEligible(mid);
  }

  lemma DueEarlierRows(ds: Deliveries, ds': Deliveries, t: Time, now: Time)
    requires DueEarlier(ds, ds', now) && t <= now
    requires forall id | id in ds :: !ds[id].status.InFlight? && ds[id].nextAttemptAt <= t
    ensures forall id | id in ds' :: !ds'[id].status.InFlight? && ds'[id].nextAttemptAt <= now
    ensures AllTerminal(ds') <==> AllTerminal(ds)
  {
    forall id | id in ds ensures ds'[id].status == ds[id].status {}
  }

  /** The Tick of a round claims something and keeps the budget and cleanness. */
  lemma ClaimedSomething(s: State, reaped: State, mid: State, s': State, claimed: seq<Id>, expiredAt: Time, leaseUntil: Time)
    requires Good(mid) && !AllTerminal(s.db.deliveries) && Clean(reaped.db)
    requires reaped.db.endpoints == s.db.endpoints && Past(s.db, reaped.now) && reaped.now <= expiredAt <= mid.now
    requires AllTerminal(reaped.db.deliveries) <==> AllTerminal(s.db.deliveries)
    requires forall id | id in reaped.db.deliveries :: !reaped.db.deliveries[id].status.InFlight?
                                                       && reaped.db.deliveries[id].nextAttemptAt <= reaped.now
    requires Remaining(reaped.db.deliveries) == Remaining(s.db.deliveries)
    requires DueEarlier(reaped.db.deliveries, mid.db.deliveries, mid.now) && mid.db.attempts == reaped.db.attempts
    requires mid.db.endpoints.Keys == reaped.db.endpoints.Keys
    requires forall e | e in mid.db.endpoints && mid.db.endpoints[e].circuit.state.Open? ::
               mid.db.endpoints[e] == reaped.db.endpoints[e]
    requires forall e | e in s'.db.endpoints :: !P.Orphan(s'.db.endpoints, e) && !Expired(s'.db.endpoints[e].circuit, expiredAt)
    requires s'.db == mid.db.(deliveries := Claim(mid.db.deliveries, Elements(claimed), leaseUntil, mid.now))
    requires TakesLeast(EligibleIds(mid.db, mid.now), DueTimes(mid.db.deliveries), mid.cfg.batch, claimed)
    ensures |claimed| >= 1 && Clean(s'.db) && Remaining(s'.db.deliveries) == Remaining(s.db.deliveries)
  {
    GoodRows(mid);
    hide Good, Clean, Remaining, Claim, Eligible, AllTerminal, P.Orphan, Expired, Past, DueEarlier, TakesLeast;
    ClaimedWereScheduled(mid, claimed);
    ClaimKeepsBudget(reaped.db, mid.db, s'.db, mid.now, Elements(claimed), leaseUntil);
    DueEarlierRows(reaped.db.deliveries, mid.db.deliveries, reaped.now, mid.now);
    MidEligible(s, reaped, mid, expiredAt);
    TakesSome(EligibleIds(mid.db, mid.now), DueTimes(mid.db.deliveries), mid.cfg.batch, claimed);
  }

  lemma ClaimedWereScheduled(mid: State, claimed: seq<Id>)
    requires TakesLeast(EligibleIds(mid.db, mid.now), DueTimes(mid.db.deliveries), mid.cfg.batch, claimed)
    ensures forall id | id in Elements(claimed) && id in mid.db.deliveries :: mid.db.deliveries[id].status.Scheduled?
  {
  }

  lemma TakesSome(ids: set<Id>, key: map<Id, Time>, n: nat, taken: seq<Id>)
    requires ids <= key.Keys && TakesLeast(ids, key, n, taken) && n >= 1 && ids != {}
    ensures taken != []
  {
    var id :| id in ids;
    assert id in taken || |taken| == n;
  }

  lemma ClaimKeepsBudget(t: Tables, mid: Tables, t': Tables, now: Time, chosen: set<Id>, leaseUntil: Time)
    requires Clean(t) && DueEarlier(t.deliveries, mid.deliveries, now) && mid.attempts == t.attempts
    requires t' == mid.(deliveries := Claim(mid.deliveries, chosen, leaseUntil, now))
    requires forall id | id in chosen && id in mid.deliveries :: mid.deliveries[id].status.Scheduled?
    ensures Clean(t') && Remaining(t'.deliveries) == Remaining(t.deliveries)
  {
    WeightAgrees(t.deliveries, t'.deliveries, t.deliveries.Keys);
    assert t'.deliveries.Keys == t.deliveries.Keys;
  }
}
