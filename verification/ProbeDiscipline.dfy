/** The half-open probe, in fenced runs: the exact conditions under which the
    probe of every half-open endpoint is its oldest unfinished delivery and
    everything in flight to the endpoint. */
module ProbeDiscipline {
  import opened Model
  import opened CircuitBreaker
  import opened Retry
  import opened Statements
  import opened Pipeline
  import opened RunFacts
  import opened ReplayForest
  import opened Fenced
  import opened CircuitRuns

  /** d is the oldest unfinished delivery of endpoint e. */
  predicate OldestOf(ds: Deliveries, e: Id, d: Id) {
    && d in ds && ds[d].endpoint == e && !ds[d].status.Terminal()
    && forall x | x in ds && ds[x].endpoint == e && !ds[x].status.Terminal() :: ds[d].createdAt <= ds[x].createdAt
  }

  predicate HalfOpenAt(es: Endpoints, e: Id) {
    e in es && es[e].circuit.state.HalfOpen?
  }

  /** If e is half open, its probe is its oldest unfinished delivery, and
      whatever is in flight to it is that probe. */
  ghost predicate Disciplined(s: State, e: Id) {
    HalfOpenAt(s.db.endpoints, e) ==>
      var ds, c := s.db.deliveries, s.db.endpoints[e].circuit;
      && (c.probe.Some? ==> OldestOf(ds, e, c.probe.value))
      && (forall d :: LiveRow(ds, d) && ds[d].endpoint == e ==> c.probe == Some(d))
  }

  ghost predicate AllDisciplined(s: State) {
    forall e :: Disciplined(s, e)
  }

  // ----- the three guards the code leaves out -------------------------------------------

  /** If this is the second statement of SetProbeDelivery and it meets a
      half-open endpoint, the delivery it stores is still the oldest there. */
  predicate AssignIsCurrent(s: State, a: Action) {
    match a
    case Schedule(AssignProbe(p)) =>
      p in s.probers && s.probers[p].Selected? && s.probers[p].choice.Some? && HalfOpenAt(s.db.endpoints, s.probers[p].endpoint)
      ==> OldestOf(s.db.deliveries, s.probers[p].endpoint, s.probers[p].choice.value)
    case _ => true
  }

  /** If this is the expiry of suspensions, nothing is in flight to an expired endpoint. */
  predicate ExpiryFindsNoneLive(s: State, a: Action) {
    a == Schedule(ExpireOpen) ==>
      forall d | d in s.db.deliveries && LiveRow(s.db.deliveries, d) && s.db.deliveries[d].endpoint in s.db.endpoints ::
        !Expired(s.db.endpoints[s.db.deliveries[d].endpoint].circuit, s.now)
  }

  /** Worker w's final update would finish the probe of a half-open endpoint. */
  predicate EndsProbe(s: State, w: Id) {
    && w in s.workers && s.workers[w].stage.Settled?
    && (!s.workers[w].stage.outcome.Retryable() || s.workers[w].seqNo >= MAX_ATTEMPTS)
    && HalfOpenAt(s.db.endpoints, s.workers[w].endpoint)
    && s.db.endpoints[s.workers[w].endpoint].circuit.probe == Some(s.workers[w].delivery)
  }

  /** If this is a worker's final update, it does not finish the probe of an
      endpoint that is still half open. */
  predicate ProbeEndsAfterHalfOpen(s: State, a: Action) {
    a.Work? && a.work.Finish? ==> !EndsProbe(s, a.work.worker)
  }

  predicate StepSound(s: State, a: Action) {
    AssignIsCurrent(s, a) && ExpiryFindsNoneLive(s, a) && ProbeEndsAfterHalfOpen(s, a)
  }

  // ----- what fencing gives -----------------------------------------------------------------

  ghost predicate RowsConsistent(s: State) {
    forall e | e in s.db.endpoints :: RowInv(s.db.endpoints[e].circuit, s.cfg)
  }

  /** Every worker's delivery is in flight to the worker's endpoint. */
  ghost predicate WorkersLive(s: State) {
    forall w | w in s.workers ::
      LiveRow(s.db.deliveries, s.workers[w].delivery)
      && s.db.deliveries[s.workers[w].delivery].endpoint == s.workers[w].endpoint
  }

  /** No two deliveries are in flight to one endpoint. */
  ghost predicate EndpointsExclusive(ds: Deliveries) {
    forall x, y | LiveRow(ds, x) && LiveRow(ds, y) && ds[x].endpoint == ds[y].endpoint :: x == y
  }

  /** The consequences of fencing that the probe needs. */
  ghost predicate Exclusive(s: State) {
    && WorkersLive(s) && EndpointsExclusive(s.db.deliveries)
    && (forall v, w | v in s.workers && w in s.workers && s.workers[v].delivery == s.workers[w].delivery :: v == w)
    && OneActiveReplay(s.db.deliveries) && TenantOfEndpoint(s.db.deliveries, s.db.endpoints)
    && DistinctTimes(s.db.deliveries)
  }

  lemma FencedGivesExclusive(s: State)
    requires FencedInv(s)
    ensures Exclusive(s)
  {
    forall x, y | LiveRow(s.db.deliveries, x) && LiveRow(s.db.deliveries, y)
                  && s.db.deliveries[x].endpoint == s.db.deliveries[y].endpoint
      ensures x == y
    {
      OneInFlightPerEndpoint(s, x, y);
    }
  }

  /** A tenant has one in-flight delivery, so an endpoint has at most one. */
  lemma OneInFlightPerEndpoint(s: State, x: Id, y: Id)
    requires FencedInv(s) && LiveRow(s.db.deliveries, x) && LiveRow(s.db.deliveries, y)
    requires s.db.deliveries[x].endpoint == s.db.deliveries[y].endpoint
    ensures x == y
  {
    assert !Blocks(s.db.deliveries, x, y) && !Blocks(s.db.deliveries, y, x);
  }

  /** Two oldest deliveries of one endpoint are the same. */
  lemma OldestIsUnique(s: State, e: Id, x: Id, y: Id)
    requires TenantOfEndpoint(s.db.deliveries, s.db.endpoints) && DistinctTimes(s.db.deliveries)
    requires OldestOf(s.db.deliveries, e, x) && OldestOf(s.db.deliveries, e, y)
    ensures x == y
  {
  }

  // ----- sound steps keep the discipline ----------------------------------------------------

  /** The same deliveries are unfinished and none newly enters in_flight. */
  ghost predicate SameQueue(ds: Deliveries, ds': Deliveries) {
    && ds'.Keys == ds.Keys
    && forall id | id in ds ::
         && SameIdentity(ds[id], ds'[id])
         && (ds'[id].status.Terminal() <==> ds[id].status.Terminal())
         && (ds'[id].status.InFlight? ==> ds[id].status.InFlight?)
  }

  lemma SameQueueKeeps(s: State, s': State, e: Id)
    requires Disciplined(s, e) && SameQueue(s.db.deliveries, s'.db.deliveries) && s'.db.endpoints == s.db.endpoints
    ensures Disciplined(s', e)
  {
  }

  lemma SameTablesKeep(s: State, s': State, e: Id)
    requires Disciplined(s, e) && s'.db.deliveries == s.db.deliveries && s'.db.endpoints == s.db.endpoints
    ensures Disciplined(s', e)
  {
  }

  lemma ClaimKeeps(s: State, chosen: set<Id>, lease: Time, e: Id)
    requires Disciplined(s, e) && SchedulerEnabled(s, ClaimReady(chosen, lease))
    ensures Disciplined(ApplyScheduler(s, ClaimReady(chosen, lease)), e)
  {
    var ds, ds' := s.db.deliveries, Claim(s.db.deliveries, chosen, lease, s.now);
    assert forall id | id in chosen :: Eligible(s.db, s.now, id);
    forall d | OldestOf(ds, e, d) ensures OldestOf(ds', e, d) {
    }
  }

  lemma InsertKeeps(s: State, id: Id, row: Delivery, e: Id)
    requires Disciplined(s, e) && id !in s.db.deliveries && row.status.Scheduled?
    requires TenantOfEndpoint(s.db.deliveries, s.db.endpoints)
    requires row.endpoint in s.db.endpoints && row.tenant == s.db.endpoints[row.endpoint].tenant
    requires NewestOfTenant(s.db.deliveries, row.tenant, row.createdAt)
    ensures Disciplined(WithDeliveries(s, s.db.deliveries[id := row]), e)
  {
    var ds, ds' := s.db.deliveries, s.db.deliveries[id := row];
    forall d | OldestOf(ds, e, d) ensures OldestOf(ds', e, d) {
      if row.endpoint == e { assert ds[d].tenant == row.tenant; }
    }
  }

  lemma SourceTenant(s: State, src: Id)
    requires TenantOfEndpoint(s.db.deliveries, s.db.endpoints) && src in s.db.deliveries
    ensures s.db.deliveries[src].endpoint in s.db.endpoints
    ensures s.db.endpoints[s.db.deliveries[src].endpoint].tenant == s.db.deliveries[src].tenant
  {
  }

  lemma ClientKeeps(s: State, a: ClientAction, e: Id)
    requires Disciplined(s, e) && ClientEnabled(s, a) && FenceAllows(s, Client(a))
    requires TenantOfEndpoint(s.db.deliveries, s.db.endpoints)
    ensures Disciplined(ApplyClient(s, a), e)
  {
    hide Disciplined, TenantOfEndpoint;
    match a
    case CommitSubmit(tx, ev, id) =>
      var sub := s.submissions[tx];
      if sub.endpoint in s.db.endpoints {
        var row := NewDelivery(ev, sub.endpoint, s.db.endpoints[sub.endpoint].tenant, sub.start, None);
        InsertKeeps(s, id, row, e);
        SameTablesKeep(WithDeliveries(s, s.db.deliveries[id := row]), ApplyClient(s, a), e);
      }
    case CreateReplay(src, id) =>
      SourceTenant(s, src);
      InsertKeeps(s, id, ReplayRow(s.db.deliveries, s.db.endpoints, src, s.now), e);
    case _ => SameTablesKeep(s, ApplyClient(s, a), e);
  }

  lemma ExpireKeeps(s: State, e: Id)
    requires Disciplined(s, e) && RowsConsistent(s) && ExpiryFindsNoneLive(s, Schedule(ExpireOpen))
    ensures Disciplined(ApplyScheduler(s, ExpireOpen), e)
  {
    if e in s.db.endpoints { assert RowInv(s.db.endpoints[e].circuit, s.cfg); }
  }

  lemma AssignKeeps(s: State, p: Id, e: Id)
    requires Disciplined(s, e) && SchedulerEnabled(s, AssignProbe(p)) && AssignIsCurrent(s, Schedule(AssignProbe(p)))
    requires TenantOfEndpoint(s.db.deliveries, s.db.endpoints) && DistinctTimes(s.db.deliveries)
    ensures Disciplined(DoAssignProbe(s, p), e)
  {
    var k, ds := s.probers[p], s.db.deliveries;
    if k.endpoint == e && k.choice.Some? && HalfOpenAt(s.db.endpoints, e) {
      forall d | LiveRow(ds, d) && ds[d].endpoint == e ensures d == k.choice.value {
        OldestIsUnique(s, e, d, k.choice.value);
      }
    }
  }

  lemma SchedulerKeeps(s: State, a: SchedulerAction, e: Id)
    requires Disciplined(s, e) && RowsConsistent(s) && SchedulerEnabled(s, a) && StepSound(s, Schedule(a))
    requires TenantOfEndpoint(s.db.deliveries, s.db.endpoints) && DistinctTimes(s.db.deliveries)
    ensures Disciplined(ApplyScheduler(s, a), e)
  {
    hide Disciplined, RowsConsistent, AssignIsCurrent, ExpiryFindsNoneLive, StoreProbe, TenantOfEndpoint, DistinctTimes;
    match a
    case ClaimReady(chosen, lease) => ClaimKeeps(s, chosen, lease, e);
    case Reap => SameQueueKeeps(s, ApplyScheduler(s, Reap), e);
    case ExpireOpen => ExpireKeeps(s, e);
    case SelectProbe(_, _, _) => SameTablesKeep(s, ApplyScheduler(s, a), e);
    case AssignProbe(p) => AssignKeeps(s, p, e);
    case ResetProbe(_) => SameQueueKeeps(s, ApplyScheduler(s, a), e);
    case CrashProber(_) => SameTablesKeep(s, ApplyScheduler(s, a), e);
  }

  /** An outcome never leads into half_open: a circuit that is half open after it is unchanged. */
  lemma SettleLeavesHalfOpen(c: Circuit, cfg: Config, now: Time, o: Outcome, seen: Breaker)
    ensures Settle(c, cfg, now, o, seen).state.HalfOpen? ==> Settle(c, cfg, now, o, seen) == c
  {
  }

  lemma SettleKeeps(s: State, w: Id, stored: bool, e: Id)
    requires Disciplined(s, e) && w in s.workers && s.workers[w].stage.Recorded?
    ensures Disciplined(DoSettle(s, w, stored), e)
  {
    hide Settle;
    var k := s.workers[w];
    if k.endpoint in s.db.endpoints {
      SettleLeavesHalfOpen(s.db.endpoints[k.endpoint].circuit, s.cfg, s.now, k.stage.outcome, k.seen);
    }
  }

  /** Delivery d leaves in_flight; if it finishes, it is not the probe of a half-open endpoint. */
  lemma RowKeeps(s: State, s': State, d: Id, row: Delivery, e: Id)
    requires Disciplined(s, e) && d in s.db.deliveries && SameIdentity(s.db.deliveries[d], row) && !row.status.InFlight?
    requires LiveRow(s.db.deliveries, d)
    requires s'.db.deliveries == s.db.deliveries[d := row] && s'.db.endpoints == s.db.endpoints
    requires row.status.Terminal() && HalfOpenAt(s.db.endpoints, row.endpoint) ==>
               s.db.endpoints[row.endpoint].circuit.probe != Some(d)
    ensures Disciplined(s', e)
  {
  }

  lemma FinishKeeps(s: State, w: Id, clock: Time, draw: int64, e: Id)
    requires Disciplined(s, e) && Exclusive(s) && WorkerEnabled(s, Finish(w, clock, draw)) && !EndsProbe(s, w)
    ensures Disciplined(DoFinish(s, w, clock, draw), e)
  {
    var k := s.workers[w];
    assert LiveRow(s.db.deliveries, k.delivery) && s.db.deliveries[k.delivery].endpoint == k.endpoint;
    hide Disciplined, Exclusive, OneActiveReplay, DoFinish, FinalRow;
    ExclusiveIndex(s);
    FinishFrame(s, w, clock, draw);
    FinishStoresRow(s, w, clock, draw);
    var row := FinalRow(s.db.deliveries[k.delivery], k.stage.outcome, k.seqNo, NextAt(k, clock, draw), s.now);
    FinalRowFacts(s.db.deliveries[k.delivery], k.stage.outcome, k.seqNo, NextAt(k, clock, draw), s.now);
    FinalRowIdentity(s.db.deliveries[k.delivery], k.stage.outcome, k.seqNo, NextAt(k, clock, draw), s.now);
    FinalRowEnds(s.db.deliveries[k.delivery], k.stage.outcome, k.seqNo, NextAt(k, clock, draw), s.now);
    RowKeeps(s, DoFinish(s, w, clock, draw), k.delivery, row, e);
  }

  lemma ExclusiveIndex(s: State)
    requires Exclusive(s)
    ensures OneActiveReplay(s.db.deliveries)
  {
  }

  /** Which final rows are terminal; none is in flight. */
  lemma FinalRowEnds(d: Delivery, o: Outcome, seqNo: nat, nextAt: Time, now: Time)
    ensures FinalRow(d, o, seqNo, nextAt, now).status.Terminal() <==> !o.Retryable() || seqNo >= MAX_ATTEMPTS
    ensures !FinalRow(d, o, seqNo, nextAt, now).status.InFlight?
  {
  }

  lemma WorkerKeeps(s: State, a: WorkerAction, e: Id)
    requires Disciplined(s, e) && Exclusive(s) && WorkerEnabled(s, a) && StepSound(s, Work(a))
    ensures Disciplined(ApplyWorker(s, a), e)
  {
    hide Disciplined, Exclusive, DoFinish, DoSettle, InsertAttempt, RecordOutcome;
    match a
    case SettleCircuit(w, stored) => SettleKeeps(s, w, stored, e);
    case Finish(w, clock, draw) => FinishKeeps(s, w, clock, draw, e);
    case _ => SameTablesKeep(s, ApplyWorker(s, a), e);
  }

  lemma QueueKeeps(s: State, a: QueueAction, e: Id)
    requires Disciplined(s, e) && QueueEnabled(s, a)
    ensures Disciplined(ApplyQueue(s, a), e)
  {
    QueueFrame(s, a);
    hide Disciplined, QueueEnabled, ApplyQueue;
    SameTablesKeep(s, ApplyQueue(s, a), e);
  }

  lemma ExclusiveTimes(s: State)
    requires Exclusive(s)
    ensures TenantOfEndpoint(s.db.deliveries, s.db.endpoints) && DistinctTimes(s.db.deliveries)
  {
  }

  lemma DisciplineStep(s: State, a: Action, e: Id)
    requires Exclusive(s) && RowsConsistent(s) && Enabled(s, a) && FenceAllows(s, a) && StepSound(s, a)
    requires Disciplined(s, e)
    ensures Disciplined(Apply(s, a), e)
  {
    hide Disciplined, RowsConsistent, Exclusive, FenceAllows, StepSound, TenantOfEndpoint, DistinctTimes;
    hide ClientEnabled, QueueEnabled, WorkerEnabled, SchedulerEnabled;
    hide ApplyClient, ApplyQueue, ApplyWorker, ApplyScheduler;
    ExclusiveTimes(s);
    match a
    case Client(c) => ClientKeeps(s, c, e);
    case Work(w) => WorkerKeeps(s, w, e);
    case Schedule(c) => SchedulerKeeps(s, c, e);
    case Queue(q) => QueueKeeps(s, q, e);
    case Advance(to) => SameTablesKeep(s, s.(now := to), e);
  }

  // ----- and any other step breaks it ---------------------------------------------------------

  lemma StaleAssignBreaks(s: State, a: Action) returns (e: Id)
    requires Enabled(s, a) && !AssignIsCurrent(s, a)
    ensures !Disciplined(Apply(s, a), e)
  {
    e := s.probers[a.schedule.prober].endpoint;
  }

  lemma ExpiryBreaks(s: State, a: Action) returns (e: Id)
    requires RowsConsistent(s) && Enabled(s, a) && !ExpiryFindsNoneLive(s, a)
    ensures !Disciplined(Apply(s, a), e)
  {
    var d :| d in s.db.deliveries && LiveRow(s.db.deliveries, d) && s.db.deliveries[d].endpoint in s.db.endpoints
             && Expired(s.db.endpoints[s.db.deliveries[d].endpoint].circuit, s.now);
    e := s.db.deliveries[d].endpoint;
    assert RowInv(s.db.endpoints[e].circuit, s.cfg) && Queued(s.db.deliveries, e);
  }

  lemma FinishBreaks(s: State, w: Id, clock: Time, draw: int64)
    requires Exclusive(s) && WorkerEnabled(s, Finish(w, clock, draw)) && EndsProbe(s, w)
    ensures !Disciplined(DoFinish(s, w, clock, draw), s.workers[w].endpoint)
  {
    var k := s.workers[w];
    assert LiveRow(s.db.deliveries, k.delivery);
    ExclusiveIndex(s);
    hide Exclusive, OneActiveReplay, DoFinish, FinalRow;
    FinishFrame(s, w, clock, draw);
    FinishStoresRow(s, w, clock, draw);
    FinalRowEnds(s.db.deliveries[k.delivery], k.stage.outcome, k.seqNo, NextAt(k, clock, draw), s.now);
  }

  lemma UnsoundBreaks(s: State, a: Action) returns (e: Id)
    requires Exclusive(s) && RowsConsistent(s) && Enabled(s, a) && !StepSound(s, a)
    ensures !Disciplined(Apply(s, a), e)
  {
    hide Disciplined, Exclusive, RowsConsistent, AssignIsCurrent, ExpiryFindsNoneLive, EndsProbe, DoFinish;
    if !AssignIsCurrent(s, a) {
      e := StaleAssignBreaks(s, a);
    } else if !ExpiryFindsNoneLive(s, a) {
      e := ExpiryBreaks(s, a);
    } else {
      e := s.workers[a.work.worker].endpoint;
      FinishBreaks(s, a.work.worker, a.work.clock, a.work.draw);
    }
  }

  // ----- the exact condition --------------------------------------------------------------------

  lemma RowsConsistentAlways(r: Run, i: nat)
    requires r.Valid() && i < |r.states|
    ensures RowsConsistent(r.states[i])
  {
    RunLater(r, 0, i);
    forall e | e in r.states[i].db.endpoints
      ensures RowInv(r.states[i].db.endpoints[e].circuit, r.states[i].cfg)
    {
      CircuitRowsConsistent(r, i, e);
    }
  }

  ghost predicate AlwaysDisciplined(r: Run) {
    forall i: nat :: i < |r.states| ==> AllDisciplined(r.states[i])
  }

  ghost predicate StepsSound(r: Run) {
    forall i: nat :: i < |r.actions| && i < |r.states| ==> StepSound(r.states[i], r.actions[i])
  }

  lemma StartsDisciplined(s: State)
    requires Init(s)
    ensures AllDisciplined(s)
  {
  }

  /** What every state of a fenced run offers to its next step. */
  lemma FencedState(r: Run, i: nat)
    requires FencedRun(r) && i < |r.actions| && i < |r.states|
    ensures Exclusive(r.states[i]) && RowsConsistent(r.states[i]) && FenceAllows(r.states[i], r.actions[i])
    ensures Enabled(r.states[i], r.actions[i]) && i + 1 < |r.states| && r.states[i+1] == Apply(r.states[i], r.actions[i])
  {
    hide FencedInv, Exclusive, RowsConsistent, FenceAllows, Enabled, Apply, Init;
    FencedAlways(r, i);
    FencedGivesExclusive(r.states[i]);
    RowsConsistentAlways(r, i);
    assert r.StepAt(i);
  }

  lemma {:induction false} SoundIsDisciplined(r: Run, i: nat)
    requires FencedRun(r) && i < |r.states|
    requires forall j: nat :: j < i && j < |r.actions| ==> StepSound(r.states[j], r.actions[j])
    ensures AllDisciplined(r.states[i])
  {
    hide Exclusive, RowsConsistent, FenceAllows, StepSound, Disciplined, Enabled, Apply, Init;
    if i > 0 {
      SoundIsDisciplined(r, i - 1);
      FencedState(r, i - 1);
      forall e ensures Disciplined(r.states[i], e) { DisciplineStep(r.states[i-1], r.actions[i-1], e); }
    } else {
      StartsDisciplined(r.states[0]);
    }
  }

  /** The probe discipline, exactly: in a fenced run it holds in every state if
      and only if every step is sound, that is: a second statement of
      SetProbeDelivery that meets a half-open endpoint stores a delivery that is
      still its oldest; no suspension expires while a delivery is in flight to
      the endpoint; no final update finishes the probe of an endpoint that is
      still half open. */
  lemma DisciplineIff(r: Run)
    requires FencedRun(r)
    ensures AlwaysDisciplined(r) <==> StepsSound(r)
  {
    hide FencedRun, Exclusive, RowsConsistent, FenceAllows, StepSound, Disciplined, Enabled, Apply, Init;
    if StepsSound(r) {
      forall i: nat | i < |r.states| ensures AllDisciplined(r.states[i]) { SoundIsDisciplined(r, i); }
    } else {
      var i: nat :| i < |r.actions| && i < |r.states| && !StepSound(r.states[i], r.actions[i]);
      FencedState(r, i);
      var e := UnsoundBreaks(r.states[i], r.actions[i]);
      assert !AllDisciplined(r.states[i+1]);
    }
  }

  /** A half-open endpoint without probe. */
  predicate Orphan(es: Endpoints, e: Id) {
    e in es && es[e].circuit.state.HalfOpen? && es[e].circuit.probe.None?
  }
}
