/** Fenced runs: each claim's message is consumed at most once, no lease
    expires while its message or worker is alive, and inserts of one tenant
    commit in strictly increasing created_at. */
module Fenced {
  import opened Model
  import opened Retry
  import opened Statements
  import opened Pipeline
  import opened RunFacts
  import opened AttemptFence
  import opened ReplayForest

  predicate NoLiveClaim(s: State, id: Id) {
    && id !in s.outbox && id !in s.msgs
    && forall w | w in s.workers :: s.workers[w].delivery != id
  }

  /** created_at lies after every stored delivery of the tenant. */
  predicate NewestOfTenant(ds: Deliveries, tenant: Id, createdAt: Time) {
    forall d | d in ds && ds[d].tenant == tenant :: ds[d].createdAt < createdAt
  }

  predicate FenceAllows(s: State, a: Action) {
    match a
    case Queue(Duplicate(_)) => false
    case Schedule(Reap) =>
      forall id | id in s.db.deliveries && LeaseExpired(s.db.deliveries[id], s.now) :: NoLiveClaim(s, id)
    case Client(CommitSubmit(tx, _, _)) =>
      tx in s.submissions && s.submissions[tx].endpoint in s.db.endpoints ==>
        NewestOfTenant(s.db.deliveries, s.db.endpoints[s.submissions[tx].endpoint].tenant, s.submissions[tx].start)
    case Client(CreateReplay(src, _)) =>
      src in s.db.deliveries ==> NewestOfTenant(s.db.deliveries, s.db.deliveries[src].tenant, s.now)
    case _ => true
  }

  ghost predicate FencedRun(r: Run) {
    r.Valid() && forall i :: 0 <= i < |r.actions| ==> FenceAllows(r.states[i], r.actions[i])
  }

  // ----- invariant --------------------------------------------------------------

  predicate LiveRow(ds: Deliveries, id: Id) {
    id in ds && ds[id].status.InFlight?
  }

  /** Each in-flight delivery has at most one live claim, held by the scheduler,
      the queue or one worker, and nothing else has any. */
  ghost predicate OneClaim(s: State) {
    && (forall id :: s.outbox[id] + s.msgs[id] <= 1)
    && (forall id | id in s.outbox :: LiveRow(s.db.deliveries, id))
    && (forall id | id in s.msgs :: LiveRow(s.db.deliveries, id))
    && (forall w | w in s.workers ::
          var k := s.workers[w];
          && LiveRow(s.db.deliveries, k.delivery) && k.delivery !in s.outbox && k.delivery !in s.msgs
          && k.seqNo == s.db.deliveries[k.delivery].attemptCount + 1)
    && (forall w, v | w in s.workers && v in s.workers && s.workers[w].delivery == s.workers[v].delivery :: w == v)
  }

  ghost predicate DistinctTimes(ds: Deliveries) {
    forall x, y | x in ds && y in ds && ds[x].tenant == ds[y].tenant && ds[x].createdAt == ds[y].createdAt :: x == y
  }

  ghost predicate InFlightOldest(ds: Deliveries) {
    forall b, id | b in ds && id in ds && ds[id].status.InFlight? :: !Blocks(ds, b, id)
  }

  /** Whoever has been read or replayed as permanently_failed still is. */
  ghost predicate FailedStays(ds: Deliveries, readFailed: set<Id>) {
    && (forall id | id in readFailed :: id in ds && ds[id].status.PermanentlyFailed?)
    && (forall id | id in ds && ds[id].source.Some? ::
          ds[id].source.value in ds && ds[ds[id].source.value].status.PermanentlyFailed?)
  }

  ghost predicate Bounded(ds: Deliveries, as_: Attempts, now: Time) {
    forall id | id in ds ::
      && (!ds[id].status.Scheduled? ==> ds[id].nextAttemptAt <= now)
      && ds[id].attemptCount <= MAX_ATTEMPTS
      && (ds[id].status.Terminal() ==> (id, ds[id].attemptCount + 1) !in as_)
  }

  ghost predicate RowsOrdered(s: State) {
    && DistinctTimes(s.db.deliveries) && InFlightOldest(s.db.deliveries)
    && FailedStays(s.db.deliveries, s.readFailed)
    && Bounded(s.db.deliveries, s.db.attempts, s.now)
  }

  ghost predicate FencedInv(s: State) {
    FenceInv(s) && Forest(s) && OneClaim(s) && RowsOrdered(s)
  }

  // ----- live claims ------------------------------------------------------------

  lemma QueueOneClaim(s: State, a: QueueAction)
    requires OneClaim(s) && QueueEnabled(s, a) && !a.Duplicate?
    ensures OneClaim(ApplyQueue(s, a))
  {
  }

  /** Rows that are in flight stay so with the same counter, and the claims are the same. */
  lemma SameClaims(s: State, s': State)
    requires OneClaim(s) && s'.outbox == s.outbox && s'.msgs == s.msgs && s'.workers == s.workers
    requires forall id | LiveRow(s.db.deliveries, id) && !NoLiveClaim(s, id) ::
               LiveRow(s'.db.deliveries, id)
               && s'.db.deliveries[id].attemptCount == s.db.deliveries[id].attemptCount
    ensures OneClaim(s')
  {
  }

  lemma ClientOneClaim(s: State, a: ClientAction)
    requires OneClaim(s) && ClientEnabled(s, a)
    ensures OneClaim(ApplyClient(s, a))
  {
    SameClaims(s, ApplyClient(s, a));
  }

  lemma ClaimOneClaim(s: State, chosen: set<Id>, lease: Time)
    requires OneClaim(s) && SchedulerEnabled(s, ClaimReady(chosen, lease))
    ensures OneClaim(ApplyScheduler(s, ClaimReady(chosen, lease)))
  {
    var s' := ApplyScheduler(s, ClaimReady(chosen, lease));
    assert forall id | id in chosen :: Eligible(s.db, s.now, id) && !LiveRow(s.db.deliveries, id);
    forall id
      ensures s'.outbox[id] + s'.msgs[id] <= 1
    {
      if id in chosen {
        assert id !in s.outbox && id !in s.msgs;
      }
    }
    assert forall w | w in s.workers :: s.workers[w].delivery !in chosen;
  }

  lemma SchedulerOneClaim(s: State, a: SchedulerAction)
    requires OneClaim(s) && SchedulerEnabled(s, a) && FenceAllows(s, Schedule(a))
    ensures OneClaim(ApplyScheduler(s, a))
  {
    match a
    case ClaimReady(chosen, lease) => ClaimOneClaim(s, chosen, lease);
    case _ => SameClaims(s, ApplyScheduler(s, a));
  }

  lemma FinishOneClaim(s: State, s': State, w: Id)
    requires OneClaim(s) && w in s.workers
    requires s'.outbox == s.outbox && s'.msgs == s.msgs && s'.workers == s.workers - {w}
    requires forall id | id in s.db.deliveries && id != s.workers[w].delivery ::
               id in s'.db.deliveries && s'.db.deliveries[id] == s.db.deliveries[id]
    ensures OneClaim(s')
  {
  }

  lemma FinishOnlyItsRow(s: State, w: Id, clock: Time, draw: int64)
    requires WorkerEnabled(s, Finish(w, clock, draw))
    ensures forall id | id in s.db.deliveries && id != s.workers[w].delivery ::
              id in DoFinish(s, w, clock, draw).db.deliveries
              && DoFinish(s, w, clock, draw).db.deliveries[id] == s.db.deliveries[id]
  {
    hide FinalRow, DuplicatesReplay;
  }

  lemma LoadOneClaim(s: State, w: Id, id: Id)
    requires OneClaim(s) && WorkerEnabled(s, Load(w, id))
    ensures OneClaim(DoLoad(s, w, id))
  {
    assert s.msgs[id] == 1 && id !in s.outbox;
  }

  /** Worker w moves on to another stage. */
  lemma StageOneClaim(s: State, s': State, w: Id, g: Stage)
    requires OneClaim(s) && w in s.workers
    requires s'.outbox == s.outbox && s'.msgs == s.msgs && s'.db.deliveries == s.db.deliveries
    requires s'.workers == s.workers[w := s.workers[w].(stage := g)]
    ensures OneClaim(s')
  {
  }

  lemma WorkerOneClaim(s: State, a: WorkerAction)
    requires OneClaim(s) && WorkerEnabled(s, a)
    ensures OneClaim(ApplyWorker(s, a))
  {
    hide OneClaim, DoFinish, DoSettle, InsertAttempt, RecordOutcome;
    var s' := ApplyWorker(s, a);
    match a
    case Load(w, id) => LoadOneClaim(s, w, id);
    case InsertStarted(w) =>
      if w in s'.workers { StageOneClaim(s, s', w, Started); } else { FinishOneClaim(s, s', w); }
    case Post(w, o) => StageOneClaim(s, s', w, Posted(o));
    case UpdateOutcome(w, _, _) => StageOneClaim(s, s', w, Recorded(s.workers[w].stage.outcome));
    case SettleCircuit(w, stored) =>
      SettleFrame(s, w, stored);
      StageOneClaim(s, s', w, Settled(s.workers[w].stage.outcome));
    case Finish(w, clock, draw) =>
      FinishFrame(s, w, clock, draw);
      FinishOnlyItsRow(s, w, clock, draw);
      FinishOneClaim(s, s', w);
    case CrashWorker(w) => FinishOneClaim(s, s', w);
  }

  // ----- row order ----------------------------------------------------------------

  lemma InsertKeepsOrder(ds: Deliveries, as_: Attempts, rf: set<Id>, now: Time, id: Id, row: Delivery)
    requires DistinctTimes(ds) && InFlightOldest(ds) && FailedStays(ds, rf) && Bounded(ds, as_, now)
    requires id !in ds && row.status.Scheduled? && row.attemptCount == 0 && NewestOfTenant(ds, row.tenant, row.createdAt)
    requires row.source.Some? ==> row.source.value in rf
    ensures var ds' := ds[id := row];
            DistinctTimes(ds') && InFlightOldest(ds') && FailedStays(ds', rf) && Bounded(ds', as_, now)
  {
    InsertKeepsOldest(ds, id, row);
    hide InFlightOldest;
  }

  lemma InsertKeepsOldest(ds: Deliveries, id: Id, row: Delivery)
    requires InFlightOldest(ds) && id !in ds && row.status.Scheduled? && NewestOfTenant(ds, row.tenant, row.createdAt)
    ensures InFlightOldest(ds[id := row])
  {
  }

  lemma ClientOrder(s: State, a: ClientAction)
    requires FencedInv(s) && ClientEnabled(s, a) && FenceAllows(s, Client(a))
    ensures RowsOrdered(ApplyClient(s, a))
  {
    var ds := s.db.deliveries;
    assert TenantOfEndpoint(ds, s.db.endpoints);
    hide FenceInv, Forest, OneClaim;
    match a
    case CommitSubmit(tx, ev, id) =>
      var sub := s.submissions[tx];
      if sub.endpoint in s.db.endpoints {
        InsertKeepsOrder(ds, s.db.attempts, s.readFailed, s.now, id,
          NewDelivery(ev, sub.endpoint, s.db.endpoints[sub.endpoint].tenant, sub.start, None));
      }
    case CreateReplay(src, id) =>
      InsertKeepsOrder(ds, s.db.attempts, s.readFailed, s.now, id,
        ReplayRow(ds, s.db.endpoints, src, s.now));
    case _ =>
  }

  lemma ClaimKeepsOrder(t: Tables, rf: set<Id>, now: Time, chosen: set<Id>, lease: Time)
    requires DistinctTimes(t.deliveries) && InFlightOldest(t.deliveries) && FailedStays(t.deliveries, rf)
    requires Bounded(t.deliveries, t.attempts, now) && forall id | id in chosen :: Eligible(t, now, id)
    ensures var ds' := Claim(t.deliveries, chosen, lease, now);
            DistinctTimes(ds') && InFlightOldest(ds') && FailedStays(ds', rf) && Bounded(ds', t.attempts, now)
  {
    var ds' := Claim(t.deliveries, chosen, lease, now);
    forall b, id | b in ds' && id in ds' && ds'[id].status.InFlight?
      ensures !Blocks(ds', b, id)
    {
      if id in chosen {
        assert Eligible(t, now, id);
      }
      assert !Blocks(t.deliveries, b, id);
    }
  }

  /** No row enters in_flight or changes its terminal status or counter. */
  predicate Calm(ds: Deliveries, ds': Deliveries, now: Time) {
    && ds'.Keys == ds.Keys
    && forall id | id in ds ::
         && SameIdentity(ds[id], ds'[id])
         && ds'[id].attemptCount == ds[id].attemptCount
         && (ds'[id].nextAttemptAt == ds[id].nextAttemptAt || ds'[id].nextAttemptAt == now)
         && (ds'[id].status == ds[id].status || (ds[id].status.InFlight? && ds'[id].status.Scheduled?))
  }

  lemma CalmKeepsOrder(ds: Deliveries, ds': Deliveries, as_: Attempts, rf: set<Id>, now: Time)
    requires DistinctTimes(ds) && InFlightOldest(ds) && FailedStays(ds, rf) && Bounded(ds, as_, now)
    requires Calm(ds, ds', now)
    ensures DistinctTimes(ds') && InFlightOldest(ds') && FailedStays(ds', rf) && Bounded(ds', as_, now)
  {
    forall b, id | b in ds' && id in ds' && ds'[id].status.InFlight?
      ensures !Blocks(ds', b, id)
    {
      assert !Blocks(ds, b, id);
    }
  }

  lemma ResurrectIsCalm(ds: Deliveries, now: Time)
    ensures Calm(ds, Resurrect(ds, now), now)
  {
  }

  lemma PullForwardIsCalm(ds: Deliveries, d: Id, now: Time)
    ensures Calm(ds, PullForward(ds, d, now), now)
  {
  }

  lemma SchedulerOrder(s: State, a: SchedulerAction)
    requires RowsOrdered(s) && SchedulerEnabled(s, a)
    ensures RowsOrdered(ApplyScheduler(s, a))
  {
    hide Claim, Resurrect, PullForward, DistinctTimes, InFlightOldest, FailedStays, Bounded, Eligible, Calm;
    match a
    case ClaimReady(chosen, lease) => ClaimKeepsOrder(s.db, s.readFailed, s.now, chosen, lease);
    case Reap =>
      ResurrectIsCalm(s.db.deliveries, s.now);
      CalmKeepsOrder(s.db.deliveries, Resurrect(s.db.deliveries, s.now), s.db.attempts, s.readFailed, s.now);
    case ResetProbe(p) =>
      PullForwardIsCalm(s.db.deliveries, s.probers[p].probe, s.now);
      CalmKeepsOrder(s.db.deliveries, PullForward(s.db.deliveries, s.probers[p].probe, s.now),
                     s.db.attempts, s.readFailed, s.now);
    case _ =>
  }

  // ----- the final update -----------------------------------------------------------

  lemma FinalRowFacts(d: Delivery, o: Outcome, seqNo: nat, nextAt: Time, now: Time)
    ensures var d' := FinalRow(d, o, seqNo, nextAt, now);
            && d'.attemptCount == d.attemptCount + 1 && SameIdentity(d, d')
            && (d'.status.Terminal() || d'.status.Scheduled?)
            && (!d'.status.Scheduled? ==> d'.nextAttemptAt == d.nextAttemptAt)
            && (d'.status.PermanentlyFailed? ==> d'.status.Terminal())
  {
  }

  lemma LiveRowFits(ds: Deliveries, id: Id, row: Delivery)
    requires OneActiveReplay(ds) && LiveRow(ds, id) && SameIdentity(ds[id], row)
    ensures UpdateRow(ds, id, row) == ds[id := row]
  {
  }

  function NextAt(k: Worker, clock: Time, draw: int64): Time
    requires DrawnFor(PRODUCTION_SCHEDULE, k.seqNo + 1, draw)
  {
    clock + Delay(PRODUCTION_SCHEDULE, k.seqNo + 1, draw) as int
  }

  /** In fenced runs the unique index never rejects the final update. */
  lemma FinishStoresRow(s: State, w: Id, clock: Time, draw: int64)
    requires WorkerEnabled(s, Finish(w, clock, draw))
    requires OneActiveReplay(s.db.deliveries) && LiveRow(s.db.deliveries, s.workers[w].delivery)
    ensures var k := s.workers[w];
            var row := FinalRow(s.db.deliveries[k.delivery], k.stage.outcome, k.seqNo, NextAt(k, clock, draw), s.now);
            DoFinish(s, w, clock, draw).db.deliveries == s.db.deliveries[k.delivery := row]
  {
    hide FinalRow, OneActiveReplay, UpdateRow, Delay;
    var k := s.workers[w];
    var row := FinalRow(s.db.deliveries[k.delivery], k.stage.outcome, k.seqNo, NextAt(k, clock, draw), s.now);
    FinalRowIdentity(s.db.deliveries[k.delivery], k.stage.outcome, k.seqNo, NextAt(k, clock, draw), s.now);
    LiveRowFits(s.db.deliveries, k.delivery, row);
  }

  lemma FinalRowKeepsOrder(t: Tables, rf: set<Id>, now: Time, id: Id, row: Delivery)
    requires DistinctTimes(t.deliveries) && InFlightOldest(t.deliveries) && FailedStays(t.deliveries, rf)
    requires Bounded(t.deliveries, t.attempts, now) && AttemptRows(t.deliveries, t.attempts) && Budget(t.deliveries)
    requires LiveRow(t.deliveries, id)
    requires row.attemptCount == t.deliveries[id].attemptCount + 1 && SameIdentity(t.deliveries[id], row)
    requires row.status.Terminal() || row.status.Scheduled?
    requires !row.status.Scheduled? ==> row.nextAttemptAt == t.deliveries[id].nextAttemptAt
    ensures var ds' := t.deliveries[id := row];
            DistinctTimes(ds') && InFlightOldest(ds') && FailedStays(ds', rf) && Bounded(ds', t.attempts, now)
  {
    var ds, ds' := t.deliveries, t.deliveries[id := row];
    forall b, x | b in ds' && x in ds' && ds'[x].status.InFlight?
      ensures !Blocks(ds', b, x)
    {
      assert !Blocks(ds, b, x);
    }
  }

  lemma FinishOrder(s: State, w: Id, clock: Time, draw: int64)
    requires RowsOrdered(s) && WorkerEnabled(s, Finish(w, clock, draw))
    requires AttemptRows(s.db.deliveries, s.db.attempts) && Budget(s.db.deliveries)
    requires OneActiveReplay(s.db.deliveries) && LiveRow(s.db.deliveries, s.workers[w].delivery)
    ensures RowsOrdered(DoFinish(s, w, clock, draw))
  {
    hide FinalRow, DistinctTimes, InFlightOldest, FailedStays, Bounded, DoFinish, AttemptRows, Budget, OneActiveReplay;
    var k := s.workers[w];
    FinishStoresRow(s, w, clock, draw);
    FinishFrame(s, w, clock, draw);
    FinalRowFacts(s.db.deliveries[k.delivery], k.stage.outcome, k.seqNo, NextAt(k, clock, draw), s.now);
    FinalRowKeepsOrder(s.db, s.readFailed, s.now, k.delivery,
      FinalRow(s.db.deliveries[k.delivery], k.stage.outcome, k.seqNo, NextAt(k, clock, draw), s.now));
  }

  lemma InsertOrder(s: State, w: Id)
    requires RowsOrdered(s) && WorkerEnabled(s, InsertStarted(w)) && LiveRow(s.db.deliveries, s.workers[w].delivery)
    ensures RowsOrdered(DoInsertStarted(s, w))
  {
    hide DistinctTimes, InFlightOldest, FailedStays;
  }

  lemma SettleOrder(s: State, w: Id, stored: bool)
    requires RowsOrdered(s) && WorkerEnabled(s, SettleCircuit(w, stored))
    ensures RowsOrdered(DoSettle(s, w, stored))
  {
    hide DistinctTimes, InFlightOldest, FailedStays, Bounded, DoSettle;
    SettleFrame(s, w, stored);
  }

  lemma WorkerOrder(s: State, a: WorkerAction)
    requires RowsOrdered(s) && WorkerEnabled(s, a)
    requires AttemptRows(s.db.deliveries, s.db.attempts) && Budget(s.db.deliveries) && OneActiveReplay(s.db.deliveries)
    requires !a.Load? ==> LiveRow(s.db.deliveries, s.workers[a.worker].delivery)
    ensures RowsOrdered(ApplyWorker(s, a))
  {
    hide RowsOrdered, DoFinish, DoSettle, DoInsertStarted, DoUpdateOutcome, AttemptRows, Budget, OneActiveReplay;
    match a
    case InsertStarted(w) => InsertOrder(s, w);
    case UpdateOutcome(w, stored, clock) => OutcomeOrder(s, w, stored, clock);
    case SettleCircuit(w, stored) => SettleOrder(s, w, stored);
    case Finish(w, clock, draw) => FinishOrder(s, w, clock, draw);
    case Load(w, id) => SameRowsOrder(s, DoLoad(s, w, id));
    case Post(w, o) => SameRowsOrder(s, DoPost(s, w, o));
    case CrashWorker(w) => SameRowsOrder(s, s.(workers := s.workers - {w}));
  }

  lemma SameRowsOrder(s: State, s': State)
    requires RowsOrdered(s) && s'.db.deliveries == s.db.deliveries && s'.db.attempts == s.db.attempts
    requires s'.readFailed == s.readFailed && s.now <= s'.now
    ensures RowsOrdered(s')
  {
  }

  lemma OutcomeOrder(s: State, w: Id, stored: bool, clock: Time)
    requires RowsOrdered(s) && WorkerEnabled(s, UpdateOutcome(w, stored, clock))
    ensures RowsOrdered(DoUpdateOutcome(s, w, stored, clock))
  {
    hide DistinctTimes, InFlightOldest, FailedStays;
    var s' := DoUpdateOutcome(s, w, stored, clock);
    assert s'.db.attempts.Keys == s.db.attempts.Keys && s'.db.deliveries == s.db.deliveries;
  }

  // ----- all steps ------------------------------------------------------------------

  lemma OneClaimStep(s: State, a: Action)
    requires OneClaim(s) && Enabled(s, a) && FenceAllows(s, a)
    ensures OneClaim(Apply(s, a))
  {
    hide OneClaim, ClientEnabled, QueueEnabled, WorkerEnabled, SchedulerEnabled;
    hide ApplyClient, ApplyQueue, ApplyWorker, ApplyScheduler;
    match a
    case Client(c) => ClientOneClaim(s, c);
    case Queue(q) => QueueOneClaim(s, q);
    case Work(w) => WorkerOneClaim(s, w);
    case Schedule(c) => SchedulerOneClaim(s, c);
    case Advance(to) => SameClaims(s, s.(now := to));
  }

  lemma LiveWorkerOrder(s: State, a: WorkerAction)
    requires FencedInv(s) && WorkerEnabled(s, a)
    ensures RowsOrdered(ApplyWorker(s, a))
  {
    assert !a.Load? ==> LiveRow(s.db.deliveries, s.workers[a.worker].delivery);
    hide OneClaim, RowsOrdered, WorkerEnabled, ApplyWorker, AttemptRows, OneActiveReplay;
    WorkerOrder(s, a);
  }

  lemma FencedRowsOrdered(s: State)
    requires FencedInv(s)
    ensures RowsOrdered(s)
  {
    hide FenceInv, Forest, OneClaim, RowsOrdered;
  }

  lemma QueueOrder(s: State, a: QueueAction)
    requires RowsOrdered(s) && QueueEnabled(s, a)
    ensures RowsOrdered(ApplyQueue(s, a))
  {
    QueueFrame(s, a);
    hide QueueEnabled, ApplyQueue;
    SameRowsOrder(s, ApplyQueue(s, a));
  }

  lemma RowsOrderedStep(s: State, a: Action)
    requires FencedInv(s) && Enabled(s, a) && FenceAllows(s, a)
    ensures RowsOrdered(Apply(s, a))
  {
    hide FenceInv, Forest, FencedInv, OneClaim, RowsOrdered, ClientEnabled, QueueEnabled, WorkerEnabled, SchedulerEnabled;
    hide ApplyClient, ApplyQueue, ApplyWorker, ApplyScheduler, FenceAllows;
    FencedRowsOrdered(s);
    match a
    case Client(c) => ClientOrder(s, c);
    case Queue(q) => QueueOrder(s, q);
    case Work(w) => LiveWorkerOrder(s, w);
    case Schedule(c) => SchedulerOrder(s, c);
    case Advance(to) => SameRowsOrder(s, s.(now := to));
  }

  lemma FencedStep(s: State, a: Action)
    requires FencedInv(s) && Enabled(s, a) && FenceAllows(s, a)
    ensures FencedInv(Apply(s, a))
  {
    RowsOrderedStep(s, a);
    hide FenceInv, Forest, OneClaim, RowsOrdered, Enabled, Apply, FenceAllows;
    FenceStep(s, a);
    ForestStep(s, a);
    OneClaimStep(s, a);
  }

  lemma FencedInitially(r: Run)
    requires FencedRun(r)
    ensures FencedInv(r.states[0])
  {
    FenceAlways(r, 0);
    ForestAlways(r, 0);
    hide FenceInv, Forest, FenceAllows, Enabled, Apply;
  }

  lemma {:induction false} FencedAlways(r: Run, i: nat)
    requires FencedRun(r) && i < |r.states|
    ensures FencedInv(r.states[i])
  {
    hide FencedInv, Enabled, Apply, Init, FenceAllows;
    if i > 0 {
      FencedAlways(r, i - 1);
      assert r.StepAt(i-1);
      FencedStep(r.states[i-1], r.actions[i-1]);
    } else {
      FencedInitially(r);
    }
  }
}
