/** Fenced runs whose circuit updates are stored: of the three conditions for the
    probe discipline the one on final updates follows from the one on expiry. */
module SoundRuns {
  import opened Model
  import opened Retry
  import opened Statements
  import opened Pipeline
  import opened RunFacts
  import opened Fenced
  import opened ProbeDiscipline

  predicate CircuitStored(a: Action) {
    a.Work? && a.work.SettleCircuit? ==> a.work.stored
  }

  /** Fenced, circuit update stored, and the two conditions that are left. */
  predicate SoundAllows(s: State, a: Action) {
    FenceAllows(s, a) && CircuitStored(a) && AssignIsCurrent(s, a) && ExpiryFindsNoneLive(s, a)
  }

  // ----- the circuits of claims under way ------------------------------------------------

  predicate NotOpenAt(es: Endpoints, e: Id) {
    e in es && !es[e].circuit.state.Open?
  }

  /** A claim or message finds its circuit not open. */
  predicate QueueAdmitted(s: State, d: Id) {
    d in s.outbox || d in s.msgs ==> d in s.db.deliveries && NotOpenAt(s.db.endpoints, s.db.deliveries[d].endpoint)
  }

  /** Before its circuit update a worker's circuit is not open, and is as the
      worker saw it or closed; after it the circuit is not half open. */
  predicate WorkerAdmitted(es: Endpoints, k: Worker) {
    && k.endpoint in es
    && if k.stage.Settled? then !es[k.endpoint].circuit.state.HalfOpen?
       else NotOpenAt(es, k.endpoint) && (es[k.endpoint].circuit.state == k.seen || es[k.endpoint].circuit.state.Closed?)
  }

  ghost predicate ClaimsInv(s: State) {
    && (forall d :: QueueAdmitted(s, d))
    && (forall w | w in s.workers :: WorkerAdmitted(s.db.endpoints, s.workers[w]))
  }

  /** What an action does to the circuits of the claims it leaves alone. */
  ghost predicate CircuitsFit(es: Endpoints, es': Endpoints, e: Id) {
    e in es ==> e in es' && (es'[e].circuit.state == es[e].circuit.state
                             || (es[e].circuit.state.HalfOpen? && es'[e].circuit.state.Closed?))
  }

  lemma WorkerStillAdmitted(es: Endpoints, es': Endpoints, k: Worker)
    requires WorkerAdmitted(es, k) && CircuitsFit(es, es', k.endpoint)
    ensures WorkerAdmitted(es', k)
  {
  }

  /** Claims do not grow, deliveries keep their endpoints, circuits of claims still fit. */
  lemma ClaimsKeep(s: State, s': State)
    requires ClaimsInv(s)
    requires forall d | d in s'.outbox || d in s'.msgs ::
               && (d in s.outbox || d in s.msgs)
               && (d in s.db.deliveries ==> d in s'.db.deliveries && s'.db.deliveries[d].endpoint == s.db.deliveries[d].endpoint
                                            && CircuitsFit(s.db.endpoints, s'.db.endpoints, s.db.deliveries[d].endpoint))
    requires forall w | w in s'.workers ::
               && w in s.workers && s'.workers[w].endpoint == s.workers[w].endpoint && s'.workers[w].seen == s.workers[w].seen
               && (s'.workers[w].stage.Settled? <==> s.workers[w].stage.Settled?)
               && CircuitsFit(s.db.endpoints, s'.db.endpoints, s.workers[w].endpoint)
    ensures ClaimsInv(s')
  {
    forall d ensures QueueAdmitted(s', d) {
      assert QueueAdmitted(s, d);
    }
  }

  lemma ClientClaims(s: State, a: ClientAction)
    requires ClaimsInv(s) && ClientEnabled(s, a)
    ensures ClaimsInv(ApplyClient(s, a))
  {
    hide QueueAdmitted, WorkerAdmitted, ClaimsInv;
    ClaimsKeep(s, ApplyClient(s, a));
  }

  lemma QueueClaims(s: State, a: QueueAction)
    requires ClaimsInv(s) && QueueEnabled(s, a)
    ensures ClaimsInv(ApplyQueue(s, a))
  {
    hide QueueAdmitted, WorkerAdmitted, ClaimsInv;
    ClaimsKeep(s, ApplyQueue(s, a));
  }

  lemma ClaimReadyClaims(s: State, chosen: set<Id>, lease: Time)
    requires ClaimsInv(s) && SchedulerEnabled(s, ClaimReady(chosen, lease))
    ensures ClaimsInv(ApplyScheduler(s, ClaimReady(chosen, lease)))
  {
    var s' := ApplyScheduler(s, ClaimReady(chosen, lease));
    forall d ensures QueueAdmitted(s', d) {
      assert QueueAdmitted(s, d);
      if d in chosen { assert Eligible(s.db, s.now, d); }
    }
  }

  lemma QueueIsLive(s: State, d: Id)
    requires OneClaim(s) && (d in s.outbox || d in s.msgs)
    ensures LiveRow(s.db.deliveries, d)
  {
  }

  /** No suspension expires for the endpoint of a live delivery. */
  lemma ExpiryFits(s: State, d: Id)
    requires ExpiryFindsNoneLive(s, Schedule(ExpireOpen)) && LiveRow(s.db.deliveries, d)
    ensures CircuitsFit(s.db.endpoints, ExpireSuspensions(s.db.endpoints, s.db.deliveries, s.now), s.db.deliveries[d].endpoint)
  {
  }

  lemma ExpireClaims(s: State)
    requires ClaimsInv(s) && OneClaim(s) && WorkersLive(s) && ExpiryFindsNoneLive(s, Schedule(ExpireOpen))
    ensures ClaimsInv(ApplyScheduler(s, ExpireOpen))
  {
    var s' := ApplyScheduler(s, ExpireOpen);
    forall d | d in s.outbox || d in s.msgs
      ensures d in s.db.deliveries && CircuitsFit(s.db.endpoints, s'.db.endpoints, s.db.deliveries[d].endpoint)
    {
      QueueIsLive(s, d);
      ExpiryFits(s, d);
    }
    forall w | w in s.workers ensures CircuitsFit(s.db.endpoints, s'.db.endpoints, s.workers[w].endpoint) {
      ExpiryFits(s, s.workers[w].delivery);
    }
    hide ClaimsInv, CircuitsFit, OneClaim, WorkersLive, ExpireSuspensions;
    ClaimsKeep(s, s');
  }

  lemma AssignFits(s: State, p: Id, e: Id)
    requires SchedulerEnabled(s, AssignProbe(p))
    ensures CircuitsFit(s.db.endpoints, DoAssignProbe(s, p).db.endpoints, e)
  {
  }

  lemma AssignClaims(s: State, p: Id)
    requires ClaimsInv(s) && SchedulerEnabled(s, AssignProbe(p))
    ensures ClaimsInv(DoAssignProbe(s, p))
  {
    hide ClaimsInv, CircuitsFit, StoreProbe;
    forall e ensures CircuitsFit(s.db.endpoints, DoAssignProbe(s, p).db.endpoints, e) { AssignFits(s, p, e); }
    ClaimsKeep(s, DoAssignProbe(s, p));
  }

  lemma SchedulerClaims(s: State, a: SchedulerAction)
    requires ClaimsInv(s) && OneClaim(s) && WorkersLive(s) && SchedulerEnabled(s, a) && ExpiryFindsNoneLive(s, Schedule(a))
    ensures ClaimsInv(ApplyScheduler(s, a))
  {
    hide ClaimsInv, OneClaim, WorkersLive, ExpiryFindsNoneLive, Resurrect, PullForward, ExpireSuspensions;
    match a
    case ClaimReady(chosen, lease) => ClaimReadyClaims(s, chosen, lease);
    case Reap => ReapEndpoints(s); ClaimsKeep(s, ApplyScheduler(s, Reap));
    case ExpireOpen => ExpireClaims(s);
    case SelectProbe(_, _, _) => ClaimsKeep(s, ApplyScheduler(s, a));
    case AssignProbe(p) => AssignClaims(s, p);
    case ResetProbe(p) => PullEndpoints(s, s.probers[p].probe); ClaimsKeep(s, ApplyScheduler(s, a));
    case CrashProber(_) => ClaimsKeep(s, ApplyScheduler(s, a));
  }

  lemma ReapEndpoints(s: State)
    ensures forall d | d in s.db.deliveries ::
              d in Resurrect(s.db.deliveries, s.now) && Resurrect(s.db.deliveries, s.now)[d].endpoint == s.db.deliveries[d].endpoint
  {
  }

  lemma PullEndpoints(s: State, p: Id)
    ensures forall d | d in s.db.deliveries ::
              && d in PullForward(s.db.deliveries, p, s.now)
              && PullForward(s.db.deliveries, p, s.now)[d].endpoint == s.db.deliveries[d].endpoint
  {
  }

  // ----- workers -----------------------------------------------------------------------------

  lemma LoadClaims(s: State, w: Id, id: Id)
    requires ClaimsInv(s) && WorkerEnabled(s, Load(w, id))
    ensures ClaimsInv(DoLoad(s, w, id))
  {
    var s' := DoLoad(s, w, id);
    assert QueueAdmitted(s, id);
    forall d ensures QueueAdmitted(s', d) { assert QueueAdmitted(s, d); }
  }

  /** A worker that has not updated the circuit leaves it not half open when it does. */
  lemma SettleEndsHalfOpen(s: State, w: Id)
    requires ClaimsInv(s) && w in s.workers && s.workers[w].stage.Recorded?
    ensures var es', k := DoSettle(s, w, true).db.endpoints, s.workers[w];
            && k.endpoint in es' && !es'[k.endpoint].circuit.state.HalfOpen?
            && forall e | e in s.db.endpoints && e != k.endpoint :: e in es' && es'[e] == s.db.endpoints[e]
  {
    assert WorkerAdmitted(s.db.endpoints, s.workers[w]);
  }

  /** Nobody else has a claim to the endpoint of worker w's delivery. */
  lemma WorkerAloneAt(s: State, w: Id)
    requires OneClaim(s) && WorkersLive(s) && EndpointsExclusive(s.db.deliveries) && w in s.workers
    ensures forall v | v in s.workers && v != w :: s.workers[v].endpoint != s.workers[w].endpoint
    ensures forall d | d in s.outbox || d in s.msgs ::
              LiveRow(s.db.deliveries, d) && s.db.deliveries[d].endpoint != s.workers[w].endpoint
  {
    var k := s.workers[w];
    forall v | v in s.workers && v != w ensures s.workers[v].endpoint != k.endpoint {
      assert LiveRow(s.db.deliveries, s.workers[v].delivery) && LiveRow(s.db.deliveries, k.delivery);
    }
    forall d | d in s.outbox || d in s.msgs
      ensures LiveRow(s.db.deliveries, d) && s.db.deliveries[d].endpoint != k.endpoint
    {
      assert LiveRow(s.db.deliveries, d) && LiveRow(s.db.deliveries, k.delivery);
    }
  }

  lemma SettleClaims(s: State, w: Id)
    requires ClaimsInv(s) && OneClaim(s) && WorkersLive(s) && EndpointsExclusive(s.db.deliveries)
    requires w in s.workers && s.workers[w].stage.Recorded?
    ensures ClaimsInv(DoSettle(s, w, true))
  {
    var s' := DoSettle(s, w, true);
    SettleFrame(s, w, true);
    SettleEndsHalfOpen(s, w);
    WorkerAloneAt(s, w);
    hide DoSettle, OneClaim, WorkersLive, EndpointsExclusive;
    forall d ensures QueueAdmitted(s', d) { assert QueueAdmitted(s, d); }
    forall v | v in s'.workers ensures WorkerAdmitted(s'.db.endpoints, s'.workers[v]) {
      assert WorkerAdmitted(s.db.endpoints, s.workers[v]);
    }
  }

  lemma FinishEndpoints(s: State, w: Id, clock: Time, draw: int64)
    requires WorkerEnabled(s, Finish(w, clock, draw))
    ensures forall d | d in s.db.deliveries ::
              && d in DoFinish(s, w, clock, draw).db.deliveries
              && DoFinish(s, w, clock, draw).db.deliveries[d].endpoint == s.db.deliveries[d].endpoint
  {
    FinishLater(s, w, clock, draw);
  }

  lemma FinishClaims(s: State, w: Id, clock: Time, draw: int64)
    requires ClaimsInv(s) && WorkerEnabled(s, Finish(w, clock, draw))
    ensures ClaimsInv(DoFinish(s, w, clock, draw))
  {
    FinishFrame(s, w, clock, draw);
    FinishEndpoints(s, w, clock, draw);
    hide ClaimsInv, DoFinish;
    ClaimsKeep(s, DoFinish(s, w, clock, draw));
  }

  /** The tables are the same, and workers leave or change stage before their circuit update. */
  lemma StagesKeep(s: State, s': State)
    requires ClaimsInv(s) && s'.outbox == s.outbox && s'.msgs == s.msgs
    requires s'.db.deliveries == s.db.deliveries && s'.db.endpoints == s.db.endpoints
    requires forall w | w in s'.workers ::
               && w in s.workers && s'.workers[w].endpoint == s.workers[w].endpoint && s'.workers[w].seen == s.workers[w].seen
               && (s'.workers[w].stage.Settled? <==> s.workers[w].stage.Settled?)
    ensures ClaimsInv(s')
  {
    hide ClaimsInv;
    ClaimsKeep(s, s');
  }

  lemma WorkerClaims(s: State, a: WorkerAction)
    requires ClaimsInv(s) && OneClaim(s) && WorkersLive(s) && EndpointsExclusive(s.db.deliveries)
    requires WorkerEnabled(s, a) && CircuitStored(Work(a))
    ensures ClaimsInv(ApplyWorker(s, a))
  {
    hide ClaimsInv, OneClaim, WorkersLive, EndpointsExclusive, DoSettle, DoFinish, InsertAttempt, RecordOutcome;
    match a
    case Load(w, id) => LoadClaims(s, w, id);
    case SettleCircuit(w, stored) => SettleClaims(s, w);
    case Finish(w, clock, draw) => FinishClaims(s, w, clock, draw);
    case _ => StagesKeep(s, ApplyWorker(s, a));
  }

  lemma FencedClaims(s: State)
    requires FencedInv(s)
    ensures OneClaim(s) && WorkersLive(s) && EndpointsExclusive(s.db.deliveries)
  {
    FencedGivesExclusive(s);
  }

  lemma ClaimsStep(s: State, a: Action)
    requires FencedInv(s) && ClaimsInv(s) && Enabled(s, a) && CircuitStored(a) && ExpiryFindsNoneLive(s, a)
    ensures ClaimsInv(Apply(s, a))
  {
    hide FencedInv, ClaimsInv, OneClaim, WorkersLive, EndpointsExclusive, ExpiryFindsNoneLive;
    hide ClientEnabled, QueueEnabled, WorkerEnabled, SchedulerEnabled;
    hide ApplyClient, ApplyQueue, ApplyWorker, ApplyScheduler;
    FencedClaims(s);
    match a
    case Client(c) => ClientClaims(s, c);
    case Queue(q) => QueueClaims(s, q);
    case Work(w) => WorkerClaims(s, w);
    case Schedule(c) => SchedulerClaims(s, c);
    case Advance(to) => ClaimsKeep(s, s.(now := to));
  }

  /** After its circuit update a worker does not find its endpoint half open. */
  lemma SettledNotHalfOpen(s: State, w: Id)
    requires ClaimsInv(s) && w in s.workers && s.workers[w].stage.Settled?
    ensures !HalfOpenAt(s.db.endpoints, s.workers[w].endpoint) && !EndsProbe(s, w)
  {
    assert WorkerAdmitted(s.db.endpoints, s.workers[w]);
  }

  lemma ClaimsEndAfterHalfOpen(s: State, a: Action)
    requires ClaimsInv(s)
    ensures ProbeEndsAfterHalfOpen(s, a)
  {
    hide ClaimsInv;
    if a.Work? && a.work.Finish? && EndsProbe(s, a.work.worker) {
      SettledNotHalfOpen(s, a.work.worker);
    }
  }

  lemma SoundStep(s: State, a: Action)
    requires ClaimsInv(s) && SoundAllows(s, a)
    ensures FenceAllows(s, a) && StepSound(s, a) && CircuitStored(a) && ExpiryFindsNoneLive(s, a)
  {
    hide ClaimsInv, FenceAllows, CircuitStored, AssignIsCurrent, ExpiryFindsNoneLive, ProbeEndsAfterHalfOpen;
    ClaimsEndAfterHalfOpen(s, a);
  }

  // ----- runs ------------------------------------------------------------------------------------

  ghost predicate CircuitsStored(r: Run) {
    forall i: nat :: i < |r.actions| ==> CircuitStored(r.actions[i])
  }

  ghost predicate AssignsAreCurrent(r: Run) {
    forall i: nat :: i < |r.actions| && i < |r.states| ==> AssignIsCurrent(r.states[i], r.actions[i])
  }

  ghost predicate ExpiriesFindNoneLive(r: Run) {
    forall i: nat :: i < |r.actions| && i < |r.states| ==> ExpiryFindsNoneLive(r.states[i], r.actions[i])
  }

  lemma StartsWithoutClaims(s: State)
    requires Init(s)
    ensures ClaimsInv(s)
  {
  }

  lemma FencedShape(r: Run)
    requires FencedRun(r)
    ensures |r.states| == |r.actions| + 1 && Init(r.states[0])
  {
    hide FenceAllows, Enabled, Apply, Init;
  }

  lemma {:induction false} ClaimsAlways(r: Run, i: nat)
    requires FencedRun(r) && CircuitsStored(r) && ExpiriesFindNoneLive(r) && i < |r.states|
    ensures ClaimsInv(r.states[i])
  {
    hide FencedRun, FencedInv, ClaimsInv, CircuitStored, ExpiryFindsNoneLive, Exclusive, RowsConsistent, FenceAllows, Enabled, Apply, Init;
    FencedShape(r);
    if i > 0 {
      ClaimsAlways(r, i - 1);
      FencedAlways(r, i - 1);
      FencedState(r, i - 1);
      ClaimsStep(r.states[i-1], r.actions[i-1]);
    } else {
      StartsWithoutClaims(r.states[0]);
    }
  }

  /** The probe discipline when circuit updates are stored: exactly if second
      statements of SetProbeDelivery are current and no suspension expires
      while a delivery is in flight to the endpoint. */
  lemma StoredDisciplineIff(r: Run)
    requires FencedRun(r) && CircuitsStored(r)
    ensures AlwaysDisciplined(r) <==> AssignsAreCurrent(r) && ExpiriesFindNoneLive(r)
  {
    hide FencedRun, CircuitsStored, AssignIsCurrent, ExpiryFindsNoneLive, ProbeEndsAfterHalfOpen, AllDisciplined, ClaimsInv;
    DisciplineIff(r);
    if ExpiriesFindNoneLive(r) {
      forall i: nat | i < |r.actions| && i < |r.states| ensures ProbeEndsAfterHalfOpen(r.states[i], r.actions[i]) {
        ClaimsAlways(r, i);
        ClaimsEndAfterHalfOpen(r.states[i], r.actions[i]);
      }
    }
  }

  ghost predicate SoundRun(r: Run) {
    r.Valid() && forall i :: 0 <= i < |r.actions| ==> SoundAllows(r.states[i], r.actions[i])
  }

  lemma SoundIsFenced(r: Run)
    requires SoundRun(r)
    ensures FencedRun(r) && CircuitsStored(r) && AssignsAreCurrent(r) && ExpiriesFindNoneLive(r)
  {
    hide FenceAllows, AssignIsCurrent, ExpiryFindsNoneLive, CircuitStored, Enabled, Apply, Init;
  }

  /** A half-open endpoint never sticks on a finished probe: a worker's circuit
      update leaves its endpoint not half open, and so its final update finds it. */
  lemma ProbeOutcomeEndsHalfOpen(r: Run, i: nat, w: Id)
    requires SoundRun(r) && i < |r.states| && w in r.states[i].workers && r.states[i].workers[w].stage.Settled?
    ensures r.states[i].workers[w].endpoint in r.states[i].db.endpoints
    ensures !r.states[i].db.endpoints[r.states[i].workers[w].endpoint].circuit.state.HalfOpen?
  {
    SoundIsFenced(r);
    ClaimsAlways(r, i);
    assert WorkerAdmitted(r.states[i].db.endpoints, r.states[i].workers[w]);
  }
}
