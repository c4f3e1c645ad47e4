/** What SetProbeDelivery calls lead to: one call per endpoint at a time keeps
    the probe discipline, and a finished probe stays until a new call starts. */
module ProbeCalls {
  import opened Model
  import opened CircuitBreaker
  import opened Retry
  import opened Statements
  import opened Pipeline
  import opened RunFacts
  import opened AttemptFence
  import opened ReplayForest
  import opened Fenced
  import opened FencedRuns
  import opened CircuitRuns
  import opened ProbeDiscipline
  import opened SoundRuns

  // ----- one call per endpoint at a time -------------------------------------------

  predicate SelectingFor(s: State, p: Id, e: Id) {
    p in s.probers && s.probers[p].Selected? && s.probers[p].endpoint == e
  }

  predicate AssignsFor(s: State, a: Action, e: Id) {
    a.Schedule? && a.schedule.AssignProbe? && SelectingFor(s, a.schedule.prober, e)
  }

  predicate StartsFor(a: Action, e: Id) {
    a.Schedule? && a.schedule.SelectProbe? && a.schedule.endpoint == e
  }

  /** A call starts only for a half-open endpoint without probe that no other
      call has selected for: what one scheduler's Tick does. */
  predicate OneCall(s: State, a: Action) {
    match a
    case Schedule(SelectProbe(_, e, _)) => Orphan(s.db.endpoints, e) && forall q | q in s.probers :: !SelectingFor(s, q, e)
    case _ => true
  }

  ghost predicate SelectionsFresh(s: State) {
    && (forall p, e | SelectingFor(s, p, e) ::
          && Orphan(s.db.endpoints, e)
          && (s.probers[p].choice.Some? ==> OldestOf(s.db.deliveries, e, s.probers[p].choice.value)))
    && (forall p, q, e | SelectingFor(s, p, e) && SelectingFor(s, q, e) :: p == q)
  }

  lemma FreshIsCurrent(s: State, a: Action)
    requires SelectionsFresh(s) && Enabled(s, a)
    ensures AssignIsCurrent(s, a)
  {
    match a
    case Schedule(AssignProbe(p)) => assert SelectingFor(s, p, s.probers[p].endpoint);
    case _ =>
  }

  lemma OrphanHasNothingLive(s: State, e: Id, x: Id)
    requires Disciplined(s, e) && Orphan(s.db.endpoints, e) && LiveRow(s.db.deliveries, x)
    ensures s.db.deliveries[x].endpoint != e
  {
  }

  lemma OtherRowKeepsOldest(ds: Deliveries, id: Id, row: Delivery, e: Id, d: Id)
    requires OldestOf(ds, e, d) && id in ds && ds[id].endpoint != e && row.endpoint != e
    ensures OldestOf(ds[id := row], e, d)
  {
  }

  lemma LiveWorkerElsewhere(s: State, w: Id, e: Id)
    requires Exclusive(s) && Disciplined(s, e) && w in s.workers && Orphan(s.db.endpoints, e)
    ensures LiveRow(s.db.deliveries, s.workers[w].delivery) && s.db.deliveries[s.workers[w].delivery].endpoint != e
    ensures s.workers[w].endpoint != e && OneActiveReplay(s.db.deliveries)
  {
    OrphanHasNothingLive(s, e, s.workers[w].delivery);
  }

  lemma OldestSurvivesFinish(s: State, w: Id, clock: Time, draw: int64, e: Id, d: Id)
    requires Exclusive(s) && Disciplined(s, e) && WorkerEnabled(s, Finish(w, clock, draw))
    requires Orphan(s.db.endpoints, e) && OldestOf(s.db.deliveries, e, d)
    ensures OldestOf(DoFinish(s, w, clock, draw).db.deliveries, e, d)
  {
    hide Exclusive, Disciplined, Orphan, OldestOf, OneActiveReplay, DoFinish, FinalRow;
    var k := s.workers[w];
    LiveWorkerElsewhere(s, w, e);
    FinishStoresRow(s, w, clock, draw);
    var row := FinalRow(s.db.deliveries[k.delivery], k.stage.outcome, k.seqNo, NextAt(k, clock, draw), s.now);
    FinalRowIdentity(s.db.deliveries[k.delivery], k.stage.outcome, k.seqNo, NextAt(k, clock, draw), s.now);
    OtherRowKeepsOldest(s.db.deliveries, k.delivery, row, e, d);
  }

  lemma OldestSurvivesWorker(s: State, a: WorkerAction, e: Id, d: Id)
    requires Exclusive(s) && Disciplined(s, e) && WorkerEnabled(s, a)
    requires Orphan(s.db.endpoints, e) && OldestOf(s.db.deliveries, e, d)
    ensures OldestOf(ApplyWorker(s, a).db.deliveries, e, d)
  {
    hide Exclusive, Disciplined, Orphan, OldestOf, DoFinish, DoSettle;
    match a
    case SettleCircuit(w, stored) => SettleFrame(s, w, stored);
    case Finish(w, clock, draw) => OldestSurvivesFinish(s, w, clock, draw, e, d);
    case _ =>
  }

  lemma OldestSurvivesClient(s: State, a: ClientAction, e: Id, d: Id)
    requires TenantOfEndpoint(s.db.deliveries, s.db.endpoints) && ClientEnabled(s, a) && FenceAllows(s, Client(a))
    requires OldestOf(s.db.deliveries, e, d)
    ensures OldestOf(ApplyClient(s, a).db.deliveries, e, d)
  {
  }

  /** The same deliveries are unfinished, at the same endpoints and times. */
  ghost predicate SameUnfinished(ds: Deliveries, ds': Deliveries) {
    && ds'.Keys == ds.Keys
    && forall x | x in ds ::
         && ds'[x].endpoint == ds[x].endpoint && ds'[x].createdAt == ds[x].createdAt
         && (ds'[x].status.Terminal() <==> ds[x].status.Terminal())
  }

  lemma ClaimKeepsUnfinished(s: State, chosen: set<Id>, lease: Time)
    requires SchedulerEnabled(s, ClaimReady(chosen, lease))
    ensures SameUnfinished(s.db.deliveries, Claim(s.db.deliveries, chosen, lease, s.now))
  {
    assert forall id | id in chosen :: Eligible(s.db, s.now, id);
  }

  lemma SchedulerKeepsUnfinished(s: State, a: SchedulerAction)
    requires SchedulerEnabled(s, a)
    ensures SameUnfinished(s.db.deliveries, ApplyScheduler(s, a).db.deliveries)
  {
    hide Claim, Eligible, OldestQueued, StoreProbe, ExpireSuspensions;
    match a
    case ClaimReady(chosen, lease) => ClaimKeepsUnfinished(s, chosen, lease);
    case _ =>
  }

  lemma OldestSurvivesScheduler(s: State, a: SchedulerAction, e: Id, d: Id)
    requires SchedulerEnabled(s, a) && OldestOf(s.db.deliveries, e, d)
    ensures OldestOf(ApplyScheduler(s, a).db.deliveries, e, d)
  {
    hide SchedulerEnabled, ApplyScheduler;
    SchedulerKeepsUnfinished(s, a);
  }

  lemma ExclusiveTenants(s: State)
    requires Exclusive(s)
    ensures TenantOfEndpoint(s.db.deliveries, s.db.endpoints)
  {
  }

  lemma OldestStep(s: State, a: Action, e: Id, d: Id)
    requires Exclusive(s) && Disciplined(s, e) && Enabled(s, a) && FenceAllows(s, a)
    requires Orphan(s.db.endpoints, e) && OldestOf(s.db.deliveries, e, d)
    ensures OldestOf(Apply(s, a).db.deliveries, e, d)
  {
    ExclusiveTenants(s);
    hide Disciplined, Exclusive, FenceAllows, Orphan, OldestOf, TenantOfEndpoint;
    hide ClientEnabled, WorkerEnabled, SchedulerEnabled, ApplyClient, ApplyWorker, ApplyScheduler;
    match a
    case Client(c) => OldestSurvivesClient(s, c, e, d);
    case Work(w) => OldestSurvivesWorker(s, w, e, d);
    case Schedule(c) => OldestSurvivesScheduler(s, c, e, d);
    case _ =>
  }

  lemma WorkerLeavesOtherCircuits(s: State, a: WorkerAction, e: Id)
    requires WorkerEnabled(s, a) && e in s.db.endpoints && (!a.Load? ==> s.workers[a.worker].endpoint != e)
    ensures e in ApplyWorker(s, a).db.endpoints && ApplyWorker(s, a).db.endpoints[e] == s.db.endpoints[e]
  {
    hide DoFinish, InsertAttempt, RecordOutcome, Settle;
    match a
    case Finish(w, clock, draw) => FinishFrame(s, w, clock, draw);
    case _ =>
  }

  lemma OrphanSurvivesWorker(s: State, a: WorkerAction, e: Id)
    requires Exclusive(s) && Disciplined(s, e) && WorkerEnabled(s, a) && Orphan(s.db.endpoints, e)
    ensures Orphan(ApplyWorker(s, a).db.endpoints, e)
  {
    hide Exclusive, Disciplined, ApplyWorker, FinishDraw;
    if !a.Load? { LiveWorkerElsewhere(s, a.worker, e); }
    WorkerLeavesOtherCircuits(s, a, e);
  }

  lemma OrphanSurvivesScheduler(s: State, a: SchedulerAction, e: Id)
    requires SchedulerEnabled(s, a) && !AssignsFor(s, Schedule(a), e) && Orphan(s.db.endpoints, e)
    ensures Orphan(ApplyScheduler(s, a).db.endpoints, e)
  {
  }

  /** A half-open endpoint without probe stays so until some SetProbeDelivery
      call for it reaches its second statement. */
  lemma OrphanStep(s: State, a: Action, e: Id)
    requires Exclusive(s) && Disciplined(s, e) && Enabled(s, a)
    requires Orphan(s.db.endpoints, e) && !AssignsFor(s, a, e)
    ensures Orphan(Apply(s, a).db.endpoints, e)
  {
    hide Disciplined, Exclusive, Orphan, AssignsFor;
    hide ClientEnabled, WorkerEnabled, SchedulerEnabled, ApplyClient, ApplyWorker, ApplyScheduler;
    match a
    case Client(c) => ClientCircuitStep(s, c);
    case Work(w) => OrphanSurvivesWorker(s, w, e);
    case Schedule(c) => OrphanSurvivesScheduler(s, c, e);
    case _ =>
  }

  /** Only SelectProbe adds a pending selection, and AssignProbe removes its own. */
  lemma PendingStep(s: State, a: Action, p: Id, e: Id)
    requires Enabled(s, a) && SelectingFor(Apply(s, a), p, e)
    ensures || (SelectingFor(s, p, e) && Apply(s, a).probers[p] == s.probers[p] && a != Schedule(AssignProbe(p)))
            || (StartsFor(a, e) && a.schedule.prober == p && p !in s.probers
                && Apply(s, a).probers[p] == Selected(e, a.schedule.choice))
  {
    hide ClientEnabled, WorkerEnabled, ApplyClient, ApplyWorker;
    match a
    case Work(w) => WorkerKeepsProbers(s, w);
    case Client(c) => ClientKeepsProbers(s, c);
    case _ =>
  }

  lemma WorkerKeepsProbers(s: State, a: WorkerAction)
    requires WorkerEnabled(s, a)
    ensures ApplyWorker(s, a).probers == s.probers
  {
    hide DoFinish, DoSettle, InsertAttempt, RecordOutcome;
    match a
    case SettleCircuit(w, stored) => SettleFrame(s, w, stored);
    case Finish(w, clock, draw) => FinishFrame(s, w, clock, draw);
    case _ =>
  }

  lemma ClientKeepsProbers(s: State, a: ClientAction)
    requires ClientEnabled(s, a)
    ensures ApplyClient(s, a).probers == s.probers
  {
  }

  /** Under one call per endpoint at a time, pending selections stay fresh. */
  lemma SelectionsStep(s: State, a: Action)
    requires Exclusive(s) && AllDisciplined(s) && Enabled(s, a) && FenceAllows(s, a) && OneCall(s, a) && SelectionsFresh(s)
    ensures SelectionsFresh(Apply(s, a))
  {
    var s' := Apply(s, a);
    hide Exclusive, Disciplined, Enabled, Apply, FenceAllows, Orphan, OldestOf;
    forall p, e | SelectingFor(s', p, e)
      ensures Orphan(s'.db.endpoints, e)
      ensures s'.probers[p].choice.Some? ==> OldestOf(s'.db.deliveries, e, s'.probers[p].choice.value)
    {
      SelectionStep(s, a, p, e);
    }
    forall p, q, e | SelectingFor(s', p, e) && SelectingFor(s', q, e)
      ensures p == q
    {
      PendingStep(s, a, p, e);
      PendingStep(s, a, q, e);
    }
  }

  lemma SelectionStep(s: State, a: Action, p: Id, e: Id)
    requires Exclusive(s) && Disciplined(s, e) && Enabled(s, a) && FenceAllows(s, a) && OneCall(s, a) && SelectionsFresh(s)
    requires SelectingFor(Apply(s, a), p, e)
    ensures var s' := Apply(s, a);
            && Orphan(s'.db.endpoints, e)
            && (s'.probers[p].choice.Some? ==> OldestOf(s'.db.deliveries, e, s'.probers[p].choice.value))
  {
    PendingStep(s, a, p, e);
    if StartsFor(a, e) && a.schedule.prober == p && p !in s.probers {
    } else {
      hide Exclusive, Disciplined, Enabled, Apply, FenceAllows, Orphan, OldestOf;
      assert SelectingFor(s, p, e);
      assert !AssignsFor(s, a, e);
      assert Disciplined(s, e);
      OrphanStep(s, a, e);
      if s.probers[p].choice.Some? { OldestStep(s, a, e, s.probers[p].choice.value); }
    }
  }

  ghost predicate OneCallRun(r: Run) {
    forall i: nat :: i < |r.actions| && i < |r.states| ==> OneCall(r.states[i], r.actions[i])
  }

  /** One call per endpoint at a time: while all earlier steps are sound, pending selections are fresh. */
  lemma {:induction false} OneCallStaysFresh(r: Run, i: nat)
    requires FencedRun(r) && OneCallRun(r) && i < |r.states|
    requires forall j: nat :: j < i && j < |r.actions| ==> StepSound(r.states[j], r.actions[j])
    ensures SelectionsFresh(r.states[i])
    ensures i < |r.actions| ==> AssignIsCurrent(r.states[i], r.actions[i])
  {
    hide FencedRun, FenceAllows, OneCall, AssignIsCurrent, StepSound, SelectionsFresh, AllDisciplined, Exclusive, RowsConsistent, Enabled, Apply, Init;
    if i > 0 {
      OneCallStaysFresh(r, i - 1);
      SoundIsDisciplined(r, i - 1);
      FencedShape(r);
      FencedState(r, i - 1);
      SelectionsStep(r.states[i-1], r.actions[i-1]);
    } else {
      FencedShape(r);
      InitFresh(r.states[0]);
    }
    if i < |r.actions| {
      FencedState(r, i);
      FreshIsCurrent(r.states[i], r.actions[i]);
    }
  }

  /** The two guards of a sound step other than the one on SetProbeDelivery. */
  ghost predicate OtherGuards(r: Run) {
    forall i: nat :: i < |r.actions| && i < |r.states| ==>
      ExpiryFindsNoneLive(r.states[i], r.actions[i]) && ProbeEndsAfterHalfOpen(r.states[i], r.actions[i])
  }

  /** One call per endpoint at a time takes care of SetProbeDelivery: the probe
      discipline then needs the other two guards only. */
  lemma OneCallSuffices(r: Run)
    requires FencedRun(r) && OneCallRun(r)
    ensures AlwaysDisciplined(r) <==> OtherGuards(r)
  {
    hide FencedRun, OneCall, AssignIsCurrent, ExpiryFindsNoneLive, ProbeEndsAfterHalfOpen, AllDisciplined;
    DisciplineIff(r);
    if OtherGuards(r) {
      FencedShape(r);
      SoundSoFar(r, |r.actions|);
    }
  }

  lemma {:induction false} SoundSoFar(r: Run, i: nat)
    requires FencedRun(r) && OneCallRun(r) && OtherGuards(r) && i <= |r.actions| && i <= |r.states|
    ensures forall j: nat :: j < i ==> StepSound(r.states[j], r.actions[j])
  {
    hide FencedRun, OneCallRun, AssignIsCurrent, ExpiryFindsNoneLive, ProbeEndsAfterHalfOpen;
    if i > 0 {
      SoundSoFar(r, i - 1);
      OneCallStaysFresh(r, i - 1);
    }
  }

  lemma InitFresh(s: State)
    requires Init(s)
    ensures SelectionsFresh(s)
  {
  }

  // ----- a finished probe -------------------------------------------------------------

  /** Endpoint e is half open with a finished probe, nothing is in flight to it,
      and no SetProbeDelivery call for it stands before its second statement. */
  ghost predicate Stuck(s: State, e: Id) {
    && e in s.db.endpoints && s.db.endpoints[e].circuit.state.HalfOpen?
    && s.db.endpoints[e].circuit.probe.Some?
    && s.db.endpoints[e].circuit.probe.value in s.db.deliveries
    && s.db.deliveries[s.db.endpoints[e].circuit.probe.value].status.Terminal()
    && (forall x | LiveRow(s.db.deliveries, x) :: s.db.deliveries[x].endpoint != e)
    && (forall p :: !SelectingFor(s, p, e))
  }

  lemma StuckHasNoWorker(s: State, e: Id, w: Id)
    requires FencedInv(s) && Stuck(s, e) && w in s.workers
    ensures s.workers[w].endpoint != e
  {
    assert LiveRow(s.db.deliveries, s.workers[w].delivery);
    assert WorkerFence(s);
  }

  lemma SchedulerLeavesStuckCircuit(s: State, a: SchedulerAction, e: Id)
    requires SchedulerEnabled(s, a) && e in s.db.endpoints && s.db.endpoints[e].circuit.state.HalfOpen?
    requires forall p :: !SelectingFor(s, p, e)
    ensures e in ApplyScheduler(s, a).db.endpoints && ApplyScheduler(s, a).db.endpoints[e] == s.db.endpoints[e]
  {
    match a
    case AssignProbe(p) => assert !SelectingFor(s, p, e);
    case _ =>
  }

  lemma StuckSelections(s: State, e: Id)
    requires Stuck(s, e)
    ensures e in s.db.endpoints && s.db.endpoints[e].circuit.state.HalfOpen?
    ensures forall p :: !SelectingFor(s, p, e)
  {
  }

  lemma StuckWorkerStep(s: State, a: WorkerAction, e: Id)
    requires FencedInv(s) && WorkerEnabled(s, a) && Stuck(s, e)
    ensures e in ApplyWorker(s, a).db.endpoints && ApplyWorker(s, a).db.endpoints[e] == s.db.endpoints[e]
  {
    hide FencedInv, Stuck, ApplyWorker, FinishDraw;
    StuckSelections(s, e);
    if !a.Load? { StuckHasNoWorker(s, e, a.worker); }
    WorkerLeavesOtherCircuits(s, a, e);
  }

  lemma StuckCircuitStep(s: State, a: Action, e: Id)
    requires FencedInv(s) && Enabled(s, a) && Stuck(s, e)
    ensures e in Apply(s, a).db.endpoints && Apply(s, a).db.endpoints[e] == s.db.endpoints[e]
  {
    hide FencedInv, Stuck, SelectingFor, ApplyClient, ApplyWorker, ApplyScheduler, ClientEnabled, WorkerEnabled, SchedulerEnabled;
    StuckSelections(s, e);
    match a
    case Client(c) => ClientCircuitStep(s, c);
    case Work(w) => StuckWorkerStep(s, w, e);
    case Schedule(c) => SchedulerLeavesStuckCircuit(s, c, e);
    case _ =>
  }

  lemma WorkerNeverClaims(s: State, a: WorkerAction, x: Id)
    requires WorkerEnabled(s, a) && LiveRow(ApplyWorker(s, a).db.deliveries, x)
    ensures LiveRow(s.db.deliveries, x)
  {
    hide InsertAttempt, RecordOutcome, DuplicatesReplay, SettleEndpoint;
    match a
    case SettleCircuit(w, stored) => SettleFrame(s, w, stored);
    case _ =>
  }

  lemma ClientNeverClaims(s: State, a: ClientAction, x: Id)
    requires ClientEnabled(s, a) && LiveRow(ApplyClient(s, a).db.deliveries, x)
    ensures LiveRow(s.db.deliveries, x)
  {
  }

  lemma SchedulerClaims(s: State, a: SchedulerAction, x: Id)
    requires SchedulerEnabled(s, a) && LiveRow(ApplyScheduler(s, a).db.deliveries, x)
    ensures LiveRow(s.db.deliveries, x) || Eligible(s.db, s.now, x)
  {
  }

  /** Only the claim of an eligible delivery puts it in flight. */
  lemma OnlyClaimsGoLive(s: State, a: Action, x: Id)
    requires Enabled(s, a) && LiveRow(Apply(s, a).db.deliveries, x)
    ensures LiveRow(s.db.deliveries, x) || Eligible(s.db, s.now, x)
  {
    hide ClientEnabled, WorkerEnabled, SchedulerEnabled, ApplyClient, ApplyWorker, ApplyScheduler, Eligible;
    match a
    case Client(c) => ClientNeverClaims(s, c, x);
    case Work(w) => WorkerNeverClaims(s, w, x);
    case Schedule(c) => SchedulerClaims(s, c, x);
    case _ =>
  }

  lemma StuckAdmitsNothing(s: State, e: Id, t: Time, x: Id)
    requires Stuck(s, e) && x in s.db.deliveries && s.db.deliveries[x].endpoint == e
    ensures !Eligible(s.db, t, x)
  {
  }

  lemma TerminalMove(d: Delivery, d': Delivery)
    requires RowMove(d, d') && d.status.Terminal()
    ensures d' == d
  {
  }

  /** A move that neither leaves nor enters in_flight keeps status and counter. */
  lemma QuietMove(d: Delivery, d': Delivery)
    requires RowMove(d, d') && !d.status.InFlight? && !d'.status.InFlight?
    ensures d'.status == d.status && d'.attemptCount == d.attemptCount
  {
  }

  /** The deliveries of endpoint e keep status and counter. */
  ghost predicate Frozen(ds: Deliveries, ds': Deliveries, e: Id) {
    forall x | x in ds && ds[x].endpoint == e ::
      x in ds' && ds'[x].endpoint == e && ds'[x].status == ds[x].status && ds'[x].attemptCount == ds[x].attemptCount
  }

  lemma FrozenChain(a: Deliveries, b: Deliveries, c: Deliveries, e: Id)
    requires Frozen(a, b, e) && Frozen(b, c, e)
    ensures Frozen(a, c, e)
  {
  }

  lemma StuckStep(s: State, a: Action, e: Id)
    requires FencedInv(s) && Enabled(s, a) && Stuck(s, e) && !StartsFor(a, e)
    ensures Stuck(Apply(s, a), e) && Apply(s, a).db.endpoints[e] == s.db.endpoints[e]
    ensures Frozen(s.db.deliveries, Apply(s, a).db.deliveries, e)
  {
    var s' := Apply(s, a);
    StuckCircuitStep(s, a, e);
    StepLater(s, a);
    var d := s.db.endpoints[e].circuit.probe.value;
    FencedStepMoves(s, a, d);
    TerminalMove(s.db.deliveries[d], s'.db.deliveries[d]);
    hide FencedInv, Enabled, Apply, RowMove, Eligible, StartsFor, SelectingFor;
    forall x | LiveRow(s'.db.deliveries, x)
      ensures s'.db.deliveries[x].endpoint != e
    {
      OnlyClaimsGoLive(s, a, x);
      EligibleRow(s, x);
      if s.db.deliveries[x].endpoint == e { StuckAdmitsNothing(s, e, s.now, x); }
    }
    forall p ensures !SelectingFor(s', p, e) {
      if SelectingFor(s', p, e) { PendingStep(s, a, p, e); }
    }
    forall x | x in s.db.deliveries && s.db.deliveries[x].endpoint == e
      ensures x in s'.db.deliveries && s'.db.deliveries[x].status == s.db.deliveries[x].status
      ensures s'.db.deliveries[x].endpoint == e && s'.db.deliveries[x].attemptCount == s.db.deliveries[x].attemptCount
    {
      FencedStepMoves(s, a, x);
      assert s'.db.deliveries[x].endpoint == e;
      QuietMove(s.db.deliveries[x], s'.db.deliveries[x]);
    }
  }

  lemma EligibleRow(s: State, x: Id)
    ensures LiveRow(s.db.deliveries, x) || Eligible(s.db, s.now, x) ==> x in s.db.deliveries
  {
  }

  lemma StuckHasCircuit(s: State, e: Id)
    requires Stuck(s, e)
    ensures e in s.db.endpoints
  {
  }

  ghost predicate NoneStarts(r: Run, i: nat, j: nat, e: Id)
    requires |r.states| == |r.actions| + 1 && j <= |r.actions|
  {
    forall m :: i <= m < j ==> !StartsFor(r.actions[m], e)
  }

  /** In every fenced run an endpoint with a finished probe stays that way, and
      none of its deliveries makes progress, until a new SetProbeDelivery call
      starts for it; Tick starts none, since the endpoint is neither open nor
      without a probe. */
  lemma {:induction false} StuckForever(r: Run, i: nat, j: nat, e: Id)
    requires FencedRun(r) && i <= j < |r.states| && Stuck(r.states[i], e) && NoneStarts(r, i, j, e)
    ensures Stuck(r.states[j], e) && r.states[j].db.endpoints[e] == r.states[i].db.endpoints[e]
    ensures Frozen(r.states[i].db.deliveries, r.states[j].db.deliveries, e)
    decreases j
  {
    if i < j {
      assert r.StepAt(j - 1);
      assert !StartsFor(r.actions[j-1], e);
      hide FencedInv, FenceAllows, Stuck, Frozen, Enabled, Apply, StartsFor, Init;
      StuckForever(r, i, j - 1, e);
      FencedAlways(r, j - 1);
      StuckHasCircuit(r.states[i], e);
      StuckStep(r.states[j-1], r.actions[j-1], e);
      FrozenChain(r.states[i].db.deliveries, r.states[j-1].db.deliveries, r.states[j].db.deliveries, e);
    }
  }

  /** A new call repairs the endpoint: it is closed, or its probe is its oldest delivery. */
  lemma NewCallRepairs(s: State, p: Id, e: Id, choice: Option<Id>)
    requires Stuck(s, e) && SchedulerEnabled(s, SelectProbe(p, e, choice))
    ensures var s' := DoAssignProbe(ApplyScheduler(s, SelectProbe(p, e, choice)), p);
            && !Stuck(s', e) && e in s'.db.endpoints
            && (s'.db.endpoints[e].circuit.state.Closed?
                || exists d :: s'.db.endpoints[e].circuit.probe == Some(d) && OldestOf(s'.db.deliveries, e, d))
  {
    if choice.Some? { assert OldestOf(s.db.deliveries, e, choice.value); }
  }
}
