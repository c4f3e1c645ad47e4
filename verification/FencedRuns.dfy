/** What fenced runs guarantee. */
module FencedRuns {
  import opened Model
  import opened Retry
  import opened Statements
  import opened Pipeline
  import opened RunFacts
  import opened ReplayForest
  import opened Fenced
  import opened Domain

  /** d' is what the guarded machine makes of d, up to updated_at. */
  ghost predicate DomainMove(d: Delivery, d': Delivery) {
    exists m: Move :: Guarded(d, m) == Some(d'.(updatedAt := d.updatedAt))
  }

  predicate LeaseReturned(d: Delivery, d': Delivery) {
    d.status.InFlight? && d' == d.(status := Scheduled, leaseUntil := None, updatedAt := d'.updatedAt)
  }

  predicate PulledForward(d: Delivery, d': Delivery) {
    d.status.Scheduled? && d' == d.(nextAttemptAt := d'.nextAttemptAt) && d'.nextAttemptAt < d.nextAttemptAt
  }

  /** Every change a fenced step makes to a delivery row. */
  ghost predicate RowMove(d: Delivery, d': Delivery) {
    d' == d || DomainMove(d, d') || LeaseReturned(d, d') || PulledForward(d, d')
  }

  lemma FinalRowIsMove(d: Delivery, k: Worker, clock: Time, draw: int64, now: Time)
    requires d.status.InFlight? && !k.stage.Loaded? && !k.stage.Started? && DrawnFor(PRODUCTION_SCHEDULE, k.seqNo + 1, draw)
    ensures DomainMove(d, FinalRow(d, k.stage.outcome, k.seqNo, NextAt(k, clock, draw), now))
  {
    var d' := FinalRow(d, k.stage.outcome, k.seqNo, NextAt(k, clock, draw), now);
    var m := if d'.status.Delivered? then ToDelivered
             else if d'.status.PermanentlyFailed? then ToFailed
             else ToScheduled(Delay(PRODUCTION_SCHEDULE, k.seqNo + 1, draw) as int, clock);
    assert Guarded(d, m) == Some(d'.(updatedAt := d.updatedAt));
  }

  lemma FinishIsMove(s: State, w: Id, clock: Time, draw: int64, id: Id)
    requires WorkerEnabled(s, Finish(w, clock, draw)) && id in s.db.deliveries
    requires OneActiveReplay(s.db.deliveries) && LiveRow(s.db.deliveries, s.workers[w].delivery)
    ensures id in DoFinish(s, w, clock, draw).db.deliveries
    ensures RowMove(s.db.deliveries[id], DoFinish(s, w, clock, draw).db.deliveries[id])
  {
    FinishStoresRow(s, w, clock, draw);
    if id == s.workers[w].delivery {
      FinalRowIsMove(s.db.deliveries[id], s.workers[w], clock, draw, s.now);
    }
  }

  lemma LiveWorkerMoves(s: State, a: WorkerAction, id: Id)
    requires WorkerEnabled(s, a) && id in s.db.deliveries
    requires OneActiveReplay(s.db.deliveries) && (!a.Load? ==> LiveRow(s.db.deliveries, s.workers[a.worker].delivery))
    ensures id in ApplyWorker(s, a).db.deliveries
    ensures RowMove(s.db.deliveries[id], ApplyWorker(s, a).db.deliveries[id])
  {
    hide DoFinish, DoSettle, OneActiveReplay, InsertAttempt, RecordOutcome, DomainMove;
    match a
    case Finish(w, clock, draw) => FinishIsMove(s, w, clock, draw, id);
    case SettleCircuit(w, stored) => SettleFrame(s, w, stored);
    case _ =>
  }

  lemma WorkerMoves(s: State, a: WorkerAction, id: Id)
    requires FencedInv(s) && WorkerEnabled(s, a) && id in s.db.deliveries
    ensures id in ApplyWorker(s, a).db.deliveries
    ensures RowMove(s.db.deliveries[id], ApplyWorker(s, a).db.deliveries[id])
  {
    hide ApplyWorker, RowMove;
    LiveWorkerMoves(s, a, id);
  }

  lemma SchedulerMoves(s: State, a: SchedulerAction, id: Id)
    requires FencedInv(s) && SchedulerEnabled(s, a) && id in s.db.deliveries
    ensures id in ApplyScheduler(s, a).db.deliveries
    ensures RowMove(s.db.deliveries[id], ApplyScheduler(s, a).db.deliveries[id])
  {
    var d := s.db.deliveries[id];
    hide FencedInv, StoreProbe, ExpireSuspensions, OldestQueued;
    match a
    case ClaimReady(chosen, lease) =>
      if id in chosen {
        assert Eligible(s.db, s.now, id);
        assert Guarded(d, ToInFlight(lease)) == Some(ClaimRow(d, lease, s.now).(updatedAt := d.updatedAt));
      }
    case ResetProbe(p) => BoundedTimes(s);
    case _ =>
  }

  lemma BoundedTimes(s: State)
    requires FencedInv(s)
    ensures Bounded(s.db.deliveries, s.db.attempts, s.now)
  {
  }

  lemma FencedStepMoves(s: State, a: Action, id: Id)
    requires FencedInv(s) && Enabled(s, a) && id in s.db.deliveries
    ensures id in Apply(s, a).db.deliveries
    ensures RowMove(s.db.deliveries[id], Apply(s, a).db.deliveries[id])
  {
    hide FencedInv, ClientEnabled, WorkerEnabled, SchedulerEnabled, ApplyClient, ApplyWorker, ApplyScheduler;
    hide DomainMove;
    match a
    case Client(c) => ClientKeepsRow(s, c, id);
    case Work(w) => WorkerMoves(s, w, id);
    case Schedule(c) => SchedulerMoves(s, c, id);
    case _ =>
  }

  /** The unguarded UPDATEs make only moves the guarded machine allows, besides
      the reaper's return of a lease and the probe's earlier due time. */
  lemma StepRefinesDomain(r: Run, i: nat, id: Id)
    requires FencedRun(r) && i < |r.actions| && id in r.states[i].db.deliveries
    ensures id in r.states[i+1].db.deliveries
    ensures RowMove(r.states[i].db.deliveries[id], r.states[i+1].db.deliveries[id])
  {
    hide FencedInv, Enabled, Apply, RowMove;
    FencedAlways(r, i);
    assert r.StepAt(i);
    FencedStepMoves(r.states[i], r.actions[i], id);
  }

  /** delivered and permanently_failed are final: the whole row never changes again. */
  lemma {:induction false} TerminalIsFinal(r: Run, i: nat, j: nat, id: Id)
    requires FencedRun(r) && i <= j < |r.states| && id in r.states[i].db.deliveries
    requires r.states[i].db.deliveries[id].status.Terminal()
    ensures id in r.states[j].db.deliveries && r.states[j].db.deliveries[id] == r.states[i].db.deliveries[id]
    decreases j
  {
    if i < j {
      TerminalIsFinal(r, i, j - 1, id);
      StepRefinesDomain(r, j - 1, id);
    }
  }

  /** An in-flight delivery is the oldest unfinished one of its tenant, so a
      tenant never has two in flight, whoever claimed them. */
  lemma OneInFlightPerTenant(r: Run, i: nat, x: Id, y: Id)
    requires FencedRun(r) && i < |r.states|
    requires LiveRow(r.states[i].db.deliveries, x) && y in r.states[i].db.deliveries
    requires r.states[i].db.deliveries[x].tenant == r.states[i].db.deliveries[y].tenant
    requires x != y && !r.states[i].db.deliveries[y].status.Terminal()
    ensures r.states[i].db.deliveries[x].createdAt < r.states[i].db.deliveries[y].createdAt
    ensures !r.states[i].db.deliveries[y].status.InFlight?
  {
    FencedAlways(r, i);
    var ds := r.states[i].db.deliveries;
    assert !Blocks(ds, y, x);
    assert LiveRow(ds, y) ==> !Blocks(ds, x, y);
  }

  /** One claim takes at most batch deliveries, of pairwise distinct tenants. */
  lemma ClaimTakesDistinctTenants(r: Run, i: nat, chosen: set<Id>, lease: Time, x: Id, y: Id)
    requires FencedRun(r) && i < |r.actions| && r.actions[i] == Schedule(ClaimReady(chosen, lease))
    requires x in chosen && y in chosen && x != y
    ensures |chosen| <= r.states[i].cfg.batch
    ensures x in r.states[i].db.deliveries && y in r.states[i].db.deliveries
    ensures r.states[i].db.deliveries[x].tenant != r.states[i].db.deliveries[y].tenant
  {
    FencedAlways(r, i);
    assert r.StepAt(i);
    var ds := r.states[i].db.deliveries;
    assert Eligible(r.states[i].db, r.states[i].now, x) && Eligible(r.states[i].db, r.states[i].now, y);
    assert !Blocks(ds, y, x) && !Blocks(ds, x, y);
  }

  /** No delivery is ever attempted more than nine times. */
  lemma AtMostNineAttempts(r: Run, i: nat, id: Id, q: nat)
    requires FencedRun(r) && i < |r.states|
    requires (id, q) in r.states[i].db.attempts || (id, q) in r.states[i].posts
    ensures 1 <= q <= MAX_ATTEMPTS
  {
    FencedAlways(r, i);
  }

  /** Sources of replays stay permanently_failed, and the unique index never
      rejects a worker's final update. */
  lemma SourcesStayFailed(r: Run, i: nat, id: Id)
    requires FencedRun(r) && i < |r.states| && id in r.states[i].db.deliveries
    requires r.states[i].db.deliveries[id].source.Some?
    ensures var src := r.states[i].db.deliveries[id].source.value;
            src in r.states[i].db.deliveries && r.states[i].db.deliveries[src].status.PermanentlyFailed?
    ensures forall w | w in r.states[i].workers && r.states[i].workers[w].delivery == id ::
              forall row | SameIdentity(r.states[i].db.deliveries[id], row) :: !DuplicatesReplay(r.states[i].db.deliveries, id, row)
  {
    FencedAlways(r, i);
    forall w | w in r.states[i].workers && r.states[i].workers[w].delivery == id
      ensures LiveRow(r.states[i].db.deliveries, id)
    {
    }
  }
}
