/** Replays form a forest over deliveries, in all runs. */
module ReplayForest {
  import opened Model
  import opened Retry
  import opened Statements
  import opened Pipeline
  import opened RunFacts

  /** A path of source links, from a replay towards the original delivery. */
  ghost predicate IsChain(ds: Deliveries, p: seq<Id>) {
    && (forall i | 0 <= i < |p| :: p[i] in ds)
    && (forall i | 0 <= i < |p| - 1 :: ds[p[i]].source == Some(p[i+1]))
  }

  ghost predicate Acyclic(ds: Deliveries) {
    forall p :: IsChain(ds, p) && |p| >= 2 ==> p[0] != p[|p|-1]
  }

  ghost predicate SourcesMatch(ds: Deliveries) {
    forall id | id in ds && ds[id].source.Some? ::
      var src := ds[id].source.value;
      && src in ds && ds[src].event == ds[id].event
      && ds[src].endpoint == ds[id].endpoint && ds[src].tenant == ds[id].tenant
  }

  /** The unique index idx_deliveries_one_active_replay. */
  ghost predicate OneActiveReplay(ds: Deliveries) {
    forall x, y | x in ds && y in ds && ds[x].source.Some? && ds[x].source == ds[y].source
                  && !ds[x].status.Terminal() && !ds[y].status.Terminal() :: x == y
  }

  ghost predicate TenantOfEndpoint(ds: Deliveries, es: Endpoints) {
    forall id | id in ds :: ds[id].endpoint in es && ds[id].tenant == es[ds[id].endpoint].tenant
  }

  ghost predicate ForestInv(ds: Deliveries, es: Endpoints) {
    Acyclic(ds) && SourcesMatch(ds) && OneActiveReplay(ds) && TenantOfEndpoint(ds, es)
  }

  // ----- changes of rows ------------------------------------------------------

  /** Same rows with the same identity; a row may become non-terminal only if
      the unique index allows it. */
  ghost predicate RowsUpdated(ds: Deliveries, ds': Deliveries) {
    && ds'.Keys == ds.Keys
    && (forall id | id in ds :: SameIdentity(ds[id], ds'[id]))
  }

  lemma UpdateKeepsForest(ds: Deliveries, ds': Deliveries, es: Endpoints, es': Endpoints)
    requires ForestInv(ds, es) && RowsUpdated(ds, ds') && SameEndpoints(es, es')
    requires OneActiveReplay(ds')
    ensures ForestInv(ds', es')
  {
    forall p | IsChain(ds', p) && |p| >= 2
      ensures p[0] != p[|p|-1]
    {
      assert IsChain(ds, p);
    }
  }

  lemma InsertKeepsForest(ds: Deliveries, es: Endpoints, id: Id, row: Delivery)
    requires ForestInv(ds, es) && id !in ds && !DuplicatesReplay(ds, id, row) && !row.status.Terminal()
    requires row.endpoint in es && row.tenant == es[row.endpoint].tenant
    requires row.source.Some? ==> row.source.value in ds && SourceFits(ds, row)
    ensures ForestInv(ds[id := row], es)
  {
    var ds' := ds[id := row];
    forall p | IsChain(ds', p) && |p| >= 2
      ensures p[0] != p[|p|-1]
    {
      NewRowOnlyFirst(ds, es, id, row, p);
      if p[0] != id {
        assert IsChain(ds, p);
      }
    }
  }

  ghost predicate SourceFits(ds: Deliveries, row: Delivery)
    requires row.source.Some? && row.source.value in ds
  {
    var src := ds[row.source.value];
    src.event == row.event && src.endpoint == row.endpoint && src.tenant == row.tenant
  }

  lemma NewRowOnlyFirst(ds: Deliveries, es: Endpoints, id: Id, row: Delivery, p: seq<Id>)
    requires ForestInv(ds, es) && id !in ds && IsChain(ds[id := row], p)
    requires row.source.Some? ==> row.source.value in ds
    ensures forall i | 1 <= i < |p| :: p[i] != id
  {
    forall i | 1 <= i < |p|
      ensures p[i] != id
    {
      assert ds[id := row][p[i-1]].source == Some(p[i]);
    }
  }

  lemma ClaimKeepsIndex(ds: Deliveries, chosen: set<Id>, lease: Time, now: Time)
    requires OneActiveReplay(ds) && forall id | id in chosen :: id in ds && ds[id].status.Scheduled?
    ensures OneActiveReplay(Claim(ds, chosen, lease, now)) && RowsUpdated(ds, Claim(ds, chosen, lease, now))
  {
  }

  lemma ResurrectKeepsIndex(ds: Deliveries, now: Time)
    requires OneActiveReplay(ds)
    ensures OneActiveReplay(Resurrect(ds, now)) && RowsUpdated(ds, Resurrect(ds, now))
  {
  }

  lemma UpdateRowKeepsIndex(ds: Deliveries, id: Id, row: Delivery)
    requires OneActiveReplay(ds) && (id in ds ==> SameIdentity(ds[id], row))
    ensures OneActiveReplay(UpdateRow(ds, id, row)) && RowsUpdated(ds, UpdateRow(ds, id, row))
  {
  }

  // ----- steps ----------------------------------------------------------------

  ghost predicate Forest(s: State) {
    ForestInv(s.db.deliveries, s.db.endpoints)
  }

  lemma ClientForest(s: State, a: ClientAction)
    requires Forest(s) && ClientEnabled(s, a)
    ensures Forest(ApplyClient(s, a))
  {
    hide ForestInv;
    match a
    case CommitSubmit(tx, ev, id) =>
      var sub := s.submissions[tx];
      if sub.endpoint in s.db.endpoints {
        InsertKeepsForest(s.db.deliveries, s.db.endpoints, id,
          NewDelivery(ev, sub.endpoint, s.db.endpoints[sub.endpoint].tenant, sub.start, None));
      }
    case CreateReplay(src, id) => ReplayForestStep(s, src, id);
    case _ =>
  }

  lemma ReplayForestStep(s: State, src: Id, id: Id)
    requires Forest(s) && ClientEnabled(s, CreateReplay(src, id))
    ensures Forest(DoCreateReplay(s, src, id))
  {
    var row := ReplayRow(s.db.deliveries, s.db.endpoints, src, s.now);
    if !DuplicatesReplay(s.db.deliveries, id, row) {
      InsertKeepsForest(s.db.deliveries, s.db.endpoints, id, row);
    }
  }

  lemma SchedulerForest(s: State, a: SchedulerAction)
    requires Forest(s) && SchedulerEnabled(s, a)
    ensures Forest(ApplyScheduler(s, a))
  {
    var s' := ApplyScheduler(s, a);
    assert SameEndpoints(s.db.endpoints, s'.db.endpoints) by { SchedulerLater(s, a); }
    assert OneActiveReplay(s'.db.deliveries) && RowsUpdated(s.db.deliveries, s'.db.deliveries) by {
      match a
      case ClaimReady(chosen, lease) => ClaimKeepsIndex(s.db.deliveries, chosen, lease, s.now);
      case Reap => ResurrectKeepsIndex(s.db.deliveries, s.now);
      case _ =>
    }
    hide ForestInv, ApplyScheduler, SchedulerEnabled;
    assert OneActiveReplay(s'.db.deliveries) && RowsUpdated(s.db.deliveries, s'.db.deliveries);
    UpdateKeepsForest(s.db.deliveries, s'.db.deliveries, s.db.endpoints, s'.db.endpoints);
  }

  lemma FinishForest(s: State, w: Id, clock: Time, draw: int64)
    requires OneActiveReplay(s.db.deliveries) && WorkerEnabled(s, Finish(w, clock, draw))
    ensures var ds' := DoFinish(s, w, clock, draw).db.deliveries;
            OneActiveReplay(ds') && RowsUpdated(s.db.deliveries, ds')
  {
    assert RowsUpdated(s.db.deliveries, s.db.deliveries);
    hide FinalRow, OneActiveReplay, RowsUpdated, DuplicatesReplay, Delay, UpdateRow;
    var k := s.workers[w];
    if k.delivery in s.db.deliveries {
      var nextAt := clock + Delay(PRODUCTION_SCHEDULE, k.seqNo + 1, draw) as int;
      FinalRowIdentity(s.db.deliveries[k.delivery], k.stage.outcome, k.seqNo, nextAt, s.now);
      UpdateRowKeepsIndex(s.db.deliveries, k.delivery,
        FinalRow(s.db.deliveries[k.delivery], k.stage.outcome, k.seqNo, nextAt, s.now));
    }
  }

  lemma WorkerForest(s: State, a: WorkerAction)
    requires Forest(s) && WorkerEnabled(s, a)
    ensures Forest(ApplyWorker(s, a))
  {
    var s' := ApplyWorker(s, a);
    assert SameEndpoints(s.db.endpoints, s'.db.endpoints) by { WorkerLater(s, a); }
    assert OneActiveReplay(s'.db.deliveries) && RowsUpdated(s.db.deliveries, s'.db.deliveries) by {
      hide DoFinish, DoSettle;
      match a
      case SettleCircuit(w, stored) => SettleFrame(s, w, stored);
      case Finish(w, clock, draw) => FinishForest(s, w, clock, draw);
      case _ =>
    }
    hide ForestInv, ApplyWorker, WorkerEnabled, OneActiveReplay, RowsUpdated, SameEndpoints;
    UpdateKeepsForest(s.db.deliveries, s'.db.deliveries, s.db.endpoints, s'.db.endpoints);
  }

  lemma ForestStep(s: State, a: Action)
    requires Forest(s) && Enabled(s, a)
    ensures Forest(Apply(s, a))
  {
    hide ForestInv, ClientEnabled, WorkerEnabled, SchedulerEnabled, ApplyClient, ApplyWorker, ApplyScheduler;
    match a
    case Client(c) => ClientForest(s, c);
    case Work(w) => WorkerForest(s, w);
    case Schedule(c) => SchedulerForest(s, c);
    case Queue(q) =>
    case Advance(to) =>
  }

  lemma {:induction false} ForestAlways(r: Run, i: nat)
    requires r.Valid() && i < |r.states|
    ensures Forest(r.states[i])
  {
    if i > 0 {
      ForestAlways(r, i - 1);
      assert r.StepAt(i-1);
      ForestStep(r.states[i-1], r.actions[i-1]);
    }
  }

  /** Everything on a chain of replays carries the same event to the same
      endpoint of the same tenant. */
  lemma {:induction false} ChainSharesEvent(r: Run, i: nat, p: seq<Id>, k: nat)
    requires r.Valid() && i < |r.states| && IsChain(r.states[i].db.deliveries, p) && k < |p|
    ensures var ds := r.states[i].db.deliveries;
            && ds[p[k]].event == ds[p[0]].event && ds[p[k]].endpoint == ds[p[0]].endpoint
            && ds[p[k]].tenant == ds[p[0]].tenant
  {
    if k > 0 {
      ChainSharesEvent(r, i, p, k - 1);
      ForestAlways(r, i);
    }
  }
}
