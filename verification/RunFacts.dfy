/** What every step keeps: rows are never removed, and their identifying
    columns never change. */
module RunFacts {
  import opened Model
  import opened Retry
  import opened Statements
  import opened Pipeline

  /** The columns fixed at insertion. */
  predicate SameIdentity(d: Delivery, d': Delivery) {
    && d'.event == d.event && d'.endpoint == d.endpoint && d'.tenant == d.tenant
    && d'.createdAt == d.createdAt && d'.source == d.source
  }

  ghost predicate Grows(ds: Deliveries, ds': Deliveries) {
    forall id | id in ds :: id in ds' && SameIdentity(ds[id], ds'[id]) && ds[id].attemptCount <= ds'[id].attemptCount
  }

  ghost predicate SameEndpoints(es: Endpoints, es': Endpoints) {
    es'.Keys == es.Keys && forall e | e in es :: es'[e].tenant == es[e].tenant
  }

  ghost predicate Later(s: State, s': State) {
    && s.now <= s'.now && s'.cfg == s.cfg
    && Grows(s.db.deliveries, s'.db.deliveries)
    && SameEndpoints(s.db.endpoints, s'.db.endpoints)
  }

  lemma FinalRowIdentity(d: Delivery, o: Outcome, seqNo: nat, nextAt: Time, now: Time)
    ensures SameIdentity(d, FinalRow(d, o, seqNo, nextAt, now))
  {
  }

  // ----- frames of the worker's last two statements -------------------------

  lemma SettleFrame(s: State, w: Id, stored: bool)
    requires w in s.workers && s.workers[w].stage.Recorded?
    ensures var s' := DoSettle(s, w, stored);
            s' == s.(workers := s.workers[w := s.workers[w].(stage := Settled(s.workers[w].stage.outcome))],
                     db := s.db.(endpoints := s'.db.endpoints))
  {
  }

  lemma FinishFrame(s: State, w: Id, clock: Time, draw: int64)
    requires WorkerEnabled(s, Finish(w, clock, draw))
    ensures var s' := DoFinish(s, w, clock, draw);
            && s' == s.(workers := s.workers - {w}, db := s.db.(deliveries := s'.db.deliveries))
            && s'.db.deliveries.Keys == s.db.deliveries.Keys
  {
    hide FinalRow;
  }

  lemma WorkerKeepsKeys(s: State, a: WorkerAction)
    requires WorkerEnabled(s, a)
    ensures ApplyWorker(s, a).db.deliveries.Keys == s.db.deliveries.Keys
    ensures ApplyWorker(s, a).submissions == s.submissions && ApplyWorker(s, a).now == s.now
  {
    hide DoFinish, DoSettle, RecordOutcome, InsertAttempt;
    match a
    case SettleCircuit(w, stored) => SettleFrame(s, w, stored);
    case Finish(w, clock, draw) => FinishFrame(s, w, clock, draw);
    case _ =>
  }

  lemma ClientKeepsRow(s: State, a: ClientAction, id: Id)
    requires ClientEnabled(s, a) && id in s.db.deliveries
    ensures id in ApplyClient(s, a).db.deliveries
    ensures ApplyClient(s, a).db.deliveries[id] == s.db.deliveries[id]
    ensures ApplyClient(s, a).workers == s.workers && ApplyClient(s, a).db.attempts == s.db.attempts
    ensures ApplyClient(s, a).now == s.now
  {
  }

  lemma ClientLater(s: State, a: ClientAction)
    requires ClientEnabled(s, a)
    ensures Later(s, ApplyClient(s, a))
  {
  }

  lemma SameTablesLater(s: State, s': State)
    requires s'.db.deliveries == s.db.deliveries && SameEndpoints(s.db.endpoints, s'.db.endpoints)
    requires s.now <= s'.now && s'.cfg == s.cfg
    ensures Later(s, s')
  {
  }

  lemma SettleLater(s: State, w: Id, stored: bool)
    requires w in s.workers && s.workers[w].stage.Recorded?
    ensures Later(s, DoSettle(s, w, stored))
  {
  }

  lemma FinishLater(s: State, w: Id, clock: Time, draw: int64)
    requires WorkerEnabled(s, Finish(w, clock, draw))
    ensures Later(s, DoFinish(s, w, clock, draw))
  {
  }

  lemma WorkerLater(s: State, a: WorkerAction)
    requires WorkerEnabled(s, a)
    ensures Later(s, ApplyWorker(s, a))
  {
    hide Later;
    match a
    case SettleCircuit(w, stored) => SettleLater(s, w, stored);
    case Finish(w, clock, draw) => FinishLater(s, w, clock, draw);
    case _ => SameTablesLater(s, ApplyWorker(s, a));
  }

  /** Queue steps touch only the claims and the messages. */
  lemma QueueFrame(s: State, a: QueueAction)
    requires QueueEnabled(s, a)
    ensures var s' := ApplyQueue(s, a); s' == s.(outbox := s'.outbox, msgs := s'.msgs)
  {
  }

  lemma QueueLater(s: State, a: QueueAction)
    requires QueueEnabled(s, a)
    ensures Later(s, ApplyQueue(s, a))
  {
  }

  lemma SchedulerLater(s: State, a: SchedulerAction)
    requires SchedulerEnabled(s, a)
    ensures Later(s, ApplyScheduler(s, a))
  {
  }

  lemma StepLater(s: State, a: Action)
    requires Enabled(s, a)
    ensures Later(s, Apply(s, a))
  {
    hide Later, ClientEnabled, QueueEnabled, WorkerEnabled, SchedulerEnabled;
    hide ApplyClient, ApplyQueue, ApplyWorker, ApplyScheduler;
    match a
    case Client(c) => ClientLater(s, c);
    case Work(w) => WorkerLater(s, w);
    case Schedule(c) => SchedulerLater(s, c);
    case Queue(q) => QueueLater(s, q);
    case Advance(to) => SameTablesLater(s, s.(now := to));
  }

  lemma {:induction false} RunLater(r: Run, i: nat, j: nat)
    requires r.Valid() && i <= j < |r.states|
    ensures Later(r.states[i], r.states[j])
    decreases j
  {
    if i < j {
      RunLater(r, i, j - 1);
      assert r.StepAt(j-1);
      StepLater(r.states[j-1], r.actions[j-1]);
    }
  }
}
