/** In all runs the circuit columns of every endpoint are the row of that
    endpoint's own event history, so the history specification applies. */
module CircuitRuns {
  import opened Model
  import opened CircuitBreaker
  import opened Statements
  import opened Pipeline
  import opened RunFacts

  function SettleEvent(s: State, w: Id, e: Id): seq<Timed>
    requires w in s.workers && s.workers[w].stage.Recorded?
  {
    if s.workers[w].endpoint == e
    then [Timed(s.now, Attempted(s.workers[w].stage.outcome, s.workers[w].seen))]
    else []
  }

  /** What action a means for the circuit of endpoint e. */
  function CircuitEvent(s: State, a: Action, e: Id): seq<Timed>
    requires Enabled(s, a)
  {
    match a
    case Work(SettleCircuit(w, stored)) => if stored then SettleEvent(s, w, e) else []
    case Schedule(ExpireOpen) => [Timed(s.now, Expiry(Queued(s.db.deliveries, e)))]
    case Schedule(AssignProbe(p)) =>
      if s.probers[p].endpoint != e then []
      else if s.probers[p].choice.Some? then [Timed(s.now, ProbeChosen(s.probers[p].choice.value))]
      else [Timed(s.now, QueueEmpty)]
    case _ => []
  }

  /** The events of endpoint e in the first i steps of run r. */
  ghost function History(r: Run, i: nat, e: Id): seq<Timed>
    requires r.Valid() && i <= |r.actions|
  {
    if i == 0 then []
    else
      assert r.StepAt(i-1);
      History(r, i - 1, e) + CircuitEvent(r.states[i-1], r.actions[i-1], e)
  }

  ghost predicate ReactsTo(cfg: Config, c: Circuit, c': Circuit, h: seq<Timed>) {
    |h| <= 1 && c' == if h == [] then c else React(c, cfg, h[0])
  }

  lemma WorkerCircuitStep(s: State, a: WorkerAction, e: Id)
    requires WorkerEnabled(s, a) && e in s.db.endpoints
    ensures e in ApplyWorker(s, a).db.endpoints
    ensures ReactsTo(s.cfg, s.db.endpoints[e].circuit, ApplyWorker(s, a).db.endpoints[e].circuit,
                     CircuitEvent(s, Work(a), e))
  {
  }

  lemma SchedulerCircuitStep(s: State, a: SchedulerAction, e: Id)
    requires SchedulerEnabled(s, a) && e in s.db.endpoints
    ensures e in ApplyScheduler(s, a).db.endpoints
    ensures ReactsTo(s.cfg, s.db.endpoints[e].circuit, ApplyScheduler(s, a).db.endpoints[e].circuit,
                     CircuitEvent(s, Schedule(a), e))
  {
  }

  lemma ClientCircuitStep(s: State, a: ClientAction)
    requires ClientEnabled(s, a)
    ensures ApplyClient(s, a).db.endpoints == s.db.endpoints
  {
  }

  lemma CircuitStep(s: State, a: Action, e: Id)
    requires Enabled(s, a) && e in s.db.endpoints
    ensures e in Apply(s, a).db.endpoints
    ensures ReactsTo(s.cfg, s.db.endpoints[e].circuit, Apply(s, a).db.endpoints[e].circuit, CircuitEvent(s, a, e))
  {
    hide ApplyClient, ApplyWorker, ApplyScheduler;
    match a
    case Work(w) => WorkerCircuitStep(s, w, e);
    case Schedule(c) => SchedulerCircuitStep(s, c, e);
    case Client(c) => ClientCircuitStep(s, c);
    case _ =>
  }

  lemma RowExtends(cfg: Config, h: seq<Timed>, ev: seq<Timed>, c: Circuit, c': Circuit)
    requires c == Row(cfg, h) && ReactsTo(cfg, c, c', ev)
    ensures c' == Row(cfg, h + ev)
  {
    if ev == [] {
      assert h + ev == h;
    } else {
      assert (h + ev)[..|h|] == h;
    }
  }

  /** The stored row is the row its history specifies. */
  lemma {:induction false} StoredRowIsHistory(r: Run, i: nat, e: Id)
    requires r.Valid() && i < |r.states| && e in r.states[0].db.endpoints
    ensures e in r.states[i].db.endpoints
    ensures r.states[i].db.endpoints[e].circuit == Row(r.states[0].cfg, History(r, i, e))
  {
    if i > 0 {
      assert r.StepAt(i-1);
      hide Enabled, Apply, Row, ReactsTo, CircuitEvent, Grows, SameEndpoints;
      StoredRowIsHistory(r, i - 1, e);
      RunLater(r, 0, i - 1);
      CircuitStep(r.states[i-1], r.actions[i-1], e);
      RowExtends(r.states[0].cfg, History(r, i - 1, e), CircuitEvent(r.states[i-1], r.actions[i-1], e),
        r.states[i-1].db.endpoints[e].circuit, r.states[i].db.endpoints[e].circuit);
    } else {
      NoHistory(r.states[0].cfg);
    }
  }

  lemma NoHistory(cfg: Config)
    ensures Row(cfg, []) == FreshCircuit
  {
  }

  /** In every reachable state, whatever SetProbeDelivery calls interleave, every
      endpoint's circuit columns are consistent. */
  lemma CircuitRowsConsistent(r: Run, i: nat, e: Id)
    requires r.Valid() && i < |r.states| && e in r.states[i].db.endpoints
    ensures RowInv(r.states[i].db.endpoints[e].circuit, r.states[0].cfg)
  {
    RunLater(r, 0, i);
    StoredRowIsHistory(r, i, e);
    RowInvAlways(r.states[0].cfg, History(r, i, e));
  }
}
