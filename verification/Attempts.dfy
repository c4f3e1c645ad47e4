/** Whole attempts as continuations of a run. */
module Attempts {
  import opened Model
  import opened Statements
  import opened Pipeline
  import opened RunFacts
  import opened Tracing
  import opened SoundRuns
  import opened ProbeCalls
  import opened AtomicFinish

  /** The steps of a sound run with one SetProbeDelivery call per endpoint at a time. */
  predicate Careful(s: State, a: Action) {
    SoundAllows(s, a) && OneCall(s, a)
  }

  ghost predicate Permits(allow: (State, Action) -> bool) {
    forall s: State, a: Action :: Careful(s, a) ==> allow(s, a)
  }

  lemma PermitsAnything()
    ensures Permits(Anything)
  {
    hide Careful;
  }

  lemma NoSteps(allow: (State, Action) -> bool, s: State)
    ensures Steps(allow, s, [], s)
  {
  }

  /** One more step; only a circuit update needs its final update next. */
  lemma Do(allow: (State, Action) -> bool, s0: State, acts: seq<Action>, s: State, a: Action)
    returns (acts': seq<Action>, s': State)
    requires Steps(allow, s0, acts, s) && Enabled(s, a) && (allow(s, a) || (Permits(allow) && Careful(s, a)))
    ensures acts' == acts + [a] && s' == Apply(s, a) && Steps(allow, s0, acts', s')
    ensures Paired(acts) && !SettlesNow(a) ==> Paired(acts')
  {
    hide Steps, Careful, Paired, Enabled, Apply;
    acts', s' := ExtendSteps(allow, s0, acts, s, a);
    if Paired(acts) && !SettlesNow(a) { PairedNext(acts, a); }
  }

  /** s' is s after one whole attempt of delivery id with outcome o. */
  predicate AttemptDone(s: State, s': State, id: Id, o: Outcome)
    requires id in s.db.deliveries && s.db.deliveries[id].endpoint in s.db.endpoints
  {
    var d, n := s.db.deliveries[id], s.db.deliveries[id].attemptCount + 1;
    && id in s'.db.deliveries
    && s' == s.(msgs := s.msgs - multiset{id}, posts := s'.posts, db := s'.db)
    && s'.db.attempts.Keys == s.db.attempts.Keys + {(id, n)}
    && s'.db.endpoints == SettleEndpoint(s.db.endpoints, d.endpoint, s.cfg, s.now, o, s.db.endpoints[d.endpoint].circuit.state)
    && s'.db.deliveries == s.db.deliveries[id := FinalRow(d, o, n, s'.db.deliveries[id].nextAttemptAt, s.now)]
  }

  lemma LoadAndInsert(allow: (State, Action) -> bool, s0: State, acts: seq<Action>, s: State, w: Id, id: Id)
    returns (acts': seq<Action>, s': State)
    requires Permits(allow) && Steps(allow, s0, acts, s) && w !in s.workers && id in s.msgs && id in s.db.deliveries
    requires s.db.deliveries[id].endpoint in s.db.endpoints
    requires (id, s.db.deliveries[id].attemptCount + 1) !in s.db.attempts
    ensures Steps(allow, s0, acts', s') && (Paired(acts) ==> Paired(acts'))
    ensures var d := s.db.deliveries[id];
            s' == s.(msgs := s.msgs - multiset{id},
                     workers := s.workers[w := Worker(id, d.attemptCount + 1, d.endpoint,
                                                      s.db.endpoints[d.endpoint].circuit.state, Started)],
                     db := s.db.(attempts := InsertAttempt(s.db.attempts, id, d.attemptCount + 1, s.now)))
  {
    hide Permits, Steps, Paired;
    acts', s' := Do(allow, s0, acts, s, Work(Load(w, id)));
    acts', s' := Do(allow, s0, acts', s', Work(InsertStarted(w)));
  }

  lemma PostAndRecord(allow: (State, Action) -> bool, s0: State, acts: seq<Action>, s: State, w: Id, o: Outcome)
    returns (acts': seq<Action>, s': State)
    requires Permits(allow) && Steps(allow, s0, acts, s) && w in s.workers && s.workers[w].stage.Started?
    ensures Steps(allow, s0, acts', s') && (Paired(acts) ==> Paired(acts'))
    ensures var k := s.workers[w];
            s' == s.(posts := s'.posts, workers := s.workers[w := k.(stage := Recorded(o))],
                     db := s.db.(attempts := RecordOutcome(s.db.attempts, k.delivery, k.seqNo, o, s.now)))
  {
    hide Permits, Steps, Paired, RecordOutcome;
    acts', s' := Do(allow, s0, acts, s, Work(Post(w, o)));
    acts', s' := Do(allow, s0, acts', s', Work(UpdateOutcome(w, true, s.now)));
  }

  /** The unique replay index accepts the row that outcome o asks for. */
  predicate Storable(ds: Deliveries, id: Id, o: Outcome, seqNo: nat) {
    id in ds && !DuplicatesReplay(ds, id, FinalRow(ds[id], o, seqNo, 0, 0))
  }

  lemma OriginalsAndEndsStorable(ds: Deliveries, id: Id, o: Outcome, seqNo: nat)
    requires id in ds && (ds[id].source.None? || o.Success?)
    ensures Storable(ds, id, o, seqNo)
  {
  }

  /** The final update of such a delivery stores its row. */
  lemma FinishStores(s: State, w: Id)
    requires w in s.workers && s.workers[w].stage.Settled?
    requires Storable(s.db.deliveries, s.workers[w].delivery, s.workers[w].stage.outcome, s.workers[w].seqNo)
    ensures FinishDraw(s, w, 0)
    ensures var k, s' := s.workers[w], DoFinish(s, w, s.now, 0);
            && k.delivery in s'.db.deliveries
            && s'.db.deliveries == s.db.deliveries[k.delivery :=
                 FinalRow(s.db.deliveries[k.delivery], k.stage.outcome, k.seqNo, s'.db.deliveries[k.delivery].nextAttemptAt, s.now)]
  {
  }

  lemma FinishWorker(allow: (State, Action) -> bool, s0: State, acts: seq<Action>, s: State, w: Id)
    returns (acts': seq<Action>, s': State)
    requires Permits(allow) && Steps(allow, s0, acts, s) && w in s.workers && s.workers[w].stage.Settled?
    requires Storable(s.db.deliveries, s.workers[w].delivery, s.workers[w].stage.outcome, s.workers[w].seqNo)
    ensures Steps(allow, s0, acts', s') && acts' == acts + [Work(Finish(w, s.now, 0))]
    ensures s' == s.(workers := s.workers - {w}, db := s.db.(deliveries := s'.db.deliveries))
    ensures var k := s.workers[w];
            && k.delivery in s'.db.deliveries
            && s'.db.deliveries == s.db.deliveries[k.delivery :=
                 FinalRow(s.db.deliveries[k.delivery], k.stage.outcome, k.seqNo, s'.db.deliveries[k.delivery].nextAttemptAt, s.now)]
  {
    FinishStores(s, w);
    hide Permits, Steps, Paired, DoFinish, FinalRow, FinishDraw;
    FinishFrame(s, w, s.now, 0);
    acts', s' := Do(allow, s0, acts, s, Work(Finish(w, s.now, 0)));
  }

  lemma SettleWorker(allow: (State, Action) -> bool, s0: State, acts: seq<Action>, s: State, w: Id, stored: bool)
    returns (acts': seq<Action>, s': State)
    requires Permits(allow) && Steps(allow, s0, acts, s) && w in s.workers && s.workers[w].stage.Recorded?
    requires stored || allow(s, Work(SettleCircuit(w, stored)))
    ensures Steps(allow, s0, acts', s') && acts' == acts + [Work(SettleCircuit(w, stored))]
    ensures var k := s.workers[w];
            && s' == s.(workers := s.workers[w := k.(stage := Settled(k.stage.outcome))], db := s.db.(endpoints := s'.db.endpoints))
            && s'.db.endpoints == if stored then SettleEndpoint(s.db.endpoints, k.endpoint, s.cfg, s.now, k.stage.outcome, k.seen)
                                  else s.db.endpoints
  {
    hide Permits, Steps, Paired, SettleEndpoint;
    acts', s' := Do(allow, s0, acts, s, Work(SettleCircuit(w, stored)));
  }

  lemma SettleThenFinish(allow: (State, Action) -> bool, s0: State, acts: seq<Action>, s: State, w: Id)
    returns (acts': seq<Action>, s': State)
    requires Permits(allow) && Steps(allow, s0, acts, s) && w in s.workers && s.workers[w].stage.Recorded?
    requires Storable(s.db.deliveries, s.workers[w].delivery, s.workers[w].stage.outcome, s.workers[w].seqNo)
    ensures Steps(allow, s0, acts', s') && (Paired(acts) ==> Paired(acts'))
    ensures s' == s.(workers := s.workers - {w}, db := s'.db) && s'.db.attempts == s.db.attempts
    ensures var k := s.workers[w];
            && s'.db.endpoints == SettleEndpoint(s.db.endpoints, k.endpoint, s.cfg, s.now, k.stage.outcome, k.seen)
            && k.delivery in s'.db.deliveries
            && s'.db.deliveries == s.db.deliveries[k.delivery :=
                 FinalRow(s.db.deliveries[k.delivery], k.stage.outcome, k.seqNo, s'.db.deliveries[k.delivery].nextAttemptAt, s.now)]
  {
    hide Permits, Steps, Paired, FinalRow, SettleEndpoint;
    acts', s' := SettleWorker(allow, s0, acts, s, w, true);
    acts', s' := FinishWorker(allow, s0, acts', s', w);
    if Paired(acts) { PairedFinish(acts, w, s.now, 0); }
  }

  /** One whole attempt of delivery id with outcome o. */
  lemma OneAttempt(allow: (State, Action) -> bool, s0: State, acts: seq<Action>, s: State, w: Id, id: Id, o: Outcome)
    returns (acts': seq<Action>, s': State)
    requires Permits(allow) && Steps(allow, s0, acts, s) && w !in s.workers && id in s.msgs && id in s.db.deliveries
    requires s.db.deliveries[id].endpoint in s.db.endpoints && Storable(s.db.deliveries, id, o, s.db.deliveries[id].attemptCount + 1)
    requires (id, s.db.deliveries[id].attemptCount + 1) !in s.db.attempts
    ensures Steps(allow, s0, acts', s') && AttemptDone(s, s', id, o) && (Paired(acts) ==> Paired(acts'))
  {
    hide Permits, Steps, Paired, FinalRow, SettleEndpoint;
    acts', s' := LoadAndInsert(allow, s0, acts, s, w, id);
    acts', s' := PostAndRecord(allow, s0, acts', s', w, o);
    ghost var workers := s'.workers;
    acts', s' := SettleThenFinish(allow, s0, acts', s', w);
    assert workers - {w} == s.workers;
  }
}
