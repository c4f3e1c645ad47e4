/** worker.go and outcome.go: one message processed as code over the tables,
    every statement of which is a step of the transition system. */
module Workers {
  import opened Model
  import opened Retry
  import opened Statements
  import opened Pipeline
  import opened Database
  import opened Tracing
  import opened Scheduler

  /** What the POST came to: a status code, or a transport error that may or
      may not report a timeout. */
  datatype HttpResult = Responded(code: int) | TransportError(isDeadline: bool)

  function Classify(h: HttpResult): Outcome {
    match h
    case TransportError(isDeadline) => if isDeadline then Timeout else TransientFailure
    case Responded(code) =>
      if 200 <= code < 400 then Success
      else if code == 429 then TransientFailure
      else if 400 <= code < 500 then PermanentFailure
      else TransientFailure
  }

  datatype ProcessResult = Done | NotFound | AlreadyAttempted | FinalUpdateFailed

  /** The store errors a worker goes on after, and the one it returns. */
  datatype WorkerFaults = WorkerFaults(outcome: bool, circuit: bool, final: bool)

  method LoadStep(db: Db, id: Id, ghost w: Id, ghost s0: State, ghost acts: seq<Action>, ghost s: State)
    returns (row: Option<LoadedRow>, ghost acts': seq<Action>, ghost s': State)
    requires Trace(s0, acts, s) && At(db, s) && id in s.msgs && w !in s.workers
    modifies db`now
    ensures Trace(s0, acts', s') && At(db, s') && s.now <= s'.now
    ensures row.None? ==> s' == s.(now := db.now)
    ensures row.None? <==> id !in s.db.deliveries || s.db.deliveries[id].endpoint !in s.db.endpoints
    ensures row.Some? ==> row.value == LoadedRow(s.db.deliveries[id], s.db.endpoints[s.db.deliveries[id].endpoint].circuit.state)
    ensures row.Some? ==>
              s' == s.(now := db.now, msgs := s.msgs - multiset{id}, workers := s.workers[w :=
                Worker(id, row.value.delivery.attemptCount + 1, row.value.delivery.endpoint, row.value.circuitState, Loaded)])
    ensures Good(s) ==> Good(s')
  {
    hide Good, Trace;
    acts', s' := NextStatement(db, s0, acts, s);
    row := db.LoadForWorker(id);
    if row.Some? {
      acts', s' := Extend(s0, acts', s', Work(Load(w, id)));
    }
  }

  method InsertStep(db: Db, id: Id, seqNo: nat, ghost w: Id, ghost s0: State, ghost acts: seq<Action>, ghost s: State)
    returns (ok: bool, ghost acts': seq<Action>, ghost s': State)
    requires Trace(s0, acts, s) && At(db, s) && w in s.workers && s.workers[w].stage.Loaded?
    requires s.workers[w].delivery == id && s.workers[w].seqNo == seqNo
    modifies db`now, db`attempts
    ensures Trace(s0, acts', s') && At(db, s') && s.now <= s'.now
    ensures ok <==> (id, seqNo) !in s.db.attempts
    ensures !ok ==> s' == s.(now := db.now, workers := s.workers - {w})
    ensures ok ==> s' == s.(now := db.now, workers := s.workers[w := s.workers[w].(stage := Started)],
                            db := s.db.(attempts := db.attempts))
    ensures ok ==> db.attempts == s.db.attempts[(id, seqNo) := Attempt(db.now, None, TransientFailure)]
    ensures Good(s) ==> Good(s')
  {
    hide Good, Trace;
    acts', s' := NextStatement(db, s0, acts, s);
    ok := db.InsertStarted(id, seqNo);
    acts', s' := Extend(s0, acts', s', Work(InsertStarted(w)));
  }

  lemma PostStep(w: Id, o: Outcome, s0: State, acts: seq<Action>, s: State)
    returns (acts': seq<Action>, s': State)
    requires Trace(s0, acts, s) && w in s.workers && s.workers[w].stage.Started?
    ensures Trace(s0, acts', s')
    ensures s' == s.(workers := s.workers[w := s.workers[w].(stage := Posted(o))],
                     posts := s.posts + [(s.workers[w].delivery, s.workers[w].seqNo)])
    ensures Good(s) ==> Good(s')
  {
    hide Good, Trace;
    acts', s' := Extend(s0, acts, s, Work(Post(w, o)));
  }

  method OutcomeStep(db: Db, o: Outcome, failed: bool, ghost w: Id, ghost s0: State, ghost acts: seq<Action>, ghost s: State,
                     id: Id, seqNo: nat)
    returns (ghost acts': seq<Action>, ghost s': State)
    requires Trace(s0, acts, s) && At(db, s) && w in s.workers && s.workers[w].stage == Posted(o)
    requires s.workers[w].delivery == id && s.workers[w].seqNo == seqNo
    modifies db`now, db`attempts
    ensures Trace(s0, acts', s') && At(db, s') && s.now <= s'.now
    ensures s' == s.(now := db.now, workers := s.workers[w := s.workers[w].(stage := Recorded(o))],
                     db := s.db.(attempts := db.attempts))
    ensures db.attempts.Keys == s.db.attempts.Keys
    ensures Good(s) ==> Good(s')
  {
    hide Good, Trace;
    acts', s' := NextStatement(db, s0, acts, s);
    var clock: Time :| true;
    if !failed { db.UpdateOutcome(id, seqNo, o, clock); }
    acts', s' := Extend(s0, acts', s', Work(UpdateOutcome(w, !failed, clock)));
  }

  /** The dispatch of the circuit update on the outcome. */
  method CircuitUpdate(db: Db, cfg: Config, ep: Id, o: Outcome, seen: Breaker)
    modifies db`endpoints
    ensures db.endpoints == SettleEndpoint(old(db.endpoints), ep, cfg, db.now, o, seen)
  {
    match o
    case Success => db.RecordSuccess(ep);
    case PermanentFailure =>
      if seen == HalfOpen { db.RecordProbePermanentFailure(ep, cfg); }
      assert ep in old(db.endpoints) ==>
          old(db.endpoints)[ep := old(db.endpoints)[ep].(circuit := old(db.endpoints)[ep].circuit)] == old(db.endpoints);
    case _ => db.RecordTransientFailure(ep, cfg);
  }

  method SettleStep(db: Db, cfg: Config, ep: Id, o: Outcome, seen: Breaker, failed: bool,
                    ghost w: Id, ghost s0: State, ghost acts: seq<Action>, ghost s: State)
    returns (ghost acts': seq<Action>, ghost s': State)
    requires Trace(s0, acts, s) && At(db, s) && w in s.workers && s.workers[w].stage == Recorded(o)
    requires s.workers[w].endpoint == ep && s.workers[w].seen == seen && s.cfg == cfg
    modifies db`now, db`endpoints
    ensures Trace(s0, acts', s') && At(db, s') && s.now <= s'.now
    ensures db.endpoints == if failed then s.db.endpoints else SettleEndpoint(s.db.endpoints, ep, cfg, db.now, o, seen)
    ensures s' == s.(now := db.now, workers := s.workers[w := s.workers[w].(stage := Settled(o))],
                     db := s.db.(endpoints := db.endpoints))
    ensures Good(s) && !failed ==> Good(s')
  {
    hide Good, Trace, SettleEndpoint;
    acts', s' := NextStatement(db, s0, acts, s);
    if !failed { CircuitUpdate(db, cfg, ep, o, seen); }
    acts', s' := Extend(s0, acts', s', Work(SettleCircuit(w, !failed)));
  }

  /** The statement that moves the delivery: what process returns with. */
  method FinalUpdate(db: Db, id: Id, o: Outcome, seqNo: nat, nextAt: Time)
    modifies db`deliveries
    ensures id in old(db.deliveries) ==>
              db.deliveries == UpdateRow(old(db.deliveries), id, FinalRow(old(db.deliveries)[id], o, seqNo, nextAt, db.now))
    ensures id !in old(db.deliveries) ==> db.deliveries == old(db.deliveries)
  {
    match o
    case Success => db.MarkDelivered(id);
    case PermanentFailure => db.MarkPermanentlyFailed(id);
    case _ =>
      if seqNo >= MAX_ATTEMPTS {
        db.MarkPermanentlyFailed(id);
      } else {
        var stored := db.Reschedule(id, nextAt);
      }
  }

  /** When the next attempt is due, by the worker's own clock. */
  method NextAttempt(seqNo: nat) returns (nextAt: Time, clock: Time, draw: int64)
    ensures DrawnFor(PRODUCTION_SCHEDULE, seqNo + 1, draw)
    ensures nextAt == clock + Delay(PRODUCTION_SCHEDULE, seqNo + 1, draw) as int
  {
    var t: Time :| true;
    assert DrawnFor(PRODUCTION_SCHEDULE, seqNo + 1, 0);
    var d: int64 :| DrawnFor(PRODUCTION_SCHEDULE, seqNo + 1, d);
    nextAt, clock, draw := t + Delay(PRODUCTION_SCHEDULE, seqNo + 1, d) as int, t, d;
  }

  method FinishStep(db: Db, id: Id, o: Outcome, seqNo: nat, ghost w: Id, ghost s0: State, ghost acts: seq<Action>, ghost s: State)
    returns (ghost nextAt: Time, ghost acts': seq<Action>, ghost s': State)
    requires Trace(s0, acts, s) && At(db, s) && w in s.workers && s.workers[w].stage == Settled(o)
    requires s.workers[w].delivery == id && s.workers[w].seqNo == seqNo && id in s.db.deliveries
    modifies db`now, db`deliveries
    ensures Trace(s0, acts', s') && At(db, s') && s.now <= s'.now
    ensures db.deliveries == UpdateRow(s.db.deliveries, id, FinalRow(s.db.deliveries[id], o, seqNo, nextAt, db.now))
    ensures s' == s.(now := db.now, workers := s.workers - {w}, db := s.db.(deliveries := db.deliveries))
    ensures Good(s) ==> Good(s')
  {
    hide Good, Trace, FinalRow, UpdateRow, Delay, DrawnFor;
    acts', s' := NextStatement(db, s0, acts, s);
    ghost var clock, draw;
    var at: Time;
    at, clock, draw := NextAttempt(seqNo);
    FinalUpdate(db, id, o, seqNo, at);
    acts', s' := Extend(s0, acts', s', Work(Finish(w, clock, draw)));
    nextAt := at;
  }

  lemma CrashStep(w: Id, s0: State, acts: seq<Action>, s: State) returns (acts': seq<Action>, s': State)
    requires Trace(s0, acts, s) && w in s.workers
    ensures Trace(s0, acts', s') && s' == s.(workers := s.workers - {w})
    ensures Good(s) ==> Good(s')
  {
    hide Good, Trace;
    acts', s' := Extend(s0, acts, s, Work(CrashWorker(w)));
  }

  /** The POST and the record of its outcome. */
  method PostAndRecord(db: Db, id: Id, seqNo: nat, o: Outcome, outcomeFails: bool,
                       ghost w: Id, ghost s0: State, ghost acts: seq<Action>, ghost s: State)
    returns (ghost acts': seq<Action>, ghost s': State)
    requires Trace(s0, acts, s) && At(db, s) && w in s.workers && s.workers[w].stage == Started
    requires s.workers[w].delivery == id && s.workers[w].seqNo == seqNo
    modifies db`now, db`attempts
    ensures Trace(s0, acts', s') && At(db, s') && s.now <= s'.now
    ensures s' == s.(now := s'.now, workers := s.workers[w := s.workers[w].(stage := Recorded(o))],
                     posts := s.posts + [(id, seqNo)], db := s.db.(attempts := s'.db.attempts))
    ensures s'.db.attempts.Keys == s.db.attempts.Keys
    ensures Good(s) ==> Good(s')
  {
    hide Good, Trace;
    acts', s' := PostStep(w, o, s0, acts, s);
    acts', s' := OutcomeStep(db, o, outcomeFails, w, s0, acts', s', id, seqNo);
  }

  /** Load and InsertStarted; Done says that the attempt may go on. */
  method LoadAndInsert(db: Db, id: Id, ghost w: Id, ghost s0: State, ghost acts: seq<Action>, ghost s: State)
    returns (result: ProcessResult, d: Option<LoadedRow>, ghost acts': seq<Action>, ghost s': State)
    requires Trace(s0, acts, s) && At(db, s) && id in s.msgs && w !in s.workers
    modifies db`now, db`attempts
    ensures Trace(s0, acts', s') && At(db, s') && s.now <= s'.now
    ensures result != FinalUpdateFailed
    ensures result == NotFound <==> id !in s.db.deliveries || s.db.deliveries[id].endpoint !in s.db.endpoints
    ensures result == AlreadyAttempted <==>
              result != NotFound && (id, s.db.deliveries[id].attemptCount + 1) in s.db.attempts
    ensures result == NotFound ==> s' == s.(now := s'.now)
    ensures result == AlreadyAttempted ==> s' == s.(now := s'.now, msgs := s.msgs - multiset{id})
    ensures result == Done ==>
              && d == Some(LoadedRow(s.db.deliveries[id], s.db.endpoints[s.db.deliveries[id].endpoint].circuit.state))
              && var seqNo := s.db.deliveries[id].attemptCount + 1;
              && s'.db.attempts.Keys == s.db.attempts.Keys + {(id, seqNo)}
              && s' == s.(now := s'.now, msgs := s.msgs - multiset{id}, db := s.db.(attempts := s'.db.attempts),
                          workers := s.workers[w := Worker(id, seqNo, s.db.deliveries[id].endpoint,
                                                           d.value.circuitState, Started)])
    ensures Good(s) ==> Good(s')
  {
    hide Good, Trace;
    d, acts', s' := LoadStep(db, id, w, s0, acts, s);
    if d.None? { return NotFound, d, acts', s'; }
    var ok: bool;
    ok, acts', s' := InsertStep(db, id, d.value.delivery.attemptCount + 1, w, s0, acts', s');
    assert !ok ==> s'.workers == s.workers;
    result := if ok then Done else AlreadyAttempted;
  }

  /** process() up to UpdateOutcome. */
  method RunAttempt(db: Db, id: Id, http: HttpResult, outcomeFails: bool,
                 ghost w: Id, ghost s0: State, ghost acts: seq<Action>, ghost s: State)
    returns (result: ProcessResult, d: Option<LoadedRow>, ghost acts': seq<Action>, ghost s': State)
    requires Trace(s0, acts, s) && At(db, s) && id in s.msgs && w !in s.workers
    modifies db`now, db`attempts
    ensures Trace(s0, acts', s') && At(db, s') && s.now <= s'.now
    ensures result != FinalUpdateFailed
    ensures result == NotFound <==> id !in s.db.deliveries || s.db.deliveries[id].endpoint !in s.db.endpoints
    ensures result == AlreadyAttempted <==>
              result != NotFound && (id, s.db.deliveries[id].attemptCount + 1) in s.db.attempts
    ensures result == NotFound ==> s' == s.(now := s'.now)
    ensures result == AlreadyAttempted ==> s' == s.(now := s'.now, msgs := s.msgs - multiset{id})
    ensures result == Done ==>
              && d == Some(LoadedRow(s.db.deliveries[id], s.db.endpoints[s.db.deliveries[id].endpoint].circuit.state))
              && var seqNo := s.db.deliveries[id].attemptCount + 1;
              && s'.db.attempts.Keys == s.db.attempts.Keys + {(id, seqNo)}
              && s' == s.(now := s'.now, msgs := s.msgs - multiset{id}, posts := s.posts + [(id, seqNo)],
                          db := s.db.(attempts := s'.db.attempts),
                          workers := s.workers[w := Worker(id, seqNo, s.db.deliveries[id].endpoint,
                                                           d.value.circuitState, Recorded(Classify(http)))])
    ensures Good(s) ==> Good(s')
  {
    hide Good, Trace, Classify;
    result, d, acts', s' := LoadAndInsert(db, id, w, s0, acts, s);
    if result == Done {
      acts', s' := PostAndRecord(db, id, d.value.delivery.attemptCount + 1, Classify(http), outcomeFails, w, s0, acts', s');
    }
  }

  /** process() after UpdateOutcome. */
  method Conclude(db: Db, cfg: Config, d: LoadedRow, id: Id, o: Outcome, f: WorkerFaults,
                  ghost w: Id, ghost s0: State, ghost acts: seq<Action>, ghost s: State)
    returns (stored: bool, ghost settledAt: Time, ghost nextAt: Time, ghost acts': seq<Action>, ghost s': State)
    requires Trace(s0, acts, s) && At(db, s) && s.cfg == cfg && id in s.db.deliveries
    requires w in s.workers && s.workers[w] == Worker(id, d.delivery.attemptCount + 1, d.delivery.endpoint, d.circuitState, Recorded(o))
    modifies db`now, db`endpoints, db`deliveries
    ensures Trace(s0, acts', s') && At(db, s') && s.now <= settledAt <= s'.now
    ensures stored <==> !f.final
    ensures s' == s.(now := s'.now, workers := s.workers - {w}, db := Tables(s'.db.deliveries, s'.db.endpoints, s.db.attempts))
    ensures s'.db.endpoints == if f.circuit then s.db.endpoints
                               else SettleEndpoint(s.db.endpoints, d.delivery.endpoint, cfg, settledAt, o, d.circuitState)
    ensures s'.db.deliveries == if !stored then s.db.deliveries
              else UpdateRow(s.db.deliveries, id, FinalRow(s.db.deliveries[id], o, d.delivery.attemptCount + 1, nextAt, s'.now))
    ensures Good(s) && !f.circuit ==> Good(s')
  {
    hide Good, Trace, FinalRow, UpdateRow, SettleEndpoint;
    nextAt := 0;
    var ep, seqNo := d.delivery.endpoint, d.delivery.attemptCount + 1;
    acts', s' := SettleStep(db, cfg, ep, o, d.circuitState, f.circuit, w, s0, acts, s);
    settledAt, stored := db.now, !f.final;
    if f.final {
      acts', s' := CrashStep(w, s0, acts', s');
    } else {
      nextAt, acts', s' := FinishStep(db, id, o, seqNo, w, s0, acts', s');
    }
    assert s'.workers == s.workers - {w};
  }

  /** process(): http is what the POST came to. Unless the delivery is unknown
      or its next sequence already exists, the attempt is inserted and POSTed
      once, the circuit settled with the state loaded before the POST, and the
      row becomes the one the outcome asks for. */
  method Process(db: Db, cfg: Config, id: Id, http: HttpResult, f: WorkerFaults,
                 ghost s0: State, ghost acts: seq<Action>, ghost s: State)
    returns (result: ProcessResult, ghost settledAt: Time, ghost nextAt: Time, ghost acts': seq<Action>, ghost s': State)
    requires Trace(s0, acts, s) && At(db, s) && id in s.msgs && s.cfg == cfg
    modifies db`now, db`attempts, db`endpoints, db`deliveries
    ensures Trace(s0, acts', s') && At(db, s') && s.now <= s'.now
    ensures result == NotFound <==> id !in s.db.deliveries || s.db.deliveries[id].endpoint !in s.db.endpoints
    ensures result == AlreadyAttempted <==>
              result != NotFound && (id, s.db.deliveries[id].attemptCount + 1) in s.db.attempts
    ensures result == NotFound ==> s' == s.(now := s'.now)
    ensures result == AlreadyAttempted ==> s' == s.(now := s'.now, msgs := s.msgs - multiset{id})
    ensures result == Done || result == FinalUpdateFailed ==>
              var d := s.db.deliveries[id];
              && s' == s.(now := s'.now, db := s'.db, msgs := s.msgs - multiset{id}, posts := s.posts + [(id, d.attemptCount + 1)])
              && s'.db.attempts.Keys == s.db.attempts.Keys + {(id, d.attemptCount + 1)}
              && s.now <= settledAt <= s'.now
              && s'.db.endpoints == (if f.circuit then s.db.endpoints
                   else SettleEndpoint(s.db.endpoints, d.endpoint, cfg, settledAt, Classify(http), s.db.endpoints[d.endpoint].circuit.state))
              && s'.db.deliveries == (if result != Done then s.db.deliveries
                   else UpdateRow(s.db.deliveries, id, FinalRow(d, Classify(http), d.attemptCount + 1, nextAt, s'.now)))
    ensures result == FinalUpdateFailed ==> f.final
    ensures Good(s) && !f.circuit ==> Good(s')
  {
    hide Good, Trace, FinalRow, UpdateRow, SettleEndpoint;
    ghost var w := Fresh(s.workers);
    var d: Option<LoadedRow>;
    settledAt, nextAt := s.now, 0;
    result, d, acts', s' := RunAttempt(db, id, http, f.outcome, w, s0, acts, s);
    if result == Done {
      ghost var s1 := s';
      var stored: bool;
      stored, settledAt, nextAt, acts', s' := Conclude(db, cfg, d.value, id, Classify(http), f, w, s0, acts', s');
      if !stored { result := FinalUpdateFailed; }
      assert s1.workers - {w} == s.workers;
    }
  }
}
