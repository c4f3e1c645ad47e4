/** As long as no worker has died after InsertStarted, every started attempt of
    an unfinished delivery still has its worker. */
module Progress {
  import opened Model
  import opened Retry
  import opened Statements
  import opened Pipeline
  import opened RunFacts
  import opened AttemptFence
  import opened ReplayForest
  import opened Fenced
  import P = ProbeDiscipline

  /** An attempt row of an unfinished delivery's next sequence has its worker. */
  ghost predicate Attended(ds: Deliveries, as_: Attempts, workers: map<Id, Worker>) {
    forall id | id in ds && !ds[id].status.Terminal() && (id, ds[id].attemptCount + 1) in as_ ::
      exists w :: w in workers && workers[w].delivery == id && Running(workers[w])
  }

  ghost predicate AttendedState(s: State) {
    Attended(s.db.deliveries, s.db.attempts, s.workers)
  }

  predicate LateCrash(s: State, a: Action) {
    a.Work? && a.work.CrashWorker? && a.work.worker in s.workers && Running(s.workers[a.work.worker])
  }

  /** Rows keep their counter and terminal status, or are new with a free sequence. */
  ghost predicate QuietRows(ds: Deliveries, ds': Deliveries, as_: Attempts) {
    forall id | id in ds' ::
      if id in ds
      then ds'[id].attemptCount == ds[id].attemptCount && (ds'[id].status.Terminal() <==> ds[id].status.Terminal())
      else (id, ds'[id].attemptCount + 1) !in as_
  }

  lemma QuietRowsAttended(s: State, s': State)
    requires AttendedState(s) && QuietRows(s.db.deliveries, s'.db.deliveries, s.db.attempts)
    requires s'.db.attempts == s.db.attempts && s'.workers == s.workers
    ensures AttendedState(s')
  {
    forall id | id in s'.db.deliveries && !s'.db.deliveries[id].status.Terminal()
                && (id, s'.db.deliveries[id].attemptCount + 1) in s'.db.attempts
      ensures exists w :: w in s'.workers && s'.workers[w].delivery == id && Running(s'.workers[w])
    {
      assert id in s.db.deliveries;
    }
  }

  lemma ClientAttended(s: State, a: ClientAction)
    requires AttendedState(s) && ClientEnabled(s, a) && AttemptRows(s.db.deliveries, s.db.attempts)
    ensures AttendedState(ApplyClient(s, a))
  {
    hide Attended, DuplicatesReplay;
    QuietRowsAttended(s, ApplyClient(s, a));
  }

  lemma SchedulerAttended(s: State, a: SchedulerAction)
    requires AttendedState(s) && SchedulerEnabled(s, a)
    ensures AttendedState(ApplyScheduler(s, a))
  {
    hide Attended, StoreProbe, ExpireSuspensions, OldestQueued;
    QuietRowsAttended(s, ApplyScheduler(s, a));
  }

  /** Worker w, the only one on its delivery, leaves after the final update. */
  lemma FinishedAttended(s: State, s': State, w: Id, row: Delivery)
    requires AttendedState(s) && w in s.workers && AttemptRows(s.db.deliveries, s.db.attempts)
    requires var id := s.workers[w].delivery;
             && id in s.db.deliveries && row.attemptCount == s.db.deliveries[id].attemptCount + 1
             && s'.db.deliveries == s.db.deliveries[id := row]
             && s'.db.attempts == s.db.attempts && s'.workers == s.workers - {w}
    ensures AttendedState(s')
  {
    var d := s.workers[w].delivery;
    forall id | id in s'.db.deliveries && !s'.db.deliveries[id].status.Terminal()
                && (id, s'.db.deliveries[id].attemptCount + 1) in s'.db.attempts
      ensures exists v :: v in s'.workers && s'.workers[v].delivery == id && Running(s'.workers[v])
    {
      assert id != d;
      var v :| v in s.workers && s.workers[v].delivery == id && Running(s.workers[v]);
      assert v in s'.workers;
    }
  }

  /** A worker still Loaded leaves. */
  lemma LoadedLeavesAttended(s: State, s': State, w: Id)
    requires AttendedState(s) && w in s.workers && !Running(s.workers[w])
    requires s'.db.deliveries == s.db.deliveries && s'.db.attempts == s.db.attempts && s'.workers == s.workers - {w}
    ensures AttendedState(s')
  {
    forall id | id in s.db.deliveries && !s.db.deliveries[id].status.Terminal()
                && (id, s.db.deliveries[id].attemptCount + 1) in s.db.attempts
      ensures exists v :: v in s'.workers && s'.workers[v].delivery == id && Running(s'.workers[v])
    {
      var v :| v in s.workers && s.workers[v].delivery == id && Running(s.workers[v]);
      assert v in s'.workers;
    }
  }

  /** Worker w is new or runs on, and only its own next sequence may be new. */
  lemma RunsOnAttended(s: State, s': State, w: Id)
    requires AttendedState(s) && w in s'.workers && s'.db.deliveries == s.db.deliveries
    requires s'.workers.Keys == s.workers.Keys + {w}
    requires forall v | v in s.workers && v != w :: s'.workers[v] == s.workers[v]
    requires w in s.workers ==> s'.workers[w].delivery == s.workers[w].delivery
                                && (Running(s.workers[w]) ==> Running(s'.workers[w]))
    requires forall key | key in s'.db.attempts ::
               key in s.db.attempts || (key.0 == s'.workers[w].delivery && Running(s'.workers[w]))
    ensures AttendedState(s')
  {
    forall id | id in s.db.deliveries && !s.db.deliveries[id].status.Terminal()
                && (id, s.db.deliveries[id].attemptCount + 1) in s'.db.attempts
      ensures exists v :: v in s'.workers && s'.workers[v].delivery == id && Running(s'.workers[v])
    {
      if (id, s.db.deliveries[id].attemptCount + 1) in s.db.attempts {
        var v :| v in s.workers && s.workers[v].delivery == id && Running(s.workers[v]);
        assert v in s'.workers && s'.workers[v].delivery == id && Running(s'.workers[v]);
      } else {
        assert s'.workers[w].delivery == id;
      }
    }
  }

  lemma FinishAttended(s: State, w: Id, clock: Time, draw: int64)
    requires P.Exclusive(s) && AttendedState(s) && AttemptRows(s.db.deliveries, s.db.attempts)
    requires WorkerEnabled(s, Finish(w, clock, draw))
    ensures AttendedState(DoFinish(s, w, clock, draw))
  {
    P.ExclusiveIndex(s);
    WorkerLives(s, w);
    hide Attended, AttemptRows, P.Exclusive, OneActiveReplay, DoFinish, FinalRow;
    var k := s.workers[w];
    FinishFrame(s, w, clock, draw);
    FinishStoresRow(s, w, clock, draw);
    FinalRowFacts(s.db.deliveries[k.delivery], k.stage.outcome, k.seqNo, NextAt(k, clock, draw), s.now);
    FinishedAttended(s, DoFinish(s, w, clock, draw), w,
      FinalRow(s.db.deliveries[k.delivery], k.stage.outcome, k.seqNo, NextAt(k, clock, draw), s.now));
  }

  lemma WorkerLives(s: State, w: Id)
    requires P.Exclusive(s) && w in s.workers
    ensures LiveRow(s.db.deliveries, s.workers[w].delivery)
  {
  }

  /** The circuit update leaves its worker running. */
  lemma SettleAttended(s: State, w: Id, stored: bool)
    requires AttendedState(s) && w in s.workers && s.workers[w].stage.Recorded?
    ensures AttendedState(DoSettle(s, w, stored))
  {
    SettleFrame(s, w, stored);
    hide Attended, DoSettle;
    RunsOnAttended(s, DoSettle(s, w, stored), w);
  }

  /** An attempt runs on through UpdateOutcome. */
  lemma OutcomeAttended(s: State, w: Id, stored: bool, clock: Time)
    requires AttendedState(s) && WorkerEnabled(s, UpdateOutcome(w, stored, clock))
    ensures AttendedState(DoUpdateOutcome(s, w, stored, clock))
  {
    hide Attended;
    RunsOnAttended(s, DoUpdateOutcome(s, w, stored, clock), w);
  }

  /** InsertStarted goes on, or finds its sequence taken. */
  lemma InsertAttended(s: State, w: Id)
    requires AttendedState(s) && WorkerEnabled(s, InsertStarted(w))
    ensures AttendedState(DoInsertStarted(s, w))
  {
    hide Attended;
    var s' := DoInsertStarted(s, w);
    if w in s'.workers { RunsOnAttended(s, s', w); } else { LoadedLeavesAttended(s, s', w); }
  }

  lemma WorkerAttended(s: State, a: WorkerAction)
    requires P.Exclusive(s) && AttendedState(s) && AttemptRows(s.db.deliveries, s.db.attempts)
    requires WorkerEnabled(s, a) && !LateCrash(s, Work(a))
    ensures AttendedState(ApplyWorker(s, a))
  {
    hide Attended, P.Exclusive, AttemptRows, DoFinish, DoSettle, DoInsertStarted, DoUpdateOutcome;
    var s' := ApplyWorker(s, a);
    match a
    case Load(w, id) => RunsOnAttended(s, s', w);
    case InsertStarted(w) => InsertAttended(s, w);
    case Post(w, o) => RunsOnAttended(s, s', w);
    case UpdateOutcome(w, stored, clock) => OutcomeAttended(s, w, stored, clock);
    case SettleCircuit(w, stored) => SettleAttended(s, w, stored);
    case Finish(w, clock, draw) => FinishAttended(s, w, clock, draw);
    case CrashWorker(w) => LoadedLeavesAttended(s, s', w);
  }

  lemma QueueAttended(s: State, a: QueueAction)
    requires AttendedState(s) && QueueEnabled(s, a)
    ensures AttendedState(ApplyQueue(s, a))
  {
  }

  lemma FencedFacts(s: State)
    requires FencedInv(s)
    ensures P.Exclusive(s) && AttemptRows(s.db.deliveries, s.db.attempts)
  {
    P.FencedGivesExclusive(s);
  }

  lemma AttendedStep(s: State, a: Action)
    requires FencedInv(s) && AttendedState(s) && Enabled(s, a) && !LateCrash(s, a)
    ensures AttendedState(Apply(s, a))
  {
    FencedFacts(s);
    hide FencedInv, P.Exclusive, AttemptRows, Attended, LateCrash;
    hide ClientEnabled, QueueEnabled, WorkerEnabled, SchedulerEnabled;
    hide ApplyClient, ApplyQueue, ApplyWorker, ApplyScheduler;
    match a
    case Client(c) => ClientAttended(s, c);
    case Queue(q) => QueueAttended(s, q);
    case Work(w) => WorkerAttended(s, w);
    case Schedule(c) => SchedulerAttended(s, c);
    case Advance(to) =>
  }

  ghost predicate NoLateCrash(r: Run)
    requires |r.states| == |r.actions| + 1
  {
    forall i: nat :: i < |r.actions| ==> !LateCrash(r.states[i], r.actions[i])
  }

  lemma RunStep(r: Run, i: nat)
    requires FencedRun(r) && NoLateCrash(r) && i < |r.actions|
    ensures Enabled(r.states[i], r.actions[i]) && r.states[i+1] == Apply(r.states[i], r.actions[i])
    ensures !LateCrash(r.states[i], r.actions[i])
  {
    assert r.StepAt(i);
    hide Enabled, Apply, FenceAllows, LateCrash, Init;
  }

  lemma RunShape(r: Run)
    requires FencedRun(r)
    ensures r.Valid() && |r.states| == |r.actions| + 1
  {
    hide Enabled, Apply, Init;
  }

  lemma StartsAttended(r: Run)
    requires r.Valid()
    ensures AttendedState(r.states[0])
  {
    hide Enabled, Apply;
  }

  /** In fenced runs: unless a worker died after InsertStarted, every started attempt has its worker. */
  lemma {:induction false} AttendedAlways(r: Run, i: nat)
    requires FencedRun(r) && NoLateCrash(r) && i < |r.states|
    ensures AttendedState(r.states[i])
  {
    hide FencedInv, Enabled, Apply, AttendedState, FencedRun, LateCrash, NoLateCrash, Init;
    RunShape(r);
    if i > 0 {
      AttendedAlways(r, i - 1);
      FencedAlways(r, i - 1);
      RunStep(r, i - 1);
      AttendedStep(r.states[i-1], r.actions[i-1]);
    } else {
      StartsAttended(r);
    }
  }
}
