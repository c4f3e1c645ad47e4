/** What becomes of a claim whose worker or message is lost, in all runs. */
module Recovery {
  import opened Model
  import opened Retry
  import opened Statements
  import opened Pipeline
  import opened RunFacts
  import opened AttemptFence
  import opened Fifo

  predicate Finishes(s: State, a: Action, id: Id) {
    a.Work? && a.work.Finish? && a.work.worker in s.workers && s.workers[a.work.worker].delivery == id
  }

  /** d' is still the unfinished, already due delivery that was claimed as d. */
  predicate Held(d: Delivery, d': Delivery, now: Time) {
    && SameIdentity(d, d') && d'.attemptCount == d.attemptCount && d'.nextAttemptAt == d.nextAttemptAt <= now
    && !d'.status.Terminal()
  }

  lemma FinishOthersKeeps(s: State, w: Id, clock: Time, draw: int64, id: Id)
    requires WorkerEnabled(s, Finish(w, clock, draw)) && id in s.db.deliveries && s.workers[w].delivery != id
    ensures id in DoFinish(s, w, clock, draw).db.deliveries
    ensures DoFinish(s, w, clock, draw).db.deliveries[id] == s.db.deliveries[id]
  {
    hide FinalRow, DuplicatesReplay;
  }

  lemma WorkerHolds(s: State, a: WorkerAction, id: Id)
    requires WorkerEnabled(s, a) && id in s.db.deliveries && !Finishes(s, Work(a), id)
    ensures id in ApplyWorker(s, a).db.deliveries && ApplyWorker(s, a).db.deliveries[id] == s.db.deliveries[id]
    ensures ApplyWorker(s, a).now == s.now
  {
    hide DoFinish, DoSettle, InsertAttempt, RecordOutcome;
    match a
    case SettleCircuit(w, stored) => SettleFrame(s, w, stored);
    case Finish(w, clock, draw) =>
      FinishFrame(s, w, clock, draw);
      FinishOthersKeeps(s, w, clock, draw, id);
    case _ =>
  }

  lemma SchedulerHolds(s: State, a: SchedulerAction, id: Id, d: Delivery)
    requires SchedulerEnabled(s, a) && id in s.db.deliveries && Held(d, s.db.deliveries[id], s.now)
    ensures id in ApplyScheduler(s, a).db.deliveries
    ensures Held(d, ApplyScheduler(s, a).db.deliveries[id], s.now) && ApplyScheduler(s, a).now == s.now
  {
  }

  lemma HeldStep(s: State, a: Action, id: Id, d: Delivery)
    requires Enabled(s, a) && id in s.db.deliveries && !Finishes(s, a, id) && Held(d, s.db.deliveries[id], s.now)
    ensures id in Apply(s, a).db.deliveries && Held(d, Apply(s, a).db.deliveries[id], Apply(s, a).now)
  {
    hide WorkerEnabled, ApplyWorker, ClientEnabled, ApplyClient, SchedulerEnabled, ApplyScheduler, Finishes;
    match a
    case Client(c) => ClientKeepsRow(s, c, id);
    case Work(w) => WorkerHolds(s, w, id);
    case Schedule(c) => SchedulerHolds(s, c, id, d);
    case _ =>
  }

  lemma ClaimHolds(s: State, a: Action, id: Id)
    requires Enabled(s, a) && Claims(a, id)
    ensures id in s.db.deliveries && id in Apply(s, a).db.deliveries
    ensures Held(s.db.deliveries[id], Apply(s, a).db.deliveries[id], Apply(s, a).now)
  {
    assert Eligible(s.db, s.now, id);
  }

  /** Step i claims id and no worker finishes it before state j. */
  predicate Unfinished(r: Run, i: nat, j: nat, id: Id)
    requires i < j < |r.states| && |r.states| == |r.actions| + 1
  {
    Claims(r.actions[i], id) && forall m :: i < m < j ==> !Finishes(r.states[m], r.actions[m], id)
  }

  predicate HeldAt(d: Delivery, s: State, id: Id) {
    id in s.db.deliveries && Held(d, s.db.deliveries[id], s.now)
  }

  lemma {:induction false} HeldUntil(r: Run, i: nat, j: nat, id: Id)
    requires r.Valid() && i < j < |r.states| && Unfinished(r, i, j, id)
    ensures id in r.states[i].db.deliveries && HeldAt(r.states[i].db.deliveries[id], r.states[j], id)
    decreases j
  {
    var s, a := r.states[j-1], r.actions[j-1];
    assert r.StepAt(j - 1);
    hide Enabled, Apply, Claims, Finishes, Held;
    if i == j - 1 {
      ClaimHolds(s, a, id);
    } else {
      assert !Finishes(s, a, id);
      HeldUntil(r, i, j - 1, id);
      HeldStep(s, a, id, r.states[i].db.deliveries[id]);
    }
  }

  /** No claim is lost: if nobody finishes the delivery that step i claimed, the
      first reaper pass after the lease expired returns it to scheduled with its
      counter, due time, creation time and source intact, due at once; only
      ordering and the circuit can then keep it from being claimed again. */
  lemma LostClaimReturns(r: Run, i: nat, j: nat, id: Id)
    requires r.Valid() && i < j < |r.actions| && Unfinished(r, i, j, id)
    requires r.actions[j] == Schedule(Reap)
    requires id in r.states[j].db.deliveries && LeaseExpired(r.states[j].db.deliveries[id], r.states[j].now)
    ensures id in r.states[i].db.deliveries && id in r.states[j+1].db.deliveries
    ensures var d, d' := r.states[i].db.deliveries[id], r.states[j+1].db.deliveries[id];
            d' == d.(updatedAt := d'.updatedAt, leaseUntil := None) && d'.nextAttemptAt <= r.states[j+1].now
    ensures Eligible(r.states[j+1].db, r.states[j+1].now, id) <==>
            var t := r.states[j+1].db;
            && (forall b | b in t.deliveries :: !Blocks(t.deliveries, b, id))
            && t.deliveries[id].endpoint in t.endpoints
            && CircuitAdmits(t.endpoints[t.deliveries[id].endpoint].circuit, id)
  {
    HeldUntil(r, i, j, id);
    assert r.StepAt(i);
    assert Eligible(r.states[i].db, r.states[i].now, id);
    assert r.StepAt(j);
    HeldStep(r.states[j], r.actions[j], id, r.states[i].db.deliveries[id]);
  }

  // ----- a worker that dies after InsertStarted -------------------------------------

  /** The attempt row of the next sequence exists and no worker is behind it. */
  ghost predicate Blocked(s: State, id: Id) {
    && id in s.db.deliveries && (id, s.db.deliveries[id].attemptCount + 1) in s.db.attempts
    && forall w | w in s.workers && s.workers[w].delivery == id :: s.workers[w].stage.Loaded?
  }

  /** Attempt rows are never removed, and only an InsertStarted of a free
      sequence lets a worker past Loaded. */
  lemma WorkerStages(s: State, a: WorkerAction, v: Id)
    requires WorkerEnabled(s, a)
    ensures forall key | key in s.db.attempts :: key in ApplyWorker(s, a).db.attempts
    ensures var s' := ApplyWorker(s, a);
            v in s'.workers && !s'.workers[v].stage.Loaded? ==>
              && v in s.workers && s'.workers[v].delivery == s.workers[v].delivery
              && (s.workers[v].stage.Loaded? ==> (s.workers[v].delivery, s.workers[v].seqNo) !in s.db.attempts)
  {
    hide DoFinish, DoSettle;
    match a
    case SettleCircuit(w, stored) => SettleFrame(s, w, stored);
    case Finish(w, clock, draw) => FinishFrame(s, w, clock, draw);
    case _ =>
  }

  lemma WorkerStaysBlocked(s: State, a: WorkerAction, id: Id)
    requires FenceInv(s) && WorkerEnabled(s, a) && Blocked(s, id)
    ensures Blocked(ApplyWorker(s, a), id)
    ensures ApplyWorker(s, a).db.deliveries[id] == s.db.deliveries[id]
  {
    assert !Finishes(s, Work(a), id);
    WorkerHolds(s, a, id);
    assert AttemptRows(s.db.deliveries, s.db.attempts) && WorkerFence(s);
    hide FenceInv, WorkerEnabled, ApplyWorker, PostLog, Budget, LeaseIffInFlight;
    var s' := ApplyWorker(s, a);
    WorkerStages(s, a, 0);
    forall v | v in s'.workers && s'.workers[v].delivery == id
      ensures s'.workers[v].stage.Loaded?
    {
      WorkerStages(s, a, v);
    }
  }

  lemma SchedulerStaysBlocked(s: State, a: SchedulerAction, id: Id)
    requires SchedulerEnabled(s, a) && Blocked(s, id)
    ensures Blocked(ApplyScheduler(s, a), id)
    ensures ApplyScheduler(s, a).db.deliveries[id].attemptCount == s.db.deliveries[id].attemptCount
    ensures ApplyScheduler(s, a).db.deliveries[id].status.Terminal() <==> s.db.deliveries[id].status.Terminal()
  {
    var s' := ApplyScheduler(s, a);
    assert s'.workers == s.workers && s'.db.attempts == s.db.attempts;
  }

  lemma BlockedStep(s: State, a: Action, id: Id)
    requires FenceInv(s) && Enabled(s, a) && Blocked(s, id)
    ensures Blocked(Apply(s, a), id)
    ensures Apply(s, a).db.deliveries[id].attemptCount == s.db.deliveries[id].attemptCount
    ensures Apply(s, a).db.deliveries[id].status.Terminal() <==> s.db.deliveries[id].status.Terminal()
  {
    hide FenceInv, WorkerEnabled, ApplyWorker, ClientEnabled, ApplyClient, SchedulerEnabled, ApplyScheduler;
    match a
    case Client(c) => ClientKeepsRow(s, c, id);
    case Work(w) => WorkerStaysBlocked(s, w, id);
    case Schedule(c) => SchedulerStaysBlocked(s, c, id);
    case _ =>
  }

  /** A worker past InsertStarted is alone there, and its next sequence is taken. */
  lemma RunningAlone(s: State, w: Id)
    requires FenceInv(s) && w in s.workers && !s.workers[w].stage.Loaded?
    ensures s.workers[w].delivery in s.db.deliveries
    ensures (s.workers[w].delivery, s.db.deliveries[s.workers[w].delivery].attemptCount + 1) in s.db.attempts
    ensures forall v | v in s.workers && v != w && s.workers[v].delivery == s.workers[w].delivery :: s.workers[v].stage.Loaded?
  {
    assert Running(s.workers[w]);
    forall v | v in s.workers && v != w && s.workers[v].delivery == s.workers[w].delivery
      ensures !Running(s.workers[v])
    {
    }
  }

  /** In all runs, whoever else holds the delivery: a crash blocks it exactly
      when it comes after InsertStarted (or the delivery was blocked before). */
  lemma CrashBlocksIffStarted(r: Run, i: nat, w: Id)
    requires r.Valid() && i < |r.actions| && r.actions[i] == Work(CrashWorker(w)) && w in r.states[i].workers
    ensures var id := r.states[i].workers[w].delivery;
            Blocked(r.states[i+1], id) <==> !r.states[i].workers[w].stage.Loaded? || Blocked(r.states[i], id)
  {
    FenceAlways(r, i);
    assert r.StepAt(i);
    var s, s', id := r.states[i], r.states[i+1], r.states[i].workers[w].delivery;
    assert s' == s.(workers := s.workers - {w});
    hide FenceInv, Enabled, Apply;
    if s.workers[w].stage.Loaded? {
      forall v | v in s.workers && s.workers[v].delivery == id && Blocked(s', id) ensures s.workers[v].stage.Loaded? {
        assert v != w ==> v in s'.workers;
      }
    } else {
      RunningAlone(s, w);
    }
  }

  /** A blocked delivery stays blocked: it is never attempted again, and if it
      was unfinished it never finishes. */
  lemma {:induction false} BlockedForever(r: Run, i: nat, j: nat, id: Id)
    requires r.Valid() && i <= j < |r.states| && Blocked(r.states[i], id)
    ensures Blocked(r.states[j], id)
    ensures r.states[j].db.deliveries[id].attemptCount == r.states[i].db.deliveries[id].attemptCount
    ensures r.states[j].db.deliveries[id].status.Terminal() <==> r.states[i].db.deliveries[id].status.Terminal()
    decreases j
  {
    if i < j {
      BlockedForever(r, i, j - 1, id);
      hide Init, Enabled, Apply, FenceInv;
      FenceAlways(r, j - 1);
      assert r.StepAt(j-1);
      BlockedStep(r.states[j-1], r.actions[j-1], id);
    }
  }
}
