/** A rescheduled delivery waits out its delay, in all runs, unless
    SetProbeDelivery makes it due. */
module Delays {
  import opened Model
  import opened Retry
  import opened Statements
  import opened Pipeline
  import opened RunFacts
  import opened Fifo
  import opened AttemptFence

  /** The third statement of SetProbeDelivery, for delivery id. */
  predicate Resets(s: State, a: Action, id: Id) {
    && a.Schedule? && a.schedule.ResetProbe? && a.schedule.prober in s.probers
    && s.probers[a.schedule.prober].Assigned? && s.probers[a.schedule.prober].probe == id
  }

  lemma WorkerKeepsDue(s: State, a: WorkerAction, id: Id)
    requires WorkerEnabled(s, a) && id in s.db.deliveries
    ensures var s' := ApplyWorker(s, a);
            && id in s'.db.deliveries
            && (s'.db.deliveries[id].attemptCount == s.db.deliveries[id].attemptCount ==>
                  s'.db.deliveries[id].nextAttemptAt == s.db.deliveries[id].nextAttemptAt)
  {
    hide RecordOutcome, InsertAttempt, SettleEndpoint, DuplicatesReplay;
    match a
    case SettleCircuit(w, stored) => SettleFrame(s, w, stored);
    case _ =>
  }

  lemma SchedulerKeepsDue(s: State, a: SchedulerAction, id: Id)
    requires SchedulerEnabled(s, a) && id in s.db.deliveries && !Resets(s, Schedule(a), id)
    ensures id in ApplyScheduler(s, a).db.deliveries
    ensures ApplyScheduler(s, a).db.deliveries[id].nextAttemptAt == s.db.deliveries[id].nextAttemptAt
  {
  }

  /** Only a completed attempt or a probe reset changes when a delivery is due. */
  lemma StepKeepsDue(s: State, a: Action, id: Id)
    requires Enabled(s, a) && id in s.db.deliveries && !Resets(s, a, id)
    requires id in Apply(s, a).db.deliveries
    requires Apply(s, a).db.deliveries[id].attemptCount == s.db.deliveries[id].attemptCount
    ensures Apply(s, a).db.deliveries[id].nextAttemptAt == s.db.deliveries[id].nextAttemptAt
  {
    hide WorkerEnabled, ApplyWorker, ClientEnabled, ApplyClient, SchedulerEnabled, ApplyScheduler, Resets;
    match a
    case Work(w) => WorkerKeepsDue(s, w, id);
    case Client(c) => ClientKeepsRow(s, c, id);
    case Schedule(c) => SchedulerKeepsDue(s, c, id);
    case Queue(q) =>
    case Advance(to) =>
  }

  ghost predicate NoReset(r: Run, i: nat, j: nat, id: Id)
    requires |r.states| == |r.actions| + 1 && j <= |r.actions|
  {
    forall m :: i <= m < j ==> !Resets(r.states[m], r.actions[m], id)
  }

  lemma {:induction false} DueStays(r: Run, i: nat, j: nat, id: Id)
    requires r.Valid() && i <= j < |r.states| && NoReset(r, i, j, id)
    requires id in r.states[i].db.deliveries && id in r.states[j].db.deliveries
    requires r.states[j].db.deliveries[id].attemptCount == r.states[i].db.deliveries[id].attemptCount
    ensures r.states[j].db.deliveries[id].nextAttemptAt == r.states[i].db.deliveries[id].nextAttemptAt
    decreases j
  {
    if i < j {
      RunLater(r, i, j - 1);
      RunLater(r, j - 1, j);
      assert r.StepAt(j - 1);
      assert !Resets(r.states[j-1], r.actions[j-1], id);
      hide Enabled, Apply, Resets;
      DueStays(r, i, j - 1, id);
      StepKeepsDue(r.states[j-1], r.actions[j-1], id);
    }
  }

  /** Step a is the final update of worker w, whose clock is the database's. */
  predicate FinishesWith(s: State, a: Action, w: Id, draw: int64) {
    a == Work(Finish(w, s.now, draw))
  }

  /** A final update that leaves its delivery scheduled after one more attempt sets its due time. */
  lemma FinishSetsDue(s: State, a: Action, w: Id, draw: int64)
    requires Enabled(s, a) && FinishesWith(s, a, w, draw) && s.workers[w].delivery in s.db.deliveries
    ensures var k := s.workers[w];
            var ds' := Apply(s, a).db.deliveries;
            && k.delivery in ds'
            && (ds'[k.delivery].status.Scheduled? && ds'[k.delivery].attemptCount == s.db.deliveries[k.delivery].attemptCount + 1
                ==> k.seqNo < MAX_ATTEMPTS && FinishDraw(s, w, draw)
                    && ds'[k.delivery].nextAttemptAt == s.now + Delay(PRODUCTION_SCHEDULE, k.seqNo + 1, draw) as int)
  {
    hide DuplicatesReplay;
  }

  lemma WorkerHasRow(s: State, w: Id)
    requires FenceInv(s) && w in s.workers
    ensures s.workers[w].seqNo >= 1 && s.workers[w].delivery in s.db.deliveries
  {
  }

  /** Step i is the final update of worker w, and it reschedules delivery id. */
  predicate Reschedules(r: Run, i: nat, w: Id, draw: int64, id: Id)
    requires |r.states| == |r.actions| + 1
  {
    && i < |r.actions| && FinishesWith(r.states[i], r.actions[i], w, draw)
    && w in r.states[i].workers && r.states[i].workers[w].delivery == id
    && id in r.states[i].db.deliveries && id in r.states[i+1].db.deliveries
    && r.states[i+1].db.deliveries[id].status.Scheduled?
    && r.states[i+1].db.deliveries[id].attemptCount == r.states[i].db.deliveries[id].attemptCount + 1
  }

  /** A delivery rescheduled after attempt n is not claimed again before the
      drawn wait, at least 85 percent of the n-th step of the schedule, has
      passed on the clock, unless SetProbeDelivery made it due. */
  lemma WaitsOutItsDelay(r: Run, i: nat, w: Id, draw: int64, j: nat, id: Id)
    requires r.Valid() && i < j < |r.actions| && Reschedules(r, i, w, draw, id)
    requires id in r.states[j].db.deliveries
    requires r.states[j].db.deliveries[id].attemptCount == r.states[i+1].db.deliveries[id].attemptCount
    requires Claims(r.actions[j], id) && NoReset(r, i + 1, j, id)
    ensures var n := r.states[i].workers[w].seqNo;
            && 1 <= n < MAX_ATTEMPTS && FinishDraw(r.states[i], w, draw)
            && r.states[j].now >= r.states[i].now + Delay(PRODUCTION_SCHEDULE, n + 1, draw) as int
            && 100 * (r.states[j].now - r.states[i].now) >= 85 * PRODUCTION_SCHEDULE[n-1] as int
  {
    WorkerAtStep(r, i, w);
    RescheduledAt(r, i, w, draw, id);
    DueStays(r, i + 1, j, id);
    assert r.StepAt(j);
    hide Apply, NoReset, Reschedules, FinishesWith, FinishDraw, DrawnFor;
    ClaimedAreDue(r.states[j], r.actions[j], id);
    WaitLength(r.states[i].workers[w].seqNo, draw);
  }

  lemma WorkerAtStep(r: Run, i: nat, w: Id)
    requires r.Valid() && i < |r.actions| && w in r.states[i].workers
    ensures r.states[i].workers[w].seqNo >= 1 && r.states[i].workers[w].delivery in r.states[i].db.deliveries
  {
    hide FenceInv, Enabled, Apply, Init;
    FenceAlways(r, i);
    WorkerHasRow(r.states[i], w);
  }

  /** The due time that step i of a run sets when it reschedules. */
  lemma RescheduledAt(r: Run, i: nat, w: Id, draw: int64, id: Id)
    requires r.Valid() && Reschedules(r, i, w, draw, id)
    ensures var n := r.states[i].workers[w].seqNo;
            && n < MAX_ATTEMPTS && FinishDraw(r.states[i], w, draw)
            && r.states[i+1].db.deliveries[id].nextAttemptAt == r.states[i].now + Delay(PRODUCTION_SCHEDULE, n + 1, draw) as int
  {
    assert r.StepAt(i);
    hide Enabled, Apply, FinishesWith, Init, Delay;
    FinishSetsDue(r.states[i], r.actions[i], w, draw);
  }

  lemma WaitLength(n: nat, draw: int64)
    requires 1 <= n < MAX_ATTEMPTS && DrawnFor(PRODUCTION_SCHEDULE, n + 1, draw)
    ensures 100 * Delay(PRODUCTION_SCHEDULE, n + 1, draw) as int >= 85 * PRODUCTION_SCHEDULE[n-1] as int
  {
    JitterWithin15Percent(PRODUCTION_SCHEDULE[n-1], draw);
  }

  lemma ClaimedAreDue(s: State, a: Action, id: Id)
    requires Enabled(s, a) && Claims(a, id)
    ensures id in s.db.deliveries && s.db.deliveries[id].nextAttemptAt <= s.now
  {
  }
}
