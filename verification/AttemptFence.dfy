/** The attempt fence, in all runs: UNIQUE (delivery_id, sequence) together with
    sequence = attempt_count + 1 lets at most one worker per delivery stand
    between InsertStarted and the final update. */
module AttemptFence {
  import opened Model
  import opened Retry
  import opened Statements
  import opened Pipeline
  import opened RunFacts

  /** Attempt rows of a delivery are 1..attempt_count, or 1..attempt_count+1. */
  ghost predicate AttemptRows(ds: Deliveries, as_: Attempts) {
    && (forall id, n | (id, n) in as_ :: id in ds && 1 <= n <= ds[id].attemptCount + 1)
    && (forall id, n {:trigger (id, n) in as_} :: id in ds && 1 <= n <= ds[id].attemptCount ==> (id, n) in as_)
  }

  predicate Running(k: Worker) {
    !k.stage.Loaded?
  }

  ghost predicate WorkerFence(s: State) {
    && (forall w | w in s.workers ::
          var k := s.workers[w];
          && k.delivery in s.db.deliveries
          && s.db.deliveries[k.delivery].endpoint == k.endpoint
          && 1 <= k.seqNo <= s.db.deliveries[k.delivery].attemptCount + 1
          && (Running(k) ==>
                && k.seqNo == s.db.deliveries[k.delivery].attemptCount + 1
                && (k.delivery, k.seqNo) in s.db.attempts))
    && (forall w, v | w in s.workers && v in s.workers && Running(s.workers[w]) && Running(s.workers[v]) ::
          s.workers[w].delivery == s.workers[v].delivery ==> w == v)
  }

  ghost predicate PostLog(s: State) {
    && (forall i | 0 <= i < |s.posts| :: s.posts[i] in s.db.attempts)
    && (forall i, j | 0 <= i < j < |s.posts| :: s.posts[i] != s.posts[j])
    && (forall w | w in s.workers && s.workers[w].stage.Started? ::
          (s.workers[w].delivery, s.workers[w].seqNo) !in s.posts)
  }

  /** A delivery that can still be attempted has budget left. */
  predicate Budget(ds: Deliveries) {
    forall id | id in ds :: !ds[id].status.Terminal() ==> ds[id].attemptCount < MAX_ATTEMPTS
  }

  predicate LeaseIffInFlight(ds: Deliveries) {
    forall id | id in ds :: ds[id].status.InFlight? <==> ds[id].leaseUntil.Some?
  }

  ghost predicate FenceInv(s: State) {
    && AttemptRows(s.db.deliveries, s.db.attempts) && WorkerFence(s) && PostLog(s)
    && Budget(s.db.deliveries) && LeaseIffInFlight(s.db.deliveries)
  }

  /** The delivery rows differ only in columns the fence does not speak about. */
  predicate SameCounts(ds: Deliveries, ds': Deliveries) {
    && (forall id | id in ds :: id in ds' && ds'[id].attemptCount == ds[id].attemptCount
                                && ds'[id].endpoint == ds[id].endpoint)
    && (forall id | id in ds' && id !in ds :: ds'[id].attemptCount == 0)
  }

  lemma RowChangesKeepFence(s: State, s': State)
    requires FenceInv(s)
    requires SameCounts(s.db.deliveries, s'.db.deliveries)
    requires Budget(s'.db.deliveries) && LeaseIffInFlight(s'.db.deliveries)
    requires s'.db.attempts == s.db.attempts && s'.posts == s.posts && s'.workers == s.workers
    ensures FenceInv(s')
  {
  }

  lemma LoadKeepsFence(s: State, w: Id, id: Id)
    requires FenceInv(s) && WorkerEnabled(s, Load(w, id))
    ensures FenceInv(DoLoad(s, w, id))
  {
  }

  lemma InsertKeepsFence(s: State, w: Id)
    requires FenceInv(s) && WorkerEnabled(s, InsertStarted(w))
    ensures FenceInv(DoInsertStarted(s, w))
  {
    var k := s.workers[w];
    if (k.delivery, k.seqNo) !in s.db.attempts {
      assert k.seqNo == s.db.deliveries[k.delivery].attemptCount + 1;
    }
  }

  lemma PostKeepsFence(s: State, w: Id, o: Outcome)
    requires FenceInv(s) && WorkerEnabled(s, Post(w, o))
    ensures FenceInv(DoPost(s, w, o))
  {
  }

  lemma OutcomeKeepsFence(s: State, w: Id, stored: bool, clock: Time)
    requires FenceInv(s) && WorkerEnabled(s, UpdateOutcome(w, stored, clock))
    ensures FenceInv(DoUpdateOutcome(s, w, stored, clock))
  {
    assert DoUpdateOutcome(s, w, stored, clock).db.attempts.Keys == s.db.attempts.Keys;
  }

  lemma SettleKeepsFence(s: State, w: Id, stored: bool)
    requires FenceInv(s) && w in s.workers && s.workers[w].stage.Recorded?
    ensures FenceInv(DoSettle(s, w, stored))
  {
  }

  lemma FinalRowCounts(d: Delivery, k: Worker, o: Outcome, nextAt: Time, now: Time)
    requires k.seqNo == d.attemptCount + 1
    ensures var d' := FinalRow(d, o, k.seqNo, nextAt, now);
            && d'.attemptCount == k.seqNo && d'.endpoint == d.endpoint
            && (d'.status.Terminal() || d'.attemptCount < MAX_ATTEMPTS)
            && !d'.status.InFlight? && d'.leaseUntil.None?
  {
  }

  /** What the final update does to the counter of the worker's delivery. */
  lemma FinalCount(s: State, w: Id, clock: Time, draw: int64)
    requires FenceInv(s) && WorkerEnabled(s, Finish(w, clock, draw))
    ensures var k, ds, ds' := s.workers[w], s.db.deliveries, DoFinish(s, w, clock, draw).db.deliveries;
            && ds'.Keys == ds.Keys
            && (forall id | id in ds && id != k.delivery :: ds'[id] == ds[id])
            && ds'[k.delivery].endpoint == ds[k.delivery].endpoint
            && (ds'[k.delivery] == ds[k.delivery] || ds'[k.delivery].attemptCount == k.seqNo)
            && Budget(ds') && LeaseIffInFlight(ds')
    ensures DoFinish(s, w, clock, draw).workers == s.workers - {w}
  {
    hide FinalRow, DuplicatesReplay, AttemptRows, PostLog, Delay;
    var k := s.workers[w];
    assert k.seqNo == s.db.deliveries[k.delivery].attemptCount + 1;
    FinalRowCounts(s.db.deliveries[k.delivery], k, k.stage.outcome,
                   clock + Delay(PRODUCTION_SCHEDULE, k.seqNo + 1, draw) as int, s.now);
  }

  lemma FinishKeepsWorkers(s: State, w: Id, s': State)
    requires FenceInv(s) && w in s.workers && Running(s.workers[w])
    requires s'.workers == s.workers - {w} && s'.db.attempts == s.db.attempts && s'.posts == s.posts
    requires s'.db.deliveries.Keys == s.db.deliveries.Keys
    requires forall id | id in s.db.deliveries && id != s.workers[w].delivery ::
               s'.db.deliveries[id] == s.db.deliveries[id]
    requires var id := s.workers[w].delivery;
             && s'.db.deliveries[id].endpoint == s.db.deliveries[id].endpoint
             && (s'.db.deliveries[id] == s.db.deliveries[id]
                 || s'.db.deliveries[id].attemptCount == s.workers[w].seqNo)
    ensures AttemptRows(s'.db.deliveries, s'.db.attempts) && WorkerFence(s') && PostLog(s')
  {
    var id := s.workers[w].delivery;
    assert s.workers[w].seqNo == s.db.deliveries[id].attemptCount + 1;
    forall v | v in s'.workers && s'.workers[v].delivery == id
      ensures !Running(s'.workers[v])
    {
      assert v in s.workers && v != w;
    }
  }

  lemma FinishKeepsFence(s: State, w: Id, clock: Time, draw: int64)
    requires FenceInv(s) && WorkerEnabled(s, Finish(w, clock, draw))
    ensures FenceInv(DoFinish(s, w, clock, draw))
  {
    FinalCount(s, w, clock, draw);
    FinishKeepsWorkers(s, w, DoFinish(s, w, clock, draw));
  }

  lemma DropWorkerKeepsFence(s: State, w: Id)
    requires FenceInv(s)
    ensures FenceInv(s.(workers := s.workers - {w}))
  {
  }

  /** A table change that keeps every counter and the two row predicates. */
  ghost predicate QuietChange(ds: Deliveries, ds': Deliveries) {
    SameCounts(ds, ds') && Budget(ds') && LeaseIffInFlight(ds')
  }

  lemma InsertIsQuiet(ds: Deliveries, id: Id, event: Id, ep: Id, tenant: Id, now: Time, source: Option<Id>)
    requires id !in ds && Budget(ds) && LeaseIffInFlight(ds)
    ensures QuietChange(ds, ds[id := NewDelivery(event, ep, tenant, now, source)])
  {
  }

  lemma ClaimIsQuiet(ds: Deliveries, chosen: set<Id>, leaseUntil: Time, now: Time)
    requires Budget(ds) && LeaseIffInFlight(ds)
    requires forall id | id in chosen :: id in ds && ds[id].status.Scheduled?
    ensures QuietChange(ds, Claim(ds, chosen, leaseUntil, now))
  {
  }

  lemma ResurrectIsQuiet(ds: Deliveries, now: Time)
    requires Budget(ds) && LeaseIffInFlight(ds)
    ensures QuietChange(ds, Resurrect(ds, now))
  {
  }

  lemma PullForwardIsQuiet(ds: Deliveries, id: Id, now: Time)
    requires Budget(ds) && LeaseIffInFlight(ds)
    ensures QuietChange(ds, PullForward(ds, id, now))
  {
  }

  lemma FrameKeepsFence(s: State, s': State)
    requires FenceInv(s)
    requires s'.db.deliveries == s.db.deliveries && s'.db.attempts == s.db.attempts
    requires s'.posts == s.posts && s'.workers == s.workers
    ensures FenceInv(s')
  {
  }

  lemma FenceRows(s: State)
    requires FenceInv(s)
    ensures Budget(s.db.deliveries) && LeaseIffInFlight(s.db.deliveries)
  {
  }

  lemma SubmitKeepsFence(s: State, tx: Id, ev: Id, id: Id)
    requires FenceInv(s) && ClientEnabled(s, CommitSubmit(tx, ev, id))
    ensures FenceInv(DoCommitSubmit(s, tx, ev, id))
  {
    FenceRows(s);
    hide FenceInv, SameCounts, Budget, LeaseIffInFlight;
    var sub := s.submissions[tx];
    if sub.endpoint in s.db.endpoints {
      InsertIsQuiet(s.db.deliveries, id, ev, sub.endpoint, s.db.endpoints[sub.endpoint].tenant, sub.start, None);
      RowChangesKeepFence(s, DoCommitSubmit(s, tx, ev, id));
    }
  }

  lemma ReplayKeepsFence(s: State, src: Id, id: Id)
    requires FenceInv(s) && ClientEnabled(s, CreateReplay(src, id))
    ensures FenceInv(DoCreateReplay(s, src, id))
  {
    FenceRows(s);
    hide FenceInv, SameCounts, Budget, LeaseIffInFlight, DuplicatesReplay;
    var ds := s.db.deliveries;
    InsertIsQuiet(ds, id, ds[src].event, ds[src].endpoint, s.db.endpoints[ds[src].endpoint].tenant, s.now, Some(src));
    if !DuplicatesReplay(ds, id, ReplayRow(ds, s.db.endpoints, src, s.now)) {
      RowChangesKeepFence(s, DoCreateReplay(s, src, id));
    }
  }

  lemma ClientKeepsFence(s: State, a: ClientAction)
    requires FenceInv(s) && ClientEnabled(s, a)
    ensures FenceInv(ApplyClient(s, a))
  {
    hide FenceInv, DoCommitSubmit, DoCreateReplay;
    match a
    case CommitSubmit(tx, ev, id) => SubmitKeepsFence(s, tx, ev, id);
    case CreateReplay(src, id) => ReplayKeepsFence(s, src, id);
    case _ => FrameKeepsFence(s, ApplyClient(s, a));
  }

  lemma SchedulerKeepsFence(s: State, a: SchedulerAction)
    requires FenceInv(s) && SchedulerEnabled(s, a)
    ensures FenceInv(ApplyScheduler(s, a))
  {
    var ds := s.db.deliveries;
    match a
    case ClaimReady(chosen, lease) =>
      ClaimIsQuiet(ds, chosen, lease, s.now);
      RowChangesKeepFence(s, ApplyScheduler(s, a));
    case Reap =>
      ResurrectIsQuiet(ds, s.now);
      RowChangesKeepFence(s, ApplyScheduler(s, a));
    case ResetProbe(p) =>
      PullForwardIsQuiet(ds, s.probers[p].probe, s.now);
      RowChangesKeepFence(s, ApplyScheduler(s, a));
    case _ => FrameKeepsFence(s, ApplyScheduler(s, a));
  }

  lemma WorkerKeepsFence(s: State, a: WorkerAction)
    requires FenceInv(s) && WorkerEnabled(s, a)
    ensures FenceInv(ApplyWorker(s, a))
  {
    match a
    case Load(w, id) => LoadKeepsFence(s, w, id);
    case InsertStarted(w) => InsertKeepsFence(s, w);
    case Post(w, o) => PostKeepsFence(s, w, o);
    case UpdateOutcome(w, stored, clock) => OutcomeKeepsFence(s, w, stored, clock);
    case SettleCircuit(w, stored) => SettleKeepsFence(s, w, stored);
    case Finish(w, clock, draw) => FinishKeepsFence(s, w, clock, draw);
    case CrashWorker(w) => DropWorkerKeepsFence(s, w);
  }

  lemma QueueKeepsFence(s: State, a: QueueAction)
    requires FenceInv(s) && QueueEnabled(s, a)
    ensures FenceInv(ApplyQueue(s, a))
  {
    QueueFrame(s, a);
    hide QueueEnabled, ApplyQueue;
    FrameKeepsFence(s, ApplyQueue(s, a));
  }

  lemma FenceStep(s: State, a: Action)
    requires FenceInv(s) && Enabled(s, a)
    ensures FenceInv(Apply(s, a))
  {
    hide FenceInv, ClientEnabled, QueueEnabled, WorkerEnabled, SchedulerEnabled;
    hide ApplyClient, ApplyQueue, ApplyWorker, ApplyScheduler;
    match a
    case Client(c) => ClientKeepsFence(s, c);
    case Queue(q) => QueueKeepsFence(s, q);
    case Work(w) => WorkerKeepsFence(s, w);
    case Schedule(c) => SchedulerKeepsFence(s, c);
    case Advance(to) => FrameKeepsFence(s, s.(now := to));
  }

  lemma StartsFenced(s: State)
    requires Init(s)
    ensures FenceInv(s)
  {
  }

  lemma {:induction false} FenceAlways(r: Run, i: nat)
    requires r.Valid() && i < |r.states|
    ensures FenceInv(r.states[i])
  {
    hide FenceInv, Enabled, Apply, Init;
    if i > 0 {
      FenceAlways(r, i - 1);
      assert r.StepAt(i - 1);
      FenceStep(r.states[i-1], r.actions[i-1]);
    } else {
      StartsFenced(r.states[0]);
    }
  }

  /** In every reachable state: the attempt sequences of a delivery are 1..n or
      1..n+1 for its attempt_count n, two workers past InsertStarted never
      share a delivery, and no (delivery, sequence) has been POSTed twice. */
  lemma SingleWorkerFence(r: Run, i: nat, id: Id)
    requires r.Valid() && i < |r.states| && id in r.states[i].db.deliveries
    ensures var s, n := r.states[i], r.states[i].db.deliveries[id].attemptCount;
            || (forall q: nat :: (id, q) in s.db.attempts <==> 1 <= q <= n)
            || (forall q: nat :: (id, q) in s.db.attempts <==> 1 <= q <= n + 1)
    ensures forall w, v :: w in r.states[i].workers && v in r.states[i].workers && w != v
              && r.states[i].workers[w].delivery == id && r.states[i].workers[v].delivery == id
              ==> r.states[i].workers[w].stage.Loaded? || r.states[i].workers[v].stage.Loaded?
    ensures forall x, y :: 0 <= x < y < |r.states[i].posts| ==> r.states[i].posts[x] != r.states[i].posts[y]
  {
    FenceAlways(r, i);
    var n := r.states[i].db.deliveries[id].attemptCount;
    if (id, n + 1) in r.states[i].db.attempts {
      assert forall q: nat :: (id, q) in r.states[i].db.attempts <==> 1 <= q <= n + 1;
    } else {
      assert forall q: nat :: (id, q) in r.states[i].db.attempts <==> 1 <= q <= n;
    }
  }

  /** Every reschedule comes after an attempt 1..8, asks for the wait before
      attempts 2..9 and sets a due time strictly after the worker's clock. */
  lemma RescheduleStaysInBudget(s: State, w: Id, clock: Time, draw: int64)
    requires FenceInv(s) && WorkerEnabled(s, Finish(w, clock, draw))
    ensures var k := s.workers[w];
            var d' := DoFinish(s, w, clock, draw).db.deliveries[k.delivery];
            d' != s.db.deliveries[k.delivery] && d'.status.Scheduled? ==>
              && 2 <= k.seqNo + 1 <= MAX_ATTEMPTS
              && d'.attemptCount == k.seqNo < MAX_ATTEMPTS
              && d'.nextAttemptAt == clock + Delay(PRODUCTION_SCHEDULE, k.seqNo + 1, draw) as int > clock
  {
    DelayPositiveExactlyInBudget(s.workers[w].seqNo + 1, draw);
  }
}
