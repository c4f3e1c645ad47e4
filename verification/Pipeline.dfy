/** The delivery pipeline as one transition system: every SQL statement, HTTP
    call and message step of every actor is one atomic action. */
module Pipeline {
  import opened Model
  import opened Retry
  import opened Statements

  /** Where a worker stands in process(): after LoadForWorker, InsertStarted,
      the POST, UpdateOutcome, and the circuit update. */
  datatype Stage = Loaded | Started | Posted(outcome: Outcome) | Recorded(outcome: Outcome) | Settled(outcome: Outcome)

  datatype Worker = Worker(delivery: Id, seqNo: nat, endpoint: Id, seen: Breaker, stage: Stage)

  /** Where a SetProbeDelivery call stands: its first or second statement done. */
  datatype Prober = Selected(endpoint: Id, choice: Option<Id>) | Assigned(probe: Id)

  /** An open Submit transaction; NOW() inside it is its start. */
  datatype Submission = Submission(start: Time, endpoint: Id)

  datatype State = State(
    cfg: Config,
    now: Time,
    db: Tables,
    submissions: map<Id, Submission>,
    outbox: multiset<Id>,           // claimed, not yet published
    msgs: multiset<Id>,             // published, not yet consumed
    workers: map<Id, Worker>,
    probers: map<Id, Prober>,
    readFailed: set<Id>,            // ids some replayer has read as permanently_failed
    posts: seq<(Id, nat)>)          // every POST so far: delivery and attempt sequence

  datatype ClientAction =
    | BeginSubmit(tx: Id, endpoint: Id)
    | CommitSubmit(tx: Id, event: Id, id: Id)
    | AbortSubmit(tx: Id)
    | ReadFailed(id: Id)
    | CreateReplay(source: Id, id: Id)

  datatype QueueAction =
    | Publish(id: Id)
    | DropClaim(id: Id)
    | Lose(id: Id)
    | Duplicate(id: Id)

  datatype WorkerAction =
    | Load(worker: Id, id: Id)
    | InsertStarted(worker: Id)
    | Post(worker: Id, outcome: Outcome)
    | UpdateOutcome(worker: Id, stored: bool, clock: Time)
    | SettleCircuit(worker: Id, stored: bool)
    | Finish(worker: Id, clock: Time, draw: int64)
    | CrashWorker(worker: Id)

  datatype SchedulerAction =
    | ClaimReady(chosen: set<Id>, leaseUntil: Time)
    | Reap
    | ExpireOpen
    | SelectProbe(prober: Id, endpoint: Id, choice: Option<Id>)
    | AssignProbe(prober: Id)
    | ResetProbe(prober: Id)
    | CrashProber(prober: Id)

  datatype Action =
    | Advance(to: Time)
    | Client(client: ClientAction)
    | Queue(queue: QueueAction)
    | Work(work: WorkerAction)
    | Schedule(schedule: SchedulerAction)

  predicate Init(s: State) {
    && s.cfg.threshold >= 1 && s.cfg.batch >= 1
    && s.db.deliveries == map[] && s.db.attempts == map[]
    && (forall e | e in s.db.endpoints :: s.db.endpoints[e].circuit == FreshCircuit)
    && s.submissions == map[] && s.workers == map[] && s.probers == map[]
    && s.outbox == multiset{} && s.msgs == multiset{}
    && s.readFailed == {} && s.posts == []
  }

  predicate ClientEnabled(s: State, a: ClientAction) {
    match a
    case BeginSubmit(tx, ep) => tx !in s.submissions && ep in s.db.endpoints
    case CommitSubmit(tx, ev, id) => tx in s.submissions && id !in s.db.deliveries
    case AbortSubmit(tx) => tx in s.submissions
    case ReadFailed(id) => id in s.db.deliveries && s.db.deliveries[id].status.PermanentlyFailed?
    case CreateReplay(src, id) => src in s.readFailed && src in s.db.deliveries && id !in s.db.deliveries
                                  && s.db.deliveries[src].endpoint in s.db.endpoints
  }

  predicate QueueEnabled(s: State, a: QueueAction) {
    match a
    case Publish(id) => id in s.outbox
    case DropClaim(id) => id in s.outbox
    case Lose(id) => id in s.msgs
    case Duplicate(id) => id in s.msgs
  }

  predicate WorkerEnabled(s: State, a: WorkerAction) {
    match a
    case Load(w, id) => w !in s.workers && id in s.msgs && id in s.db.deliveries
                        && s.db.deliveries[id].endpoint in s.db.endpoints
    case InsertStarted(w) => w in s.workers && s.workers[w].stage.Loaded?
    case Post(w, _) => w in s.workers && s.workers[w].stage.Started?
    case UpdateOutcome(w, _, _) => w in s.workers && s.workers[w].stage.Posted?
    case SettleCircuit(w, _) => w in s.workers && s.workers[w].stage.Recorded?
    case Finish(w, _, draw) => w in s.workers && s.workers[w].stage.Settled? && FinishDraw(s, w, draw)
    case CrashWorker(w) => w in s.workers
  }

  predicate SchedulerEnabled(s: State, a: SchedulerAction) {
    match a
    case ClaimReady(chosen, _) => |chosen| <= s.cfg.batch && forall id | id in chosen :: Eligible(s.db, s.now, id)
    case Reap => true
    case ExpireOpen => true
    case SelectProbe(p, ep, choice) => p !in s.probers && OldestQueued(s.db.deliveries, ep, choice)
    case AssignProbe(p) => p in s.probers && s.probers[p].Selected?
    case ResetProbe(p) => p in s.probers && s.probers[p].Assigned?
    case CrashProber(p) => p in s.probers
  }

  predicate Enabled(s: State, a: Action) {
    match a
    case Advance(to) => s.now <= to
    case Client(c) => ClientEnabled(s, c)
    case Queue(q) => QueueEnabled(s, q)
    case Work(w) => WorkerEnabled(s, w)
    case Schedule(c) => SchedulerEnabled(s, c)
  }

  predicate FinishDraw(s: State, w: Id, draw: int64)
    requires w in s.workers
  {
    DrawnFor(PRODUCTION_SCHEDULE, s.workers[w].seqNo + 1, draw)
  }

  function WithDeliveries(s: State, ds: Deliveries): State {
    s.(db := s.db.(deliveries := ds))
  }

  function WithEndpoints(s: State, es: Endpoints): State {
    s.(db := s.db.(endpoints := es))
  }

  function AtStage(s: State, w: Id, g: Stage): State
    requires w in s.workers
  {
    s.(workers := s.workers[w := s.workers[w].(stage := g)])
  }

  function DoCommitSubmit(s: State, tx: Id, ev: Id, id: Id): State
    requires tx in s.submissions
  {
    var sub := s.submissions[tx];
    if sub.endpoint !in s.db.endpoints then s
    else
      WithDeliveries(s, s.db.deliveries[id :=
        NewDelivery(ev, sub.endpoint, s.db.endpoints[sub.endpoint].tenant, sub.start, None)])
      .(submissions := s.submissions - {tx})
  }

  function DoLoad(s: State, w: Id, id: Id): State
    requires WorkerEnabled(s, Load(w, id))
  {
    var d := s.db.deliveries[id];
    s.(msgs := s.msgs - multiset{id},
       workers := s.workers[w :=
         Worker(id, d.attemptCount + 1, d.endpoint, s.db.endpoints[d.endpoint].circuit.state, Loaded)])
  }

  function DoInsertStarted(s: State, w: Id): State
    requires w in s.workers
  {
    var k := s.workers[w];
    if (k.delivery, k.seqNo) in s.db.attempts
    then s.(workers := s.workers - {w})   // unique violation: process returns the error
    else AtStage(s, w, Started)
         .(db := s.db.(attempts := InsertAttempt(s.db.attempts, k.delivery, k.seqNo, s.now)))
  }

  function DoPost(s: State, w: Id, o: Outcome): State
    requires w in s.workers
  {
    AtStage(s, w, Posted(o)).(posts := s.posts + [(s.workers[w].delivery, s.workers[w].seqNo)])
  }

  function DoUpdateOutcome(s: State, w: Id, stored: bool, clock: Time): State
    requires w in s.workers && s.workers[w].stage.Posted?
  {
    var k := s.workers[w];
    var s' := AtStage(s, w, Recorded(k.stage.outcome));
    if stored
    then s'.(db := s.db.(attempts := RecordOutcome(s.db.attempts, k.delivery, k.seqNo, k.stage.outcome, clock)))
    else s'
  }

  function DoSettle(s: State, w: Id, stored: bool): State
    requires w in s.workers && s.workers[w].stage.Recorded?
  {
    var k := s.workers[w];
    var s' := AtStage(s, w, Settled(k.stage.outcome));
    if stored
    then WithEndpoints(s', SettleEndpoint(s.db.endpoints, k.endpoint, s.cfg, s.now, k.stage.outcome, k.seen))
    else s'
  }

  function DoFinish(s: State, w: Id, clock: Time, draw: int64): State
    requires w in s.workers && s.workers[w].stage.Settled? && FinishDraw(s, w, draw)
  {
    var k := s.workers[w];
    var s' := s.(workers := s.workers - {w});
    if k.delivery !in s.db.deliveries then s'
    else
      var nextAt := clock + Delay(PRODUCTION_SCHEDULE, k.seqNo + 1, draw) as int;
      WithDeliveries(s', UpdateRow(s.db.deliveries, k.delivery,
        FinalRow(s.db.deliveries[k.delivery], k.stage.outcome, k.seqNo, nextAt, s.now)))
  }

  function DoAssignProbe(s: State, p: Id): State
    requires p in s.probers && s.probers[p].Selected?
  {
    var k := s.probers[p];
    WithEndpoints(s, StoreProbe(s.db.endpoints, k.endpoint, k.choice))
    .(probers := if k.choice.Some? then s.probers[p := Assigned(k.choice.value)] else s.probers - {p})
  }

  function DoCreateReplay(s: State, src: Id, id: Id): State
    requires ClientEnabled(s, CreateReplay(src, id))
  {
    var row := ReplayRow(s.db.deliveries, s.db.endpoints, src, s.now);
    if DuplicatesReplay(s.db.deliveries, id, row) then s   // error 23505
    else WithDeliveries(s, s.db.deliveries[id := row])
  }

  function ApplyClient(s: State, a: ClientAction): State
    requires ClientEnabled(s, a)
  {
    match a
    case BeginSubmit(tx, ep) => s.(submissions := s.submissions[tx := Submission(s.now, ep)])
    case CommitSubmit(tx, ev, id) => DoCommitSubmit(s, tx, ev, id)
    case AbortSubmit(tx) => s.(submissions := s.submissions - {tx})
    case ReadFailed(id) => s.(readFailed := s.readFailed + {id})
    case CreateReplay(src, id) => DoCreateReplay(s, src, id)
  }

  function ApplyQueue(s: State, a: QueueAction): State
    requires QueueEnabled(s, a)
  {
    match a
    case Publish(id) => s.(outbox := s.outbox - multiset{id}, msgs := s.msgs + multiset{id})
    case DropClaim(id) => s.(outbox := s.outbox - multiset{id})
    case Lose(id) => s.(msgs := s.msgs - multiset{id})
    case Duplicate(id) => s.(msgs := s.msgs + multiset{id})
  }

  function ApplyWorker(s: State, a: WorkerAction): State
    requires WorkerEnabled(s, a)
  {
    match a
    case Load(w, id) => DoLoad(s, w, id)
    case InsertStarted(w) => DoInsertStarted(s, w)
    case Post(w, o) => DoPost(s, w, o)
    case UpdateOutcome(w, stored, clock) => DoUpdateOutcome(s, w, stored, clock)
    case SettleCircuit(w, stored) => DoSettle(s, w, stored)
    case Finish(w, clock, draw) => DoFinish(s, w, clock, draw)
    case CrashWorker(w) => s.(workers := s.workers - {w})
  }

  function ApplyScheduler(s: State, a: SchedulerAction): State
    requires SchedulerEnabled(s, a)
  {
    match a
    case ClaimReady(chosen, leaseUntil) =>
      WithDeliveries(s, Claim(s.db.deliveries, chosen, leaseUntil, s.now))
      .(outbox := s.outbox + multiset(chosen))
    case Reap => WithDeliveries(s, Resurrect(s.db.deliveries, s.now))
    case ExpireOpen => WithEndpoints(s, ExpireSuspensions(s.db.endpoints, s.db.deliveries, s.now))
    case SelectProbe(p, ep, choice) => s.(probers := s.probers[p := Selected(ep, choice)])
    case AssignProbe(p) => DoAssignProbe(s, p)
    case ResetProbe(p) =>
      WithDeliveries(s, PullForward(s.db.deliveries, s.probers[p].probe, s.now)).(probers := s.probers - {p})
    case CrashProber(p) => s.(probers := s.probers - {p})
  }

  function Apply(s: State, a: Action): State
    requires Enabled(s, a)
  {
    match a
    case Advance(to) => s.(now := to)
    case Client(c) => ApplyClient(s, c)
    case Queue(q) => ApplyQueue(s, q)
    case Work(w) => ApplyWorker(s, w)
    case Schedule(c) => ApplyScheduler(s, c)
  }

  predicate Step(s: State, a: Action, s': State) {
    Enabled(s, a) && s' == Apply(s, a)
  }

  datatype Run = Run(states: seq<State>, actions: seq<Action>) {
    ghost predicate StepAt(i: nat)
      requires |states| == |actions| + 1
    {
      i < |actions| && Step(states[i], actions[i], states[i+1])
    }

    /** All runs: any interleaving of enabled actions from an initial state. */
    ghost predicate Valid() {
      && |states| == |actions| + 1
      && Init(states[0])
      && forall i: nat :: i < |actions| ==> StepAt(i)
    }
  }
}
