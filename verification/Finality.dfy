/** When a terminal status is final, in all runs: exactly when nothing can
    still complete an attempt of the delivery with effect. */
module Finality {
  import opened Model
  import opened Retry
  import opened Statements
  import opened Pipeline
  import opened RunFacts
  import opened AttemptFence
  import opened ReplayForest
  import opened Recovery
  import opened Tracing
  import opened Attempts
  import opened HeadOfLine
  import opened Finishing
  import Scheduler

  /** A worker is past InsertStarted on id; or its next sequence is free, and a
      claim, a message or a worker that loaded it may still insert it. */
  ghost predicate CanAttempt(s: State, id: Id) {
    && id in s.db.deliveries
    && (|| (exists w :: RunningOn(s, w, id))
        || ((id, s.db.deliveries[id].attemptCount + 1) !in s.db.attempts
            && (id in s.outbox || id in s.msgs
                || exists w :: LoadedNext(s, w, id))))
  }

  ghost predicate AtRest(s: State, id: Id) {
    id in s.db.deliveries && s.db.deliveries[id].status.Terminal() && !CanAttempt(s, id)
  }

  /** id keeps its status and its counter. */
  predicate Unchanged(s: State, s': State, id: Id) {
    && id in s.db.deliveries && id in s'.db.deliveries
    && s'.db.deliveries[id].status == s.db.deliveries[id].status
    && s'.db.deliveries[id].attemptCount == s.db.deliveries[id].attemptCount
  }

  // ----- settled stays settled -------------------------------------------------------

  /** Nothing new can attempt id. */
  lemma SettledFrame(s: State, s': State, id: Id)
    requires AtRest(s, id) && Unchanged(s, s', id)
    requires forall key | key in s.db.attempts :: key in s'.db.attempts
    requires forall w | RunningOn(s', w, id) :: RunningOn(s, w, id)
    requires (id, s.db.deliveries[id].attemptCount + 1) !in s'.db.attempts ==>
               && (id in s'.outbox ==> id in s.outbox || id in s.msgs)
               && (id in s'.msgs ==> id in s.outbox || id in s.msgs)
               && (forall w | LoadedNext(s', w, id) :: LoadedNext(s, w, id) || id in s.msgs)
    ensures AtRest(s', id)
  {
  }

  lemma SettledWorkerRow(s: State, a: WorkerAction, id: Id)
    requires WorkerEnabled(s, a) && id in s.db.deliveries
    requires forall w :: !RunningOn(s, w, id)
    ensures Unchanged(s, ApplyWorker(s, a), id)
  {
    hide FinalRow, DuplicatesReplay, SettleEndpoint, InsertAttempt, RecordOutcome;
    match a
    case SettleCircuit(w, stored) => SettleFrame(s, w, stored);
    case Finish(w, _, _) => assert !RunningOn(s, w, id);
    case _ =>
  }

  lemma SettledWorkerClaims(s: State, a: WorkerAction, id: Id)
    requires FenceInv(s) && WorkerEnabled(s, a) && AtRest(s, id)
    ensures var s' := ApplyWorker(s, a);
            && (forall key | key in s.db.attempts :: key in s'.db.attempts)
            && (forall w | RunningOn(s', w, id) :: RunningOn(s, w, id))
            && s'.outbox == s.outbox && s'.msgs <= s.msgs
            && (forall w | LoadedNext(s', w, id) && Unchanged(s, s', id) :: LoadedNext(s, w, id) || id in s.msgs)
  {
    hide DoFinish, DoSettle, PostLog, Budget, LeaseIffInFlight, AttemptRows, WorkerFence;
    match a
    case SettleCircuit(w, stored) => SettleFrame(s, w, stored);
    case Finish(w, clock, draw) => FinishFrame(s, w, clock, draw);
    case InsertStarted(w) => if s.workers[w].delivery == id { InsertStops(s, w, id); }
    case _ =>
  }

  /** A worker that loaded a settled delivery finds its sequence taken. */
  lemma InsertStops(s: State, w: Id, id: Id)
    requires FenceInv(s) && WorkerEnabled(s, InsertStarted(w)) && AtRest(s, id) && s.workers[w].delivery == id
    ensures (id, s.workers[w].seqNo) in s.db.attempts
  {
    var n := s.db.deliveries[id].attemptCount;
    if s.workers[w].seqNo == n + 1 {
      assert LoadedNext(s, w, id);
    } else {
      assert AttemptRows(s.db.deliveries, s.db.attempts);
      assert 1 <= s.workers[w].seqNo <= n;
    }
  }

  lemma WorkerKeepsRest(s: State, a: WorkerAction, id: Id)
    requires FenceInv(s) && WorkerEnabled(s, a) && AtRest(s, id)
    ensures Unchanged(s, ApplyWorker(s, a), id) && AtRest(ApplyWorker(s, a), id)
  {
    assert forall w :: !RunningOn(s, w, id);
    hide FenceInv, WorkerEnabled, ApplyWorker, AtRest;
    SettledWorkerRow(s, a, id);
    SettledWorkerClaims(s, a, id);
    SettledFrame(s, ApplyWorker(s, a), id);
  }

  lemma ClientKeepsRest(s: State, a: ClientAction, id: Id)
    requires ClientEnabled(s, a) && AtRest(s, id)
    ensures Unchanged(s, ApplyClient(s, a), id) && AtRest(ApplyClient(s, a), id)
  {
    ClientKeepsRow(s, a, id);
    SettledFrame(s, ApplyClient(s, a), id);
  }

  lemma QueueKeepsRest(s: State, a: QueueAction, id: Id)
    requires QueueEnabled(s, a) && AtRest(s, id)
    ensures Unchanged(s, ApplyQueue(s, a), id) && AtRest(ApplyQueue(s, a), id)
  {
    SettledFrame(s, ApplyQueue(s, a), id);
  }

  lemma SchedulerKeepsRest(s: State, a: SchedulerAction, id: Id)
    requires SchedulerEnabled(s, a) && AtRest(s, id)
    ensures Unchanged(s, ApplyScheduler(s, a), id) && AtRest(ApplyScheduler(s, a), id)
  {
    assert a.ClaimReady? && id in a.chosen ==> Eligible(s.db, s.now, id);
    SettledFrame(s, ApplyScheduler(s, a), id);
  }

  lemma RestStep(s: State, a: Action, id: Id)
    requires FenceInv(s) && Enabled(s, a) && AtRest(s, id)
    ensures Unchanged(s, Apply(s, a), id) && AtRest(Apply(s, a), id)
  {
    assert id in s.db.deliveries;
    hide FenceInv, CanAttempt, ClientEnabled, QueueEnabled, WorkerEnabled, SchedulerEnabled;
    hide ApplyClient, ApplyQueue, ApplyWorker, ApplyScheduler;
    match a
    case Client(c) => ClientKeepsRest(s, c, id);
    case Queue(q) => QueueKeepsRest(s, q, id);
    case Work(w) => WorkerKeepsRest(s, w, id);
    case Schedule(c) => SchedulerKeepsRest(s, c, id);
    case Advance(to) => SettledFrame(s, s.(now := to), id);
  }

  // ----- an attempt that waits for another replay ------------------------------------------

  /** y is another unfinished replay of id's source. */
  predicate Sibling(ds: Deliveries, y: Id, id: Id) {
    && y in ds && id in ds && y != id && ds[id].source.Some? && ds[y].source == ds[id].source
    && !ds[y].status.Terminal()
  }

  /** Worker w has an outcome for id that asks for a retry, which the unique
      index rejects as long as y is unfinished. */
  predicate Awaits(s: State, w: Id, id: Id, y: Id) {
    RunningOn(s, w, id) && !MayEnd(s.workers[w]) && Sibling(s.db.deliveries, y, id)
  }

  /** id is terminal, and the one attempt of it under way waits for a delivery that cannot finish. */
  ghost predicate Barred(s: State, id: Id) {
    && id in s.db.deliveries && s.db.deliveries[id].status.Terminal()
    && exists w, y :: Awaits(s, w, id, y) && Hopeless(s, y)
  }

  lemma SiblingStays(s: State, s': State, y: Id, id: Id)
    requires Sibling(s.db.deliveries, y, id) && Later(s, s') && Pending(s'.db.deliveries, y)
    ensures Sibling(s'.db.deliveries, y, id)
  {
  }

  lemma SchedulerKeepsTerminal(s: State, a: SchedulerAction, id: Id)
    requires SchedulerEnabled(s, a) && id in s.db.deliveries && s.db.deliveries[id].status.Terminal()
    ensures Unchanged(s, ApplyScheduler(s, a), id) && ApplyScheduler(s, a).workers == s.workers
  {
    assert a.ClaimReady? && id in a.chosen ==> Eligible(s.db, s.now, id);
  }

  lemma WorkerKeepsOther(s: State, a: WorkerAction, id: Id)
    requires WorkerEnabled(s, a) && id in s.db.deliveries && !Finishes(s, Work(a), id)
    ensures Unchanged(s, ApplyWorker(s, a), id)
  {
    hide WorkerEnabled, ApplyWorker, Finishes;
    WorkerHolds(s, a, id);
  }

  /** The index rejects the retry. */
  lemma AwaitingRejected(s: State, w: Id, id: Id, y: Id, clock: Time, draw: int64)
    requires Awaits(s, w, id, y) && WorkerEnabled(s, Finish(w, clock, draw))
    ensures Unchanged(s, DoFinish(s, w, clock, draw), id) && DoFinish(s, w, clock, draw).workers == s.workers - {w}
    ensures DoFinish(s, w, clock, draw).db.attempts == s.db.attempts
  {
    hide Delay, DrawnFor;
  }

  lemma AwaitingRow(s: State, a: WorkerAction, w: Id, id: Id, y: Id)
    requires FenceInv(s) && WorkerEnabled(s, a) && Awaits(s, w, id, y)
    ensures Unchanged(s, ApplyWorker(s, a), id)
  {
    RunningAlone(s, w);
    hide FenceInv, DoFinish, FinishDraw, MayEnd;
    if a.Finish? && a.worker == w {
      AwaitingRejected(s, w, id, y, a.clock, a.draw);
    } else {
      assert !Finishes(s, Work(a), id);
      WorkerKeepsOther(s, a, id);
    }
  }

  /** Nobody else gets past InsertStarted on id, whose next sequence worker w has taken. */
  lemma AwaitingAlone(s: State, a: WorkerAction, w: Id, id: Id, v: Id)
    requires FenceInv(s) && WorkerEnabled(s, a) && RunningOn(s, w, id) && RunningOn(ApplyWorker(s, a), v, id)
    ensures v == w
  {
    RunningAlone(s, w);
    WorkerStages(s, a, v);
    if v in s.workers && s.workers[v].delivery == id { LoadedSeqTaken(s, v, id); }
    hide FenceInv, WorkerEnabled, ApplyWorker;
  }

  lemma AwaitedSeqStays(s: State, a: WorkerAction, w: Id, id: Id)
    requires FenceInv(s) && WorkerEnabled(s, a) && RunningOn(s, w, id) && Unchanged(s, ApplyWorker(s, a), id)
    ensures NextTaken(ApplyWorker(s, a), id)
  {
    RunningAlone(s, w);
    WorkerStages(s, a, w);
    hide FenceInv, WorkerEnabled, ApplyWorker;
  }

  /** Worker w still waits, or it has gone and nothing attempts id any more. */
  lemma AwaitingWorkerStep(s: State, a: WorkerAction, w: Id, id: Id, y: Id)
    requires FenceInv(s) && WorkerEnabled(s, a) && Awaits(s, w, id, y)
    ensures var s' := ApplyWorker(s, a);
            && Unchanged(s, s', id)
            && if w in s'.workers then RunningOn(s', w, id) && !MayEnd(s'.workers[w])
               else NextTaken(s', id) && forall v :: !RunningOn(s', v, id)
  {
    var s' := ApplyWorker(s, a);
    hide FenceInv, WorkerEnabled, ApplyWorker, MayEnd, Unchanged, NextTaken;
    AwaitingRow(s, a, w, id, y);
    AwaitedSeqStays(s, a, w, id);
    forall v | RunningOn(s', v, id) ensures v == w { AwaitingAlone(s, a, w, id, v); }
    if w in s'.workers { WaitsOn(s, a, w); }
  }

  lemma WaitsOn(s: State, a: WorkerAction, w: Id)
    requires WorkerEnabled(s, a) && w in s.workers && w in ApplyWorker(s, a).workers
    requires Running(s.workers[w]) && !MayEnd(s.workers[w])
    ensures var k' := ApplyWorker(s, a).workers[w];
            k'.delivery == s.workers[w].delivery && Running(k') && !MayEnd(k')
  {
    WorkerMoves(s, a, w);
    hide WorkerEnabled, ApplyWorker;
  }

  lemma LoadedSeqTaken(s: State, v: Id, id: Id)
    requires FenceInv(s) && v in s.workers && s.workers[v].delivery == id && NextTaken(s, id)
    ensures (id, s.workers[v].seqNo) in s.db.attempts
  {
    assert AttemptRows(s.db.deliveries, s.db.attempts) && WorkerFence(s);
    assert 1 <= s.workers[v].seqNo <= s.db.deliveries[id].attemptCount + 1;
  }

  lemma BarredStep(s: State, a: Action, id: Id)
    requires FenceInv(s) && Enabled(s, a) && Barred(s, id)
    ensures Unchanged(s, Apply(s, a), id) && (Barred(Apply(s, a), id) || AtRest(Apply(s, a), id))
  {
    var w, y :| Awaits(s, w, id, y) && Hopeless(s, y);
    var s' := Apply(s, a);
    HopelessStep(s, a, y);
    StepLater(s, a);
    SiblingStays(s, s', y, id);
    hide FenceInv, Hopeless, MayEnd, Grows, ClientEnabled, QueueEnabled, WorkerEnabled, SchedulerEnabled;
    hide ApplyClient, ApplyQueue, ApplyWorker, ApplyScheduler;
    match a
    case Client(c) => ClientKeepsRow(s, c, id); assert Awaits(s', w, id, y);
    case Queue(q) => QueueFrame(s, q); assert Awaits(s', w, id, y);
    case Schedule(c) => SchedulerKeepsTerminal(s, c, id); assert Awaits(s', w, id, y);
    case Advance(to) => assert Awaits(s', w, id, y);
    case Work(c) =>
      AwaitingWorkerStep(s, c, w, id, y);
      if w in s'.workers { assert Awaits(s', w, id, y); }
  }

  lemma {:induction false} BarredIsFinal(s0: State, acts: seq<Action>, s: State, id: Id)
    requires FenceInv(s0) && (Barred(s0, id) || AtRest(s0, id)) && Trace(s0, acts, s)
    ensures FenceInv(s) && (Barred(s, id) || AtRest(s, id)) && Unchanged(s0, s, id)
    decreases |acts|
  {
    if acts == [] {
      assert id in s.db.deliveries;
    } else {
      var front, last := acts[..|acts|-1], acts[|acts|-1];
      var m: State :| Steps(Anything, s0, front, m) && Step(m, last, s);
      hide FenceInv, AtRest, Barred, Enabled, Apply, Steps;
      BarredIsFinal(s0, front, m, id);
      if AtRest(m, id) { RestStep(m, last, id); } else { BarredStep(m, last, id); }
      FenceStep(m, last);
    }
  }

  // ----- what can attempt with effect, can change -------------------------------------------

  /** Some continuation changes id's status or counter. */
  ghost predicate CanChange(s: State, id: Id) {
    exists acts, s' :: Trace(s, acts, s') && !Unchanged(s, s', id)
  }

  /** id has one completed attempt more. */
  predicate Counted(s: State, s': State, id: Id) {
    && id in s.db.deliveries && id in s'.db.deliveries
    && s'.db.deliveries[id].attemptCount == s.db.deliveries[id].attemptCount + 1
  }

  lemma FinalRowCounts(d: Delivery, o: Outcome, seqNo: nat, nextAt: Time, now: Time)
    ensures FinalRow(d, o, seqNo, nextAt, now).attemptCount == d.attemptCount + 1
  {
  }

  /** Worker w past InsertStarted ends its attempt, if the index accepts the row. */
  lemma ConcludeAttempt(s0: State, acts: seq<Action>, s: State, w: Id, id: Id) returns (acts': seq<Action>, s': State)
    requires Trace(s0, acts, s) && RunningOn(s, w, id) && id in s.db.deliveries
    requires s.workers[w].stage.Started? || Storable(s.db.deliveries, id, s.workers[w].stage.outcome, s.workers[w].seqNo)
    ensures Trace(s0, acts', s') && Counted(s, s', id)
  {
    PermitsAnything();
    hide Steps, Permits, Storable, FinalRow, SettleEndpoint, RecordOutcome;
    var k := s.workers[w];
    OriginalsAndEndsStorable(s.db.deliveries, id, Success, k.seqNo);
    if k.stage.Settled? {
      acts', s' := FinishWorker(Anything, s0, acts, s, w);
      FinalRowCounts(s.db.deliveries[id], k.stage.outcome, k.seqNo, s'.db.deliveries[id].nextAttemptAt, s.now);
    } else {
      var o;
      acts', s', o := ToRecorded(s0, acts, s, w);
      acts', s' := SettleThenFinish(Anything, s0, acts', s', w);
      FinalRowCounts(s.db.deliveries[id], o, k.seqNo, s'.db.deliveries[id].nextAttemptAt, s.now);
    }
  }

  lemma RunningChanges(s: State, w: Id, id: Id)
    requires RunningOn(s, w, id) && id in s.db.deliveries
    requires s.workers[w].stage.Started? || Storable(s.db.deliveries, id, s.workers[w].stage.outcome, s.workers[w].seqNo)
    ensures CanChange(s, id)
  {
    NoTrace(s);
    hide Steps, Storable;
    var acts, s' := ConcludeAttempt(s, [], s, w, id);
    assert Trace(s, acts, s') && !Unchanged(s, s', id);
  }

  /** A retry that no unfinished sibling stands against can be stored. */
  lemma StorableWithoutSibling(s: State, w: Id, id: Id)
    requires RunningOn(s, w, id) && !s.workers[w].stage.Started? && id in s.db.deliveries
    requires !MayEnd(s.workers[w]) ==> forall y :: !Sibling(s.db.deliveries, y, id)
    ensures Storable(s.db.deliveries, id, s.workers[w].stage.outcome, s.workers[w].seqNo)
  {
    if !MayEnd(s.workers[w]) {
      forall y | y in s.db.deliveries ensures !Sibling(s.db.deliveries, y, id) {}
    }
  }

  lemma SiblingBefore(s: State, s': State, T: set<Id>, z: Id, id: Id)
    requires Touched(s, s', T) && id in s.db.deliveries && Sibling(s'.db.deliveries, z, id)
    ensures Sibling(s.db.deliveries, z, id)
  {
    assert z in s.db.deliveries && SameIdentity(s.db.deliveries[z], s'.db.deliveries[z]);
    assert SameIdentity(s.db.deliveries[id], s'.db.deliveries[id]);
  }

  lemma OnlySibling(s: State, y: Id, z: Id, id: Id)
    requires Sane(s) && Sibling(s.db.deliveries, y, id) && Sibling(s.db.deliveries, z, id)
    ensures z == y
  {
    assert OneActiveReplay(s.db.deliveries);
  }

  /** A source has one unfinished replay at most; once it has finished there is none. */
  lemma NoSiblingLeft(s: State, s': State, T: set<Id>, id: Id, y: Id)
    requires Sane(s) && Touched(s, s', T) && Sibling(s.db.deliveries, y, id) && !Pending(s'.db.deliveries, y)
    ensures forall z :: !Sibling(s'.db.deliveries, z, id)
  {
    forall z ensures !Sibling(s'.db.deliveries, z, id) {
      if Sibling(s'.db.deliveries, z, id) {
        SiblingBefore(s, s', T, z, id);
        OnlySibling(s, y, z, id);
      }
    }
  }

  /** If the other replay can finish, it finishes first, and then the retry is stored. */
  lemma AwaitingChanges(s: State, w: Id, id: Id, y: Id)
    requires Sane(s) && Awaits(s, w, id, y) && CanFinish(s, y) && s.db.deliveries[id].status.Terminal()
    ensures CanChange(s, id)
  {
    assert !s.workers[w].stage.Started?;
    hide Sane, Steps, CanFinish, MayEnd, Storable;
    var acts, s', T := FinishesSomehow(s, y);
    assert id !in T;
    NoSiblingLeft(s, s', T, id, y);
    TouchedLeaves(s, s', T, w, id);
    StorableWithoutSibling(s', w, id);
    acts, s' := ConcludeAttempt(s, acts, s', w, id);
    assert Trace(s, acts, s') && !Unchanged(s, s', id);
  }

  lemma TouchedLeaves(s: State, s': State, T: set<Id>, w: Id, id: Id)
    requires Touched(s, s', T) && id !in T && id in s.db.deliveries && w in s.workers && s.workers[w].delivery == id
    ensures w in s'.workers && s'.workers[w] == s.workers[w] && id in s'.db.deliveries
    ensures s'.db.deliveries[id].attemptCount == s.db.deliveries[id].attemptCount
  {
  }

  /** A delivery whose sequence is free and that somebody holds. */
  lemma ServedChanges(s: State, id: Id)
    requires Sane(s) && id in s.db.deliveries && !NextTaken(s, id)
    requires id in s.outbox || id in s.msgs || exists w :: LoadedNext(s, w, id)
    ensures CanChange(s, id)
  {
    SaneEndpoint(s, id);
    NoTrace(s);
    hide Sane, Steps, CanChange;
    if id in s.msgs {
      MessageChanges(s, [], s, id);
    } else if id in s.outbox {
      ClaimChanges(s, id);
    } else {
      var w :| LoadedNext(s, w, id);
      LoadedChanges(s, w, id);
    }
  }

  /** A loaded worker inserts its free sequence, then runs on. */
  lemma LoadedChanges(s: State, w: Id, id: Id)
    requires LoadedNext(s, w, id) && !NextTaken(s, id)
    ensures CanChange(s, id)
  {
    NoTrace(s);
    hide Steps, Good, Storable;
    var acts, s' := Extend(s, [], s, Work(InsertStarted(w)));
    acts, s' := ConcludeAttempt(s, acts, s', w, id);
    assert Trace(s, acts, s') && !Unchanged(s, s', id);
  }

  /** A message that a worker consumes, and all of whose attempt then runs. */
  lemma MessageChanges(s0: State, acts: seq<Action>, s: State, id: Id)
    requires Trace(s0, acts, s) && id in s.msgs && id in s.db.deliveries && s.db.deliveries[id].endpoint in s.db.endpoints
    requires !NextTaken(s, id) && Unchanged(s0, s, id)
    ensures CanChange(s0, id)
  {
    PermitsAnything();
    hide Steps, Permits, FinalRow, SettleEndpoint;
    var w := Scheduler.Fresh(s.workers);
    var d := s.db.deliveries[id];
    OriginalsAndEndsStorable(s.db.deliveries, id, Success, d.attemptCount + 1);
    var acts', s' := OneAttempt(Anything, s0, acts, s, w, id, Success);
    FinalRowCounts(d, Success, d.attemptCount + 1, s'.db.deliveries[id].nextAttemptAt, s.now);
    assert Trace(s0, acts', s') && !Unchanged(s0, s', id);
  }

  lemma ClaimChanges(s: State, id: Id)
    requires id in s.outbox && id in s.db.deliveries && s.db.deliveries[id].endpoint in s.db.endpoints && !NextTaken(s, id)
    ensures CanChange(s, id)
  {
    NoTrace(s);
    hide Steps, Good, CanChange;
    var acts, s' := Extend(s, [], s, Queue(Publish(id)));
    MessageChanges(s, acts, s', id);
  }

  /** Something can attempt id and, if the attempt under way waits for another
      replay of its source, that one can finish. */
  ghost predicate CanTakeEffect(s: State, id: Id) {
    CanAttempt(s, id) && forall w, y | Awaits(s, w, id, y) :: CanFinish(s, y)
  }

  lemma EffectChanges(s: State, id: Id)
    requires Sane(s) && CanTakeEffect(s, id) && s.db.deliveries[id].status.Terminal()
    ensures CanChange(s, id)
  {
    hide Sane, CanChange, CanFinish, MayEnd, Storable, Sibling;
    if w :| RunningOn(s, w, id) {
      if y :| Awaits(s, w, id, y) {
        AwaitingChanges(s, w, id, y);
      } else {
        if !s.workers[w].stage.Started? {
          forall y | !MayEnd(s.workers[w]) ensures !Sibling(s.db.deliveries, y, id) { assert !Awaits(s, w, id, y); }
          StorableWithoutSibling(s, w, id);
        }
        RunningChanges(s, w, id);
      }
    } else {
      ServedChanges(s, id);
    }
  }

  lemma NoEffectIsBarred(s: State, id: Id)
    requires id in s.db.deliveries && s.db.deliveries[id].status.Terminal() && !CanTakeEffect(s, id)
    ensures Barred(s, id) || AtRest(s, id)
  {
    hide MayEnd, Blocked, Served, HeadBlocked, CanAttempt;
    if CanAttempt(s, id) {
      var w, y :| Awaits(s, w, id, y) && !CanFinish(s, y);
      assert Hopeless(s, y);
    }
  }

  /** Finality, exactly: in every reachable state of every run, status and
      counter of a terminal delivery can still change if and only if something
      can attempt it and, should that attempt be under way with an outcome whose
      retry the unique index rejects, the other replay of its source can finish
      (Finishing.FinishesIff). */
  lemma FinalIff(r: Run, i: nat, id: Id)
    requires r.Valid() && i < |r.states| && id in r.states[i].db.deliveries
    requires r.states[i].db.deliveries[id].status.Terminal()
    ensures CanChange(r.states[i], id) <==> CanTakeEffect(r.states[i], id)
  {
    var s := r.states[i];
    SaneAlways(r, i);
    SaneFence(s);
    hide Sane, FenceInv, CanTakeEffect, Barred, AtRest, Steps;
    if CanTakeEffect(s, id) {
      EffectChanges(s, id);
    } else {
      NoEffectIsBarred(s, id);
      forall acts, s' | Trace(s, acts, s') ensures Unchanged(s, s', id) {
        BarredIsFinal(s, acts, s', id);
      }
    }
  }

  /** The same along one run. */
  lemma {:induction false} AtRestStays(r: Run, i: nat, j: nat, id: Id)
    requires r.Valid() && i <= j < |r.states| && AtRest(r.states[i], id)
    ensures AtRest(r.states[j], id) && Unchanged(r.states[i], r.states[j], id)
    decreases j
  {
    if i < j {
      assert r.StepAt(j - 1);
      hide FenceInv, CanAttempt, Enabled, Apply, Init;
      AtRestStays(r, i, j - 1, id);
      FenceAlways(r, j - 1);
      RestStep(r.states[j-1], r.actions[j-1], id);
    }
  }
}
