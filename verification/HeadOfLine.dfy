/** Which unfinished deliveries can never finish, in all runs: a worker that died
    after InsertStarted holds up its delivery and, behind it, every later one of
    the tenant that nobody holds already. */
module HeadOfLine {
  import opened Model
  import opened Retry
  import opened Statements
  import opened Pipeline
  import opened RunFacts
  import opened AttemptFence
  import opened Recovery
  import opened Tracing

  predicate RunningOn(s: State, w: Id, id: Id) {
    w in s.workers && s.workers[w].delivery == id && Running(s.workers[w])
  }

  /** Worker w has loaded id for its next sequence. */
  predicate LoadedNext(s: State, w: Id, id: Id) {
    && w in s.workers && s.workers[w].delivery == id && s.workers[w].stage.Loaded?
    && id in s.db.deliveries && s.workers[w].seqNo == s.db.deliveries[id].attemptCount + 1
  }

  predicate Pending(ds: Deliveries, id: Id) {
    id in ds && !ds[id].status.Terminal()
  }

  predicate NextTaken(s: State, id: Id) {
    id in s.db.deliveries && (id, s.db.deliveries[id].attemptCount + 1) in s.db.attempts
  }

  /** The attempt under way may end its delivery: no outcome is known yet, or
      the one known asks for no retry. */
  predicate MayEnd(k: Worker) {
    k.stage.Started? || (Running(k) && (!k.stage.outcome.Retryable() || k.seqNo >= MAX_ATTEMPTS))
  }

  /** Somebody holds id and may finish it without a new claim. */
  ghost predicate Served(s: State, id: Id) {
    || id in s.outbox || id in s.msgs
    || (exists w :: LoadedNext(s, w, id) && !NextTaken(s, id))
    || (exists w :: RunningOn(s, w, id) && MayEnd(s.workers[w]))
  }

  /** An earlier unfinished delivery of the tenant is blocked by a crash. */
  ghost predicate HeadBlocked(s: State, id: Id) {
    exists b :: Blocks(s.db.deliveries, b, id) && Blocked(s, b)
  }

  ghost predicate CanFinish(s: State, id: Id) {
    Pending(s.db.deliveries, id) && !Blocked(s, id) && (Served(s, id) || !HeadBlocked(s, id))
  }

  ghost predicate Hopeless(s: State, id: Id) {
    Pending(s.db.deliveries, id) && !CanFinish(s, id)
  }

  // ----- no step gives hope ---------------------------------------------------------------

  /** The blocked delivery ahead stays there. */
  lemma HeadStays(s: State, a: Action, b: Id, id: Id)
    requires FenceInv(s) && Enabled(s, a) && Blocks(s.db.deliveries, b, id) && Blocked(s, b)
    ensures Blocks(Apply(s, a).db.deliveries, b, id) && Blocked(Apply(s, a), b)
  {
    hide FenceInv, Enabled, Apply, Blocked;
    BlockedInTable(s, b);
    BlockedStep(s, a, b);
    StepLater(s, a);
  }

  lemma BlockedInTable(s: State, b: Id)
    requires Blocked(s, b)
    ensures b in s.db.deliveries
  {
  }

  /** id keeps its counter and stays unfinished, and nobody new holds it. */
  lemma UnservedFrame(s: State, s': State, id: Id)
    requires Pending(s.db.deliveries, id) && !Served(s, id)
    requires id in s'.db.deliveries && s'.db.deliveries[id].attemptCount == s.db.deliveries[id].attemptCount
    requires !s'.db.deliveries[id].status.Terminal()
    requires id !in s'.outbox && id !in s'.msgs
    requires NextTaken(s, id) ==> NextTaken(s', id)
    requires forall w | w in s'.workers && s'.workers[w].delivery == id ::
               && w in s.workers && s.workers[w].delivery == id && s'.workers[w].seqNo == s.workers[w].seqNo
               && (s'.workers[w].stage.Loaded? <==> s.workers[w].stage.Loaded?)
               && (MayEnd(s'.workers[w]) ==> MayEnd(s.workers[w]))
    ensures Pending(s'.db.deliveries, id) && !Served(s', id)
  {
    forall w ensures !(LoadedNext(s', w, id) && !NextTaken(s', id)) && !(RunningOn(s', w, id) && MayEnd(s'.workers[w])) {
      if w in s.workers && w in s'.workers && s'.workers[w].delivery == id {
        assert !(LoadedNext(s, w, id) && !NextTaken(s, id));
        assert !(RunningOn(s, w, id) && MayEnd(s.workers[w]));
      }
    }
  }

  lemma ClientUnserved(s: State, a: ClientAction, id: Id)
    requires ClientEnabled(s, a) && Pending(s.db.deliveries, id) && !Served(s, id)
    ensures Pending(ApplyClient(s, a).db.deliveries, id) && !Served(ApplyClient(s, a), id)
  {
    assert id !in s.outbox && id !in s.msgs;
    ClientKeepsRow(s, a, id);
    hide Served, MayEnd;
    UnservedFrame(s, ApplyClient(s, a), id);
  }

  lemma QueueUnserved(s: State, a: QueueAction, id: Id)
    requires QueueEnabled(s, a) && Pending(s.db.deliveries, id) && !Served(s, id)
    ensures Pending(ApplyQueue(s, a).db.deliveries, id) && !Served(ApplyQueue(s, a), id)
  {
    assert id !in s.outbox && id !in s.msgs;
    hide Served, MayEnd;
    UnservedFrame(s, ApplyQueue(s, a), id);
  }

  lemma SchedulerUnserved(s: State, a: SchedulerAction, id: Id)
    requires SchedulerEnabled(s, a) && Pending(s.db.deliveries, id) && !Served(s, id) && HeadBlocked(s, id)
    ensures Pending(ApplyScheduler(s, a).db.deliveries, id) && !Served(ApplyScheduler(s, a), id)
  {
    assert id !in s.outbox && id !in s.msgs;
    assert a.ClaimReady? && id in a.chosen ==> Eligible(s.db, s.now, id);
    hide Served, MayEnd;
    UnservedFrame(s, ApplyScheduler(s, a), id);
  }

  /** A worker that loaded id will find its sequence taken. */
  lemma UnservedSeqTaken(s: State, w: Id, id: Id)
    requires FenceInv(s) && w in s.workers && s.workers[w].stage.Loaded? && s.workers[w].delivery == id && !Served(s, id)
    ensures (id, s.workers[w].seqNo) in s.db.attempts
  {
    var n := s.db.deliveries[id].attemptCount;
    if s.workers[w].seqNo == n + 1 {
      assert LoadedNext(s, w, id);
    } else {
      assert AttemptRows(s.db.deliveries, s.db.attempts);
      assert 1 <= s.workers[w].seqNo <= n;
    }
  }

  lemma WorkerTables(s: State, a: WorkerAction)
    requires WorkerEnabled(s, a) && !a.Finish?
    ensures var s' := ApplyWorker(s, a);
            && s'.outbox == s.outbox && s'.msgs <= s.msgs && s'.db.deliveries == s.db.deliveries
            && forall key | key in s.db.attempts :: key in s'.db.attempts
  {
    hide DoSettle;
    match a
    case SettleCircuit(w, stored) => SettleFrame(s, w, stored);
    case _ =>
  }

  lemma UnservedMayNotEnd(s: State, w: Id, id: Id)
    requires !Served(s, id) && RunningOn(s, w, id)
    ensures !MayEnd(s.workers[w])
  {
  }

  /** How a worker can have come to where it stands after an action. */
  lemma WorkerMoves(s: State, a: WorkerAction, w: Id)
    requires WorkerEnabled(s, a) && w in ApplyWorker(s, a).workers
    ensures var k' := ApplyWorker(s, a).workers[w];
            if w !in s.workers then k'.stage.Loaded? && k'.delivery in s.msgs
            else
              var k := s.workers[w];
              && k'.delivery == k.delivery && k'.seqNo == k.seqNo
              && (|| k' == k
                  || (k.stage.Loaded? && (k.delivery, k.seqNo) !in s.db.attempts)
                  || k.stage.Started?
                  || (Running(k) && Running(k') && !k'.stage.Started? && k'.stage.outcome == k.stage.outcome))
  {
    hide DoFinish, RecordOutcome, InsertAttempt, SettleEndpoint;
    match a
    case SettleCircuit(v, stored) => SettleFrame(s, v, stored);
    case Finish(v, clock, draw) => FinishFrame(s, v, clock, draw);
    case _ =>
  }

  /** What an action does to the workers on an unserved delivery. */
  lemma UnservedWorkers(s: State, a: WorkerAction, id: Id, w: Id)
    requires FenceInv(s) && WorkerEnabled(s, a) && id in s.db.deliveries && !Served(s, id)
    requires w in ApplyWorker(s, a).workers && ApplyWorker(s, a).workers[w].delivery == id
    ensures var k' := ApplyWorker(s, a).workers[w];
            && w in s.workers && s.workers[w].delivery == id && k'.seqNo == s.workers[w].seqNo
            && (k'.stage.Loaded? <==> s.workers[w].stage.Loaded?)
            && (MayEnd(k') ==> MayEnd(s.workers[w]))
  {
    assert id !in s.msgs;
    WorkerMoves(s, a, w);
    if RunningOn(s, w, id) { UnservedMayNotEnd(s, w, id); }
    if w in s.workers && s.workers[w].stage.Loaded? { UnservedSeqTaken(s, w, id); }
    hide FenceInv, Served, WorkerEnabled, ApplyWorker;
  }

  lemma OtherWorkerUnserved(s: State, a: WorkerAction, id: Id)
    requires FenceInv(s) && WorkerEnabled(s, a) && !a.Finish? && Pending(s.db.deliveries, id) && !Served(s, id)
    ensures Pending(ApplyWorker(s, a).db.deliveries, id) && !Served(ApplyWorker(s, a), id)
  {
    WorkerTables(s, a);
    assert id !in s.outbox && id !in s.msgs;
    hide FenceInv, WorkerEnabled, ApplyWorker, Served, MayEnd;
    forall w | w in ApplyWorker(s, a).workers && ApplyWorker(s, a).workers[w].delivery == id
      ensures w in s.workers && s.workers[w].delivery == id && ApplyWorker(s, a).workers[w].seqNo == s.workers[w].seqNo
      ensures ApplyWorker(s, a).workers[w].stage.Loaded? <==> s.workers[w].stage.Loaded?
      ensures MayEnd(ApplyWorker(s, a).workers[w]) ==> MayEnd(s.workers[w])
    {
      UnservedWorkers(s, a, id, w);
    }
    UnservedFrame(s, ApplyWorker(s, a), id);
  }

  /** A final update for another delivery. */
  lemma FinishElsewhereUnserved(s: State, w: Id, clock: Time, draw: int64, id: Id)
    requires WorkerEnabled(s, Finish(w, clock, draw)) && s.workers[w].delivery != id
    requires Pending(s.db.deliveries, id) && !Served(s, id)
    ensures var s' := DoFinish(s, w, clock, draw); Pending(s'.db.deliveries, id) && !Served(s', id)
  {
    assert id !in s.outbox && id !in s.msgs;
    FinishFrame(s, w, clock, draw);
    FinishOthersKeeps(s, w, clock, draw, id);
    hide DoFinish, Served, MayEnd;
    UnservedFrame(s, DoFinish(s, w, clock, draw), id);
  }

  /** A final update that asks for a retry leaves the row unfinished. */
  lemma RetryRow(s: State, w: Id, clock: Time, draw: int64)
    requires WorkerEnabled(s, Finish(w, clock, draw)) && !MayEnd(s.workers[w]) && Pending(s.db.deliveries, s.workers[w].delivery)
    ensures var id, ds, ds' := s.workers[w].delivery, s.db.deliveries, DoFinish(s, w, clock, draw).db.deliveries;
            Pending(ds', id) && (ds'[id] == ds[id] || ds'[id].attemptCount == ds[id].attemptCount + 1)
  {
    hide DuplicatesReplay, Delay;
  }

  /** And nobody else can take it up then. */
  lemma RetryUnserved(s: State, w: Id, clock: Time, draw: int64)
    requires FenceInv(s) && WorkerEnabled(s, Finish(w, clock, draw)) && Pending(s.db.deliveries, s.workers[w].delivery)
    requires !Served(s, s.workers[w].delivery)
    ensures var s' := DoFinish(s, w, clock, draw);
            Pending(s'.db.deliveries, s.workers[w].delivery) && !Served(s', s.workers[w].delivery)
  {
    var id, s' := s.workers[w].delivery, DoFinish(s, w, clock, draw);
    assert RunningOn(s, w, id) && !MayEnd(s.workers[w]);
    assert id !in s.outbox && id !in s.msgs;
    RunningAlone(s, w);
    RetryRow(s, w, clock, draw);
    FinishFrame(s, w, clock, draw);
    assert WorkerFence(s);
    hide FenceInv, DoFinish, PostLog, MayEnd, Served;
    forall v | v in s'.workers && s'.workers[v].delivery == id
      ensures s'.workers[v].stage.Loaded? && !(LoadedNext(s', v, id) && !NextTaken(s', id))
    {
      assert v in s.workers && s'.workers[v] == s.workers[v];
      assert s.workers[v].seqNo <= s.db.deliveries[id].attemptCount + 1;
    }
    NobodyServes(s', id);
  }

  lemma NobodyServes(s: State, id: Id)
    requires id !in s.outbox && id !in s.msgs
    requires forall v | v in s.workers && s.workers[v].delivery == id ::
               s.workers[v].stage.Loaded? && !(LoadedNext(s, v, id) && !NextTaken(s, id))
    ensures !Served(s, id)
  {
  }

  lemma WorkerUnserved(s: State, a: WorkerAction, id: Id)
    requires FenceInv(s) && WorkerEnabled(s, a) && Pending(s.db.deliveries, id) && !Served(s, id)
    ensures Pending(ApplyWorker(s, a).db.deliveries, id) && !Served(ApplyWorker(s, a), id)
  {
    if a.Finish? {
      hide FenceInv, Served, DoFinish, FinishDraw;
      if s.workers[a.worker].delivery == id {
        RetryUnserved(s, a.worker, a.clock, a.draw);
      } else {
        FinishElsewhereUnserved(s, a.worker, a.clock, a.draw, id);
      }
    } else {
      OtherWorkerUnserved(s, a, id);
    }
  }

  lemma UnservedStep(s: State, a: Action, id: Id)
    requires FenceInv(s) && Enabled(s, a) && Pending(s.db.deliveries, id) && !Served(s, id) && HeadBlocked(s, id)
    ensures Pending(Apply(s, a).db.deliveries, id) && !Served(Apply(s, a), id) && HeadBlocked(Apply(s, a), id)
  {
    var b :| Blocks(s.db.deliveries, b, id) && Blocked(s, b);
    HeadStays(s, a, b, id);
    hide FenceInv, Served, Blocked, Blocks;
    hide ClientEnabled, QueueEnabled, WorkerEnabled, SchedulerEnabled;
    hide ApplyClient, ApplyQueue, ApplyWorker, ApplyScheduler;
    match a
    case Client(c) => ClientUnserved(s, c, id);
    case Queue(q) => QueueUnserved(s, q, id);
    case Work(w) => WorkerUnserved(s, w, id);
    case Schedule(c) => SchedulerUnserved(s, c, id);
    case Advance(to) => AdvanceUnserved(s, to, id);
  }

  lemma AdvanceUnserved(s: State, to: Time, id: Id)
    requires !Served(s, id)
    ensures !Served(s.(now := to), id)
  {
    forall w ensures LoadedNext(s.(now := to), w, id) <==> LoadedNext(s, w, id) {}
    forall w ensures RunningOn(s.(now := to), w, id) <==> RunningOn(s, w, id) {}
  }

  /** A delivery that cannot finish stays unfinished and unable to. */
  lemma HopelessStep(s: State, a: Action, id: Id)
    requires FenceInv(s) && Enabled(s, a) && Hopeless(s, id)
    ensures Hopeless(Apply(s, a), id)
  {
    hide FenceInv, Enabled, Apply, Served, HeadBlocked, Blocked;
    if Blocked(s, id) {
      BlockedStep(s, a, id);
      BlockedInTable(Apply(s, a), id);
    } else {
      UnservedStep(s, a, id);
    }
  }

  lemma {:induction false} HopelessForever(s0: State, acts: seq<Action>, s: State, id: Id)
    requires FenceInv(s0) && Hopeless(s0, id) && Trace(s0, acts, s)
    ensures FenceInv(s) && Hopeless(s, id)
    decreases |acts|
  {
    if acts != [] {
      var front, last := acts[..|acts|-1], acts[|acts|-1];
      var m: State :| Steps(Anything, s0, front, m) && Step(m, last, s);
      hide FenceInv, Hopeless, Enabled, Apply, Steps;
      HopelessForever(s0, front, m, id);
      HopelessStep(m, last, id);
      FenceStep(m, last);
    }
  }
}
