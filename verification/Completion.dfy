/** No reachable state of a sound run deadlocks as long as no worker died after
    InsertStarted: whatever the receivers answer, the system can go on, without
    losing, dropping or crashing anything, until every delivery is terminal. */
module Completion {
  import opened Model
  import opened CircuitBreaker
  import opened Statements
  import opened Pipeline
  import opened RunFacts
  import opened AttemptFence
  import opened ReplayForest
  import opened Fenced
  import opened Database
  import opened Tracing
  import opened SoundRuns
  import opened Progress
  import Drain
  import Scheduler
  import P = ProbeDiscipline

  /** What the receiver answers to each POST. */
  type Answers = (Id, nat) -> Outcome

  /** The actions of schedulers, queue and workers when nothing goes wrong. */
  predicate Driving(a: Action) {
    match a
    case Advance(_) => true
    case Queue(q) => q.Publish?
    case Work(w) => !w.CrashWorker? && (w.UpdateOutcome? ==> w.stored)
    case Schedule(c) => !c.CrashProber?
    case Client(_) => false
  }

  predicate Answered(o: Answers, s: State, a: Action) {
    match a
    case Work(Post(w, outcome)) => w in s.workers && outcome == o(s.workers[w].delivery, s.workers[w].seqNo)
    case _ => true
  }

  predicate Allowed(o: Answers, s: State, a: Action) {
    SoundAllows(s, a) && Driving(a) && Answered(o, s, a)
  }

  function Driver(o: Answers): (State, Action) -> bool {
    (s, a) => Allowed(o, s, a)
  }

  ghost predicate Kept(o: Answers, s0: State, acts: seq<Action>, s: State) {
    Steps(Driver(o), s0, acts, s) && Good(s) && AttendedState(s)
  }

  lemma Go(o: Answers, s0: State, acts: seq<Action>, s: State, a: Action) returns (acts': seq<Action>, s': State)
    requires Kept(o, s0, acts, s) && Enabled(s, a) && Allowed(o, s, a)
    ensures Kept(o, s0, acts', s') && s' == Apply(s, a)
  {
    hide Steps, Good, FencedInv, AttendedState, Enabled, Apply, SoundAllows, Answered;
    acts', s' := ExtendSteps(Driver(o), s0, acts, s, a);
    GoodStep(s, a);
    GoodFence(s);
    AttendedStep(s, a);
  }

  lemma GoodFence(s: State)
    requires Good(s)
    ensures FencedInv(s)
  {
    hide FencedInv;
  }

  lemma StartKept(o: Answers, s: State)
    requires Good(s) && AttendedState(s)
    ensures Kept(o, s, [], s)
  {
    hide Good, AttendedState;
  }

  lemma KeptParts(o: Answers, s0: State, acts: seq<Action>, s: State)
    requires Kept(o, s0, acts, s)
    ensures Steps(Driver(o), s0, acts, s) && Good(s) && AttendedState(s)
  {
    hide Steps, Good, AttendedState;
  }

  // ----- completing what is under way ---------------------------------------------------

  lemma {:induction false} PublishClaims(o: Answers, s0: State, acts: seq<Action>, s: State)
    returns (acts': seq<Action>, s': State)
    requires Kept(o, s0, acts, s)
    ensures Kept(o, s0, acts', s') && s'.outbox == multiset{} && s'.workers == s.workers
    decreases |s.outbox|
  {
    hide Kept;
    acts', s' := acts, s;
    if id: Id :| id in s.outbox {
      acts', s' := Go(o, s0, acts, s, Queue(Publish(id)));
      acts', s' := PublishClaims(o, s0, acts', s');
    }
  }

  /** A loaded worker finds its sequence free. */
  lemma FreeForLoaded(s: State, w: Id)
    requires Good(s) && AttendedState(s) && w in s.workers && s.workers[w].stage.Loaded?
    ensures (s.workers[w].delivery, s.workers[w].seqNo) !in s.db.attempts
  {
    var k := s.workers[w];
    assert OneClaim(s) && LiveRow(s.db.deliveries, k.delivery);
  }

  /** A worker's row is live, and its sequence is the next one. */
  lemma WorkerIsLive(s: State, w: Id)
    requires Good(s) && w in s.workers
    ensures var k := s.workers[w];
            LiveRow(s.db.deliveries, k.delivery) && k.seqNo == s.db.deliveries[k.delivery].attemptCount + 1
    ensures OneActiveReplay(s.db.deliveries) && Budget(s.db.deliveries)
  {
    assert OneClaim(s) && Forest(s);
  }

  /** The tables after worker w's final update: its delivery has used an attempt. */
  ghost predicate Attempted(s: State, s': State, w: Id)
    requires w in s.workers
  {
    && s'.workers == s.workers - {w} && s'.outbox == s.outbox && s'.msgs == s.msgs
    && Drain.Remaining(s'.db.deliveries) < Drain.Remaining(s.db.deliveries)
  }

  /** Everything but worker w's stage and the attempts is as before. */
  predicate SameButStage(s: State, s': State, w: Id) {
    && w in s.workers && w in s'.workers && s'.workers - {w} == s.workers - {w}
    && s'.workers[w].delivery == s.workers[w].delivery && s'.workers[w].seqNo == s.workers[w].seqNo
    && s'.outbox == s.outbox && s'.msgs == s.msgs && s'.db.deliveries == s.db.deliveries
  }

  lemma ToRecorded(o: Answers, s0: State, acts: seq<Action>, s: State, w: Id) returns (acts': seq<Action>, s': State)
    requires Kept(o, s0, acts, s) && w in s.workers && !s.workers[w].stage.Loaded? && !s.workers[w].stage.Settled?
    ensures Kept(o, s0, acts', s') && SameButStage(s, s', w) && s'.workers[w].stage.Recorded?
  {
    hide Kept, RecordOutcome;
    acts', s' := acts, s;
    if s'.workers[w].stage.Started? {
      acts', s' := Go(o, s0, acts', s', Work(Post(w, o(s.workers[w].delivery, s.workers[w].seqNo))));
    }
    if s'.workers[w].stage.Posted? {
      acts', s' := Go(o, s0, acts', s', Work(UpdateOutcome(w, true, s'.now)));
    }
  }

  lemma StartsWhenFree(s: State, w: Id)
    requires w in s.workers && s.workers[w].stage.Loaded? && (s.workers[w].delivery, s.workers[w].seqNo) !in s.db.attempts
    ensures SameButStage(s, DoInsertStarted(s, w), w) && DoInsertStarted(s, w).workers[w].stage.Started?
  {
    hide InsertAttempt;
  }

  lemma ToStarted(o: Answers, s0: State, acts: seq<Action>, s: State, w: Id) returns (acts': seq<Action>, s': State)
    requires Kept(o, s0, acts, s) && w in s.workers && s.workers[w].stage.Loaded?
    ensures Kept(o, s0, acts', s') && SameButStage(s, s', w) && s'.workers[w].stage.Started?
  {
    hide Kept, Good, AttendedState, DoInsertStarted, SameButStage;
    KeptParts(o, s0, acts, s);
    FreeForLoaded(s, w);
    StartsWhenFree(s, w);
    acts', s' := Go(o, s0, acts, s, Work(InsertStarted(w)));
    StageKeeps(s, s', w);
  }

  lemma StageKeeps(s: State, s': State, w: Id)
    requires SameButStage(s, s', w)
    ensures w in s'.workers
  {
  }

  lemma ZeroDraws(s: State, w: Id)
    requires w in s.workers
    ensures FinishDraw(s, w, 0)
  {
  }

  /** The final update uses up budget. */
  lemma FinishUses(s: State, w: Id)
    requires Good(s) && w in s.workers && s.workers[w].stage.Settled? && FinishDraw(s, w, 0)
    ensures Drain.Remaining(DoFinish(s, w, s.now, 0).db.deliveries) < Drain.Remaining(s.db.deliveries)
  {
    hide Good, OneActiveReplay, Budget, DoFinish, FinalRow, FinishDraw, Drain.Remaining;
    WorkerIsLive(s, w);
    var k := s.workers[w];
    FinishStoresRow(s, w, s.now, 0);
    Drain.AttemptUsesBudget(s.db.deliveries, k.delivery, k.stage.outcome, NextAt(k, s.now, 0), s.now);
  }

  lemma WorkAllowed(s: State, a: WorkerAction)
    requires a.SettleCircuit? ==> a.stored
    ensures SoundAllows(s, Work(a))
  {
  }

  lemma ToSettled(o: Answers, s0: State, acts: seq<Action>, s: State, w: Id) returns (acts': seq<Action>, s': State)
    requires Kept(o, s0, acts, s) && w in s.workers && s.workers[w].stage.Recorded?
    ensures Kept(o, s0, acts', s') && SameButStage(s, s', w) && s'.workers[w].stage.Settled?
  {
    hide Kept, DoSettle, SoundAllows;
    SettleFrame(s, w, true);
    WorkAllowed(s, SettleCircuit(w, true));
    acts', s' := Go(o, s0, acts, s, Work(SettleCircuit(w, true)));
  }

  lemma FinishWorker(o: Answers, s0: State, acts: seq<Action>, s: State, w: Id) returns (acts': seq<Action>, s': State)
    requires Kept(o, s0, acts, s) && w in s.workers && s.workers[w].stage.Settled?
    ensures Kept(o, s0, acts', s') && Attempted(s, s', w)
  {
    hide Kept, Good, AttendedState, DoFinish, FinishDraw, SoundAllows, Drain.Remaining;
    KeptParts(o, s0, acts, s);
    ZeroDraws(s, w);
    FinishFrame(s, w, s.now, 0);
    FinishUses(s, w);
    WorkAllowed(s, Finish(w, s.now, 0));
    acts', s' := Go(o, s0, acts, s, Work(Finish(w, s.now, 0)));
  }

  /** Worker w, wherever it stands, runs to its end. */
  lemma CompleteWorker(o: Answers, s0: State, acts: seq<Action>, s: State, w: Id) returns (acts': seq<Action>, s': State)
    requires Kept(o, s0, acts, s) && w in s.workers
    ensures Kept(o, s0, acts', s') && Attempted(s, s', w)
  {
    hide Kept, Drain.Remaining;
    acts', s' := acts, s;
    if s'.workers[w].stage.Loaded? {
      acts', s' := ToStarted(o, s0, acts', s', w);
    }
    if !s'.workers[w].stage.Settled? {
      acts', s' := ToRecorded(o, s0, acts', s', w);
      acts', s' := ToSettled(o, s0, acts', s', w);
    }
    acts', s' := FinishWorker(o, s0, acts', s', w);
  }

  lemma {:induction false} CompleteWorkers(o: Answers, s0: State, acts: seq<Action>, s: State)
    returns (acts': seq<Action>, s': State)
    requires Kept(o, s0, acts, s)
    ensures Kept(o, s0, acts', s') && s'.workers == map[] && s'.outbox == s.outbox && s'.msgs == s.msgs
    decreases |s.workers|
  {
    hide Kept;
    acts', s' := acts, s;
    if w: Id :| w in s.workers {
      acts', s' := CompleteWorker(o, s0, acts, s, w);
      assert s'.workers.Keys == s.workers.Keys - {w};
      acts', s' := CompleteWorkers(o, s0, acts', s');
    }
  }

  lemma MessageIsLive(s: State, id: Id)
    requires Good(s) && id in s.msgs
    ensures id in s.db.deliveries && s.db.deliveries[id].endpoint in s.db.endpoints
  {
    assert LiveRow(s.db.deliveries, id) && TenantOfEndpoint(s.db.deliveries, s.db.endpoints);
  }

  /** One message is consumed and its attempt completed. */
  lemma ConsumeOne(o: Answers, s0: State, acts: seq<Action>, s: State, id: Id) returns (acts': seq<Action>, s': State)
    requires Kept(o, s0, acts, s) && s.workers == map[] && id in s.msgs
    ensures Kept(o, s0, acts', s') && s'.workers == map[] && s'.outbox == s.outbox && s'.msgs == s.msgs - multiset{id}
    ensures Drain.Remaining(s'.db.deliveries) < Drain.Remaining(s.db.deliveries)
  {
    hide Kept, Good, AttendedState, Drain.Remaining;
    KeptParts(o, s0, acts, s);
    MessageIsLive(s, id);
    acts', s' := Go(o, s0, acts, s, Work(Load(0, id)));
    acts', s' := CompleteWorker(o, s0, acts', s', 0);
  }

  lemma {:induction false} ConsumeMessages(o: Answers, s0: State, acts: seq<Action>, s: State)
    returns (acts': seq<Action>, s': State)
    requires Kept(o, s0, acts, s) && s.workers == map[] && s.outbox == multiset{}
    ensures Kept(o, s0, acts', s') && Drain.Quiet(s')
    ensures Drain.Remaining(s'.db.deliveries) <= Drain.Remaining(s.db.deliveries)
    ensures s.msgs != multiset{} ==> Drain.Remaining(s'.db.deliveries) < Drain.Remaining(s.db.deliveries)
    decreases |s.msgs|
  {
    hide Kept, Drain.Remaining;
    acts', s' := acts, s;
    if id: Id :| id in s.msgs {
      acts', s' := ConsumeOne(o, s0, acts, s, id);
      acts', s' := ConsumeMessages(o, s0, acts', s');
    }
  }

  /** From every kept state, everything under way can be completed. */
  lemma ReachQuiet(o: Answers, s0: State, acts: seq<Action>, s: State) returns (acts': seq<Action>, s': State)
    requires Kept(o, s0, acts, s)
    ensures Kept(o, s0, acts', s') && Drain.Quiet(s')
  {
    hide Kept;
    acts', s' := PublishClaims(o, s0, acts, s);
    acts', s' := CompleteWorkers(o, s0, acts', s');
    acts', s' := ConsumeMessages(o, s0, acts', s');
  }

  // ----- from a quiet state to the end ------------------------------------------------------

  /** The same deliveries with the same counters are unfinished. */
  ghost predicate SameBudget(ds: Deliveries, ds': Deliveries) {
    && ds'.Keys == ds.Keys
    && forall id | id in ds ::
         ds'[id].attemptCount == ds[id].attemptCount && (ds'[id].status.Terminal() <==> ds[id].status.Terminal())
  }

  lemma SameBudgetRemains(ds: Deliveries, ds': Deliveries)
    requires SameBudget(ds, ds')
    ensures Drain.Remaining(ds') == Drain.Remaining(ds)
    ensures Drain.AllTerminal(ds') <==> Drain.AllTerminal(ds)
  {
    Drain.WeightAgrees(ds, ds', ds.Keys);
    assert ds'.Keys == ds.Keys;
  }

  /** Nothing is in flight and everything is due. */
  ghost predicate Rested(ds: Deliveries, now: Time) {
    forall id | id in ds :: !ds[id].status.InFlight? && ds[id].nextAttemptAt <= now
  }

  /** No endpoint is open. */
  predicate NoneOpen(es: Endpoints) {
    forall e | e in es :: !es[e].circuit.state.Open?
  }

  function Orphans(es: Endpoints): set<Id> {
    set e | e in es && P.Orphan(es, e)
  }

  lemma ReapedRests(s: State, t: Time)
    requires LeaseIffInFlight(s.db.deliveries) && Drain.Past(s.db, t) && s.now == t
    ensures SameBudget(s.db.deliveries, Resurrect(s.db.deliveries, t)) && Rested(Resurrect(s.db.deliveries, t), t)
  {
  }

  lemma ExpiredCloses(s: State)
    requires Good(s) && Drain.Past(s.db, s.now)
    ensures NoneOpen(ExpireSuspensions(s.db.endpoints, s.db.deliveries, s.now))
  {
    forall e | e in s.db.endpoints && s.db.endpoints[e].circuit.state.Open?
      ensures Expired(s.db.endpoints[e].circuit, s.now)
    {
      assert RowInv(s.db.endpoints[e].circuit, s.cfg);
    }
  }

  lemma QuietReap(s: State)
    requires Drain.Quiet(s)
    ensures SoundAllows(s, Schedule(Reap))
  {
  }

  /** What the repair of the circuits needs and keeps. */
  ghost predicate Idle(s: State) {
    Drain.Quiet(s) && Rested(s.db.deliveries, s.now) && NoneOpen(s.db.endpoints)
  }

  /** Time passes until every recorded time is past. */
  lemma Wait(o: Answers, s0: State, acts: seq<Action>, s: State) returns (acts': seq<Action>, s': State)
    requires Kept(o, s0, acts, s)
    ensures Kept(o, s0, acts', s') && s' == s.(now := s'.now) && Drain.Past(s.db, s'.now)
  {
    hide Kept, SoundAllows, Drain.Past;
    var t := Drain.PastExists(s.db.deliveries, s.db.endpoints, s.db.deliveries.Keys, s.db.endpoints.Keys);
    Drain.PastOf(s.db, t);
    var now := if t < s.now then s.now else t;
    Drain.PastStays(s.db, t, now);
    AdvanceAllowed(s, now);
    acts', s' := Go(o, s0, acts, s, Advance(now));
  }

  /** Clock and reaper: nothing is in flight, all is due. */
  lemma WaitAndReap(o: Answers, s0: State, acts: seq<Action>, s: State) returns (acts': seq<Action>, s': State)
    requires Kept(o, s0, acts, s) && Drain.Quiet(s)
    ensures Kept(o, s0, acts', s') && Drain.Quiet(s') && Rested(s'.db.deliveries, s'.now) && Drain.Past(s'.db, s'.now)
    ensures SameBudget(s.db.deliveries, s'.db.deliveries)
  {
    hide Kept, Good, AttendedState, SoundAllows, Drain.Past, LeaseIffInFlight, Resurrect, SameBudget, Rested;
    acts', s' := Wait(o, s0, acts, s);
    KeptParts(o, s0, acts', s');
    Drain.GoodLeases(s');
    ReapedRests(s', s'.now);
    QuietReap(s');
    PastAfterReap(s.db, s'.now);
    acts', s' := Go(o, s0, acts', s', Schedule(Reap));
  }

  /** Clock, reaper and expiry: nothing is in flight, all is due, nothing is open. */
  lemma WaitReapExpire(o: Answers, s0: State, acts: seq<Action>, s: State) returns (acts': seq<Action>, s': State)
    requires Kept(o, s0, acts, s) && Drain.Quiet(s)
    ensures Kept(o, s0, acts', s') && Idle(s') && SameBudget(s.db.deliveries, s'.db.deliveries)
  {
    hide Kept, Good, AttendedState, SoundAllows, Drain.Past, ExpireSuspensions, SameBudget, Rested, NoneOpen;
    acts', s' := WaitAndReap(o, s0, acts, s);
    KeptParts(o, s0, acts', s');
    ExpiredCloses(s');
    ExpireAllowed(s');
    acts', s' := Go(o, s0, acts', s', Schedule(ExpireOpen));
  }

  lemma PastAfterReap(db: Tables, t: Time)
    requires Drain.Past(db, t)
    ensures Drain.Past(db.(deliveries := Resurrect(db.deliveries, t)), t)
  {
  }

  lemma AdvanceAllowed(s: State, to: Time)
    ensures SoundAllows(s, Advance(to))
  {
  }

  lemma ExpireAllowed(s: State)
    requires Rested(s.db.deliveries, s.now)
    ensures SoundAllows(s, Schedule(ExpireOpen))
  {
  }

  lemma OldestExists(ds: Deliveries, e: Id) returns (choice: Option<Id>)
    ensures OldestQueued(ds, e, choice)
  {
    var queue := set d | d in ds && ds[d].endpoint == e && !ds[d].status.Terminal();
    assert forall d | d in ds && ds[d].endpoint == e && !ds[d].status.Terminal() :: d in queue;
    if queue == {} {
      choice := None;
    } else {
      var created := map d | d in ds :: ds[d].createdAt;
      var d := EarliestExists(queue, created);
      assert forall x | x in queue :: created[x] == ds[x].createdAt;
      choice := Some(d);
    }
  }

  /** An uninterrupted SetProbeDelivery for orphan e, as one change of the tables. */
  lemma ProbeRepairs(s: State, e: Id, choice: Option<Id>)
    requires Idle(s) && P.Orphan(s.db.endpoints, e) && OldestQueued(s.db.deliveries, e, choice)
    ensures var es' := StoreProbe(s.db.endpoints, e, choice);
            NoneOpen(es') && Orphans(es') == Orphans(s.db.endpoints) - {e}
    ensures forall d :: var ds' := PullForward(s.db.deliveries, d, s.now);
              Rested(ds', s.now) && SameBudget(s.db.deliveries, ds')
  {
    var es, es' := s.db.endpoints, StoreProbe(s.db.endpoints, e, choice);
    forall x ensures x in Orphans(es') <==> x in Orphans(es) && x != e {
    }
  }

  lemma SelectAllowed(s: State, p: Id, e: Id, choice: Option<Id>)
    ensures SoundAllows(s, Schedule(SelectProbe(p, e, choice)))
    ensures SoundAllows(s, Schedule(ResetProbe(p)))
  {
  }

  lemma AssignAllowed(s: State, p: Id, e: Id, choice: Option<Id>)
    requires p in s.probers && s.probers[p] == Selected(e, choice) && OldestQueued(s.db.deliveries, e, choice)
    ensures SoundAllows(s, Schedule(AssignProbe(p)))
  {
  }

  lemma RepairOne(o: Answers, s0: State, acts: seq<Action>, s: State, e: Id) returns (acts': seq<Action>, s': State)
    requires Kept(o, s0, acts, s) && Idle(s) && P.Orphan(s.db.endpoints, e)
    ensures Kept(o, s0, acts', s') && Idle(s') && SameBudget(s.db.deliveries, s'.db.deliveries)
    ensures Orphans(s'.db.endpoints) == Orphans(s.db.endpoints) - {e}
  {
    hide Kept, SoundAllows, P.Orphan, Orphans, StoreProbe, OldestQueued, PullForward, Rested, NoneOpen, SameBudget;
    var p := Scheduler.Fresh(s.probers);
    var choice := OldestExists(s.db.deliveries, e);
    ProbeRepairs(s, e, choice);
    SameBudgetSelf(s.db.deliveries);
    SelectAllowed(s, p, e, choice);
    acts', s' := Go(o, s0, acts, s, Schedule(SelectProbe(p, e, choice)));
    AssignAllowed(s', p, e, choice);
    acts', s' := Go(o, s0, acts', s', Schedule(AssignProbe(p)));
    if choice.Some? {
      SelectAllowed(s', p, e, choice);
      acts', s' := Go(o, s0, acts', s', Schedule(ResetProbe(p)));
    }
  }

  lemma SameBudgetSelf(ds: Deliveries)
    ensures SameBudget(ds, ds)
  {
  }

  lemma SameBudgetChain(a: Deliveries, b: Deliveries, c: Deliveries)
    requires SameBudget(a, b) && SameBudget(b, c)
    ensures SameBudget(a, c)
  {
  }

  lemma {:induction false} RepairAll(o: Answers, s0: State, acts: seq<Action>, s: State) returns (acts': seq<Action>, s': State)
    requires Kept(o, s0, acts, s) && Idle(s)
    ensures Kept(o, s0, acts', s') && Idle(s') && Orphans(s'.db.endpoints) == {} && SameBudget(s.db.deliveries, s'.db.deliveries)
    decreases |Orphans(s.db.endpoints)|
  {
    hide Kept, Idle, SameBudget;
    acts', s' := acts, s;
    SameBudgetSelf(s.db.deliveries);
    if e: Id :| e in Orphans(s.db.endpoints) {
      acts', s' := RepairOne(o, s0, acts, s, e);
      var mid := s'.db.deliveries;
      acts', s' := RepairAll(o, s0, acts', s');
      SameBudgetChain(s.db.deliveries, mid, s'.db.deliveries);
    }
  }

  lemma PickEligible(s: State) returns (id: Id)
    requires Good(s) && Idle(s) && Orphans(s.db.endpoints) == {} && !Drain.AllTerminal(s.db.deliveries)
    ensures Eligible(s.db, s.now, id) && s.cfg.batch >= 1
  {
    assert forall e | e in s.db.endpoints :: !P.Orphan(s.db.endpoints, e) by {
      assert forall e | e in s.db.endpoints :: e !in Orphans(s.db.endpoints);
    }
    Drain.SomethingEligible(s);
    Drain.GoodRows(s);
    id :| id in EligibleIds(s.db, s.now);
  }

  lemma ClaimKeepsBudgets(s: State, id: Id, lease: Time)
    requires Eligible(s.db, s.now, id)
    ensures SameBudget(s.db.deliveries, Claim(s.db.deliveries, {id}, lease, s.now))
    ensures SoundAllows(s, Schedule(ClaimReady({id}, lease)))
  {
  }

  lemma ClaimOne(o: Answers, s0: State, acts: seq<Action>, s: State) returns (acts': seq<Action>, s': State)
    requires Kept(o, s0, acts, s) && Idle(s) && Orphans(s.db.endpoints) == {} && !Drain.AllTerminal(s.db.deliveries)
    ensures Kept(o, s0, acts', s') && SameBudget(s.db.deliveries, s'.db.deliveries)
    ensures s'.workers == map[] && s'.outbox == multiset{} && s'.msgs != multiset{}
  {
    hide Kept, Good, AttendedState, Eligible, Claim, SoundAllows, Orphans, SameBudget, Rested, NoneOpen, Drain.AllTerminal;
    KeptParts(o, s0, acts, s);
    var id := PickEligible(s);
    ClaimKeepsBudgets(s, id, s.now);
    acts', s' := Go(o, s0, acts, s, Schedule(ClaimReady({id}, s.now)));
    assert s'.outbox == multiset{id};
    PublishAllowed(s', id);
    acts', s' := Go(o, s0, acts', s', Queue(Publish(id)));
  }

  lemma PublishAllowed(s: State, id: Id)
    ensures SoundAllows(s, Queue(Publish(id)))
  {
  }

  /** One round: wait, reap, repair the circuits, claim, publish, attempt. */
  lemma OneRound(o: Answers, s0: State, acts: seq<Action>, s: State) returns (acts': seq<Action>, s': State)
    requires Kept(o, s0, acts, s) && Drain.Quiet(s) && !Drain.AllTerminal(s.db.deliveries)
    ensures Kept(o, s0, acts', s') && Drain.Quiet(s')
    ensures Drain.Remaining(s'.db.deliveries) < Drain.Remaining(s.db.deliveries)
  {
    hide Kept, Idle, SameBudget, Orphans, Drain.Quiet, Drain.AllTerminal, Drain.Remaining;
    acts', s' := WaitReapExpire(o, s0, acts, s);
    var waited := s'.db.deliveries;
    acts', s' := RepairAll(o, s0, acts', s');
    SameBudgetChain(s.db.deliveries, waited, s'.db.deliveries);
    SameBudgetRemains(s.db.deliveries, s'.db.deliveries);
    var repaired := s'.db.deliveries;
    acts', s' := ClaimOne(o, s0, acts', s');
    SameBudgetRemains(repaired, s'.db.deliveries);
    acts', s' := ConsumeMessages(o, s0, acts', s');
  }

  lemma {:induction false} FinishAll(o: Answers, s0: State, acts: seq<Action>, s: State) returns (acts': seq<Action>, s': State)
    requires Kept(o, s0, acts, s) && Drain.Quiet(s)
    ensures Kept(o, s0, acts', s') && Drain.AllTerminal(s'.db.deliveries)
    decreases Drain.Remaining(s.db.deliveries)
  {
    hide Kept, Drain.Quiet, Drain.AllTerminal, Drain.Remaining;
    acts', s' := acts, s;
    if !Drain.AllTerminal(s.db.deliveries) {
      acts', s' := OneRound(o, s0, acts, s);
      acts', s' := FinishAll(o, s0, acts', s');
    }
  }

  // ----- continuations of runs ------------------------------------------------------------

  /** r2 is a sound run without late crash that goes on from state i of r1 with
      driving actions and the given answers only. */
  ghost predicate GoesOn(o: Answers, r1: Run, i: nat, r2: Run)
    requires |r1.states| == |r1.actions| + 1 && i < |r1.states|
  {
    && SoundRun(r2) && NoLateCrash(r2)
    && i <= |r2.actions| && r2.actions[..i] == r1.actions[..i] && r2.states[..i+1] == r1.states[..i+1]
    && forall j | i <= j < |r2.actions| :: Driving(r2.actions[j]) && Answered(o, r2.states[j], r2.actions[j])
  }

  lemma Resume(o: Answers, r: Run, i: nat, acts: seq<Action>, s: State) returns (r': Run)
    requires SoundRun(r) && NoLateCrash(r) && i < |r.states| && Steps(Driver(o), r.states[i], acts, s)
    ensures GoesOn(o, r, i, r') && r'.actions == r.actions[..i] + acts && r'.states[|r'.actions|] == s
  {
    hide Steps, SoundAllows, Answered, r.StepAt, Init;
    r' := Realize(Driver(o), r, i, acts, s);
    forall j: nat | j < |r'.actions|
      ensures SoundAllows(r'.states[j], r'.actions[j]) && !LateCrash(r'.states[j], r'.actions[j])
    {
      if j < i {
        assert r'.states[..i+1][j] == r.states[j] && r'.actions[..i][j] == r.actions[j];
      } else {
        assert Driver(o)(r'.states[j], r'.actions[j]);
      }
    }
  }

  /** From every reachable state in which no worker has died after InsertStarted,
      and for whatever answers the receivers give, the run can go on without any
      loss, drop, duplicate, crash or store error, until nothing is under way. */
  lemma NoDeadlock(o: Answers, r: Run, i: nat) returns (r': Run)
    requires SoundRun(r) && NoLateCrash(r) && i < |r.states|
    ensures GoesOn(o, r, i, r') && Drain.Quiet(r'.states[|r'.actions|])
    ensures Good(r'.states[|r'.actions|]) && Drain.Clean(r'.states[|r'.actions|].db)
  {
    GoodAlways(r, i);
    AttendedAlways(r, i);
    hide SoundRun, NoLateCrash, Good, AttendedState, Kept, Steps, GoesOn, Drain.Quiet, Drain.Clean;
    StartKept(o, r.states[i]);
    var acts, s := ReachQuiet(o, r.states[i], [], r.states[i]);
    KeptParts(o, r.states[i], acts, s);
    QuietIsClean(s);
    r' := Resume(o, r, i, acts, s);
  }

  lemma QuietIsClean(s: State)
    requires AttendedState(s) && Drain.Quiet(s)
    ensures Drain.Clean(s.db)
  {
  }

  /** From there it can go on until every delivery is delivered or permanently_failed. */
  lemma EverythingCanFinish(o: Answers, r: Run, i: nat) returns (r': Run)
    requires SoundRun(r) && NoLateCrash(r) && i < |r.states|
    ensures GoesOn(o, r, i, r') && Drain.AllTerminal(r'.states[|r'.actions|].db.deliveries)
  {
    GoodAlways(r, i);
    AttendedAlways(r, i);
    hide SoundRun, NoLateCrash, Good, AttendedState, Kept, Steps, GoesOn, Drain.Quiet, Drain.AllTerminal;
    StartKept(o, r.states[i]);
    var acts, s := ReachQuiet(o, r.states[i], [], r.states[i]);
    acts, s := FinishAll(o, r.states[i], acts, s);
    KeptParts(o, r.states[i], acts, s);
    r' := Resume(o, r, i, acts, s);
  }
}
