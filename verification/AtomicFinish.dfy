/** Atomic finish: each circuit update is stored and directly followed by the
    same worker's final update. Of the conditions for the probe discipline
    only the one on SetProbeDelivery is left then. */
module AtomicFinish {
  import opened Model
  import opened CircuitBreaker
  import opened Retry
  import opened Statements
  import opened Pipeline
  import opened RunFacts
  import opened Fenced
  import opened ProbeDiscipline
  import opened ProbeCalls
  import opened SoundRuns

  predicate SettlesNow(a: Action) {
    a.Work? && a.work.SettleCircuit?
  }

  ghost predicate FinishesAtomically(r: Run) {
    forall i: nat :: i < |r.actions| && SettlesNow(r.actions[i]) ==>
      && r.actions[i].work.stored
      && (i + 1 < |r.actions| ==> r.actions[i+1].Work? && r.actions[i+1].work.Finish?
                                  && r.actions[i+1].work.worker == r.actions[i].work.worker)
  }

  /** The same of a list of actions, none left over. */
  ghost predicate Paired(acts: seq<Action>) {
    forall i: nat :: i < |acts| && SettlesNow(acts[i]) ==>
      && acts[i].work.stored && i + 1 < |acts|
      && acts[i+1].Work? && acts[i+1].work.Finish? && acts[i+1].work.worker == acts[i].work.worker
  }

  lemma PairedNext(acts: seq<Action>, a: Action)
    requires Paired(acts) && !SettlesNow(a)
    ensures Paired(acts + [a])
  {
  }

  lemma PairedFinish(acts: seq<Action>, w: Id, clock: Time, draw: int64)
    requires Paired(acts)
    ensures Paired(acts + [Work(SettleCircuit(w, true))] + [Work(Finish(w, clock, draw))])
  {
    var acts' := acts + [Work(SettleCircuit(w, true))] + [Work(Finish(w, clock, draw))];
    assert forall i: nat | i < |acts| :: acts'[i] == acts[i];
  }

  lemma PairedIsAtomic(r: Run)
    requires Paired(r.actions)
    ensures FinishesAtomically(r)
  {
  }

  /** Nothing is in flight to an open endpoint, except perhaps delivery x. */
  ghost predicate LiveNotOpen(s: State, x: Option<Id>) {
    forall d | LiveRow(s.db.deliveries, d) && x != Some(d) :: NotOpenAt(s.db.endpoints, s.db.deliveries[d].endpoint)
  }

  /** The delivery whose circuit the step before state i updated. */
  function JustSettled(r: Run, i: nat): Option<Id> {
    if 0 < i <= |r.actions| && i < |r.states| && SettlesNow(r.actions[i-1]) && r.actions[i-1].work.worker in r.states[i].workers
    then Some(r.states[i].workers[r.actions[i-1].work.worker].delivery)
    else None
  }

  lemma SettleLive(s: State, w: Id, stored: bool)
    requires LiveNotOpen(s, None) && Exclusive(s) && w in s.workers && s.workers[w].stage.Recorded?
    ensures LiveNotOpen(DoSettle(s, w, stored), Some(s.workers[w].delivery))
  {
    var k := s.workers[w];
    assert LiveRow(s.db.deliveries, k.delivery);
    hide Settle;
    forall d | LiveRow(s.db.deliveries, d) && d != k.delivery
      ensures s.db.deliveries[d].endpoint != k.endpoint
    {
    }
  }

  lemma FinishLive(s: State, w: Id, clock: Time, draw: int64)
    requires WorkerEnabled(s, Finish(w, clock, draw)) && Exclusive(s) && LiveNotOpen(s, Some(s.workers[w].delivery))
    ensures LiveNotOpen(DoFinish(s, w, clock, draw), None)
  {
    var k := s.workers[w];
    assert LiveRow(s.db.deliveries, k.delivery);
    ExclusiveIndex(s);
    hide Exclusive, DoFinish, FinalRow;
    FinishFrame(s, w, clock, draw);
    FinishStoresRow(s, w, clock, draw);
    FinalRowEnds(s.db.deliveries[k.delivery], k.stage.outcome, k.seqNo, NextAt(k, clock, draw), s.now);
  }

  lemma OtherWorkerLive(s: State, a: WorkerAction)
    requires WorkerEnabled(s, a) && LiveNotOpen(s, None) && !a.SettleCircuit? && !a.Finish?
    ensures LiveNotOpen(ApplyWorker(s, a), None)
  {
    hide InsertAttempt, RecordOutcome;
  }

  lemma ClientLive(s: State, a: ClientAction)
    requires ClientEnabled(s, a) && LiveNotOpen(s, None)
    ensures LiveNotOpen(ApplyClient(s, a), None)
  {
  }

  lemma QueueLive(s: State, a: QueueAction)
    requires QueueEnabled(s, a) && LiveNotOpen(s, None)
    ensures LiveNotOpen(ApplyQueue(s, a), None)
  {
    QueueFrame(s, a);
    hide QueueEnabled, ApplyQueue;
  }

  lemma ClaimLive(s: State, chosen: set<Id>, lease: Time)
    requires SchedulerEnabled(s, ClaimReady(chosen, lease)) && LiveNotOpen(s, None)
    ensures LiveNotOpen(ApplyScheduler(s, ClaimReady(chosen, lease)), None)
  {
    assert forall id | id in chosen :: Eligible(s.db, s.now, id);
  }

  lemma SchedulerLive(s: State, a: SchedulerAction)
    requires SchedulerEnabled(s, a) && LiveNotOpen(s, None)
    ensures LiveNotOpen(ApplyScheduler(s, a), None)
  {
    hide Claim, Eligible, OldestQueued;
    match a
    case ClaimReady(chosen, lease) => ClaimLive(s, chosen, lease);
    case _ =>
  }

  lemma OtherStepLive(s: State, a: Action)
    requires Enabled(s, a) && LiveNotOpen(s, None) && !SettlesNow(a) && !(a.Work? && a.work.Finish?)
    ensures LiveNotOpen(Apply(s, a), None)
  {
    hide LiveNotOpen, ClientEnabled, QueueEnabled, WorkerEnabled, SchedulerEnabled;
    hide ApplyClient, ApplyQueue, ApplyWorker, ApplyScheduler;
    match a
    case Client(c) => ClientLive(s, c);
    case Queue(q) => QueueLive(s, q);
    case Work(w) => OtherWorkerLive(s, w);
    case Schedule(c) => SchedulerLive(s, c);
    case Advance(to) => AdvanceLive(s, to);
  }

  lemma AdvanceLive(s: State, to: Time)
    requires LiveNotOpen(s, None)
    ensures LiveNotOpen(s.(now := to), None)
  {
  }

  lemma StartsNotOpen(s: State)
    requires Init(s)
    ensures LiveNotOpen(s, None)
  {
  }

  lemma NoneIsSome(s: State, x: Id)
    requires LiveNotOpen(s, None)
    ensures LiveNotOpen(s, Some(x))
  {
  }

  /** A worker's circuit update keeps it, so the next state knows its delivery. */
  lemma SettledStays(r: Run, i: nat)
    requires r.Valid() && i < |r.actions| && SettlesNow(r.actions[i])
    ensures var w := r.actions[i].work.worker;
            && w in r.states[i].workers && r.states[i].workers[w].stage.Recorded?
            && r.states[i+1] == DoSettle(r.states[i], w, r.actions[i].work.stored)
            && JustSettled(r, i + 1) == Some(r.states[i].workers[w].delivery)
  {
    assert r.StepAt(i);
    SettleFrame(r.states[i], r.actions[i].work.worker, r.actions[i].work.stored);
    hide DoSettle;
  }

  lemma {:induction false} LiveAlways(r: Run, i: nat)
    requires FencedRun(r) && FinishesAtomically(r) && i < |r.states|
    ensures LiveNotOpen(r.states[i], JustSettled(r, i))
  {
    hide LiveNotOpen, FenceAllows, Exclusive, RowsConsistent, Init, Enabled, Apply;
    if i == 0 {
      StartsNotOpen(r.states[0]);
    } else {
      var s, a := r.states[i-1], r.actions[i-1];
      LiveAlways(r, i - 1);
      FencedState(r, i - 1);
      if SettlesNow(a) {
        assert JustSettled(r, i - 1).None?;
        SettledStays(r, i - 1);
        SettleLive(s, a.work.worker, a.work.stored);
      } else if a.Work? && a.work.Finish? {
        FinishStep(s, a, JustSettled(r, i - 1));
      } else {
        assert JustSettled(r, i - 1).None?;
        OtherStepLive(s, a);
      }
    }
  }

  lemma FinishStep(s: State, a: Action, x: Option<Id>)
    requires Enabled(s, a) && a.Work? && a.work.Finish? && Exclusive(s) && LiveNotOpen(s, x)
    requires x.Some? ==> a.work.worker in s.workers && x == Some(s.workers[a.work.worker].delivery)
    ensures LiveNotOpen(Apply(s, a), None)
  {
    hide LiveNotOpen, Exclusive, DoFinish;
    if x.None? { NoneIsSome(s, s.workers[a.work.worker].delivery); }
    FinishLive(s, a.work.worker, a.work.clock, a.work.draw);
  }

  lemma NoneOpenExpires(s: State)
    requires LiveNotOpen(s, None)
    ensures ExpiryFindsNoneLive(s, Schedule(ExpireOpen))
  {
  }

  lemma AtomicExpiries(r: Run)
    requires FencedRun(r) && FinishesAtomically(r)
    ensures ExpiriesFindNoneLive(r)
  {
    hide FencedRun, LiveNotOpen, ExpiryFindsNoneLive;
    FencedShape(r);
    forall i: nat | i < |r.actions| && i < |r.states| ensures ExpiryFindsNoneLive(r.states[i], r.actions[i]) {
      if r.actions[i] == Schedule(ExpireOpen) {
        LiveAlways(r, i);
        NoneOpenExpires(r.states[i]);
      } else {
        NotAnExpiry(r.states[i], r.actions[i]);
      }
    }
  }

  lemma NotAnExpiry(s: State, a: Action)
    requires a != Schedule(ExpireOpen)
    ensures ExpiryFindsNoneLive(s, a)
  {
  }

  /** With atomic finish, however SetProbeDelivery calls overlap, the discipline
      holds exactly if every second statement is current. */
  lemma AtomicDisciplineIff(r: Run)
    requires FencedRun(r) && FinishesAtomically(r)
    ensures AlwaysDisciplined(r) <==> AssignsAreCurrent(r)
  {
    hide FencedRun, AllDisciplined, AssignIsCurrent, ExpiryFindsNoneLive;
    AtomicExpiries(r);
    StoredDisciplineIff(r);
  }

  /** With atomic finish and one SetProbeDelivery call per endpoint at a time the discipline holds. */
  lemma AtomicOneCallSuffices(r: Run)
    requires FencedRun(r) && FinishesAtomically(r) && OneCallRun(r)
    ensures AlwaysDisciplined(r)
  {
    hide FencedRun, OneCallRun, AllDisciplined, ExpiryFindsNoneLive, ProbeEndsAfterHalfOpen, ClaimsInv;
    AtomicExpiries(r);
    forall i: nat | i < |r.actions| && i < |r.states| ensures ProbeEndsAfterHalfOpen(r.states[i], r.actions[i]) {
      ClaimsAlways(r, i);
      ClaimsEndAfterHalfOpen(r.states[i], r.actions[i]);
    }
    OneCallSuffices(r);
  }
}
