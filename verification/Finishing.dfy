/** Which unfinished deliveries can still finish, in all runs: exactly those that
    no crash after InsertStarted blocks, neither their own nor, unless somebody
    holds them already, that of an earlier delivery of the tenant. */
module Finishing {
  import opened Model
  import opened CircuitBreaker
  import opened Retry
  import opened Statements
  import opened Pipeline
  import opened RunFacts
  import opened AttemptFence
  import opened Recovery
  import opened ReplayForest
  import opened Tracing
  import opened Attempts
  import opened HeadOfLine
  import Drain
  import Scheduler
  import P = ProbeDiscipline

  // ----- what holds in every reachable state --------------------------------------------

  ghost predicate Sane(s: State) {
    && s.cfg.threshold >= 1 && s.cfg.batch >= 1
    && FenceInv(s) && Forest(s) && P.RowsConsistent(s)
  }

  lemma {:induction false} SaneSteps(s0: State, acts: seq<Action>, s: State)
    requires Sane(s0) && Trace(s0, acts, s)
    ensures Sane(s)
    decreases |acts|
  {
    if acts != [] {
      var front, last := acts[..|acts|-1], acts[|acts|-1];
      var m: State :| Steps(Anything, s0, front, m) && Step(m, last, s);
      hide FenceInv, Forest, P.RowsConsistent, Enabled, Apply, Steps, Grows, SameEndpoints;
      SaneSteps(s0, front, m);
      StepLater(m, last);
      FenceStep(m, last);
      ForestStep(m, last);
      RowsConsistentStep(m, last);
    }
  }

  lemma SaneAlways(r: Run, i: nat)
    requires r.Valid() && i < |r.states|
    ensures Sane(r.states[i])
  {
    hide FenceInv, Forest, P.RowsConsistent, Enabled, Apply, Grows, SameEndpoints;
    RunLater(r, 0, i);
    FenceAlways(r, i);
    ForestAlways(r, i);
    P.RowsConsistentAlways(r, i);
  }

  // ----- what a continuation leaves alone ---------------------------------------------------

  /** Only deliveries of T have been attempted, nothing has been inserted or has
      become unfinished again. */
  ghost predicate Touched(s: State, s': State, T: set<Id>) {
    && s'.db.deliveries.Keys == s.db.deliveries.Keys
    && (forall d | d in s.db.deliveries ::
          && SameIdentity(s.db.deliveries[d], s'.db.deliveries[d])
          && (s.db.deliveries[d].status.Terminal() ==> s'.db.deliveries[d].status.Terminal())
          && (d !in T ==> && s'.db.deliveries[d].attemptCount == s.db.deliveries[d].attemptCount
                          && (s'.db.deliveries[d].status.Terminal() ==> s.db.deliveries[d].status.Terminal())))
    && (forall w | w in s.workers && s.workers[w].delivery !in T :: w in s'.workers && s'.workers[w] == s.workers[w])
    && (forall w | w in s'.workers && s'.workers[w].delivery !in T :: w in s.workers && s.workers[w] == s'.workers[w])
    && (forall key: (Id, nat) | key.0 !in T :: key in s'.db.attempts <==> key in s.db.attempts)
  }

  lemma TouchedChain(a: State, b: State, c: State, T: set<Id>, U: set<Id>, V: set<Id>)
    requires Touched(a, b, T) && Touched(b, c, U) && T <= V && U <= V
    ensures Touched(a, c, V)
  {
  }

  lemma UntouchedBlocked(s: State, s': State, T: set<Id>, d: Id)
    requires Touched(s, s', T) && d !in T && d in s.db.deliveries
    ensures Blocked(s', d) <==> Blocked(s, d)
  {
    assert forall w :: w in s.workers && s.workers[w].delivery == d ==> w in s'.workers && s'.workers[w] == s.workers[w];
    assert forall w :: w in s'.workers && s'.workers[w].delivery == d ==> w in s.workers && s.workers[w] == s'.workers[w];
  }

  /** Its next sequence is free, and so no worker is past InsertStarted on it. */
  ghost predicate Free(s: State, id: Id) {
    Pending(s.db.deliveries, id) && !NextTaken(s, id)
  }

  lemma UntouchedFree(s: State, s': State, T: set<Id>, d: Id)
    requires Touched(s, s', T) && d !in T && Free(s, d)
    ensures Free(s', d)
  {
  }

  /** Only the clock, in-flight rows and due times, circuits, probers, claims or messages differ. */
  ghost predicate SameCounters(s: State, s': State) {
    && s'.workers == s.workers && s'.db.attempts == s.db.attempts && s'.db.deliveries.Keys == s.db.deliveries.Keys
    && forall d | d in s.db.deliveries ::
         && SameIdentity(s.db.deliveries[d], s'.db.deliveries[d])
         && s'.db.deliveries[d].attemptCount == s.db.deliveries[d].attemptCount
         && (s'.db.deliveries[d].status.Terminal() <==> s.db.deliveries[d].status.Terminal())
  }

  lemma SameCountersTouch(s: State, s': State)
    requires SameCounters(s, s')
    ensures Touched(s, s', {})
  {
  }

  // ----- the attempt under way ---------------------------------------------------------------

  lemma PendingStorable(s: State, id: Id, o: Outcome, seqNo: nat)
    requires Sane(s) && Pending(s.db.deliveries, id)
    ensures Storable(s.db.deliveries, id, o, seqNo)
  {
    assert OneActiveReplay(s.db.deliveries);
    FinalRowIdentity(s.db.deliveries[id], o, seqNo, 0, 0);
  }

  /** s' is s after worker w has ended its attempt with outcome o. */
  ghost predicate Ended(s: State, s': State, w: Id, o: Outcome)
    requires w in s.workers && s.workers[w].delivery in s.db.deliveries
  {
    var k, ds, ds' := s.workers[w], s.db.deliveries, s'.db.deliveries;
    && s' == s.(workers := s.workers - {w}, db := s'.db, posts := s'.posts)
    && s'.db.attempts.Keys == s.db.attempts.Keys && k.delivery in ds'
    && ds' == ds[k.delivery := FinalRow(ds[k.delivery], o, k.seqNo, ds'[k.delivery].nextAttemptAt, s.now)]
  }

  lemma ToRecorded(s0: State, acts: seq<Action>, s: State, w: Id) returns (acts': seq<Action>, s': State, o: Outcome)
    requires Trace(s0, acts, s) && w in s.workers && Running(s.workers[w]) && !s.workers[w].stage.Settled?
    ensures Trace(s0, acts', s')
    ensures o == if s.workers[w].stage.Started? then Success else s.workers[w].stage.outcome
    ensures s' == s.(workers := s.workers[w := s.workers[w].(stage := Recorded(o))], db := s.db.(attempts := s'.db.attempts), posts := s'.posts)
    ensures (s.workers[w].delivery, s.workers[w].seqNo) in s.db.attempts ==> s'.db.attempts.Keys == s.db.attempts.Keys
  {
    PermitsAnything();
    hide Steps, Permits, Good;
    acts', s', o := acts, s, if s.workers[w].stage.Started? then Success else s.workers[w].stage.outcome;
    if s.workers[w].stage.Started? {
      acts', s' := PostAndRecord(Anything, s0, acts', s', w, Success);
    } else if s.workers[w].stage.Posted? {
      acts', s' := Extend(s0, acts', s', Work(UpdateOutcome(w, true, s.now)));
    }
  }

  lemma RunningRow(s: State, w: Id)
    requires Sane(s) && w in s.workers && Running(s.workers[w])
    ensures (s.workers[w].delivery, s.workers[w].seqNo) in s.db.attempts && s.workers[w].delivery in s.db.deliveries
    ensures s.workers[w].seqNo == s.db.deliveries[s.workers[w].delivery].attemptCount + 1
    ensures (s.workers[w].delivery, s.workers[w].seqNo + 1) !in s.db.attempts
    ensures forall v | v in s.workers && v != w && s.workers[v].delivery == s.workers[w].delivery :: s.workers[v].stage.Loaded?
  {
    RunningAlone(s, w);
    assert AttemptRows(s.db.deliveries, s.db.attempts) && WorkerFence(s);
  }

  lemma EndWorker(s0: State, acts: seq<Action>, s: State, w: Id) returns (acts': seq<Action>, s': State, o: Outcome)
    requires Trace(s0, acts, s) && Sane(s) && w in s.workers && Running(s.workers[w])
    requires Pending(s.db.deliveries, s.workers[w].delivery)
    ensures Trace(s0, acts', s') && Ended(s, s', w, o)
    ensures o == if s.workers[w].stage.Started? then Success else s.workers[w].stage.outcome
  {
    hide Steps, Permits, Sane, FinalRow, SettleEndpoint, Storable, RecordOutcome;
    PermitsAnything();
    RunningRow(s, w);
    var k := s.workers[w];
    if k.stage.Settled? {
      o := k.stage.outcome;
      PendingStorable(s, k.delivery, o, k.seqNo);
      acts', s' := FinishWorker(Anything, s0, acts, s, w);
    } else {
      acts', s', o := ToRecorded(s0, acts, s, w);
      PendingStorable(s, k.delivery, o, k.seqNo);
      var recorded := s'.workers;
      acts', s' := SettleThenFinish(Anything, s0, acts', s', w);
      assert recorded - {w} == s.workers - {w};
    }
  }

  lemma EndedTouches(s: State, s': State, w: Id, o: Outcome)
    requires w in s.workers && Pending(s.db.deliveries, s.workers[w].delivery) && Ended(s, s', w, o)
    ensures Touched(s, s', {s.workers[w].delivery})
  {
    var k := s.workers[w];
    FinalRowIdentity(s.db.deliveries[k.delivery], o, k.seqNo, s'.db.deliveries[k.delivery].nextAttemptAt, s.now);
    hide FinalRow;
    assert forall key :: key in s'.db.attempts <==> key in s'.db.attempts.Keys;
  }

  lemma EndedRow(s: State, s': State, w: Id, o: Outcome)
    requires Sane(s) && w in s.workers && Running(s.workers[w]) && Pending(s.db.deliveries, s.workers[w].delivery)
    requires Ended(s, s', w, o)
    ensures var k := s.workers[w];
            if !o.Retryable() || k.seqNo >= MAX_ATTEMPTS then !Pending(s'.db.deliveries, k.delivery) else Free(s', k.delivery)
  {
    RunningRow(s, w);
    hide Sane;
    assert (s.workers[w].delivery, s.workers[w].seqNo + 1) !in s'.db.attempts.Keys;
  }

  /** The attempt under way ends. */
  lemma ClearRunning(s0: State, acts: seq<Action>, s: State, w: Id) returns (acts': seq<Action>, s': State)
    requires Trace(s0, acts, s) && Sane(s) && w in s.workers && Running(s.workers[w])
    requires Pending(s.db.deliveries, s.workers[w].delivery)
    ensures var id := s.workers[w].delivery;
            && Trace(s0, acts', s') && Touched(s, s', {id}) && s'.outbox == s.outbox && s'.msgs == s.msgs
            && if MayEnd(s.workers[w]) then !Pending(s'.db.deliveries, id) else Free(s', id)
  {
    hide Steps, Sane, Touched, Ended;
    RunningRow(s, w);
    var o;
    acts', s', o := EndWorker(s0, acts, s, w);
    EndedTouches(s, s', w, o);
    EndedRow(s, s', w, o);
    EndedQueue(s, s', w, o);
  }

  /** Where a pending, unblocked delivery stands: its next sequence is free, or one worker is past InsertStarted. */
  lemma FreeOrRunning(s: State, id: Id) returns (w: Option<Id>)
    requires Sane(s) && Pending(s.db.deliveries, id) && !Blocked(s, id)
    ensures w.None? <==> Free(s, id)
    ensures w.Some? ==> RunningOn(s, w.value, id) && forall v | RunningOn(s, v, id) :: v == w.value
    ensures w.None? ==> forall v :: !RunningOn(s, v, id)
  {
    if v :| RunningOn(s, v, id) {
      RunningRow(s, v);
      w := Some(v);
    } else {
      w := None;
      NotRunningFree(s, id);
    }
  }

  /** An unblocked delivery ends its attempt under way, if it has one. */
  lemma Clear(s0: State, acts: seq<Action>, s: State, id: Id) returns (acts': seq<Action>, s': State)
    requires Trace(s0, acts, s) && Sane(s) && Pending(s.db.deliveries, id) && !Blocked(s, id)
    ensures Trace(s0, acts', s') && Touched(s, s', {id}) && s'.outbox == s.outbox && s'.msgs == s.msgs
    ensures !Pending(s'.db.deliveries, id) || Free(s', id)
    ensures (exists w :: RunningOn(s, w, id) && MayEnd(s.workers[w])) ==> !Pending(s'.db.deliveries, id)
    ensures Free(s, id) ==> s' == s
  {
    hide Steps, Sane, Touched, Blocked, Free, MayEnd;
    var w := FreeOrRunning(s, id);
    if w.Some? {
      acts', s' := ClearRunning(s0, acts, s, w.value);
    } else {
      acts', s' := acts, s;
      NothingTouched(s, {id});
    }
  }

  lemma NothingTouched(s: State, T: set<Id>)
    ensures Touched(s, s, T)
  {
  }

  lemma EndedQueue(s: State, s': State, w: Id, o: Outcome)
    requires w in s.workers && s.workers[w].delivery in s.db.deliveries && Ended(s, s', w, o)
    ensures s'.outbox == s.outbox && s'.msgs == s.msgs
  {
  }

  lemma NotRunningFree(s: State, id: Id)
    requires Pending(s.db.deliveries, id) && !Blocked(s, id) && forall w :: !RunningOn(s, w, id)
    ensures Free(s, id)
  {
    forall w | w in s.workers && s.workers[w].delivery == id ensures s.workers[w].stage.Loaded? {
      assert !RunningOn(s, w, id);
    }
  }

  // ----- a new attempt -------------------------------------------------------------------------

  lemma DoneTouches(s: State, s': State, id: Id)
    requires id in s.db.deliveries && s.db.deliveries[id].endpoint in s.db.endpoints && AttemptDone(s, s', id, Success)
    ensures Touched(s, s', {id}) && !Pending(s'.db.deliveries, id)
  {
    assert forall key :: key in s'.db.attempts <==> key in s'.db.attempts.Keys;
  }

  lemma SaneEndpoint(s: State, id: Id)
    requires Sane(s) && id in s.db.deliveries
    ensures s.db.deliveries[id].endpoint in s.db.endpoints
    ensures s.db.deliveries[id].tenant == s.db.endpoints[s.db.deliveries[id].endpoint].tenant
  {
    assert TenantOfEndpoint(s.db.deliveries, s.db.endpoints);
  }

  /** A message whose sequence is free is attempted with success. */
  lemma AttemptMessage(s0: State, acts: seq<Action>, s: State, id: Id) returns (acts': seq<Action>, s': State)
    requires Trace(s0, acts, s) && Sane(s) && Free(s, id) && id in s.msgs
    ensures Trace(s0, acts', s') && Touched(s, s', {id}) && !Pending(s'.db.deliveries, id)
  {
    PermitsAnything();
    SaneEndpoint(s, id);
    PendingStorable(s, id, Success, s.db.deliveries[id].attemptCount + 1);
    hide Steps, Permits, Sane, Touched, AttemptDone, Storable;
    acts', s' := OneAttempt(Anything, s0, acts, s, Scheduler.Fresh(s.workers), id, Success);
    DoneTouches(s, s', id);
  }

  lemma PublishClaim(s0: State, acts: seq<Action>, s: State, id: Id) returns (acts': seq<Action>, s': State)
    requires Trace(s0, acts, s) && Free(s, id) && id in s.outbox
    ensures Trace(s0, acts', s') && Touched(s, s', {}) && Free(s', id) && id in s'.msgs
  {
    hide Steps, Good, Touched;
    acts', s' := Extend(s0, acts, s, Queue(Publish(id)));
    SameCountersTouch(s, s');
  }

  /** A worker that loaded the free sequence goes on. */
  lemma StartLoaded(s0: State, acts: seq<Action>, s: State, w: Id, id: Id) returns (acts': seq<Action>, s': State)
    requires Trace(s0, acts, s) && Sane(s) && Free(s, id) && LoadedNext(s, w, id)
    ensures Trace(s0, acts', s') && Touched(s, s', {id}) && !Pending(s'.db.deliveries, id)
  {
    hide Steps, Good, Sane, Touched;
    acts', s' := Extend(s0, acts, s, Work(InsertStarted(w)));
    InsertTouches(s, w);
    SaneStep(s, Work(InsertStarted(w)));
    var mid := s';
    acts', s' := ClearRunning(s0, acts', s', w);
    TouchedChain(s, mid, s', {id}, {id}, {id});
  }

  lemma InsertTouches(s: State, w: Id)
    requires w in s.workers && s.workers[w].stage.Loaded?
    ensures Touched(s, DoInsertStarted(s, w), {s.workers[w].delivery})
  {
  }

  lemma SaneStep(s: State, a: Action)
    requires Sane(s) && Enabled(s, a)
    ensures Sane(Apply(s, a))
  {
    hide Enabled, Apply, Sane, Good;
    var acts, s' := Extend(s, [], s, a);
    SaneSteps(s, acts, s');
  }

  // ----- a new claim ---------------------------------------------------------------------------

  /** Time passes until every recorded time is past, and the reaper returns what is leased. */
  lemma WaitAndReap(s0: State, acts: seq<Action>, s: State) returns (acts': seq<Action>, s': State)
    requires Trace(s0, acts, s) && Sane(s)
    ensures Trace(s0, acts', s') && Drain.Past(s.db, s'.now)
    ensures s' == s.(now := s'.now, db := s.db.(deliveries := Resurrect(s.db.deliveries, s'.now)))
  {
    hide Steps, Good, Sane, Drain.Past, Resurrect;
    var t := Drain.PastExists(s.db.deliveries, s.db.endpoints, s.db.deliveries.Keys, s.db.endpoints.Keys);
    Drain.PastOf(s.db, t);
    var now := if t < s.now then s.now else t;
    Drain.PastStays(s.db, t, now);
    acts', s' := Extend(s0, acts, s, Advance(now));
    acts', s' := Extend(s0, acts', s', Schedule(Reap));
  }

  /** id is first in its tenant's queue. */
  predicate First(ds: Deliveries, id: Id) {
    forall b | b in ds :: !Blocks(ds, b, id)
  }

  lemma SameCountersFirst(s: State, s': State, id: Id)
    requires SameCounters(s, s') && id in s.db.deliveries
    ensures First(s'.db.deliveries, id) <==> First(s.db.deliveries, id)
    ensures Free(s', id) <==> Free(s, id)
  {
    forall b | b in s.db.deliveries ensures Blocks(s'.db.deliveries, b, id) <==> Blocks(s.db.deliveries, b, id) {}
  }

  lemma ReapedDue(s: State, s': State, id: Id)
    requires Sane(s) && Drain.Past(s.db, s'.now) && id in s.db.deliveries
    requires s' == s.(now := s'.now, db := s.db.(deliveries := Resurrect(s.db.deliveries, s'.now)))
    ensures SameCounters(s, s') && s'.db.deliveries[id].nextAttemptAt <= s'.now && !s'.db.deliveries[id].status.InFlight?
  {
    assert LeaseIffInFlight(s.db.deliveries);
  }

  /** id is scheduled, due, and first in its tenant's queue. */
  ghost predicate Due(s: State, id: Id) {
    && Free(s, id) && First(s.db.deliveries, id)
    && s.db.deliveries[id].status.Scheduled? && s.db.deliveries[id].nextAttemptAt <= s.now
  }

  lemma BecomesDue(s0: State, acts: seq<Action>, s: State, id: Id) returns (acts': seq<Action>, s': State)
    requires Trace(s0, acts, s) && Sane(s) && Free(s, id) && First(s.db.deliveries, id)
    ensures Trace(s0, acts', s') && Touched(s, s', {}) && Due(s', id)
    ensures s'.db.endpoints == s.db.endpoints && Drain.Past(s.db, s'.now)
  {
    hide Steps, Sane, Drain.Past, Resurrect, Touched, First, SameCounters;
    acts', s' := WaitAndReap(s0, acts, s);
    ReapedDue(s, s', id);
    SameCountersFirst(s, s', id);
    SameCountersTouch(s, s');
    FreePending(s', id);
  }

  lemma FreePending(s: State, id: Id)
    requires Free(s, id)
    ensures id in s.db.deliveries && !s.db.deliveries[id].status.Terminal()
  {
  }

  /** The circuit of id's endpoint. */
  function CircuitOf(s: State, id: Id): Circuit
    requires id in s.db.deliveries && s.db.deliveries[id].endpoint in s.db.endpoints
  {
    s.db.endpoints[s.db.deliveries[id].endpoint].circuit
  }

  lemma ExpiryReopens(s: State, id: Id)
    requires Sane(s) && Due(s, id)
    requires forall e | e in s.db.endpoints && s.db.endpoints[e].circuit.suspendedUntil.Some? ::
               s.db.endpoints[e].circuit.suspendedUntil.value <= s.now
    ensures var s' := ApplyScheduler(s, ExpireOpen);
            && SameCounters(s, s') && Due(s', id) && s'.db.deliveries == s.db.deliveries && s'.now == s.now
            && s.db.deliveries[id].endpoint in s'.db.endpoints && !CircuitOf(s', id).state.Open?
  {
    SaneEndpoint(s, id);
    var e := s.db.deliveries[id].endpoint;
    assert RowInv(s.db.endpoints[e].circuit, s.cfg);
    assert Queued(s.db.deliveries, e);
  }

  lemma Unsuspend(s0: State, acts: seq<Action>, s: State, id: Id) returns (acts': seq<Action>, s': State)
    requires Trace(s0, acts, s) && Sane(s) && Due(s, id)
    requires forall e | e in s.db.endpoints && s.db.endpoints[e].circuit.suspendedUntil.Some? ::
               s.db.endpoints[e].circuit.suspendedUntil.value <= s.now
    ensures Trace(s0, acts', s') && Touched(s, s', {}) && Due(s', id)
    ensures id in s'.db.deliveries && s'.db.deliveries[id].endpoint in s'.db.endpoints && !CircuitOf(s', id).state.Open?
  {
    ExpiryReopens(s, id);
    hide Steps, Good, Sane, Touched, Due, SameCounters, ApplyScheduler;
    DueRow(s, id);
    acts', s' := Extend(s0, acts, s, Schedule(ExpireOpen));
    SameCountersTouch(s, s');
  }

  lemma DueRow(s: State, id: Id)
    requires Due(s, id)
    ensures id in s.db.deliveries && s.db.deliveries[id].status.Scheduled?
  {
  }

  /** The first of its tenant's queue is the oldest of its endpoint. */
  lemma FirstIsOldest(s: State, id: Id)
    requires Sane(s) && Due(s, id)
    ensures id in s.db.deliveries && OldestQueued(s.db.deliveries, s.db.deliveries[id].endpoint, Some(id))
  {
    assert TenantOfEndpoint(s.db.deliveries, s.db.endpoints);
    var ds := s.db.deliveries;
    forall x | x in ds && ds[x].endpoint == ds[id].endpoint && !ds[x].status.Terminal()
      ensures ds[id].createdAt <= ds[x].createdAt
    {
      assert !Blocks(ds, x, id);
    }
  }

  lemma AssignTouches(s: State, p: Id, id: Id)
    requires p in s.probers && id in s.db.deliveries && s.probers[p] == Selected(s.db.deliveries[id].endpoint, Some(id)) && Due(s, id)
    requires s.db.deliveries[id].endpoint in s.db.endpoints && CircuitOf(s, id).state.HalfOpen?
    ensures var s' := DoAssignProbe(s, p);
            && SameCounters(s, s') && Due(s', id) && s'.db.deliveries == s.db.deliveries
            && s.db.deliveries[id].endpoint in s'.db.endpoints && CircuitAdmits(CircuitOf(s', id), id)
  {
  }

  lemma SelectDue(s0: State, acts: seq<Action>, s: State, p: Id, id: Id) returns (acts': seq<Action>, s': State)
    requires Trace(s0, acts, s) && Sane(s) && Due(s, id) && p !in s.probers
    ensures Trace(s0, acts', s') && id in s.db.deliveries
    ensures s' == s.(probers := s.probers[p := Selected(s.db.deliveries[id].endpoint, Some(id))])
  {
    FirstIsOldest(s, id);
    hide Steps, Good, Sane, OldestQueued, Due;
    acts', s' := Extend(s0, acts, s, Schedule(SelectProbe(p, s.db.deliveries[id].endpoint, Some(id))));
  }

  lemma DueStays(s: State, s': State, id: Id)
    requires Due(s, id) && s'.db == s.db && s'.now == s.now && s'.workers == s.workers
    ensures Due(s', id) && Touched(s, s', {})
  {
  }

  /** A new SetProbeDelivery call makes it the probe of the half-open endpoint. */
  lemma MakeProbe(s0: State, acts: seq<Action>, s: State, id: Id) returns (acts': seq<Action>, s': State)
    requires Trace(s0, acts, s) && Sane(s) && Due(s, id)
    requires id in s.db.deliveries && s.db.deliveries[id].endpoint in s.db.endpoints && CircuitOf(s, id).state.HalfOpen?
    ensures Trace(s0, acts', s') && Touched(s, s', {}) && Due(s', id)
    ensures id in s'.db.deliveries && s'.db.deliveries[id].endpoint in s'.db.endpoints && CircuitAdmits(CircuitOf(s', id), id)
  {
    hide Steps, Good, Sane, Touched, Due, SameCounters, DoAssignProbe, CircuitAdmits;
    var p := Scheduler.Fresh(s.probers);
    acts', s' := SelectDue(s0, acts, s, p, id);
    var s1 := s';
    DueStays(s, s1, id);
    AssignTouches(s1, p, id);
    acts', s' := Extend(s0, acts', s1, Schedule(AssignProbe(p)));
    SameCountersTouch(s1, s');
    TouchedChain(s, s1, s', {}, {}, {});
  }

  lemma MakeAdmitted(s0: State, acts: seq<Action>, s: State, id: Id) returns (acts': seq<Action>, s': State)
    requires Trace(s0, acts, s) && Sane(s) && Due(s, id)
    requires id in s.db.deliveries && s.db.deliveries[id].endpoint in s.db.endpoints && !CircuitOf(s, id).state.Open?
    ensures Trace(s0, acts', s') && Touched(s, s', {}) && Due(s', id)
    ensures id in s'.db.deliveries && s'.db.deliveries[id].endpoint in s'.db.endpoints && CircuitAdmits(CircuitOf(s', id), id)
  {
    hide Steps, Sane, Touched, Due;
    acts', s' := acts, s;
    NothingTouched(s, {});
    if !CircuitAdmits(CircuitOf(s, id), id) {
      acts', s' := MakeProbe(s0, acts, s, id);
    }
  }

  lemma DueEligible(s: State, id: Id)
    requires s.cfg.batch >= 1 && Due(s, id)
    requires s.db.deliveries[id].endpoint in s.db.endpoints && CircuitAdmits(CircuitOf(s, id), id)
    ensures Eligible(s.db, s.now, id)
    ensures var s' := ApplyScheduler(s, ClaimReady({id}, s.now)); SameCounters(s, s') && Free(s', id) && id in s'.outbox
  {
  }

  lemma ClaimDue(s0: State, acts: seq<Action>, s: State, id: Id) returns (acts': seq<Action>, s': State)
    requires Trace(s0, acts, s) && Sane(s) && Due(s, id)
    requires s.db.deliveries[id].endpoint in s.db.endpoints && CircuitAdmits(CircuitOf(s, id), id)
    ensures Trace(s0, acts', s') && Touched(s, s', {}) && Free(s', id) && id in s'.outbox
  {
    assert s.cfg.batch >= 1;
    DueEligible(s, id);
    hide Steps, Good, Sane, Touched, Due, SameCounters, Eligible, ApplyScheduler;
    acts', s' := Extend(s0, acts, s, Schedule(ClaimReady({id}, s.now)));
    SameCountersTouch(s, s');
  }

  /** The first of its tenant's queue, wherever its claim has gone, can be
      claimed anew and attempted with success. */
  lemma Reclaim(s0: State, acts: seq<Action>, s: State, id: Id) returns (acts': seq<Action>, s': State)
    requires Trace(s0, acts, s) && Sane(s0) && Sane(s) && Free(s, id) && First(s.db.deliveries, id)
    ensures Trace(s0, acts', s') && Touched(s, s', {id}) && !Pending(s'.db.deliveries, id)
  {
    hide Sane, Free, First, Due, Touched, Drain.Past, CircuitAdmits, Steps;
    acts', s' := BecomesDue(s0, acts, s, id);
    SaneSteps(s0, acts', s');
    PastSuspensions(s.db, s'.now);
    var s1 := s';
    acts', s' := Unsuspend(s0, acts', s', id);
    SaneSteps(s0, acts', s');
    TouchedChain(s, s1, s', {}, {}, {});
    s1 := s';
    acts', s' := MakeAdmitted(s0, acts', s', id);
    SaneSteps(s0, acts', s');
    TouchedChain(s, s1, s', {}, {}, {});
    s1 := s';
    acts', s' := ClaimDue(s0, acts', s', id);
    TouchedChain(s, s1, s', {}, {}, {});
    s1 := s';
    acts', s' := PublishClaim(s0, acts', s', id);
    SaneSteps(s0, acts', s');
    TouchedChain(s, s1, s', {}, {}, {});
    s1 := s';
    acts', s' := AttemptMessage(s0, acts', s', id);
    TouchedChain(s, s1, s', {}, {id}, {id});
  }

  lemma PastSuspensions(db: Tables, t: Time)
    requires Drain.Past(db, t)
    ensures forall e | e in db.endpoints && db.endpoints[e].circuit.suspendedUntil.Some? ::
              db.endpoints[e].circuit.suspendedUntil.value <= t
  {
  }

  // ----- what can finish does, in some continuation ---------------------------------------------

  /** The unfinished deliveries ahead of id in its tenant's queue. */
  function Ahead(ds: Deliveries, id: Id): set<Id> {
    set b | b in ds && Blocks(ds, b, id)
  }

  lemma AheadUntouched(s: State, s': State, T: set<Id>, id: Id)
    requires Touched(s, s', T) && id in s.db.deliveries
    ensures Ahead(s'.db.deliveries, id) <= Ahead(s.db.deliveries, id)
  {
    forall b | b in Ahead(s'.db.deliveries, id) ensures b in Ahead(s.db.deliveries, id) {
      assert b in s.db.deliveries && SameIdentity(s.db.deliveries[b], s'.db.deliveries[b]);
    }
  }

  lemma AheadOfAhead(ds: Deliveries, b: Id, id: Id)
    requires b in Ahead(ds, id)
    ensures Ahead(ds, b) < Ahead(ds, id) && Pending(ds, b) && id !in Ahead(ds, b) + {b}
  {
    assert b !in Ahead(ds, b);
  }

  lemma NoneAhead(ds: Deliveries, id: Id)
    requires Ahead(ds, id) == {}
    ensures First(ds, id)
  {
    forall b | b in ds ensures !Blocks(ds, b, id) { assert b !in Ahead(ds, id); }
  }

  /** Whoever is ahead was ahead before and, untouched, is as blocked as before. */
  lemma StillNotHeadBlocked(s: State, s': State, T: set<Id>, id: Id)
    requires Touched(s, s', T) && !HeadBlocked(s, id) && id in s.db.deliveries
    requires forall d | d in T :: d == id || !Pending(s'.db.deliveries, d)
    ensures !HeadBlocked(s', id)
  {
    forall b ensures !(Blocks(s'.db.deliveries, b, id) && Blocked(s', b)) {
      if Blocks(s'.db.deliveries, b, id) && Blocked(s', b) {
        assert Blocks(s.db.deliveries, b, id);
        UntouchedBlocked(s, s', T, b);
      }
    }
  }

  lemma NotBlockedAhead(s: State, b: Id, id: Id)
    requires b in Ahead(s.db.deliveries, id) && !HeadBlocked(s, id)
    ensures !Blocked(s, b) && !HeadBlocked(s, b)
  {
    forall c ensures !(Blocks(s.db.deliveries, c, b) && Blocked(s, c)) {
      assert Blocks(s.db.deliveries, c, b) ==> Blocks(s.db.deliveries, c, id);
    }
  }

  lemma FreeNotBlocked(s: State, id: Id)
    requires Free(s, id)
    ensures !Blocked(s, id) && Pending(s.db.deliveries, id)
  {
  }

  lemma StaysDone(s: State, s': State, T: set<Id>, d: Id)
    requires Touched(s, s', T) && !Pending(s.db.deliveries, d)
    ensures !Pending(s'.db.deliveries, d)
  {
  }

  lemma DoneLeavesAhead(ds: Deliveries, ds': Deliveries, b: Id, id: Id)
    requires b in Ahead(ds, id) && Ahead(ds', id) <= Ahead(ds, id) && !Pending(ds', b)
    ensures |Ahead(ds', id)| < |Ahead(ds, id)|
  {
    assert b !in Ahead(ds', id);
    SubsetSmaller(Ahead(ds', id), Ahead(ds, id));
  }

  lemma SubsetSmaller(a: set<Id>, b: set<Id>)
    requires a < b
    ensures |a| < |b|
  {
    var x :| x in b && x !in a;
    SubsetCard(a, b - {x});
  }

  lemma {:induction false} SubsetCard(a: set<Id>, b: set<Id>)
    requires a <= b
    ensures |a| <= |b|
  {
    if a != {} {
      var x :| x in a;
      SubsetCard(a - {x}, b - {x});
    }
  }

  /** An unblocked delivery with no blocked one ahead finishes, and with it whoever has to go first. */
  lemma {:induction false} FinishInOrder(s0: State, acts: seq<Action>, s: State, id: Id)
    returns (acts': seq<Action>, s': State, T: set<Id>)
    requires Trace(s0, acts, s) && Sane(s0) && Sane(s)
    requires Pending(s.db.deliveries, id) && !Blocked(s, id) && !HeadBlocked(s, id)
    ensures Trace(s0, acts', s') && Sane(s') && Touched(s, s', T) && id in T && T <= Ahead(s.db.deliveries, id) + {id}
    ensures forall d | d in T :: !Pending(s'.db.deliveries, d)
    decreases |Ahead(s.db.deliveries, id)|, 1
  {
    hide Sane, Free, First, Touched, Blocked, HeadBlocked, Blocks, Steps, Ahead;
    T := {id};
    acts', s' := Clear(s0, acts, s, id);
    SaneSteps(s0, acts', s');
    if Pending(s'.db.deliveries, id) {
      var s1 := s';
      AheadUntouched(s, s1, {id}, id);
      SubsetCard(Ahead(s1.db.deliveries, id), Ahead(s.db.deliveries, id));
      if b :| b in Ahead(s1.db.deliveries, id) {
        StillNotHeadBlocked(s, s1, {id}, id);
        acts', s', T := FinishBehind(s0, acts', s1, b, id);
        TouchedChain(s, s1, s', {id}, T, T);
      } else {
        NoneAhead(s1.db.deliveries, id);
        acts', s' := Reclaim(s0, acts', s1, id);
        SaneSteps(s0, acts', s');
        TouchedChain(s, s1, s', {id}, {id}, {id});
      }
    }
  }

  /** The same of a delivery whose next sequence is free, b being ahead of it. */
  lemma {:induction false} FinishBehind(s0: State, acts: seq<Action>, s: State, b: Id, id: Id)
    returns (acts': seq<Action>, s': State, T: set<Id>)
    requires Trace(s0, acts, s) && Sane(s0) && Sane(s)
    requires Free(s, id) && !HeadBlocked(s, id) && b in Ahead(s.db.deliveries, id)
    ensures Trace(s0, acts', s') && Sane(s') && Touched(s, s', T) && id in T && T <= Ahead(s.db.deliveries, id) + {id}
    ensures forall d | d in T :: !Pending(s'.db.deliveries, d)
    decreases |Ahead(s.db.deliveries, id)|, 0
  {
    hide Sane, Free, First, Touched, Blocked, HeadBlocked, Blocks, Steps, Ahead;
    AheadOfAhead(s.db.deliveries, b, id);
    SubsetSmaller(Ahead(s.db.deliveries, b), Ahead(s.db.deliveries, id));
    NotBlockedAhead(s, b, id);
    FreePending(s, id);
    acts', s', T := FinishInOrder(s0, acts, s, b);
    var s1, T1 := s', T;
    UntouchedFree(s, s1, T1, id);
    FreeNotBlocked(s1, id);
    StillNotHeadBlocked(s, s1, T1, id);
    AheadUntouched(s, s1, T1, id);
    DoneLeavesAhead(s.db.deliveries, s1.db.deliveries, b, id);
    acts', s', T := FinishInOrder(s0, acts', s1, id);
    forall d | d in T1 ensures !Pending(s'.db.deliveries, d) { StaysDone(s1, s', T, d); }
    TouchedChain(s, s1, s', T1, T, T1 + T);
    T := T1 + T;
  }

  /** A delivery that somebody holds already finishes, whoever is ahead of it. */
  lemma FinishServed(s0: State, acts: seq<Action>, s: State, id: Id) returns (acts': seq<Action>, s': State)
    requires Trace(s0, acts, s) && Sane(s0) && Sane(s) && Pending(s.db.deliveries, id) && !Blocked(s, id) && Served(s, id)
    ensures Trace(s0, acts', s') && Touched(s, s', {id}) && !Pending(s'.db.deliveries, id)
  {
    hide Sane, Free, Touched, Blocked, Steps, MayEnd;
    acts', s' := Clear(s0, acts, s, id);
    SaneSteps(s0, acts', s');
    if Pending(s'.db.deliveries, id) {
      var s1 := s';
      if id in s.msgs {
        acts', s' := AttemptMessage(s0, acts', s1, id);
      } else if id in s.outbox {
        acts', s' := PublishClaim(s0, acts', s1, id);
        SaneSteps(s0, acts', s');
        var s2 := s';
        acts', s' := AttemptMessage(s0, acts', s2, id);
        TouchedChain(s1, s2, s', {}, {id}, {id});
      } else {
        var w :| LoadedNext(s, w, id) && !NextTaken(s, id);
        LoadedIsFree(s, id);
        acts', s' := StartLoaded(s0, acts', s1, w, id);
      }
      TouchedChain(s, s1, s', {id}, {id}, {id});
    }
  }

  lemma LoadedIsFree(s: State, id: Id)
    requires Pending(s.db.deliveries, id) && !NextTaken(s, id)
    ensures Free(s, id)
  {
  }

  /** Every delivery that can finish does so in some continuation, which
      attempts no delivery that is terminal by now. */
  lemma FinishesSomehow(s: State, id: Id) returns (acts: seq<Action>, s': State, T: set<Id>)
    requires Sane(s) && CanFinish(s, id)
    ensures Trace(s, acts, s') && Sane(s') && Touched(s, s', T) && id in s'.db.deliveries && s'.db.deliveries[id].status.Terminal()
    ensures forall d | d in T :: Pending(s.db.deliveries, d)
  {
    hide Sane, Touched, Blocked, HeadBlocked, Served, Steps;
    NoTrace(s);
    if !HeadBlocked(s, id) {
      acts, s', T := FinishInOrder(s, [], s, id);
      forall d | d in T ensures Pending(s.db.deliveries, d) {
        if d != id { AheadOfAhead(s.db.deliveries, d, id); }
      }
    } else {
      acts, s' := FinishServed(s, [], s, id);
      SaneSteps(s, acts, s');
      T := {id};
    }
    TouchedKeys(s, s', T, id);
  }

  lemma NoTrace(s: State)
    ensures Trace(s, [], s)
  {
  }

  lemma TouchedKeys(s: State, s': State, T: set<Id>, id: Id)
    requires Touched(s, s', T) && id in s.db.deliveries
    ensures id in s'.db.deliveries
  {
  }

  ghost predicate EndsSomehow(s: State, id: Id) {
    exists acts, s' :: Trace(s, acts, s') && id in s'.db.deliveries && s'.db.deliveries[id].status.Terminal()
  }

  /** In every reachable state of every run, an unfinished delivery can still
      finish if and only if no worker died on its next attempt and, unless
      somebody holds it already, none died on an earlier unfinished delivery of
      the tenant. */
  lemma FinishesIff(r: Run, i: nat, id: Id)
    requires r.Valid() && i < |r.states| && Pending(r.states[i].db.deliveries, id)
    ensures EndsSomehow(r.states[i], id) <==> CanFinish(r.states[i], id)
  {
    var s := r.states[i];
    SaneAlways(r, i);
    SaneFence(s);
    hide Sane, FenceInv, CanFinish, Steps, Touched;
    if CanFinish(s, id) {
      var acts, s', T := FinishesSomehow(s, id);
    } else {
      forall acts, s' | Trace(s, acts, s') ensures Pending(s'.db.deliveries, id) {
        HopelessForever(s, acts, s', id);
      }
    }
  }

  lemma SaneFence(s: State)
    requires Sane(s)
    ensures FenceInv(s)
  {
    hide FenceInv;
  }
}
