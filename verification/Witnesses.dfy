/** Runs that show why hypotheses are needed: no duplicated messages for
    finality, distinct created_at for FIFO, and each of the three guards for the
    probe discipline. */
module Witnesses {
  import opened Model
  import opened CircuitBreaker
  import opened Retry
  import opened Statements
  import opened Pipeline
  import opened RunFacts
  import opened Fenced
  import opened Tracing
  import opened Attempts
  import opened ProbeDiscipline
  import opened SoundRuns
  import opened ProbeCalls
  import opened AtomicFinish

  const CFG := Config(1, 0, 1)

  const START := State(
    CFG, 0, Tables(map[], map[0 := Endpoint(0, FreshCircuit)], map[]),
    map[], multiset{}, multiset{}, map[], map[], {}, [])

  // ----- duplicated messages -----------------------------------------------------

  /** A worker never asks whether the row is still in flight: from any state in
      which two copies of a message for an early attempt are queued, the row can
      become delivered and then scheduled again. */
  lemma DuplicateUnfinishes(s: State, w: Id, id: Id) returns (first: seq<Action>, s1: State, second: seq<Action>, s2: State)
    requires w !in s.workers && s.msgs[id] >= 2 && id in s.db.deliveries
    requires s.db.deliveries[id].endpoint in s.db.endpoints && s.db.deliveries[id].source.None?
    requires s.db.deliveries[id].attemptCount + 2 < MAX_ATTEMPTS
    requires (id, s.db.deliveries[id].attemptCount + 1) !in s.db.attempts
    requires (id, s.db.deliveries[id].attemptCount + 2) !in s.db.attempts
    ensures Trace(s, first, s1) && id in s1.db.deliveries && s1.db.deliveries[id].status.Delivered?
    ensures Trace(s1, second, s2) && id in s2.db.deliveries && s2.db.deliveries[id].status.Scheduled?
  {
    PermitsAnything();
    NoSteps(Anything, s);
    hide Permits, Steps, AttemptDone;
    first, s1 := OneAttempt(Anything, s, [], s, w, id, Success);
    AfterSuccess(s, s1, id);
    assert s1.db.deliveries[id].endpoint in s1.db.endpoints.Keys;
    NoSteps(Anything, s1);
    second, s2 := OneAttempt(Anything, s1, [], s1, w, id, TransientFailure);
    AfterFailure(s1, s2, id);
  }

  lemma AfterSuccess(s: State, s1: State, id: Id)
    requires id in s.db.deliveries && s.db.deliveries[id].endpoint in s.db.endpoints
    requires AttemptDone(s, s1, id, Success) && s.msgs[id] >= 2
    requires (id, s.db.deliveries[id].attemptCount + 2) !in s.db.attempts
    ensures id in s1.msgs && s1.workers == s.workers && s1.db.endpoints.Keys == s.db.endpoints.Keys
    ensures id in s1.db.deliveries && s1.db.deliveries[id].status.Delivered?
    ensures SameIdentity(s.db.deliveries[id], s1.db.deliveries[id])
    ensures s1.db.deliveries[id].attemptCount == s.db.deliveries[id].attemptCount + 1
    ensures (id, s1.db.deliveries[id].attemptCount + 1) !in s1.db.attempts
  {
    assert (id, s.db.deliveries[id].attemptCount + 2) !in s1.db.attempts.Keys;
  }

  lemma AfterFailure(s: State, s1: State, id: Id)
    requires id in s.db.deliveries && s.db.deliveries[id].endpoint in s.db.endpoints
    requires AttemptDone(s, s1, id, TransientFailure)
    requires s.db.deliveries[id].attemptCount + 1 < MAX_ATTEMPTS
    ensures id in s1.db.deliveries && s1.db.deliveries[id].status.Scheduled?
  {
  }

  lemma ClaimAndDuplicate(s0: State, acts: seq<Action>, s: State, id: Id) returns (acts': seq<Action>, s': State)
    requires Trace(s0, acts, s) && Eligible(s.db, s.now, id) && s.cfg.batch >= 1 && s.outbox == s.msgs == multiset{}
    ensures Trace(s0, acts', s')
    ensures s' == WithDeliveries(s, Claim(s.db.deliveries, {id}, 60, s.now)).(msgs := multiset{id, id})
  {
    hide Steps, Good, Eligible, Claim;
    acts', s' := Extend(s0, acts, s, Schedule(ClaimReady({id}, 60)));
    acts', s' := Extend(s0, acts', s', Queue(Publish(id)));
    acts', s' := Extend(s0, acts', s', Queue(Duplicate(id)));
  }

  /** Such a state is reached with five steps from an empty table. */
  lemma DuplicateReachable() returns (acts: seq<Action>, s: State)
    ensures Init(START) && Trace(START, acts, s)
    ensures s.workers == map[] && s.msgs[0] == 2 && 0 in s.db.deliveries && 0 in s.db.endpoints && s.db.attempts == map[]
    ensures s.db.deliveries[0] == ClaimRow(NewDelivery(0, 0, 0, 0, None), 60, 0)
  {
    NoSteps(Anything, START);
    hide Steps;
    acts, s := OneSubmitted(Anything, START, [], START, 0);
    assert Eligible(s.db, s.now, 0);
    acts, s := ClaimAndDuplicate(START, acts, s, 0);
  }

  /** Transaction id submits delivery id to endpoint 0, at one instant. */
  lemma OneSubmitted(allow: (State, Action) -> bool, s0: State, acts: seq<Action>, s: State, id: Id)
    returns (acts': seq<Action>, s': State)
    requires Steps(allow, s0, acts, s) && s.submissions == map[] && id !in s.db.deliveries && 0 in s.db.endpoints
    requires allow(s, Client(BeginSubmit(id, 0)))
    requires allow(s.(submissions := map[id := Submission(s.now, 0)]), Client(CommitSubmit(id, id, id)))
    ensures acts' == acts + [Client(BeginSubmit(id, 0)), Client(CommitSubmit(id, id, id))]
    ensures Steps(allow, s0, acts', s') && (Paired(acts) ==> Paired(acts'))
    ensures s' == WithDeliveries(s, s.db.deliveries[id := NewDelivery(id, 0, s.db.endpoints[0].tenant, s.now, None)])
  {
    hide Steps, Paired, Permits, Careful;
    acts', s' := Do(allow, s0, acts, s, Client(BeginSubmit(id, 0)));
    assert s.submissions[id := Submission(s.now, 0)] == map[id := Submission(s.now, 0)];
    acts', s' := Do(allow, s0, acts', s', Client(CommitSubmit(id, id, id)));
    assert s.submissions[id := Submission(s.now, 0)] - {id} == map[];
  }

  // ----- equal created_at ------------------------------------------------------------

  /** Two submissions one after the other within one clock instant: the second
      can be claimed while the first is still scheduled. */
  lemma SameInstantOvertakes() returns (acts: seq<Action>, s: State)
    ensures Init(START) && Trace(START, acts, s)
    ensures acts == [Client(BeginSubmit(0, 0)), Client(CommitSubmit(0, 0, 0)), Client(BeginSubmit(1, 0)), Client(CommitSubmit(1, 1, 1))]
    ensures 0 in s.db.deliveries && 1 in s.db.deliveries && s.db.deliveries[0].tenant == s.db.deliveries[1].tenant
    ensures s.db.deliveries[0].status.Scheduled? && SchedulerEnabled(s, ClaimReady({1}, 60))
  {
    NoSteps(Anything, START);
    hide Steps;
    acts, s := OneSubmitted(Anything, START, [], START, 0);
    acts, s := OneSubmitted(Anything, START, acts, s, 1);
    assert forall b | b in s.db.deliveries :: !Blocks(s.db.deliveries, b, 1);
  }

  // ----- the setting of the probe witnesses --------------------------------------------

  /** At time 1, deliveries 0 and 1 of one endpoint with circuit c; delivery 0
      has been attempted n times and 1 never. */
  ghost predicate Scene(s: State, workers: map<Id, Worker>, status: Status, n: nat, c: Circuit) {
    && s.cfg == CFG && s.now == 1 && s.outbox == s.msgs == multiset{} && s.workers == workers
    && s.db.endpoints == map[0 := Endpoint(0, c)]
    && s.db.deliveries.Keys == {0, 1} && s.db.deliveries[1] == NewDelivery(1, 0, 0, 1, None)
    && (forall q: nat :: (0, q) in s.db.attempts ==> q <= n + |workers|)
    && var d := s.db.deliveries[0];
    && d.endpoint == 0 && d.tenant == 0 && d.source.None? && d.createdAt == 0 && d.status == status && d.attemptCount == n
  }

  function On0(n: nat, seen: Breaker, stage: Stage): (ws: map<Id, Worker>)
    ensures |ws| == 1
  {
    map[0 := Worker(0, n + 1, 0, seen, stage)]
  }

  lemma SubmitIsCareful(s: State, id: Id)
    requires id in s.submissions && (forall d | d in s.db.deliveries :: s.db.deliveries[d].createdAt < s.submissions[id].start)
    ensures Careful(s, Client(CommitSubmit(id, id, id)))
  {
  }

  lemma BeginIsCareful(s: State, id: Id)
    ensures Careful(s, Client(BeginSubmit(id, 0)))
  {
  }

  const FIRST := NewDelivery(0, 0, 0, 0, None)
  const SECOND := NewDelivery(1, 0, 0, 1, None)

  lemma FirstSubmitted(allow: (State, Action) -> bool) returns (acts: seq<Action>, s: State)
    requires Permits(allow)
    ensures Init(START) && Steps(allow, START, acts, s) && Paired(acts)
    ensures s == WithDeliveries(START, map[0 := FIRST]).(now := 1)
  {
    NoSteps(allow, START);
    assert Paired([]);
    BeginIsCareful(START, 0);
    SubmitIsCareful(START.(submissions := map[0 := Submission(0, 0)]), 0);
    hide Steps, Paired, Careful;
    acts, s := OneSubmitted(allow, START, [], START, 0);
    acts, s := AfterOneSecond(allow, acts, s);
  }

  lemma AfterOneSecond(allow: (State, Action) -> bool, acts: seq<Action>, s: State) returns (acts': seq<Action>, s': State)
    requires Permits(allow) && Steps(allow, START, acts, s) && s.now == 0
    ensures Steps(allow, START, acts', s') && (Paired(acts) ==> Paired(acts')) && s' == s.(now := 1)
  {
    hide Permits, Steps, Paired;
    acts', s' := Do(allow, START, acts, s, Advance(1));
  }

  lemma TwoSubmitted(allow: (State, Action) -> bool) returns (acts: seq<Action>, s: State)
    requires Permits(allow)
    ensures Steps(allow, START, acts, s) && Paired(acts)
    ensures Scene(s, map[], Scheduled, 0, FreshCircuit) && s.probers == map[] && s.db.deliveries[0].nextAttemptAt <= 1
  {
    hide Steps, Paired, Careful, Scene, Init;
    acts, s := FirstSubmitted(allow);
    BeginIsCareful(s, 1);
    SubmitIsCareful(s.(submissions := map[1 := Submission(1, 0)]), 1);
    acts, s := OneSubmitted(allow, START, acts, s, 1);
    assert map[0 := FIRST][1 := SECOND] == map[0 := FIRST, 1 := SECOND];
    SubmittedScene(s);
  }

  lemma SubmittedScene(s: State)
    requires s == WithDeliveries(START, map[0 := FIRST, 1 := SECOND]).(now := 1)
    ensures Scene(s, map[], Scheduled, 0, FreshCircuit) && s.probers == map[] && s.db.deliveries[0].nextAttemptAt <= 1
  {
  }

  lemma ClaimAndPublish(allow: (State, Action) -> bool, s0: State, acts: seq<Action>, s: State, id: Id)
    returns (acts': seq<Action>, s': State)
    requires Permits(allow) && Steps(allow, s0, acts, s) && Eligible(s.db, s.now, id) && s.cfg.batch >= 1
    requires s.outbox == s.msgs == multiset{}
    ensures Steps(allow, s0, acts', s') && (Paired(acts) ==> Paired(acts'))
    ensures s' == WithDeliveries(s, Claim(s.db.deliveries, {id}, 60, s.now)).(msgs := multiset{id})
  {
    hide Permits, Steps, Paired, Eligible, Claim;
    acts', s' := Do(allow, s0, acts, s, Schedule(ClaimReady({id}, 60)));
    acts', s' := Do(allow, s0, acts', s', Queue(Publish(id)));
  }

  lemma SceneLoads(allow: (State, Action) -> bool, s0: State, acts: seq<Action>, s: State, n: nat, c: Circuit)
    returns (acts': seq<Action>, s': State)
    requires Permits(allow) && Steps(allow, s0, acts, s) && Scene(s, map[], Scheduled, n, c)
    requires s.db.deliveries[0].nextAttemptAt <= 1 && CircuitAdmits(c, 0)
    ensures Steps(allow, s0, acts', s') && (Paired(acts) ==> Paired(acts')) && s'.probers == s.probers
    ensures Scene(s', On0(n, c.state, Started), InFlight, n, c)
  {
    hide Permits, Steps, Paired;
    assert Eligible(s.db, s.now, 0);
    acts', s' := ClaimAndPublish(allow, s0, acts, s, 0);
    acts', s' := LoadAndInsert(allow, s0, acts', s', 0, 0);
  }

  lemma ScenePosts(allow: (State, Action) -> bool, s0: State, acts: seq<Action>, s: State, n: nat, c: Circuit, o: Outcome)
    returns (acts': seq<Action>, s': State)
    requires Permits(allow) && Steps(allow, s0, acts, s) && Scene(s, On0(n, c.state, Started), InFlight, n, c)
    ensures Steps(allow, s0, acts', s') && (Paired(acts) ==> Paired(acts')) && s'.probers == s.probers
    ensures Scene(s', On0(n, c.state, Recorded(o)), InFlight, n, c)
  {
    hide Permits, Steps, Paired;
    acts', s' := PostAndRecord(allow, s0, acts, s, 0, o);
  }

  /** Delivery 0 is claimed and attempted up to UpdateOutcome. */
  lemma SceneRecords(allow: (State, Action) -> bool, s0: State, acts: seq<Action>, s: State, n: nat, c: Circuit, o: Outcome)
    returns (acts': seq<Action>, s': State)
    requires Permits(allow) && Steps(allow, s0, acts, s) && Scene(s, map[], Scheduled, n, c)
    requires s.db.deliveries[0].nextAttemptAt <= 1 && CircuitAdmits(c, 0)
    ensures Steps(allow, s0, acts', s') && (Paired(acts) ==> Paired(acts')) && s'.probers == s.probers
    ensures Scene(s', On0(n, c.state, Recorded(o)), InFlight, n, c)
  {
    hide Permits, Steps, Paired, Scene, CircuitAdmits;
    acts', s' := SceneLoads(allow, s0, acts, s, n, c);
    acts', s' := ScenePosts(allow, s0, acts', s', n, c, o);
  }

  function StatusAfter(o: Outcome): Status {
    match o
    case Success => Delivered
    case PermanentFailure => PermanentlyFailed
    case _ => Scheduled
  }

  /** The circuit update and, directly after it, the final update. */
  lemma SceneConcludes(allow: (State, Action) -> bool, s0: State, acts: seq<Action>, s: State, n: nat, c: Circuit, o: Outcome)
    returns (acts': seq<Action>, s': State)
    requires Permits(allow) && Steps(allow, s0, acts, s) && n + 1 < MAX_ATTEMPTS
    requires Scene(s, On0(n, c.state, Recorded(o)), InFlight, n, c)
    ensures Steps(allow, s0, acts', s') && (Paired(acts) ==> Paired(acts')) && s'.probers == s.probers
    ensures Scene(s', map[], StatusAfter(o), n + 1, Settle(c, CFG, 1, o, c.state))
  {
    hide Permits, Steps, Paired, Settle;
    OriginalsAndEndsStorable(s.db.deliveries, 0, o, n + 1);
    acts', s' := SettleThenFinish(allow, s0, acts, s, 0);
  }

  lemma SceneSettles(allow: (State, Action) -> bool, s0: State, acts: seq<Action>, s: State, n: nat, c: Circuit, o: Outcome, stored: bool)
    returns (acts': seq<Action>, s': State)
    requires Permits(allow) && Steps(allow, s0, acts, s) && Scene(s, On0(n, c.state, Recorded(o)), InFlight, n, c)
    requires stored || allow(s, Work(SettleCircuit(0, stored)))
    ensures Steps(allow, s0, acts', s') && s'.probers == s.probers
    ensures Scene(s', On0(n, c.state, Settled(o)), InFlight, n, if stored then Settle(c, CFG, 1, o, c.state) else c)
  {
    hide Permits, Steps, Paired, Settle;
    acts', s' := SettleWorker(allow, s0, acts, s, 0, stored);
  }

  lemma SceneFinishes(allow: (State, Action) -> bool, s0: State, acts: seq<Action>, s: State, n: nat, seen: Breaker, c: Circuit, o: Outcome)
    returns (acts': seq<Action>, s': State)
    requires Permits(allow) && Steps(allow, s0, acts, s) && Scene(s, On0(n, seen, Settled(o)), InFlight, n, c) && n + 1 < MAX_ATTEMPTS
    ensures Steps(allow, s0, acts', s') && s'.probers == s.probers && Scene(s', map[], StatusAfter(o), n + 1, c)
  {
    hide Permits, Steps, Paired;
    OriginalsAndEndsStorable(s.db.deliveries, 0, o, n + 1);
    acts', s' := FinishWorker(allow, s0, acts, s, 0);
  }

  lemma ExpiryIsCareful(s: State, workers: map<Id, Worker>, status: Status, n: nat, c: Circuit)
    requires Scene(s, workers, status, n, c) && !status.InFlight?
    ensures Careful(s, Schedule(ExpireOpen))
  {
  }

  lemma SceneAfterExpiry(s: State, workers: map<Id, Worker>, status: Status, n: nat, c: Circuit)
    requires Scene(s, workers, status, n, c)
    ensures var s' := ApplyScheduler(s, ExpireOpen);
            && s'.probers == s.probers && s'.db.deliveries == s.db.deliveries
            && Scene(s', workers, status, n, ExpireSuspension(c, 1, true))
  {
    hide ExpireSuspension;
    assert Queued(s.db.deliveries, 0);
  }

  lemma SceneExpires(allow: (State, Action) -> bool, s0: State, acts: seq<Action>, s: State,
                     workers: map<Id, Worker>, status: Status, n: nat, c: Circuit)
    returns (acts': seq<Action>, s': State)
    requires Permits(allow) && Steps(allow, s0, acts, s) && Scene(s, workers, status, n, c)
    requires status.InFlight? ==> allow(s, Schedule(ExpireOpen))
    ensures Steps(allow, s0, acts', s') && (Paired(acts) ==> Paired(acts'))
    ensures s'.probers == s.probers && s'.db.deliveries == s.db.deliveries
    ensures Scene(s', workers, status, n, ExpireSuspension(c, 1, true))
  {
    hide Permits, Steps, Paired, ExpireSuspension, Scene, Careful, ApplyScheduler;
    if !status.InFlight? { ExpiryIsCareful(s, workers, status, n, c); }
    SceneAfterExpiry(s, workers, status, n, c);
    acts', s' := Do(allow, s0, acts, s, Schedule(ExpireOpen));
  }

  lemma Selects0(allow: (State, Action) -> bool, s0: State, acts: seq<Action>, s: State, p: Id,
                 workers: map<Id, Worker>, status: Status, n: nat, c: Circuit)
    returns (acts': seq<Action>, s': State)
    requires Permits(allow) && Steps(allow, s0, acts, s) && Scene(s, workers, status, n, c) && p !in s.probers
    requires !status.Terminal()
    requires allow(s, Schedule(SelectProbe(p, 0, Some(0)))) || (Orphan(s.db.endpoints, 0) && s.probers == map[])
    ensures Steps(allow, s0, acts', s') && (Paired(acts) ==> Paired(acts'))
    ensures s' == s.(probers := s.probers[p := Selected(0, Some(0))])
  {
    hide Permits, Steps, Paired;
    acts', s' := Do(allow, s0, acts, s, Schedule(SelectProbe(p, 0, Some(0))));
  }

  lemma Assigns0(allow: (State, Action) -> bool, s0: State, acts: seq<Action>, s: State, p: Id,
                 workers: map<Id, Worker>, status: Status, n: nat, c: Circuit)
    returns (acts': seq<Action>, s': State)
    requires Permits(allow) && Steps(allow, s0, acts, s) && Scene(s, workers, status, n, c)
    requires p in s.probers && s.probers[p] == Selected(0, Some(0)) && c.state.HalfOpen?
    requires allow(s, Schedule(AssignProbe(p))) || !status.Terminal()
    ensures Steps(allow, s0, acts', s') && (Paired(acts) ==> Paired(acts'))
    ensures Scene(s', workers, status, n, c.(probe := Some(0))) && s'.probers == s.probers[p := Assigned(0)]
  {
    hide Permits, Steps, Paired;
    acts', s' := Do(allow, s0, acts, s, Schedule(AssignProbe(p)));
  }

  lemma Resets0(allow: (State, Action) -> bool, s0: State, acts: seq<Action>, s: State, p: Id,
                workers: map<Id, Worker>, status: Status, n: nat, c: Circuit)
    returns (acts': seq<Action>, s': State)
    requires Permits(allow) && Steps(allow, s0, acts, s) && Scene(s, workers, status, n, c)
    requires p in s.probers && s.probers[p] == Assigned(0)
    ensures Steps(allow, s0, acts', s') && (Paired(acts) ==> Paired(acts'))
    ensures Scene(s', workers, status, n, c) && s'.probers == s.probers - {p}
    ensures 0 in s'.db.deliveries && s'.db.deliveries[0].nextAttemptAt <= 1
  {
    hide Permits, Steps, Paired;
    acts', s' := Do(allow, s0, acts, s, Schedule(ResetProbe(p)));
  }

  /** One SetProbeDelivery call makes delivery 0 the due probe. */
  lemma SceneProbes(allow: (State, Action) -> bool, s0: State, acts: seq<Action>, s: State,
                    workers: map<Id, Worker>, status: Status, n: nat, c: Circuit)
    returns (acts': seq<Action>, s': State)
    requires Permits(allow) && Steps(allow, s0, acts, s) && Scene(s, workers, status, n, c) && s.probers == map[]
    requires c.state.HalfOpen? && c.probe.None? && !status.Terminal()
    ensures Steps(allow, s0, acts', s') && (Paired(acts) ==> Paired(acts'))
    ensures s'.probers == map[] && 0 in s'.db.deliveries && s'.db.deliveries[0].nextAttemptAt <= 1
    ensures Scene(s', workers, status, n, c.(probe := Some(0)))
  {
    hide Permits, Steps, Paired;
    acts', s' := Selects0(allow, s0, acts, s, 0, workers, status, n, c);
    acts', s' := Assigns0(allow, s0, acts', s', 0, workers, status, n, c);
    acts', s' := Resets0(allow, s0, acts', s', 0, workers, status, n, c.(probe := Some(0)));
  }

  const OPENED := Circuit(Open, 1, Some(1), false, None)
  const HALF_OPEN := Circuit(HalfOpen, 1, None, false, None)
  const PROBED := HALF_OPEN.(probe := Some(0))

  lemma FirstFailureOpens()
    ensures Settle(FreshCircuit, CFG, 1, TransientFailure, FreshCircuit.state) == OPENED
    ensures ExpireSuspension(OPENED, 1, true) == HALF_OPEN
  {
  }

  lemma ProbeFailureOpens()
    ensures Settle(PROBED, CFG, 1, PermanentFailure, PROBED.state) == OPENED
  {
  }

  /** A whole attempt, with atomic finish. */
  lemma SceneAttempts(allow: (State, Action) -> bool, s0: State, acts: seq<Action>, s: State, n: nat, c: Circuit, o: Outcome)
    returns (acts': seq<Action>, s': State)
    requires Permits(allow) && Steps(allow, s0, acts, s) && Scene(s, map[], Scheduled, n, c)
    requires s.db.deliveries[0].nextAttemptAt <= 1 && CircuitAdmits(c, 0) && n + 1 < MAX_ATTEMPTS
    ensures Steps(allow, s0, acts', s') && (Paired(acts) ==> Paired(acts')) && s'.probers == s.probers
    ensures Scene(s', map[], StatusAfter(o), n + 1, Settle(c, CFG, 1, o, c.state))
  {
    hide Permits, Steps, Paired, Scene, Settle, CircuitAdmits;
    acts', s' := SceneRecords(allow, s0, acts, s, n, c, o);
    acts', s' := SceneConcludes(allow, s0, acts', s', n, c, o);
  }

  /** Delivery 0 fails once and the circuit opens. */
  lemma FirstOpens(allow: (State, Action) -> bool) returns (acts: seq<Action>, s: State)
    requires Permits(allow)
    ensures Steps(allow, START, acts, s) && Paired(acts)
    ensures Scene(s, map[], Scheduled, 1, OPENED) && s.probers == map[]
  {
    FirstFailureOpens();
    assert CircuitAdmits(FreshCircuit, 0);
    hide Permits, Steps, Paired, Scene, Settle, ExpireSuspension, CircuitAdmits, Init;
    acts, s := TwoSubmitted(allow);
    acts, s := SceneAttempts(allow, START, acts, s, 0, FreshCircuit, TransientFailure);
  }

  /** Then it half-opens. */
  lemma FirstHalfOpen(allow: (State, Action) -> bool) returns (acts: seq<Action>, s: State)
    requires Permits(allow)
    ensures Steps(allow, START, acts, s) && Paired(acts)
    ensures Scene(s, map[], Scheduled, 1, HALF_OPEN) && s.probers == map[]
  {
    hide Permits, Steps, Paired, Scene, Settle, ExpireSuspension, Init;
    acts, s := FirstOpens(allow);
    FirstFailureOpens();
    acts, s := SceneExpires(allow, START, acts, s, map[], Scheduled, 1, OPENED);
  }

  lemma Probed(allow: (State, Action) -> bool) returns (acts: seq<Action>, s: State)
    requires Permits(allow)
    ensures Steps(allow, START, acts, s) && Scene(s, map[], Scheduled, 1, PROBED) && s.probers == map[]
    ensures 0 in s.db.deliveries && s.db.deliveries[0].nextAttemptAt <= 1
  {
    hide Permits, Steps, Paired, Scene;
    acts, s := FirstHalfOpen(allow);
    acts, s := SceneProbes(allow, START, acts, s, map[], Scheduled, 1, HALF_OPEN);
  }

  /** Delivery 0 has become the probe and its attempt has outcome o. */
  lemma ProbeAnswered(allow: (State, Action) -> bool, o: Outcome) returns (acts: seq<Action>, s: State)
    requires Permits(allow)
    ensures Steps(allow, START, acts, s) && s.probers == map[]
    ensures Scene(s, On0(1, PROBED.state, Recorded(o)), InFlight, 1, PROBED)
  {
    assert CircuitAdmits(PROBED, 0);
    hide Permits, Steps, Paired, Scene, CircuitAdmits;
    acts, s := Probed(allow);
    acts, s := SceneRecords(allow, START, acts, s, 1, PROBED, o);
  }

  // ----- a finished probe ----------------------------------------------------------------

  predicate Waiting(s: State) {
    && 1 in s.db.deliveries && s.db.deliveries[1].endpoint == 0
    && s.db.deliveries[1].status.Scheduled? && s.db.deliveries[1].attemptCount == 0
  }

  /** The last state of r has a finished probe at endpoint 0, and delivery 1
      waits from there on, in every fenced run, as long as no new
      SetProbeDelivery call starts for the endpoint. */
  ghost predicate EndsStuck(r: Run) {
    && |r.states| == |r.actions| + 1
    && var n, s := |r.actions|, r.states[|r.actions|];
    && Stuck(s, 0) && Waiting(s)
    && forall r2: Run, j: nat :: FencedRun(r2) && n <= j < |r2.states| && r2.states[n] == s && NoneStarts(r2, n, j, 0)
         ==> Waiting(r2.states[j])
  }

  lemma StuckWaits(r: Run)
    requires |r.states| == |r.actions| + 1 && Stuck(r.states[|r.actions|], 0) && Waiting(r.states[|r.actions|])
    ensures EndsStuck(r) && !AlwaysDisciplined(r)
  {
    var n := |r.actions|;
    assert !Disciplined(r.states[n], 0);
    hide FencedRun, Stuck, NoneStarts;
    forall r2: Run, j: nat | FencedRun(r2) && n <= j < |r2.states| && r2.states[n] == r.states[n] && NoneStarts(r2, n, j, 0)
      ensures Waiting(r2.states[j])
    {
      StuckForever(r2, n, j, 0);
    }
  }

  lemma SceneStuck(s: State, status: Status)
    requires Scene(s, map[], status, 2, PROBED) && status.Terminal() && forall p :: !SelectingFor(s, p, 0)
    ensures Stuck(s, 0) && Waiting(s)
  {
  }

  /** The run of these steps. */
  lemma RunOf(allow: (State, Action) -> bool, acts: seq<Action>, s: State) returns (r: Run)
    requires Steps(allow, START, acts, s)
    ensures r.Valid() && r.states[0] == START && r.actions == acts && r.states[|acts|] == s
    ensures forall j: nat :: j < |r.actions| ==> allow(r.states[j], r.actions[j])
  {
    var r0 := Run([START], []);
    assert r0.Valid();
    hide Steps, r0.Valid;
    r := Realize(allow, r0, 0, acts, s);
    assert r.states[..1][0] == r.states[0];
  }

  // ----- guard one: overlapping SetProbeDelivery calls -----------------------------------

  /** A SetProbeDelivery call that selected d, and resumes after d has finished
      and the endpoint is half open again, makes d the probe: nothing of that
      endpoint can be claimed any more, and step 0a does not see the endpoint. */
  lemma StaleProbeSticks(s: State, p: Id, e: Id, d: Id, t: Time)
    requires p in s.probers && s.probers[p] == Selected(e, Some(d)) && e in s.db.endpoints
    requires s.db.endpoints[e].circuit.state.HalfOpen? && d in s.db.deliveries && s.db.deliveries[d].status.Terminal()
    ensures var s' := Apply(s, Schedule(AssignProbe(p)));
            && s'.db.endpoints[e].circuit.state.HalfOpen? && s'.db.endpoints[e].circuit.probe == Some(d)
            && forall id | id in s'.db.deliveries && s'.db.deliveries[id].endpoint == e :: !Eligible(s'.db, t, id)
  {
  }

  lemma FencedPermits()
    ensures Permits(FenceAllows)
  {
    hide FenceAllows, OneCall, AssignIsCurrent, ExpiryFindsNoneLive;
  }

  /** Two calls select delivery 0; the first goes on and makes it the due probe. */
  lemma TwoCallsSelect(acts: seq<Action>, s: State) returns (acts': seq<Action>, s': State)
    requires Permits(FenceAllows) && Steps(FenceAllows, START, acts, s) && Paired(acts)
    requires Scene(s, map[], Scheduled, 1, HALF_OPEN) && s.probers == map[]
    ensures Steps(FenceAllows, START, acts', s') && Paired(acts') && Scene(s', map[], Scheduled, 1, PROBED)
    ensures s'.probers == map[1 := Selected(0, Some(0))] && 0 in s'.db.deliveries && s'.db.deliveries[0].nextAttemptAt <= 1
  {
    hide Permits, Steps, Paired, Orphan;
    acts', s' := Selects0(FenceAllows, START, acts, s, 0, map[], Scheduled, 1, HALF_OPEN);
    acts', s' := Selects0(FenceAllows, START, acts', s', 1, map[], Scheduled, 1, HALF_OPEN);
    hide Scene;
    acts', s' := Assigns0(FenceAllows, START, acts', s', 0, map[], Scheduled, 1, HALF_OPEN);
    acts', s' := Resets0(FenceAllows, START, acts', s', 0, map[], Scheduled, 1, PROBED);
  }

  /** The probe fails for good. */
  lemma ProbeFails(acts: seq<Action>, s: State) returns (acts': seq<Action>, s': State)
    requires Permits(FenceAllows) && Steps(FenceAllows, START, acts, s) && Paired(acts) && Scene(s, map[], Scheduled, 1, PROBED)
    requires 0 in s.db.deliveries && s.db.deliveries[0].nextAttemptAt <= 1
    ensures Steps(FenceAllows, START, acts', s') && Paired(acts') && Scene(s', map[], PermanentlyFailed, 2, OPENED)
    ensures s'.probers == s.probers
  {
    ProbeFailureOpens();
    assert CircuitAdmits(PROBED, 0);
    hide Permits, Steps, Paired, Scene, Settle, CircuitAdmits;
    acts', s' := SceneAttempts(FenceAllows, START, acts, s, 1, PROBED, PermanentFailure);
  }

  /** The circuit half-opens again, and the second call resumes. */
  lemma LateAssign(acts: seq<Action>, s: State) returns (acts': seq<Action>, s': State)
    requires Permits(FenceAllows) && Steps(FenceAllows, START, acts, s) && Paired(acts)
    requires Scene(s, map[], PermanentlyFailed, 2, OPENED) && s.probers == map[1 := Selected(0, Some(0))]
    ensures Steps(FenceAllows, START, acts', s') && Paired(acts') && Scene(s', map[], PermanentlyFailed, 2, PROBED)
    ensures s'.probers == map[1 := Assigned(0)]
  {
    FirstFailureOpens();
    hide Permits, Steps, Paired, Scene, Settle, ExpireSuspension;
    acts', s' := SceneExpires(FenceAllows, START, acts, s, map[], PermanentlyFailed, 2, OPENED);
    acts', s' := Assigns0(FenceAllows, START, acts', s', 1, map[], PermanentlyFailed, 2, HALF_OPEN);
  }

  /** A fenced run with atomic finish whose second statement of SetProbeDelivery is stale. */
  lemma OverlappingCallsStick() returns (r: Run)
    ensures FencedRun(r) && FinishesAtomically(r) && r.states[0] == START
    ensures EndsStuck(r) && !AlwaysDisciplined(r)
  {
    FencedPermits();
    hide Permits, Steps, Paired, Scene, FenceAllows, EndsStuck, AlwaysDisciplined, Init, r.StepAt;
    var acts, s := FirstHalfOpen(FenceAllows);
    acts, s := TwoCallsSelect(acts, s);
    acts, s := ProbeFails(acts, s);
    acts, s := LateAssign(acts, s);
    r := RunOf(FenceAllows, acts, s);
    PairedIsAtomic(r);
    SceneStuck(s, PermanentlyFailed);
    StuckWaits(r);
  }

  // ----- guard two: a suspension expires while the probe's final update is pending ------

  predicate StoredOneCall(s: State, a: Action) {
    FenceAllows(s, a) && CircuitStored(a) && OneCall(s, a) && AssignIsCurrent(s, a)
  }

  lemma StoredOneCallPermits()
    ensures Permits(StoredOneCall)
  {
    hide FenceAllows, OneCall, AssignIsCurrent, ExpiryFindsNoneLive;
  }

  /** The probe's failure opens the circuit; before its final update the
      suspension expires and the same delivery becomes the probe again. */
  lemma ProbedAgain(acts: seq<Action>, s: State) returns (acts': seq<Action>, s': State)
    requires Permits(StoredOneCall) && Steps(StoredOneCall, START, acts, s) && s.probers == map[]
    requires Scene(s, On0(1, PROBED.state, Recorded(PermanentFailure)), InFlight, 1, PROBED)
    ensures Steps(StoredOneCall, START, acts', s') && s'.probers == map[]
    ensures Scene(s', On0(1, PROBED.state, Settled(PermanentFailure)), InFlight, 1, PROBED)
  {
    FirstFailureOpens();
    ProbeFailureOpens();
    hide Permits, Steps, Paired, Scene, Settle, ExpireSuspension, On0;
    var ws := On0(1, PROBED.state, Settled(PermanentFailure));
    acts', s' := SceneSettles(StoredOneCall, START, acts, s, 1, PROBED, PermanentFailure, true);
    acts', s' := SceneExpires(StoredOneCall, START, acts', s', ws, InFlight, 1, OPENED);
    acts', s' := SceneProbes(StoredOneCall, START, acts', s', ws, InFlight, 1, HALF_OPEN);
  }

  /** A fenced run with every circuit update stored, one SetProbeDelivery call
      per endpoint at a time and every second statement current, in which a
      suspension expires while the final update is pending. */
  lemma LateFinalUpdateSticks() returns (r: Run)
    ensures FencedRun(r) && CircuitsStored(r) && OneCallRun(r) && AssignsAreCurrent(r) && r.states[0] == START
    ensures EndsStuck(r) && !AlwaysDisciplined(r)
  {
    StoredOneCallPermits();
    hide Permits, Steps, Paired, Scene, FenceAllows, CircuitStored, OneCall, AssignIsCurrent, On0;
    hide EndsStuck, AlwaysDisciplined, Init, r.StepAt;
    var acts, s := ProbeAnswered(StoredOneCall, PermanentFailure);
    acts, s := ProbedAgain(acts, s);
    acts, s := SceneFinishes(StoredOneCall, START, acts, s, 1, PROBED.state, PROBED, PermanentFailure);
    r := RunOf(StoredOneCall, acts, s);
    SceneStuck(s, PermanentlyFailed);
    StuckWaits(r);
  }

  // ----- guard three: the probe's circuit update is lost ----------------------------------

  predicate UnstoredOneCall(s: State, a: Action) {
    FenceAllows(s, a) && OneCall(s, a) && AssignIsCurrent(s, a) && ExpiryFindsNoneLive(s, a)
  }

  lemma UnstoredOneCallPermits()
    ensures Permits(UnstoredOneCall)
  {
    hide FenceAllows, OneCall, AssignIsCurrent, ExpiryFindsNoneLive;
  }

  /** A fenced run with one SetProbeDelivery call per endpoint at a time, every
      second statement current and no suspension that expires under a delivery
      in flight, in which the circuit update of the delivered probe is lost. */
  lemma LostCircuitUpdateSticks() returns (r: Run)
    ensures FencedRun(r) && OneCallRun(r) && AssignsAreCurrent(r) && ExpiriesFindNoneLive(r) && r.states[0] == START
    ensures EndsStuck(r) && !AlwaysDisciplined(r)
  {
    UnstoredOneCallPermits();
    assert forall s, w :: UnstoredOneCall(s, Work(SettleCircuit(w, false)));
    hide Permits, Steps, Paired, Scene, FenceAllows, OneCall, AssignIsCurrent, ExpiryFindsNoneLive, On0;
    hide EndsStuck, AlwaysDisciplined, Init, r.StepAt;
    var acts, s := ProbeAnswered(UnstoredOneCall, Success);
    acts, s := SceneSettles(UnstoredOneCall, START, acts, s, 1, PROBED, Success, false);
    acts, s := SceneFinishes(UnstoredOneCall, START, acts, s, 1, PROBED.state, PROBED, Success);
    r := RunOf(UnstoredOneCall, acts, s);
    SceneStuck(s, Delivered);
    StuckWaits(r);
  }
}
