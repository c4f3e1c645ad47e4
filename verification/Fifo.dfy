/** Real-time FIFO per tenant, in all runs. */
module Fifo {
  import opened Model
  import opened Statements
  import opened Pipeline
  import opened RunFacts

  ghost predicate TimesPast(s: State) {
    && (forall id | id in s.db.deliveries :: s.db.deliveries[id].createdAt <= s.now)
    && (forall tx | tx in s.submissions :: s.submissions[tx].start <= s.now)
  }

  lemma ClientTimes(s: State, a: ClientAction)
    requires TimesPast(s) && ClientEnabled(s, a)
    ensures TimesPast(ApplyClient(s, a))
  {
  }

  lemma WorkerTimes(s: State, a: WorkerAction)
    requires TimesPast(s) && WorkerEnabled(s, a)
    ensures TimesPast(ApplyWorker(s, a))
  {
    WorkerLater(s, a);
    WorkerKeepsKeys(s, a);
  }

  lemma SchedulerTimes(s: State, a: SchedulerAction)
    requires TimesPast(s) && SchedulerEnabled(s, a)
    ensures TimesPast(ApplyScheduler(s, a))
  {
  }

  lemma TimesStep(s: State, a: Action)
    requires TimesPast(s) && Enabled(s, a)
    ensures TimesPast(Apply(s, a))
  {
    hide ClientEnabled, WorkerEnabled, SchedulerEnabled, ApplyClient, ApplyWorker, ApplyScheduler;
    match a
    case Client(c) => ClientTimes(s, c);
    case Work(w) => WorkerTimes(s, w);
    case Schedule(c) => SchedulerTimes(s, c);
    case Queue(q) =>
    case Advance(to) =>
  }

  lemma {:induction false} TimesAlways(r: Run, i: nat)
    requires r.Valid() && i < |r.states|
    ensures TimesPast(r.states[i])
  {
    if i > 0 {
      TimesAlways(r, i - 1);
      assert r.StepAt(i-1);
      TimesStep(r.states[i-1], r.actions[i-1]);
    }
  }

  lemma SubmissionStep(s: State, a: Action, tx: Id)
    requires Enabled(s, a) && tx in Apply(s, a).submissions
    ensures Apply(s, a).submissions[tx].start == s.now
            || (tx in s.submissions && Apply(s, a).submissions[tx] == s.submissions[tx])
  {
    hide QueueEnabled, WorkerEnabled, SchedulerEnabled, ApplyQueue, ApplyWorker, ApplyScheduler;
    match a
    case Work(w) => WorkerKeepsKeys(s, w);
    case Queue(q) => QueueFrame(s, q);
    case Schedule(c) => SchedulerKeepsSubmissions(s, c);
    case _ =>
  }

  lemma SchedulerKeepsSubmissions(s: State, a: SchedulerAction)
    requires SchedulerEnabled(s, a)
    ensures ApplyScheduler(s, a).submissions == s.submissions
  {
  }

  ghost predicate StartedSince(s: State, tx: Id, t: Time) {
    t <= s.now && (tx in s.submissions ==> t <= s.submissions[tx].start)
  }

  lemma StartStep(s: State, a: Action, tx: Id, t: Time)
    requires Enabled(s, a) && StartedSince(s, tx, t)
    ensures StartedSince(Apply(s, a), tx, t)
  {
    StepLater(s, a);
    if tx in Apply(s, a).submissions {
      hide Enabled, Apply, Grows, SameEndpoints;
      SubmissionStep(s, a, tx);
    }
  }

  /** A transaction not yet begun in state j has a start no earlier than j. */
  lemma {:induction false} StartsLater(r: Run, j: nat, k: nat, tx: Id)
    requires r.Valid() && j <= k < |r.states| && tx !in r.states[j].submissions
    ensures StartedSince(r.states[k], tx, r.states[j].now)
    decreases k
  {
    if j < k {
      StartsLater(r, j, k - 1, tx);
      assert r.StepAt(k-1);
      StartStep(r.states[k-1], r.actions[k-1], tx, r.states[j].now);
    }
  }

  /** Step k stores delivery id, and its transaction began in state j or later. */
  predicate StoredAfter(r: Run, j: nat, k: nat, id: Id)
    requires j <= k < |r.actions| && |r.actions| < |r.states|
  {
    match r.actions[k]
    case Client(CommitSubmit(tx, _, d)) =>
      d == id && tx !in r.states[j].submissions && id !in r.states[k].db.deliveries && id in r.states[k+1].db.deliveries
    case Client(CreateReplay(_, d)) =>
      d == id && id !in r.states[k].db.deliveries && id in r.states[k+1].db.deliveries
    case _ => false
  }

  lemma CreatedLater(r: Run, j: nat, k: nat, id: Id)
    requires r.Valid() && j <= k < |r.actions| && StoredAfter(r, j, k, id)
    ensures r.states[j].now <= r.states[k+1].db.deliveries[id].createdAt
  {
    assert r.StepAt(k);
    RunLater(r, j, k);
    match r.actions[k]
    case Client(CommitSubmit(tx, _, _)) => StartsLater(r, j, k, tx);
    case Client(CreateReplay(_, _)) =>
  }

  /** If e1 was stored before the transaction that stored e2 began, and both
      belong to one tenant, then e1's created_at is not later than e2's, and
      from then on e1 keeps e2 from being claimed exactly while e1 is
      unfinished - provided the clock moved between the two starts. */
  lemma EarlierSubmissionBlocks(r: Run, j: nat, k: nat, m: nat, e1: Id, e2: Id)
    requires r.Valid() && j <= k < |r.actions| && k < m < |r.states|
    requires e1 in r.states[j].db.deliveries && StoredAfter(r, j, k, e2)
    ensures e1 in r.states[m].db.deliveries && e2 in r.states[m].db.deliveries
    ensures var ds := r.states[m].db.deliveries;
            && ds[e1].createdAt <= ds[e2].createdAt
            && (ds[e1].tenant == ds[e2].tenant ==>
                  (Blocks(ds, e1, e2) <==> !ds[e1].status.Terminal() && ds[e1].createdAt != ds[e2].createdAt))
  {
    TimesAlways(r, j);
    CreatedLater(r, j, k, e2);
    RunLater(r, j, k);
    RunLater(r, j, m);
    RunLater(r, k + 1, m);
  }

  /** FIFO: every step that claims e2 finds e1 in a terminal status if the two
      created_at differ; EarlierSubmissionBlocks shows that equal ones never
      order the two. */
  lemma ClaimFindsEarlierTerminal(r: Run, j: nat, k: nat, m: nat, e1: Id, e2: Id, chosen: set<Id>, lease: Time)
    requires r.Valid() && j <= k < m < |r.actions|
    requires e1 in r.states[j].db.deliveries && StoredAfter(r, j, k, e2)
    requires r.actions[m] == Schedule(ClaimReady(chosen, lease)) && e2 in chosen
    requires var ds := r.states[m].db.deliveries;
             e1 in ds && e2 in ds && ds[e1].tenant == ds[e2].tenant && ds[e1].createdAt != ds[e2].createdAt
    ensures r.states[m].db.deliveries[e1].status.Terminal()
  {
    EarlierSubmissionBlocks(r, j, k, m, e1, e2);
    assert r.StepAt(m);
    assert Eligible(r.states[m].db, r.states[m].now, e2);
  }

  // ----- no POST without an earlier claim ----------------------------------

  predicate Underway(s: State, id: Id) {
    || id in s.outbox || id in s.msgs
    || (exists w | w in s.workers :: s.workers[w].delivery == id)
    || (exists i | 0 <= i < |s.posts| :: s.posts[i].0 == id)
  }

  predicate Claims(a: Action, id: Id) {
    a.Schedule? && a.schedule.ClaimReady? && id in a.schedule.chosen
  }

  lemma UnderwayStep(s: State, a: Action, id: Id)
    requires Enabled(s, a) && Underway(Apply(s, a), id)
    ensures Underway(s, id) || Claims(a, id)
  {
    hide WorkerEnabled, ApplyWorker, ClientEnabled, ApplyClient, SchedulerEnabled, ApplyScheduler;
    match a
    case Work(w) => UnderwayWorker(s, w, id);
    case Client(c) => UnderwayClient(s, c);
    case Schedule(c) => UnderwayScheduler(s, c, id);
    case Queue(q) =>
    case Advance(to) =>
  }

  lemma UnderwayClient(s: State, a: ClientAction)
    requires ClientEnabled(s, a)
    ensures var s' := ApplyClient(s, a);
            s'.outbox == s.outbox && s'.msgs == s.msgs && s'.workers == s.workers && s'.posts == s.posts
  {
  }

  lemma UnderwayScheduler(s: State, a: SchedulerAction, id: Id)
    requires SchedulerEnabled(s, a)
    ensures var s' := ApplyScheduler(s, a);
            && (id in s'.outbox ==> id in s.outbox || Claims(Schedule(a), id))
            && s'.msgs == s.msgs && s'.workers == s.workers && s'.posts == s.posts
  {
  }

  lemma UnderwayWorker(s: State, a: WorkerAction, id: Id)
    requires WorkerEnabled(s, a) && Underway(ApplyWorker(s, a), id)
    ensures Underway(s, id)
  {
    var s' := ApplyWorker(s, a);
    WorkerSource(s, a);
    if exists w | w in s'.workers :: s'.workers[w].delivery == id {
      var w :| w in s'.workers && s'.workers[w].delivery == id;
    } else if exists i | 0 <= i < |s'.posts| :: s'.posts[i].0 == id {
      var i :| 0 <= i < |s'.posts| && s'.posts[i].0 == id;
    }
  }

  /** A worker's delivery comes from a message; a POST comes from a worker. */
  lemma WorkerSource(s: State, a: WorkerAction)
    requires WorkerEnabled(s, a)
    ensures var s' := ApplyWorker(s, a);
            && s'.outbox == s.outbox && (forall x :: x in s'.msgs ==> x in s.msgs)
            && (forall w | w in s'.workers ::
                  if w in s.workers then s'.workers[w].delivery == s.workers[w].delivery
                  else s'.workers[w].delivery in s.msgs)
            && (s'.posts == s.posts
                || (a.Post? && s'.posts == s.posts + [(s.workers[a.worker].delivery, s.workers[a.worker].seqNo)]))
  {
    hide DoFinish, DoSettle, RecordOutcome, InsertAttempt;
    match a
    case SettleCircuit(w, stored) => SettleFrame(s, w, stored);
    case Finish(w, clock, draw) => FinishFrame(s, w, clock, draw);
    case _ =>
  }

  lemma {:induction false} ClaimedBefore(r: Run, n: nat, id: Id) returns (m: nat)
    requires r.Valid() && n < |r.states| && Underway(r.states[n], id)
    ensures m < n && Claims(r.actions[m], id)
  {
    assert n > 0;
    assert r.StepAt(n-1);
    UnderwayStep(r.states[n-1], r.actions[n-1], id);
    if Claims(r.actions[n-1], id) {
      m := n - 1;
    } else {
      m := ClaimedBefore(r, n - 1, id);
    }
  }

  /** The ordering guarantee of FR-008 on POSTs: any POST of e2 comes after a
      state in which e1 was terminal. */
  lemma FirstPostAfterEarlierTerminal(r: Run, j: nat, k: nat, n: nat, e1: Id, e2: Id, q: nat)
    requires r.Valid() && j <= k < |r.actions| && n < |r.states|
    requires e1 in r.states[j].db.deliveries && StoredAfter(r, j, k, e2)
    requires (e2, q) in r.states[n].posts
    requires var ds := r.states[|r.actions|].db.deliveries;
             e1 in ds && e2 in ds && ds[e1].tenant == ds[e2].tenant && ds[e1].createdAt != ds[e2].createdAt
    ensures k < n
    ensures exists m :: k < m < n && e1 in r.states[m].db.deliveries && r.states[m].db.deliveries[e1].status.Terminal()
  {
    var i :| 0 <= i < |r.states[n].posts| && r.states[n].posts[i] == (e2, q);
    var m := ClaimedBefore(r, n, e2);
    assert r.StepAt(m);
    assert Eligible(r.states[m].db, r.states[m].now, e2);
    if m <= k {
      RunLater(r, m, k);
      assert false;
    }
    EarlierSubmissionBlocks(r, j, k, m, e1, e2);
    RunLater(r, m, |r.actions|);
    ClaimFindsEarlierTerminal(r, j, k, m, e1, e2, r.actions[m].schedule.chosen, r.actions[m].schedule.leaseUntil);
  }
}
