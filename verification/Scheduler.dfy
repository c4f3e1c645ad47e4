/** scheduler.go: Tick as code over the tables, run with no other actor between
    its statements; each statement is a step of the transition system. */
module Scheduler {
  import opened Model
  import opened CircuitBreaker
  import opened Statements
  import opened Pipeline
  import opened Fenced
  import opened Database
  import opened Tracing
  import opened SoundRuns
  import P = ProbeDiscipline
  import A = AtomicFinish

  ghost predicate At(db: Db, s: State)
    reads db
  {
    s.db == db.View() && s.now == db.now
  }

  /** Rows may only have become due earlier. */
  predicate DueEarlier(ds: Deliveries, ds': Deliveries, now: Time) {
    && ds'.Keys == ds.Keys
    && forall id | id in ds ::
         ds'[id] == ds[id].(nextAttemptAt := ds'[id].nextAttemptAt)
         && (ds'[id].nextAttemptAt == ds[id].nextAttemptAt || ds'[id].nextAttemptAt <= now)
  }

  /** SetProbeDelivery(ep) leaves other endpoints alone and ep, if it was half
      open, closed or half open with a probe. */
  predicate ProbeSet(es: Endpoints, es': Endpoints, ep: Id) {
    && es'.Keys == es.Keys
    && (forall e | e in es && (e != ep || !es[e].circuit.state.HalfOpen?) :: es'[e] == es[e])
    && (ep in es && es[ep].circuit.state.HalfOpen? ==>
          es'[ep].circuit.state.Closed? || (es'[ep].circuit.state.HalfOpen? && es'[ep].circuit.probe.Some?))
  }

  /** Runs the clock to the start of the next statement. */
  method NextStatement(db: Db, ghost s0: State, ghost acts: seq<Action>, ghost s: State)
    returns (ghost acts': seq<Action>, ghost s': State)
    requires Trace(s0, acts, s) && At(db, s)
    modifies db`now
    ensures Trace(s0, acts', s') && At(db, s') && s' == s.(now := db.now) && db.now >= old(db.now)
    ensures acts <= acts'
    ensures Good(s) ==> Good(s')
  {
    hide Good, Trace;
    db.Elapse();
    acts', s' := Extend(s0, acts, s, Advance(db.now));
  }

  /** An identifier not in use. */
  ghost function Fresh<T>(used: map<Id, T>): (id: Id)
    ensures id !in used
  {
    FreshExists(used.Keys);
    var id: Id :| id !in used;
    id
  }

  lemma {:induction false} FreshExists(ids: set<Id>)
    ensures exists p: Id :: p !in ids
  {
    if forall p: Id :: p in ids {
      HoldsFirst(ids, |ids| + 1);
    }
  }

  lemma {:induction false} HoldsFirst(ids: set<Id>, n: nat)
    requires forall p: Id | p < n :: p in ids
    ensures |ids| >= n
  {
    if n > 0 {
      HoldsFirst(ids - {n - 1}, n - 1);
    }
  }

  /** Statement 1 of SetProbeDelivery. */
  method SelectProbeStep(db: Db, ep: Id, ghost p: Id, ghost s0: State, ghost acts: seq<Action>, ghost s: State)
    returns (choice: Option<Id>, ghost acts': seq<Action>, ghost s': State)
    requires Trace(s0, acts, s) && At(db, s) && p !in s.probers
    modifies db`now
    ensures Trace(s0, acts', s') && At(db, s') && db.now >= old(db.now)
    ensures s' == s.(now := db.now, probers := s.probers[p := Selected(ep, choice)])
    ensures OldestQueued(s.db.deliveries, ep, choice)
    ensures Good(s) ==> Good(s')
  {
    hide Good, Trace;
    acts', s' := NextStatement(db, s0, acts, s);
    choice := db.SelectOldestQueued(ep);
    acts', s' := Extend(s0, acts', s', Schedule(SelectProbe(p, ep, choice)));
  }

  /** Statement 2: assign the probe or close the endpoint. */
  method AssignProbeStep(db: Db, ghost p: Id, ep: Id, choice: Option<Id>, ghost s0: State, ghost acts: seq<Action>, ghost s: State)
    returns (ghost acts': seq<Action>, ghost s': State)
    requires Trace(s0, acts, s) && At(db, s) && p in s.probers && s.probers[p] == Selected(ep, choice)
    requires OldestQueued(s.db.deliveries, ep, choice)
    modifies db`now, db`endpoints
    ensures Trace(s0, acts', s') && At(db, s') && db.now >= old(db.now)
    ensures s' == DoAssignProbe(s.(now := db.now), p)
    ensures Good(s) ==> Good(s')
  {
    hide Good, Trace, StoreProbe;
    acts', s' := NextStatement(db, s0, acts, s);
    db.StoreProbeChoice(ep, choice);
    acts', s' := Extend(s0, acts', s', Schedule(AssignProbe(p)));
  }

  /** Statement 3: the probe is due now. */
  method ResetProbeStep(db: Db, ghost p: Id, d: Id, ghost s0: State, ghost acts: seq<Action>, ghost s: State)
    returns (ghost acts': seq<Action>, ghost s': State)
    requires Trace(s0, acts, s) && At(db, s) && p in s.probers && s.probers[p] == Assigned(d)
    modifies db`now, db`deliveries
    ensures Trace(s0, acts', s') && At(db, s') && db.now >= old(db.now)
    ensures s' == WithDeliveries(s, PullForward(s.db.deliveries, d, db.now)).(now := db.now, probers := s.probers - {p})
    ensures Good(s) ==> Good(s')
  {
    hide Good, Trace, PullForward;
    acts', s' := NextStatement(db, s0, acts, s);
    db.ResetProbeDue(d);
    acts', s' := Extend(s0, acts', s', Schedule(ResetProbe(p)));
  }

  /** The call ends with a store error before its last statement. */
  lemma Abandon(s0: State, acts: seq<Action>, s: State, p: Id) returns (acts': seq<Action>, s': State)
    requires Trace(s0, acts, s) && p in s.probers
    ensures Trace(s0, acts', s') && s' == s.(probers := s.probers - {p})
    ensures Good(s) ==> Good(s')
  {
    hide Good, Trace;
    acts', s' := Extend(s0, acts, s, Schedule(CrashProber(p)));
  }

  lemma StoreProbeSets(es: Endpoints, ep: Id, choice: Option<Id>)
    ensures ProbeSet(es, StoreProbe(es, ep, choice), ep)
  {
  }

  lemma PullForwardIsEarlier(ds: Deliveries, d: Id, now: Time)
    ensures DueEarlier(ds, PullForward(ds, d, now), now)
  {
  }

  /** failAt names the statement that meets a store error; 0 for none. */
  method SetProbeDelivery(db: Db, ep: Id, failAt: nat, ghost s0: State, ghost acts: seq<Action>, ghost s: State)
    returns (ok: bool, ghost acts': seq<Action>, ghost s': State)
    requires Trace(s0, acts, s) && At(db, s)
    modifies db`now, db`endpoints, db`deliveries
    ensures Trace(s0, acts', s') && At(db, s') && SameActors(s, s') && s.now <= s'.now
    ensures Good(s) ==> Good(s')
    ensures DueEarlier(old(db.deliveries), db.deliveries, db.now) && db.attempts == old(db.attempts)
    ensures failAt == 0 ==> ok
    ensures ok ==> ProbeSet(old(db.endpoints), db.endpoints, ep)
    ensures db.endpoints == old(db.endpoints) || ProbeSet(old(db.endpoints), db.endpoints, ep)
  {
    hide Good, Trace, StoreProbe, PullForward, ProbeSet, P.Orphan;
    acts', s' := acts, s;
    if failAt == 1 { return false, acts, s; }
    ghost var p := Fresh(s.probers);
    var choice: Option<Id>;
    choice, acts', s' := SelectProbeStep(db, ep, p, s0, acts, s);
    if failAt == 2 {
      acts', s' := Abandon(s0, acts', s', p);
      assert s'.probers == s.probers;
      return false, acts', s';
    }
    acts', s' := AssignProbeStep(db, p, ep, choice, s0, acts', s');
    StoreProbeSets(old(db.endpoints), ep, choice);
    assert s'.probers - {p} == s.probers;
    if choice.None? {
      return true, acts', s';
    }
    if failAt == 3 {
      acts', s' := Abandon(s0, acts', s', p);
      return false, acts', s';
    }
    acts', s' := ResetProbeStep(db, p, choice.value, s0, acts', s');
    PullForwardIsEarlier(old(db.deliveries), choice.value, db.now);
    ok := true;
  }

  /** Only half-open endpoints of eps may have changed. */
  predicate ProbesOnly(es: Endpoints, es': Endpoints, eps: seq<Id>) {
    && es'.Keys == es.Keys
    && (forall e | e in es && (e !in eps || !es[e].circuit.state.HalfOpen?) :: es'[e] == es[e])
    && (forall e | e in es :: es'[e].circuit.state.Open? <==> es[e].circuit.state.Open?)
  }

  lemma ProbeSetExtends(es: Endpoints, mid: Endpoints, es': Endpoints, eps: seq<Id>, i: nat)
    requires i < |eps| && ProbesOnly(es, mid, eps[..i])
    requires es' == mid || ProbeSet(mid, es', eps[i])
    ensures ProbesOnly(es, es', eps[..i+1])
  {
    assert eps[..i+1] == eps[..i] + [eps[i]];
  }

  lemma DueEarlierExtends(a: Deliveries, b: Deliveries, c: Deliveries, t: Time, now: Time)
    requires DueEarlier(a, b, t) && DueEarlier(b, c, now) && t <= now
    ensures DueEarlier(a, c, now)
  {
  }

  /** The loops of steps 0a and 0b; fails says which calls meet a store error, and where. */
  method SetProbes(db: Db, eps: seq<Id>, fails: map<Id, nat>, ghost s0: State, ghost acts: seq<Action>, ghost s: State)
    returns (ghost acts': seq<Action>, ghost s': State)
    requires Trace(s0, acts, s) && At(db, s) && Distinct(eps)
    modifies db`now, db`endpoints, db`deliveries
    ensures Trace(s0, acts', s') && At(db, s') && SameActors(s, s') && s.now <= s'.now
    ensures Good(s) ==> Good(s')
    ensures DueEarlier(old(db.deliveries), db.deliveries, db.now) && db.attempts == old(db.attempts)
    ensures ProbesOnly(old(db.endpoints), db.endpoints, eps)
    ensures forall e | e in eps && e !in fails :: !P.Orphan(db.endpoints, e)
  {
    hide Good, Trace;
    acts', s' := acts, s;
    var i := 0;
    while i < |eps|
      invariant i <= |eps|
      invariant Trace(s0, acts', s') && At(db, s') && SameActors(s, s') && s.now <= s'.now
      invariant Good(s) ==> Good(s')
      invariant DueEarlier(old(db.deliveries), db.deliveries, db.now) && db.attempts == old(db.attempts)
      invariant ProbesOnly(old(db.endpoints), db.endpoints, eps[..i])
      invariant forall e | e in eps[..i] && e !in fails :: !P.Orphan(db.endpoints, e)
    {
      ghost var mid, ds, at := db.endpoints, db.deliveries, db.now;
      assert eps[i] !in eps[..i] && eps[i] in eps;
      var ok: bool;
      ok, acts', s' := SetProbeDelivery(db, eps[i], if eps[i] in fails then fails[eps[i]] else 0, s0, acts', s');
      ProbeSetExtends(old(db.endpoints), mid, db.endpoints, eps, i);
      DueEarlierExtends(old(db.deliveries), ds, db.deliveries, at, db.now);
      assert eps[..i+1] == eps[..i] + [eps[i]];
      i := i + 1;
    }
    assert eps[..i] == eps;
  }

  /** Store and broker errors a Tick may meet. */
  datatype Faults = Faults(orphans: bool, expire: bool, probes: map<Id, nat>, claim: bool, publishAt: Option<nat>)

  const NoFaults := Faults(false, false, map[], false, None)

  /** Step 0a. */
  method RecoverOrphans(db: Db, f: Faults, ghost s0: State, ghost acts: seq<Action>, ghost s: State)
    returns (ghost acts': seq<Action>, ghost s': State)
    requires Trace(s0, acts, s) && At(db, s)
    modifies db`now, db`endpoints, db`deliveries
    ensures Trace(s0, acts', s') && At(db, s') && SameActors(s, s') && s.now <= s'.now
    ensures Good(s) ==> Good(s')
    ensures DueEarlier(old(db.deliveries), db.deliveries, db.now) && db.attempts == old(db.attempts)
    ensures OnlyHalfOpenChanged(old(db.endpoints), db.endpoints)
    ensures !f.orphans ==> forall e | e in db.endpoints && e !in f.probes :: !P.Orphan(db.endpoints, e)
  {
    hide Good, Trace;
    acts', s' := NextStatement(db, s0, acts, s);
    if !f.orphans {
      var orphans := db.OrphanedHalfOpenEndpoints();
      acts', s' := SetProbes(db, orphans, f.probes, s0, acts', s');
    }
  }

  predicate OnlyHalfOpenChanged(es: Endpoints, es': Endpoints) {
    && es'.Keys == es.Keys
    && (forall e | e in es && !es[e].circuit.state.HalfOpen? :: es'[e] == es[e])
    && (forall e | e in es :: es'[e].circuit.state.Open? <==> es[e].circuit.state.Open?)
  }

  lemma NewOrphansExpired(es: Endpoints, ds: Deliveries, now: Time, e: Id)
    requires e in es && P.Orphan(ExpireSuspensions(es, ds, now), e)
    ensures P.Orphan(es, e) || (Expired(es[e].circuit, now) && Queued(ds, e))
  {
  }

  /** Step 0a keeps open endpoints free of deliveries in flight. */
  lemma StaysLiveNotOpen(s: State, s': State)
    requires A.LiveNotOpen(s, None) && DueEarlier(s.db.deliveries, s'.db.deliveries, s'.now)
    requires OnlyHalfOpenChanged(s.db.endpoints, s'.db.endpoints)
    ensures A.LiveNotOpen(s', None)
  {
    forall d | LiveRow(s'.db.deliveries, d)
      ensures LiveRow(s.db.deliveries, d) && s'.db.deliveries[d].endpoint == s.db.deliveries[d].endpoint
    {
    }
  }

  lemma ExpiryAllowed(s: State, now: Time)
    requires A.LiveNotOpen(s, None)
    ensures SoundAllows(s.(now := now), Schedule(ExpireOpen))
  {
    A.AdvanceLive(s, now);
    A.NoneOpenExpires(s.(now := now));
  }

  /** Step 0b. expiredAt is when ProcessExpiredSuspensions ran. */
  method ExpireAndProbe(db: Db, f: Faults, ghost s0: State, ghost acts: seq<Action>, ghost s: State)
    returns (ghost expiredAt: Time, ghost acts': seq<Action>, ghost s': State)
    requires Trace(s0, acts, s) && At(db, s)
    modifies db`now, db`endpoints, db`deliveries
    ensures Trace(s0, acts', s') && At(db, s') && SameActors(s, s') && s.now <= expiredAt <= s'.now
    ensures Good(s) && A.LiveNotOpen(s, None) ==> Good(s')
    ensures DueEarlier(old(db.deliveries), db.deliveries, db.now) && db.attempts == old(db.attempts)
    ensures db.endpoints.Keys == old(db.endpoints).Keys
    ensures forall e | e in db.endpoints && db.endpoints[e].circuit.state.Open? ::
              db.endpoints[e] == old(db.endpoints)[e] && (!f.expire ==> !Expired(db.endpoints[e].circuit, expiredAt))
    ensures !f.expire ==> forall e | P.Orphan(db.endpoints, e) :: e in f.probes || P.Orphan(old(db.endpoints), e)
  {
    hide Good, Trace, P.Orphan, A.LiveNotOpen, SoundAllows;
    acts', s' := NextStatement(db, s0, acts, s);
    expiredAt := db.now;
    if !f.expire {
      ghost var before := s';
      var halfOpen, closed := db.ProcessExpiredSuspensions();
      if A.LiveNotOpen(s, None) { ExpiryAllowed(s, db.now); }
      acts', s' := Extend(s0, acts', s', Schedule(ExpireOpen));
      ghost var es := db.endpoints;
      acts', s' := SetProbes(db, halfOpen, f.probes, s0, acts', s');
      forall e | P.Orphan(db.endpoints, e) && e !in f.probes
        ensures P.Orphan(before.db.endpoints, e)
      {
        OrphanKeys(db.endpoints, e);
        assert e !in halfOpen;
        assert db.endpoints[e] == es[e];
        OrphanOf(db.endpoints, es, e);
        NewOrphansExpired(before.db.endpoints, before.db.deliveries, before.now, e);
      }
    }
  }

  lemma OrphanKeys(es: Endpoints, e: Id)
    requires P.Orphan(es, e)
    ensures e in es
  {
  }

  lemma OrphanOf(es: Endpoints, es': Endpoints, e: Id)
    requires P.Orphan(es, e) && e in es' && es'[e] == es[e]
    ensures P.Orphan(es', e)
  {
  }

  // ----- step 1: claim and publish ---------------------------------------------------

  lemma {:induction false} DistinctMultiset(ids: seq<Id>)
    requires Distinct(ids)
    ensures multiset(ids) == multiset(Elements(ids))
  {
    if ids != [] {
      var n := |ids| - 1;
      DistinctMultiset(ids[..n]);
      assert ids == ids[..n] + [ids[n]];
      assert ids[n] !in ids[..n] && ids[n] !in Elements(ids[..n]);
      assert Elements(ids) == Elements(ids[..n]) + {ids[n]};
    }
  }

  /** s' is s with the tables and clock of mid and the claim made. */
  ghost predicate ClaimMade(mid: State, s': State, claimed: seq<Id>, leaseUntil: Time) {
    && s' == mid.(db := mid.db.(deliveries := Claim(mid.db.deliveries, Elements(claimed), leaseUntil, mid.now)),
                  outbox := mid.outbox + multiset(claimed))
    && TakesLeast(EligibleIds(mid.db, mid.now), DueTimes(mid.db.deliveries), mid.cfg.batch, claimed)
  }

  method ClaimStep(db: Db, batch: nat, leaseUntil: Time, ghost s0: State, ghost acts: seq<Action>, ghost s: State)
    returns (claimed: seq<Id>, ghost mid: State, ghost acts': seq<Action>, ghost s': State)
    requires Trace(s0, acts, s) && At(db, s) && batch == s.cfg.batch
    modifies db`now, db`deliveries
    ensures Trace(s0, acts', s') && At(db, s')
    ensures mid == s.(now := db.now) && s.now <= db.now && ClaimMade(mid, s', claimed, leaseUntil)
    ensures Good(s) ==> Good(mid) && Good(s')
  {
    hide Good, Trace, Eligible;
    acts', s' := NextStatement(db, s0, acts, s);
    mid := s';
    claimed := db.ClaimReady(batch, leaseUntil);
    assert forall id | id in Elements(claimed) :: id in EligibleIds(mid.db, mid.now);
    DistinctMultiset(claimed);
    DistinctSize(claimed);
    acts', s' := Extend(s0, acts', s', Schedule(ClaimReady(Elements(claimed), leaseUntil)));
  }

  lemma {:induction false} DistinctSize(ids: seq<Id>)
    requires Distinct(ids)
    ensures |Elements(ids)| == |ids|
  {
    if ids != [] {
      var n := |ids| - 1;
      DistinctSize(ids[..n]);
      assert ids[n] !in Elements(ids[..n]);
      assert Elements(ids) == Elements(ids[..n]) + {ids[n]};
    }
  }

  lemma DropOne(s0: State, acts: seq<Action>, s: State, id: Id) returns (acts': seq<Action>, s': State)
    requires Trace(s0, acts, s) && id in s.outbox
    ensures Trace(s0, acts', s') && s' == s.(outbox := s.outbox - multiset{id})
    ensures Good(s) ==> Good(s')
  {
    hide Good, Trace;
    acts', s' := Extend(s0, acts, s, Queue(DropClaim(id)));
  }

  lemma PublishOne(s0: State, acts: seq<Action>, s: State, id: Id) returns (acts': seq<Action>, s': State)
    requires Trace(s0, acts, s) && id in s.outbox
    ensures Trace(s0, acts', s') && s' == s.(outbox := s.outbox - multiset{id}, msgs := s.msgs + multiset{id})
    ensures Good(s) ==> Good(s')
  {
    hide Good, Trace;
    acts', s' := Extend(s0, acts, s, Queue(Publish(id)));
  }

  /** The remaining claims never leave the process. */
  lemma {:induction false} DropAll(s0: State, acts: seq<Action>, s: State, rest: seq<Id>)
    returns (acts': seq<Action>, s': State)
    requires Trace(s0, acts, s) && multiset(rest) <= s.outbox
    ensures Trace(s0, acts', s') && s' == s.(outbox := s.outbox - multiset(rest))
    ensures Good(s) ==> Good(s')
    decreases |rest|
  {
    hide Good, Trace;
    acts', s' := acts, s;
    if rest != [] {
      MultisetTail(rest);
      acts', s' := DropOne(s0, acts, s, rest[0]);
      acts', s' := DropAll(s0, acts', s', rest[1..]);
    }
  }

  lemma MultisetTail(ids: seq<Id>)
    requires ids != []
    ensures multiset(ids) == multiset{ids[0]} + multiset(ids[1..])
  {
    assert ids == [ids[0]] + ids[1..];
  }

  lemma MultisetSplit(ids: seq<Id>, n: nat)
    requires n <= |ids|
    ensures multiset(ids) == multiset(ids[..n]) + multiset(ids[n..])
    ensures n < |ids| ==> multiset(ids[..n+1]) == multiset(ids[..n]) + multiset{ids[n]}
  {
    assert ids == ids[..n] + ids[n..];
    if n < |ids| { assert ids[..n+1] == ids[..n] + [ids[n]]; }
  }

  /** s after the first n claims have been published. */
  function Published(s: State, claimed: seq<Id>, n: nat): State
    requires n <= |claimed|
  {
    s.(outbox := s.outbox - multiset(claimed[..n]), msgs := s.msgs + multiset(claimed[..n]))
  }

  lemma PublishedNone(s: State, claimed: seq<Id>)
    ensures Published(s, claimed, 0) == s
  {
    assert claimed[..0] == [];
  }

  lemma PublishedSome(s: State, claimed: seq<Id>, n: nat)
    requires multiset(claimed) <= s.outbox && n <= |claimed|
    ensures var t := Published(s, claimed, n);
            && multiset(claimed[n..]) <= t.outbox && t == s.(outbox := t.outbox, msgs := t.msgs)
            && t.outbox - multiset(claimed[n..]) == s.outbox - multiset(claimed)
            && t.msgs == s.msgs + multiset(claimed[..n])
  {
    MultisetSplit(claimed, n);
  }

  lemma PublishNext(s: State, claimed: seq<Id>, n: nat)
    requires multiset(claimed) <= s.outbox && n < |claimed|
    ensures var t := Published(s, claimed, n);
            && claimed[n] in t.outbox
            && t.(outbox := t.outbox - multiset{claimed[n]}, msgs := t.msgs + multiset{claimed[n]})
               == Published(s, claimed, n + 1)
  {
    MultisetSplit(claimed, n);
    MultisetTail(claimed[n..]);
  }

  /** Publishes the claims in order until the broker fails. */
  method PublishAll(claimed: seq<Id>, failAt: Option<nat>, ghost s0: State, ghost acts: seq<Action>, ghost s: State)
    returns (n: nat, ghost acts': seq<Action>, ghost s': State)
    requires Trace(s0, acts, s) && multiset(claimed) <= s.outbox
    ensures n <= |claimed| && (n == |claimed| || failAt == Some(n))
    ensures Trace(s0, acts', s')
    ensures s' == s.(outbox := s.outbox - multiset(claimed), msgs := s.msgs + multiset(claimed[..n]))
    ensures Good(s) ==> Good(s')
  {
    hide Good, Trace, Published;
    acts', s' := acts, s;
    n := 0;
    PublishedNone(s, claimed);
    while n < |claimed| && failAt != Some(n)
      invariant n <= |claimed| && Trace(s0, acts', s')
      invariant s' == Published(s, claimed, n)
      invariant Good(s) ==> Good(s')
    {
      PublishNext(s, claimed, n);
      acts', s' := PublishOne(s0, acts', s', claimed[n]);
      n := n + 1;
    }
    PublishedSome(s, claimed, n);
    acts', s' := DropAll(s0, acts', s', claimed[n..]);
  }

  /** Steps 0a and 0b. */
  method RepairCircuits(db: Db, f: Faults, ghost s0: State, ghost acts: seq<Action>, ghost s: State)
    returns (ghost expiredAt: Time, ghost acts': seq<Action>, ghost s': State)
    requires Trace(s0, acts, s) && At(db, s)
    modifies db`now, db`endpoints, db`deliveries
    ensures Trace(s0, acts', s') && At(db, s') && SameActors(s, s') && s.now <= expiredAt <= s'.now
    ensures Good(s) && A.LiveNotOpen(s, None) ==> Good(s')
    ensures DueEarlier(s.db.deliveries, s'.db.deliveries, s'.now) && s'.db.attempts == s.db.attempts
    ensures s'.db.endpoints.Keys == s.db.endpoints.Keys
    ensures forall e | e in s'.db.endpoints && s'.db.endpoints[e].circuit.state.Open? ::
              s'.db.endpoints[e] == s.db.endpoints[e]
    ensures !f.orphans && !f.expire && f.probes == map[] ==>
              forall e | e in s'.db.endpoints :: !P.Orphan(s'.db.endpoints, e) && !Expired(s'.db.endpoints[e].circuit, expiredAt)
  {
    hide Good, Trace, P.Orphan, DueEarlier, A.LiveNotOpen;
    acts', s' := RecoverOrphans(db, f, s0, acts, s);
    ghost var s1 := s';
    if A.LiveNotOpen(s, None) { StaysLiveNotOpen(s, s1); }
    expiredAt, acts', s' := ExpireAndProbe(db, f, s0, acts', s');
    DueEarlierExtends(s.db.deliveries, s1.db.deliveries, s'.db.deliveries, s1.now, s'.now);
  }

  /** One Tick: published is the prefix of the claims that reached the broker,
      mid the state just before the claim. Whatever the starting state, a Tick
      without store errors leaves no half-open endpoint without probe and no
      open endpoint whose suspension had expired when it looked. */
  method Tick(db: Db, batch: nat, leaseUntil: Time, f: Faults, ghost s0: State, ghost acts: seq<Action>, ghost s: State)
    returns (ok: bool, published: seq<Id>, ghost claimed: seq<Id>, ghost expiredAt: Time, ghost mid: State,
             ghost acts': seq<Action>, ghost s': State)
    requires Trace(s0, acts, s) && At(db, s) && batch == s.cfg.batch
    modifies db`now, db`endpoints, db`deliveries
    ensures Trace(s0, acts', s') && At(db, s')
    ensures Good(s) && A.LiveNotOpen(s, None) ==> Good(mid) && Good(s')
    // steps 0a and 0b
    ensures SameActors(s, mid) && s.now <= expiredAt <= mid.now && mid.db.endpoints.Keys == s.db.endpoints.Keys
    ensures DueEarlier(s.db.deliveries, mid.db.deliveries, mid.now) && mid.db.attempts == s.db.attempts
    ensures forall e | e in mid.db.endpoints && mid.db.endpoints[e].circuit.state.Open? ::
              mid.db.endpoints[e] == s.db.endpoints[e]
    ensures !f.orphans && !f.expire && f.probes == map[] ==>
              forall e | e in db.endpoints :: !P.Orphan(db.endpoints, e) && !Expired(db.endpoints[e].circuit, expiredAt)
    // step 1
    ensures f.claim ==> s' == mid && !ok && claimed == []
    ensures !f.claim ==> ClaimMade(mid, s'.(outbox := mid.outbox + multiset(claimed), msgs := mid.msgs), claimed, leaseUntil)
    ensures published <= claimed && (!f.claim && f.publishAt.None? ==> ok && published == claimed)
    ensures s'.outbox == mid.outbox && s'.msgs == mid.msgs + multiset(published)
  {
    hide Good, Trace, TakesLeast, P.Orphan, DueEarlier, A.LiveNotOpen;
    expiredAt, acts', s' := RepairCircuits(db, f, s0, acts, s);
    if f.claim {
      ok, published, claimed, mid := false, [], [], s';
      return;
    }
    ghost var s2 := s';
    var ids: seq<Id>;
    ids, mid, acts', s' := ClaimStep(db, batch, leaseUntil, s0, acts', s');
    DueLater(s.db.deliveries, s2.db.deliveries, s2.now, mid.now);
    claimed := ids;
    ghost var s3 := s';
    var n: nat;
    n, acts', s' := PublishAll(ids, f.publishAt, s0, acts', s');
    published := ids[..n];
    ok := n == |ids|;
    assert ids[..|ids|] == ids;
    assert s3.outbox - multiset(ids) == mid.outbox;
    assert s'.(outbox := mid.outbox + multiset(claimed), msgs := mid.msgs) == s3;
  }

  lemma DueLater(ds: Deliveries, ds': Deliveries, t: Time, now: Time)
    requires DueEarlier(ds, ds', t) && t <= now
    ensures DueEarlier(ds, ds', now)
  {
  }
}
