/** Replaying permanently failed deliveries, one or in bulk. */
module DeadLetters {
  import opened Model
  import opened Statements
  import opened Pipeline
  import opened RunFacts
  import opened ReplayForest
  import opened Database
  import opened Tracing
  import opened Scheduler

  /** The failed deliveries matching f that have no unfinished replay. */
  function Targets(ds: Deliveries, f: Filter): set<Id> {
    set id | id in FailedIds(ds, f) && !ActiveReplay(ds, id)
  }

  /** ds' is ds with one scheduled replay added[src] added for each source src, and nothing else. */
  ghost predicate Replays(ds: Deliveries, ds': Deliveries, es: Endpoints, added: map<Id, Id>) {
    && (forall src | src in added ::
          && src in ds && ds[src].endpoint in es
          && added[src] !in ds && added[src] in ds'
          && ds'[added[src]] == ReplayRow(ds, es, src, ds'[added[src]].createdAt))
    && (forall id | id in ds :: id in ds' && ds'[id] == ds[id])
    && (forall id | id in ds' && id !in ds ::
          ds'[id].source.Some? && ds'[id].source.value in added && added[ds'[id].source.value] == id)
  }

  lemma ReplaysLess(ds: Deliveries, ds': Deliveries, es: Endpoints, added: map<Id, Id>, src: Id)
    requires Replays(ds, ds', es, added) && src in added
    ensures Replays(ds, ds' - {added[src]}, es, added - {src})
  {
    forall x | x in added && x != src ensures added[x] != added[src] {
      assert ds'[added[x]].source == Some(x) && ds'[added[src]].source == Some(src);
    }
  }

  lemma {:induction false} ReplaysCount(ds: Deliveries, ds': Deliveries, es: Endpoints, added: map<Id, Id>)
    requires Replays(ds, ds', es, added)
    ensures |ds'| == |ds| + |added|
    decreases |added|
  {
    if added == map[] {
      assert ds' == ds;
    } else {
      var src :| src in added;
      ReplaysLess(ds, ds', es, added, src);
      assert added[src] in ds';
      hide Replays;
      ReplaysCount(ds, ds' - {added[src]}, es, added - {src});
      assert (ds' - {added[src]}).Keys == ds'.Keys - {added[src]};
      assert (added - {src}).Keys == added.Keys - {src};
      assert |ds'| == |ds'.Keys| && |added| == |added.Keys|;
      assert |ds' - {added[src]}| == |(ds' - {added[src]}).Keys| && |added - {src}| == |(added - {src}).Keys|;
    }
  }

  lemma ReplaysExtends(ds: Deliveries, mid: Deliveries, es: Endpoints, added: map<Id, Id>, src: Id, id: Id, now: Time)
    requires Replays(ds, mid, es, added) && src in ds && ds[src].endpoint in es && src !in added && id !in mid
    ensures Replays(ds, mid[id := ReplayRow(ds, es, src, now)], es, added[src := id])
  {
  }

  /** Which unfinished replays there are after a bulk replay. */
  lemma ActiveAfter(ds: Deliveries, ds': Deliveries, es: Endpoints, added: map<Id, Id>, src: Id)
    requires Replays(ds, ds', es, added)
    ensures ActiveReplay(ds', src) <==> ActiveReplay(ds, src) || src in added
  {
    if ActiveReplay(ds, src) {
      var r :| r in ds && ds[r].source == Some(src) && !ds[r].status.Terminal();
      assert r in ds' && ds'[r] == ds[r];
    }
    if src in added {
      assert added[src] in ds' && ds'[added[src]].source == Some(src);
    }
  }

  lemma FailedIdsAfter(ds: Deliveries, ds': Deliveries, es: Endpoints, added: map<Id, Id>, f: Filter)
    requires Replays(ds, ds', es, added)
    ensures FailedIds(ds', f) == FailedIds(ds, f)
  {
  }

  lemma TargetsAfter(ds: Deliveries, ds': Deliveries, es: Endpoints, added: map<Id, Id>, f: Filter)
    requires Replays(ds, ds', es, added)
    ensures Targets(ds', f) == Targets(ds, f) - added.Keys
  {
    FailedIdsAfter(ds, ds', es, added, f);
    forall src ensures src in Targets(ds', f) <==> src in Targets(ds, f) && src !in added {
      ActiveAfter(ds, ds', es, added, src);
    }
  }

  /** After a complete bulk replay every matching failed delivery has exactly one unfinished replay. */
  lemma ExactlyOneActive(ds: Deliveries, ds': Deliveries, es: Endpoints, added: map<Id, Id>, f: Filter, src: Id)
    requires Replays(ds, ds', es, added) && added.Keys == Targets(ds, f) && OneActiveReplay(ds)
    requires src in FailedIds(ds, f)
    ensures ActiveReplay(ds', src)
    ensures forall x, y | x in ds' && y in ds' && ds'[x].source == Some(src) && ds'[y].source == Some(src)
                          && !ds'[x].status.Terminal() && !ds'[y].status.Terminal() :: x == y
  {
    ActiveAfter(ds, ds', es, added, src);
    forall x, y | x in ds' && y in ds' && ds'[x].source == Some(src) && ds'[y].source == Some(src)
                  && !ds'[x].status.Terminal() && !ds'[y].status.Terminal()
      ensures x == y
    {
      assert src in added ==> !ActiveReplay(ds, src);
      assert x in ds || y in ds ==> ActiveReplay(ds, src);
      if x in ds && y in ds { assert ds[x].source == ds[y].source; }
    }
  }

  /** A second run right after a complete one has nothing left to replay. */
  lemma SecondRunFindsNothing(ds: Deliveries, ds': Deliveries, es: Endpoints, added: map<Id, Id>, f: Filter)
    requires Replays(ds, ds', es, added) && added.Keys == Targets(ds, f)
    ensures Targets(ds', f) == {}
  {
    TargetsAfter(ds, ds', es, added, f);
  }

  lemma ReplaysCompose(ds: Deliveries, mid: Deliveries, ds': Deliveries, es: Endpoints, added: map<Id, Id>, rest: map<Id, Id>)
    requires Replays(ds, mid, es, added) && Replays(mid, ds', es, rest) && added.Keys !! rest.Keys && rest.Keys <= ds.Keys
    ensures Replays(ds, ds', es, added + rest)
  {
    var all := added + rest;
    forall src | src in all
      ensures src in ds && ds[src].endpoint in es && all[src] !in ds && all[src] in ds'
      ensures ds'[all[src]] == ReplayRow(ds, es, src, ds'[all[src]].createdAt)
    {
      if src in rest { assert mid[src] == ds[src]; }
    }
    forall id | id in ds' && id !in ds
      ensures ds'[id].source.Some? && ds'[id].source.value in all && all[ds'[id].source.value] == id
    {
      if id in mid { assert ds'[id] == mid[id]; }
    }
  }

  lemma KeysAddUp(added: map<Id, Id>, rest: map<Id, Id>, all: set<Id>)
    requires added.Keys !! rest.Keys && all == added.Keys + rest.Keys
    ensures (added + rest).Keys == all && |added| + |rest| == |all|
  {
    assert |added| == |added.Keys| && |rest| == |rest.Keys|;
  }

  /** An interrupted run followed by a complete one replays the same sources,
      with the same total, as one complete run. */
  lemma InterruptedThenComplete(ds: Deliveries, mid: Deliveries, ds': Deliveries, es: Endpoints,
                                added: map<Id, Id>, rest: map<Id, Id>, f: Filter)
    requires Replays(ds, mid, es, added) && added.Keys <= Targets(ds, f)
    requires Replays(mid, ds', es, rest) && rest.Keys == Targets(mid, f)
    ensures added.Keys !! rest.Keys
    ensures Replays(ds, ds', es, added + rest) && (added + rest).Keys == Targets(ds, f)
    ensures |added| + |rest| == |Targets(ds, f)|
  {
    hide Replays, Targets, FailedIds, ActiveReplay;
    TargetsSplit(ds, mid, es, added, rest, f);
    ReplaysCompose(ds, mid, ds', es, added, rest);
    KeysAddUp(added, rest, Targets(ds, f));
  }

  lemma TargetsSplit(ds: Deliveries, mid: Deliveries, es: Endpoints, added: map<Id, Id>, rest: map<Id, Id>, f: Filter)
    requires Replays(ds, mid, es, added) && added.Keys <= Targets(ds, f) && rest.Keys == Targets(mid, f)
    ensures added.Keys !! rest.Keys && added.Keys + rest.Keys == Targets(ds, f) && rest.Keys <= ds.Keys
  {
    TargetsAfter(ds, mid, es, added, f);
    assert Targets(ds, f) <= ds.Keys;
  }

  // ----- the service ------------------------------------------------------------

  datatype Error = NotFound | Conflict | Unprocessable | StoreFailure

  datatype ReplayReply = Replayed(id: Id) | Refused(error: Error)

  /** Statements that can meet a store error. */
  datatype Fault = CheckFails | ReadFails | InsertFails

  method NewId(db: Db) returns (id: Id)
    ensures id !in db.deliveries
  {
    ghost var known := db.deliveries.Keys;
    FreshExists(known);
    id :| id !in db.deliveries;
  }

  /** Everything but the tables, the clock and the ids read as failed is as before. */
  predicate SameActorsButReaders(s: State, s': State) {
    SameActors(s.(readFailed := s'.readFailed), s')
  }

  /** Time passes, rows are added or updated, and reads of failed ids accumulate:
      what any steps of any actors do to the state. */
  ghost predicate Onward(s: State, s': State) {
    Later(s, s') && s.readFailed <= s'.readFailed
  }

  lemma ReadersStep(s: State, a: Action)
    requires Enabled(s, a)
    ensures s.readFailed <= Apply(s, a).readFailed
  {
    hide DoFinish, DoSettle, InsertAttempt, RecordOutcome;
    match a
    case Work(SettleCircuit(w, stored)) => SettleFrame(s, w, stored);
    case Work(Finish(w, clock, draw)) => FinishFrame(s, w, clock, draw);
    case _ =>
  }

  lemma StepOnward(s: State, a: Action)
    requires Enabled(s, a)
    ensures Onward(s, Apply(s, a))
  {
    hide Enabled, Apply, Later;
    StepLater(s, a);
    ReadersStep(s, a);
  }

  lemma OnwardChain(a: State, b: State, c: State)
    requires Onward(a, b) && Onward(b, c)
    ensures Onward(a, c)
  {
  }

  lemma OnwardSelf(s: State, t: Time)
    requires s.now <= t
    ensures Onward(s, s.(now := t))
  {
  }

  /** The INSERT of a replay of src, read as failed before. */
  method InsertReplay(db: Db, src: Id, event: Id, endpoint: Id, ghost s0: State, ghost acts: seq<Action>, ghost s: State)
    returns (r: InsertResult, id: Id, ghost acts': seq<Action>, ghost s': State)
    requires Trace(s0, acts, s) && At(db, s) && src in s.readFailed
    requires src in db.deliveries && db.deliveries[src].event == event && db.deliveries[src].endpoint == endpoint
    modifies db`now, db`deliveries
    ensures Trace(s0, acts', s') && At(db, s') && SameActors(s, s') && Onward(s, s') && db.now >= old(db.now)
    ensures acts <= acts' && (r.Inserted? ==> Client(CreateReplay(src, id)) in acts')
    ensures id !in old(db.deliveries)
    ensures r.NoTenant? <==> endpoint !in db.endpoints
    ensures r.UniqueViolation? <==> !r.NoTenant? && ActiveReplay(old(db.deliveries), src)
    ensures db.deliveries == if r.Inserted? then old(db.deliveries)[id := ReplayRow(old(db.deliveries), db.endpoints, src, db.now)]
                             else old(db.deliveries)
  {
    hide Trace, Good, Onward;
    acts', s' := NextStatement(db, s0, acts, s);
    OnwardSelf(s, db.now);
    ghost var mid := s';
    id := NewId(db);
    ghost var before := db.deliveries;
    r := db.CreateReplay(event, endpoint, src, id);
    if !r.NoTenant? {
      assert DuplicatesReplay(before, id, ReplayRow(before, db.endpoints, src, db.now)) <==> ActiveReplay(before, src);
      acts', s' := Extend(s0, acts', mid, Client(CreateReplay(src, id)));
      StepOnward(mid, Client(CreateReplay(src, id)));
      OnwardChain(s, mid, s');
    }
  }

  /** Reads src as failed and inserts its replay. */
  method ReplayStep(db: Db, src: Id, ghost s0: State, ghost acts: seq<Action>, ghost s: State)
    returns (r: InsertResult, id: Id, ghost acts': seq<Action>, ghost s': State)
    requires Trace(s0, acts, s) && At(db, s)
    requires src in db.deliveries && db.deliveries[src].status.PermanentlyFailed?
    modifies db`now, db`deliveries
    ensures Trace(s0, acts', s') && At(db, s') && SameActorsButReaders(s, s') && Onward(s, s') && acts <= acts'
    ensures id !in old(db.deliveries)
    ensures r.NoTenant? <==> old(db.deliveries[src].endpoint) !in db.endpoints
    ensures r.UniqueViolation? <==> !r.NoTenant? && ActiveReplay(old(db.deliveries), src)
    ensures db.deliveries == if r.Inserted? then old(db.deliveries)[id := ReplayRow(old(db.deliveries), db.endpoints, src, db.now)]
                             else old(db.deliveries)
  {
    hide Trace, Good, Onward, ReplayRow, ActiveReplay;
    acts', s' := Extend(s0, acts, s, Client(ReadFailed(src)));
    StepOnward(s, Client(ReadFailed(src)));
    ghost var mid := s';
    r, id, acts', s' := InsertReplay(db, src, db.deliveries[src].event, db.deliveries[src].endpoint, s0, acts', s');
    OnwardChain(s, mid, s');
  }

  /** Replay of one delivery, run alone: refused exactly when the delivery is
      missing, is not failed, lost its endpoint, or has an unfinished replay. */
  method Replay(db: Db, src: Id, fault: Option<Fault>, ghost s0: State, ghost acts: seq<Action>, ghost s: State)
    returns (reply: ReplayReply, ghost acts': seq<Action>, ghost s': State)
    requires Trace(s0, acts, s) && At(db, s)
    modifies db`now, db`deliveries
    ensures Trace(s0, acts', s') && At(db, s') && SameActorsButReaders(s, s')
    ensures reply == Refused(StoreFailure) ==> fault.Some?
    ensures reply == Refused(NotFound) <==> fault != Some(ReadFails) && src !in old(db.deliveries)
    ensures reply == Refused(Unprocessable) ==> src in old(db.deliveries) && old(db.deliveries[src].endpoint) !in db.endpoints
    ensures reply == Refused(Conflict) ==>
              && src in old(db.deliveries)
              && (!old(db.deliveries[src].status.PermanentlyFailed?) || ActiveReplay(old(db.deliveries), src))
    ensures fault.None? && src in old(db.deliveries) ==>
              (reply.Replayed? <==> old(db.deliveries[src].status.PermanentlyFailed?)
                                    && old(db.deliveries[src].endpoint) in db.endpoints && !ActiveReplay(old(db.deliveries), src))
    ensures reply.Replayed? ==> src in old(db.deliveries) && src in Targets(old(db.deliveries), Filter(None, None))
                                && Replays(old(db.deliveries), db.deliveries, db.endpoints, map[src := reply.id])
    ensures reply.Refused? ==> db.deliveries == old(db.deliveries)
  {
    hide Trace, Good, ReplayRow;
    acts', s' := acts, s;
    if fault == Some(ReadFails) { return Refused(StoreFailure), acts', s'; }
    if src !in db.deliveries { return Refused(NotFound), acts', s'; }
    if !db.deliveries[src].status.PermanentlyFailed? { return Refused(Conflict), acts', s'; }
    if fault == Some(CheckFails) { return Refused(StoreFailure), acts', s'; }
    if db.deliveries[src].endpoint !in db.endpoints { return Refused(Unprocessable), acts', s'; }
    if fault == Some(InsertFails) { return Refused(StoreFailure), acts', s'; }
    var r, id;
    r, id, acts', s' := ReplayStep(db, src, s0, acts', s');
    if r.Inserted? {
      reply := Replayed(id);
      ReplaysExtends(old(db.deliveries), old(db.deliveries), db.endpoints, map[], src, id, db.now);
    } else {
      reply := Refused(Conflict);
    }
  }
}
