/** BulkReplay, with or without other actors between its statements. */
module BulkReplay {
  import opened Model
  import opened Statements
  import opened Pipeline
  import opened RunFacts
  import opened Database
  import opened Tracing
  import opened Scheduler
  import opened DeadLetters

  predicate Skipped(faults: map<Id, Fault>, id: Id) {
    id in faults && faults[id].ReadFails?
  }

  predicate Fails(faults: map<Id, Fault>, id: Id) {
    id in faults && !faults[id].ReadFails?
  }

  /** Every target is replayed, except those whose row could not be read. */
  ghost predicate ReplayedAll(ds: Deliveries, f: Filter, faults: map<Id, Fault>, added: map<Id, Id>) {
    added.Keys == set id | id in Targets(ds, f) && !Skipped(faults, id)
  }

  /** Some delivery gives the run a reason to stop early. */
  ghost predicate CanFail(t: Tables, faults: map<Id, Fault>) {
    exists id | id in t.deliveries :: Fails(faults, id) || t.deliveries[id].endpoint !in t.endpoints
  }

  // ----- the rows this run inserted -------------------------------------------------

  /** added[src] is a row that was not in ds and is a replay of src in ds',
      inserted by a statement in log. */
  ghost predicate Inserted(ds: Deliveries, ds': Deliveries, log: seq<Action>, added: map<Id, Id>) {
    forall src | src in added ::
      && src in ds && added[src] !in ds && added[src] in ds' && Client(CreateReplay(src, added[src])) in log
      && ds'[added[src]].source == Some(src)
      && ds'[added[src]].event == ds[src].event && ds'[added[src]].endpoint == ds[src].endpoint
  }

  /** What the run has inserted since the ids were listed in tables t; run
      alone, the tables have changed by that and nothing else. */
  ghost predicate Accounted(alone: bool, t: Tables, t': Tables, log: seq<Action>, added: map<Id, Id>) {
    && Inserted(t.deliveries, t'.deliveries, log, added)
    && (alone ==> t'.endpoints == t.endpoints && Replays(t.deliveries, t'.deliveries, t.endpoints, added))
  }

  lemma AccountedOnward(alone: bool, b: State, s: State, s': State, log: seq<Action>, log': seq<Action>, added: map<Id, Id>)
    requires Accounted(alone, b.db, s.db, log, added) && Onward(s, s') && log <= log'
    requires alone ==> s'.db == s.db
    ensures Accounted(alone, b.db, s'.db, log', added)
  {
    assert forall a :: a in log ==> a in log';
  }

  /** What is still known of a listed id. */
  lemma ListedStays(b: State, s: State, id: Id)
    requires Onward(b, s) && id in b.db.deliveries
    ensures id in s.db.deliveries && SameIdentity(b.db.deliveries[id], s.db.deliveries[id])
    ensures s.db.endpoints.Keys == b.db.endpoints.Keys
  {
  }

  lemma AloneActive(t: Tables, t': Tables, log: seq<Action>, added: map<Id, Id>, src: Id)
    requires Accounted(true, t, t', log, added) && src in t.deliveries
    ensures ActiveReplay(t'.deliveries, src) <==> ActiveReplay(t.deliveries, src) || src in added
  {
    ActiveAfter(t.deliveries, t'.deliveries, t.endpoints, added, src);
  }

  /** One more row inserted by this run. */
  lemma AccountedInsert(alone: bool, t: Tables, m: Tables, t': Tables, log: seq<Action>, log': seq<Action>,
                        added: map<Id, Id>, src: Id, id: Id, now: Time)
    requires Accounted(alone, t, m, log, added) && log <= log' && Client(CreateReplay(src, id)) in log'
    requires src in t.deliveries && src !in added && src in m.deliveries && m.deliveries[src].endpoint in m.endpoints
    requires SameIdentity(t.deliveries[src], m.deliveries[src]) && t.deliveries.Keys <= m.deliveries.Keys
    requires id !in m.deliveries && t' == m.(deliveries := m.deliveries[id := ReplayRow(m.deliveries, m.endpoints, src, now)])
    ensures Accounted(alone, t, t', log', added[src := id])
  {
    assert forall a :: a in log ==> a in log';
    if alone {
      assert ReplayRow(m.deliveries, m.endpoints, src, now) == ReplayRow(t.deliveries, t.endpoints, src, now);
      ReplaysExtends(t.deliveries, m.deliveries, t.endpoints, added, src, id, now);
    }
  }

  lemma KeysStay(b: State, s: State)
    requires Onward(b, s)
    ensures b.db.deliveries.Keys <= s.db.deliveries.Keys
  {
  }

  // ----- other actors ------------------------------------------------------------------

  /** What other actors do between two statements: nothing if the run is alone,
      else any number of steps, here of other replayers and the reaper. Callers
      use only the contract, and DeadLetters.StepOnward shows that steps of
      every actor meet it. */
  method Others(db: Db, alone: bool, ghost s0: State, ghost acts: seq<Action>, ghost s: State)
    returns (ghost acts': seq<Action>, ghost s': State)
    requires Trace(s0, acts, s) && At(db, s)
    modifies db
    ensures Trace(s0, acts', s') && At(db, s') && Onward(s, s') && acts <= acts'
    ensures alone ==> s' == s
  {
    hide Trace, Good, Onward, Resurrect;
    acts', s' := acts, s;
    OnwardSelf(s, s.now);
    var n: nat :| true;
    while !alone && n > 0
      invariant Trace(s0, acts', s') && At(db, s') && Onward(s, s') && acts <= acts'
      invariant alone ==> s' == s
    {
      ghost var before := s';
      acts', s' := OneOther(db, s0, acts', s');
      OnwardChain(s, before, s');
      n := n - 1;
    }
  }

  /** One statement of another actor. */
  method OneOther(db: Db, ghost s0: State, ghost acts: seq<Action>, ghost s: State)
    returns (ghost acts': seq<Action>, ghost s': State)
    requires Trace(s0, acts, s) && At(db, s)
    modifies db
    ensures Trace(s0, acts', s') && At(db, s') && Onward(s, s') && acts <= acts'
  {
    hide Trace, Good, Onward, Resurrect;
    var ids := db.ListPermanentlyFailedIDs(Filter(None, None));
    var reap: bool :| true;
    if reap || ids == [] {
      acts', s' := NextStatement(db, s0, acts, s);
      OnwardSelf(s, db.now);
      ghost var mid := s';
      var resurrected := db.ResurrectExpiredLeases();
      acts', s' := Extend(s0, acts', s', Schedule(Reap));
      StepOnward(mid, Schedule(Reap));
      OnwardChain(s, mid, s');
    } else {
      assert ids[0] in Elements(ids);
      var r, id;
      r, id, acts', s' := ReplayStep(db, ids[0], s0, acts, s);
    }
  }

  /** Other actors run; what this run has inserted stays. */
  method Meanwhile(db: Db, alone: bool, ghost b: State, ghost added: map<Id, Id>,
                   ghost s0: State, ghost acts: seq<Action>, ghost s: State)
    returns (ghost acts': seq<Action>, ghost s': State)
    requires Trace(s0, acts, s) && At(db, s) && Onward(b, s) && Accounted(alone, b.db, s.db, acts, added)
    modifies db
    ensures Trace(s0, acts', s') && At(db, s') && Onward(b, s') && Accounted(alone, b.db, s'.db, acts', added)
    ensures s.readFailed <= s'.readFailed && (alone ==> s' == s)
  {
    hide Trace, Accounted;
    acts', s' := Others(db, alone, s0, acts, s);
    AccountedOnward(alone, b, s, s', acts, acts', added);
    OnwardChain(b, s, s');
  }

  // ----- one id --------------------------------------------------------------------------

  /** The INSERT of one iteration, for a row read before. */
  method InsertAccounted(db: Db, id: Id, event: Id, endpoint: Id, alone: bool, ghost b: State, ghost added: map<Id, Id>,
                         ghost s0: State, ghost acts: seq<Action>, ghost s: State)
    returns (r: InsertResult, ghost added': map<Id, Id>, ghost acts': seq<Action>, ghost s': State)
    requires Trace(s0, acts, s) && At(db, s) && Onward(b, s) && Accounted(alone, b.db, s.db, acts, added)
    requires id in b.db.deliveries && id in s.readFailed && id !in added
    requires b.db.deliveries[id].event == event && b.db.deliveries[id].endpoint == endpoint
    modifies db
    ensures Trace(s0, acts', s') && At(db, s') && Onward(b, s') && Accounted(alone, b.db, s'.db, acts', added')
    ensures s.readFailed <= s'.readFailed && |added'| == |added| + (if r.Inserted? then 1 else 0)
    ensures added'.Keys == if r.Inserted? then added.Keys + {id} else added.Keys
    ensures r.NoTenant? <==> endpoint !in b.db.endpoints
    ensures r.UniqueViolation? <==> !r.NoTenant? && ActiveReplay(s.db.deliveries, id)
  {
    hide Trace, Good, Accounted, Onward, ActiveReplay, ReplayRow;
    ListedStays(b, s, id);
    KeysStay(b, s);
    var replay;
    r, replay, acts', s' := InsertReplay(db, id, event, endpoint, s0, acts, s);
    OnwardChain(b, s, s');
    OnwardReaders(s, s');
    if r.Inserted? {
      AccountedInsert(alone, b.db, s.db, s'.db, acts, acts', added, id, replay, db.now);
      added' := added[id := replay];
    } else {
      added' := added;
      AccountedOnward(alone, b, s, s', acts, acts', added);
    }
  }

  lemma OnwardReaders(s: State, s': State)
    requires Onward(s, s')
    ensures s.readFailed <= s'.readFailed
  {
  }

  lemma CanFailHere(t: Tables, faults: map<Id, Fault>, id: Id)
    requires id in t.deliveries && (Fails(faults, id) || t.deliveries[id].endpoint !in t.endpoints)
    ensures CanFail(t, faults)
  {
  }

  /** One iteration of BulkReplay's loop over an id listed in state b. */
  method BulkStep(db: Db, id: Id, faults: map<Id, Fault>, alone: bool, ghost b: State, ghost added: map<Id, Id>,
                  ghost s0: State, ghost acts: seq<Action>, ghost s: State)
    returns (inserted: bool, failed: bool, ghost added': map<Id, Id>, ghost acts': seq<Action>, ghost s': State)
    requires Trace(s0, acts, s) && At(db, s) && Onward(b, s) && Accounted(alone, b.db, s.db, acts, added)
    requires id in b.db.deliveries && id in s.readFailed && id !in added
    modifies db
    ensures Trace(s0, acts', s') && At(db, s') && Onward(b, s') && Accounted(alone, b.db, s'.db, acts', added')
    ensures s.readFailed <= s'.readFailed && !(inserted && failed)
    ensures |added'| == |added| + if inserted then 1 else 0
    ensures added'.Keys == if inserted then added.Keys + {id} else added.Keys
    ensures failed ==> CanFail(b.db, faults)
    ensures alone && !failed ==> (inserted <==> !ActiveReplay(b.db.deliveries, id) && !Skipped(faults, id))
  {
    hide Trace, Good, Accounted, Onward, ActiveReplay, CanFail;
    inserted, failed, added' := false, false, added;
    if alone { AloneActive(b.db, s.db, acts, added, id); }
    acts', s' := Meanwhile(db, alone, b, added, s0, acts, s);
    var skip := db.HasNonTerminalReplay(id);
    if id in faults && faults[id].CheckFails? { failed := true; CanFailHere(b.db, faults, id); return; }
    if skip { return; }
    acts', s' := Meanwhile(db, alone, b, added, s0, acts', s');
    if id in faults && faults[id].ReadFails? { return; }
    ListedStays(b, s', id);
    var event, endpoint := db.deliveries[id].event, db.deliveries[id].endpoint;
    acts', s' := Meanwhile(db, alone, b, added, s0, acts', s');
    if id in faults && faults[id].InsertFails? { failed := true; CanFailHere(b.db, faults, id); return; }
    var r;
    r, added', acts', s' := InsertAccounted(db, id, event, endpoint, alone, b, added, s0, acts', s');
    match r {
      case Inserted => inserted := true;
      case NoTenant => failed := true; CanFailHere(b.db, faults, id);
      case UniqueViolation =>   // a concurrent replay got there first
    }
  }

  // ----- the loop --------------------------------------------------------------------------

  /** What the loop, run alone, has done with ids. */
  ghost predicate Handled(ds: Deliveries, ids: seq<Id>, faults: map<Id, Fault>, added: map<Id, Id>) {
    forall id :: id in added <==> id in ids && !ActiveReplay(ds, id) && !Skipped(faults, id)
  }

  /** The state of the loop at index i, ids having been listed in state b. */
  ghost predicate LoopInv(b: State, s: State, ids: seq<Id>, i: nat, f: Filter, faults: map<Id, Fault>, alone: bool,
                          count: nat, acts: seq<Action>, added: map<Id, Id>) {
    && i <= |ids| && Distinct(ids) && Elements(ids) == FailedIds(b.db.deliveries, f)
    && Onward(b, s) && Elements(ids) <= s.readFailed
    && Accounted(alone, b.db, s.db, acts, added) && count == |added| && added.Keys <= Elements(ids[..i])
    && (alone ==> Handled(b.db.deliveries, ids[..i], faults, added))
  }

  lemma LoopStarts(b: State, ids: seq<Id>, f: Filter, faults: map<Id, Fault>, alone: bool, acts: seq<Action>)
    requires Distinct(ids) && Elements(ids) == FailedIds(b.db.deliveries, f) && Elements(ids) <= b.readFailed
    ensures LoopInv(b, b, ids, 0, f, faults, alone, 0, acts, map[])
  {
  }

  lemma NextId(b: State, s: State, ids: seq<Id>, i: nat, f: Filter, faults: map<Id, Fault>, alone: bool,
               count: nat, acts: seq<Action>, added: map<Id, Id>)
    requires LoopInv(b, s, ids, i, f, faults, alone, count, acts, added) && i < |ids|
    ensures Onward(b, s) && Accounted(alone, b.db, s.db, acts, added) && count == |added|
    ensures ids[i] in b.db.deliveries && ids[i] in s.readFailed && ids[i] !in added
  {
    hide Onward, Accounted, Handled;
    assert ids[i] in Elements(ids);
    assert ids[i] !in ids[..i] && ids[i] !in Elements(ids[..i]);
  }

  lemma LoopGoesOn(b: State, s: State, s': State, ids: seq<Id>, i: nat, f: Filter, faults: map<Id, Fault>, alone: bool,
                   acts: seq<Action>, acts': seq<Action>, added: map<Id, Id>, added': map<Id, Id>, inserted: bool)
    requires LoopInv(b, s, ids, i, f, faults, alone, |added|, acts, added) && i < |ids|
    requires Onward(b, s') && s.readFailed <= s'.readFailed && Accounted(alone, b.db, s'.db, acts', added')
    requires added'.Keys == if inserted then added.Keys + {ids[i]} else added.Keys
    requires alone ==> (inserted <==> !ActiveReplay(b.db.deliveries, ids[i]) && !Skipped(faults, ids[i]))
    ensures LoopInv(b, s', ids, i + 1, f, faults, alone, |added'|, acts', added')
  {
    hide Onward, Accounted, Handled, FailedIds;
    assert Elements(ids[..i+1]) == Elements(ids[..i]) + {ids[i]} by { assert ids[..i+1] == ids[..i] + [ids[i]]; }
    if alone { HandledNext(b.db.deliveries, ids, i, faults, added, added', inserted); }
  }

  lemma HandledNext(ds: Deliveries, ids: seq<Id>, i: nat, faults: map<Id, Fault>,
                    added: map<Id, Id>, added': map<Id, Id>, inserted: bool)
    requires i < |ids| && Handled(ds, ids[..i], faults, added)
    requires added'.Keys == if inserted then added.Keys + {ids[i]} else added.Keys
    requires inserted <==> !ActiveReplay(ds, ids[i]) && !Skipped(faults, ids[i])
    ensures Handled(ds, ids[..i+1], faults, added')
  {
    hide ActiveReplay, Skipped;
    assert ids[..i+1] == ids[..i] + [ids[i]];
    assert forall id :: id in added' <==> id in added'.Keys;
  }

  /** What the loop, run alone, leaves behind when it stops at i. */
  lemma LoopEnds(b: State, s: State, ids: seq<Id>, i: nat, f: Filter, faults: map<Id, Fault>, count: nat,
                 acts: seq<Action>, added: map<Id, Id>)
    requires LoopInv(b, s, ids, i, f, faults, true, count, acts, added)
    ensures Replays(b.db.deliveries, s.db.deliveries, b.db.endpoints, added) && s.db.endpoints == b.db.endpoints
    ensures |s.db.deliveries| == |b.db.deliveries| + count && added.Keys <= Targets(b.db.deliveries, f)
    ensures i == |ids| ==> ReplayedAll(b.db.deliveries, f, faults, added)
  {
    hide Onward, Inserted;
    ReplaysCount(b.db.deliveries, s.db.deliveries, b.db.endpoints, added);
    hide Replays, ActiveReplay, Skipped, FailedIds;
    forall id | id in added ensures id in Targets(b.db.deliveries, f) {
      assert id in ids[..i] && id in Elements(ids);
    }
    if i == |ids| {
      assert ids[..i] == ids;
      assert forall id :: id in ids <==> id in Elements(ids);
    }
  }

  /** Reading the list: every id on it has been read as failed. */
  lemma {:induction false} ReadListed(s0: State, acts: seq<Action>, s: State, ids: seq<Id>)
    returns (acts': seq<Action>, s': State)
    requires Trace(s0, acts, s)
    requires forall id | id in ids :: id in s.db.deliveries && s.db.deliveries[id].status.PermanentlyFailed?
    ensures Trace(s0, acts', s') && s' == s.(readFailed := s.readFailed + Elements(ids))
    decreases |ids|
  {
    hide Trace, Good;
    if ids == [] {
      acts', s' := acts, s;
    } else {
      acts', s' := Extend(s0, acts, s, Client(ReadFailed(ids[0])));
      acts', s' := ReadListed(s0, acts', s', ids[1..]);
      assert Elements(ids) == {ids[0]} + Elements(ids[1..]);
    }
  }

  /** The loop of BulkReplay over the ids listed in state b. */
  method ReplayListed(db: Db, ids: seq<Id>, f: Filter, faults: map<Id, Fault>, alone: bool,
                      ghost s0: State, ghost acts: seq<Action>, ghost b: State)
    returns (count: nat, i: nat, failed: bool, ghost added: map<Id, Id>, ghost acts': seq<Action>, ghost s': State)
    requires Trace(s0, acts, b) && At(db, b)
    requires Distinct(ids) && Elements(ids) == FailedIds(b.db.deliveries, f) && Elements(ids) <= b.readFailed
    modifies db
    ensures Trace(s0, acts', s') && At(db, s') && LoopInv(b, s', ids, i, f, faults, alone, count, acts', added)
    ensures if failed then CanFail(b.db, faults) else i == |ids|
  {
    hide *;
    count, i, failed, added, acts', s' := 0, 0, false, map[], acts, b;
    LoopStarts(b, ids, f, faults, alone, acts);
    while i < |ids| && !failed
      invariant i <= |ids| && Trace(s0, acts', s') && At(db, s')
      invariant LoopInv(b, s', ids, i, f, faults, alone, count, acts', added)
      invariant failed ==> CanFail(b.db, faults)
      decreases |ids| - i, !failed
    {
      i, count, failed, added, acts', s' := BulkNext(db, ids, i, f, faults, alone, count, b, added, s0, acts', s');
    }
  }

  /** The loop body. */
  method BulkNext(db: Db, ids: seq<Id>, i: nat, f: Filter, faults: map<Id, Fault>, alone: bool, count: nat,
                  ghost b: State, ghost added: map<Id, Id>, ghost s0: State, ghost acts: seq<Action>, ghost s: State)
    returns (i': nat, count': nat, failed: bool, ghost added': map<Id, Id>, ghost acts': seq<Action>, ghost s': State)
    requires Trace(s0, acts, s) && At(db, s)
    requires i < |ids| && LoopInv(b, s, ids, i, f, faults, alone, count, acts, added)
    modifies db
    ensures Trace(s0, acts', s') && At(db, s') && LoopInv(b, s', ids, i', f, faults, alone, count', acts', added')
    ensures i' == (if failed then i else i + 1)
    ensures failed ==> CanFail(b.db, faults)
  {
    hide *;
    NextId(b, s, ids, i, f, faults, alone, count, acts, added);
    var inserted;
    inserted, failed, added', acts', s' := BulkStep(db, ids[i], faults, alone, b, added, s0, acts, s);
    if failed {
      i', count' := i, count;
      LoopStops(b, s, s', ids, i, f, faults, alone, acts, acts', added, added');
    } else {
      i', count' := i + 1, if inserted then count + 1 else count;
      LoopGoesOn(b, s, s', ids, i, f, faults, alone, acts, acts', added, added', inserted);
    }
  }

  lemma LoopStops(b: State, s: State, s': State, ids: seq<Id>, i: nat, f: Filter, faults: map<Id, Fault>, alone: bool,
                  acts: seq<Action>, acts': seq<Action>, added: map<Id, Id>, added': map<Id, Id>)
    requires LoopInv(b, s, ids, i, f, faults, alone, |added|, acts, added)
    requires Onward(b, s') && s.readFailed <= s'.readFailed && Accounted(alone, b.db, s'.db, acts', added')
    requires added'.Keys == added.Keys && |added'| == |added|
    ensures LoopInv(b, s', ids, i, f, faults, alone, |added|, acts', added')
  {
    hide Onward, Accounted, ActiveReplay, Skipped, FailedIds;
    assert forall id :: id in added' <==> id in added'.Keys;
  }

  lemma ListedFailed(ds: Deliveries, f: Filter, ids: seq<Id>)
    requires Elements(ids) == FailedIds(ds, f)
    ensures forall id | id in ids :: id in ds && ds[id].status.PermanentlyFailed?
  {
    assert forall id | id in ids :: id in Elements(ids);
  }

  lemma LoopFacts(b: State, s: State, ids: seq<Id>, i: nat, f: Filter, faults: map<Id, Fault>, alone: bool, count: nat,
                  acts: seq<Action>, added: map<Id, Id>)
    requires LoopInv(b, s, ids, i, f, faults, alone, count, acts, added)
    ensures Onward(b, s) && count == |added| && Inserted(b.db.deliveries, s.db.deliveries, acts, added)
  {
    hide Onward, Replays, Handled;
  }

  /** BulkReplay: with any other actors between its statements, the count it
      returns is the number of rows it inserted, on every exit. Run alone, it
      has inserted nothing else, and without an error it has replayed every
      target, except those whose row it could not read, which it skips silently. */
  method BulkReplay(db: Db, f: Filter, tenants: set<Id>, listFails: bool, faults: map<Id, Fault>, alone: bool,
                    ghost s0: State, ghost acts: seq<Action>, ghost s: State)
    returns (count: nat, error: Option<Error>, ghost added: map<Id, Id>, ghost acts': seq<Action>, ghost s': State)
    requires Trace(s0, acts, s) && At(db, s)
    modifies db
    ensures Trace(s0, acts', s') && At(db, s') && Onward(s, s')
    ensures count == |added| && Inserted(s.db.deliveries, s'.db.deliveries, acts', added)
    ensures alone ==>
              && s'.db.endpoints == s.db.endpoints && Replays(s.db.deliveries, s'.db.deliveries, s.db.endpoints, added)
              && |s'.db.deliveries| == |s.db.deliveries| + count
              && added.Keys <= Targets(s.db.deliveries, f)
              && (error.None? ==> ReplayedAll(s.db.deliveries, f, faults, added))
    ensures error == Some(Unprocessable) <==>
              || (f.tenant.None? && f.endpoint.None?)
              || (f.tenant.Some? && f.tenant.value !in tenants)
              || (f.endpoint.Some? && f.endpoint.value !in s.db.endpoints)
    ensures error.Some? && error != Some(Unprocessable) ==>
              error == Some(StoreFailure) && (listFails || CanFail(s.db, faults))
  {
    hide Trace, Good, Onward, Inserted, Replays, Targets, FailedIds, Distinct, Elements, ReplayedAll, CanFail, LoopInv;
    count, error, added, acts', s' := 0, None, map[], acts, s;
    NothingInserted(s, f, acts);
    if f.tenant.None? && f.endpoint.None? { error := Some(Unprocessable); return; }
    if f.tenant.Some? && f.tenant.value !in tenants { error := Some(Unprocessable); return; }
    if f.endpoint.Some? && f.endpoint.value !in db.endpoints { error := Some(Unprocessable); return; }
    if listFails { error := Some(StoreFailure); return; }
    var ids := db.ListPermanentlyFailedIDs(f);
    ListedFailed(s.db.deliveries, f, ids);
    ghost var b;
    acts', b := ReadListed(s0, acts, s, ids);
    ReadersOnward(s, b.readFailed);
    var i, failed;
    count, i, failed, added, acts', s' := ReplayListed(db, ids, f, faults, alone, s0, acts', b);
    LoopFacts(b, s', ids, i, f, faults, alone, count, acts', added);
    OnwardChain(s, b, s');
    if alone { LoopEnds(b, s', ids, i, f, faults, count, acts', added); }
    if failed { error := Some(StoreFailure); }
  }

  lemma ReadersOnward(s: State, readFailed: set<Id>)
    requires s.readFailed <= readFailed
    ensures Onward(s, s.(readFailed := readFailed))
  {
  }

  lemma NothingInserted(s: State, f: Filter, acts: seq<Action>)
    ensures Onward(s, s) && Inserted(s.db.deliveries, s.db.deliveries, acts, map[])
    ensures Replays(s.db.deliveries, s.db.deliveries, s.db.endpoints, map[])
  {
  }
}
