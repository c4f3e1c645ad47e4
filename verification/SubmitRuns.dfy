/** Overlapping Submit transactions and the purge, statement by statement, under
    READ COMMITTED: writes stay private until commit, the advisory lock is held
    to the end of the transaction, and NOW() is the transaction's start. */
module SubmitRuns {
  import opened Model
  import opened Idempotency

  /** How far a transaction has come; row is its private version of the
      idempotency record, ids its uncommitted event and delivery. */
  datatype Stage =
    | Begun
    | Locked
    | Answered(answer: Answer)
    | Missed
    | Claiming(row: Record)
    | Inserted(claim: Option<Record>, ids: Ids)
    | Ready(done: Record, ids: Ids)

  datatype Tx = Tx(start: Time, slot: Slot, hash: Hash, stage: Stage)

  /** A committed delivery with its event, as far as Submit decides it. */
  datatype Row = Row(event: Id, endpoint: Id, createdAt: Time)

  datatype State = State(
    now: Time,
    records: Records,
    deliveries: map<Id, Row>,
    txs: map<Id, Tx>)

  datatype Action =
    | Advance(to: Time)
    | Begin(tx: Id, slot: Slot, hash: Hash)
    | AcquireLock(tx: Id)
    | Lookup(tx: Id)
    | Claim(tx: Id)
    | Insert(tx: Id, ids: Ids)
    | Complete(tx: Id)
    | Commit(tx: Id)
    | Rollback(tx: Id)
    | PurgeRow(slot: Slot, at: Time)

  predicate HoldsLock(t: Tx) {
    t.slot.Keyed() && !t.stage.Begun?
  }

  predicate HoldsRow(t: Tx) {
    t.stage.Claiming? || (t.stage.Inserted? && t.stage.claim.Some?) || t.stage.Ready?
  }

  predicate Uncommitted(t: Tx, delivery: Id) {
    (t.stage.Inserted? || t.stage.Ready?) && t.stage.ids.delivery == delivery
  }

  predicate At(s: State, tx: Id, slot: Slot, start: Time) {
    tx in s.txs && s.txs[tx].slot == slot && s.txs[tx].start == start
  }

  predicate Init(s: State) {
    s.records == map[] && s.deliveries == map[] && s.txs == map[]
  }

  ghost predicate Enabled(lockKey: Slot -> int, s: State, a: Action) {
    match a
    case Advance(to) => s.now <= to
    case Begin(tx, _, _) => tx !in s.txs
    case AcquireLock(tx) => tx in s.txs && s.txs[tx].stage.Begun? && s.txs[tx].slot.Keyed()
                            && forall u | u in s.txs && HoldsLock(s.txs[u]) :: lockKey(s.txs[u].slot) != lockKey(s.txs[tx].slot)
    case Lookup(tx) => tx in s.txs && s.txs[tx].stage.Locked?
    case Claim(tx) => tx in s.txs && s.txs[tx].stage.Missed?
    case Insert(tx, ids) => tx in s.txs && ids.delivery !in s.deliveries
                            && (s.txs[tx].stage.Claiming? || (s.txs[tx].stage.Begun? && !s.txs[tx].slot.Keyed()))
                            && forall u | u in s.txs :: !Uncommitted(s.txs[u], ids.delivery)
    case Complete(tx) => tx in s.txs && s.txs[tx].stage.Inserted? && s.txs[tx].stage.claim.Some?
    case Commit(tx) => tx in s.txs && (s.txs[tx].stage.Ready? || (s.txs[tx].stage.Inserted? && s.txs[tx].stage.claim.None?))
    case Rollback(tx) => tx in s.txs
    case PurgeRow(slot, at) => at <= s.now && forall u | u in s.txs && HoldsRow(s.txs[u]) :: s.txs[u].slot != slot
  }

  function AtStage(s: State, tx: Id, g: Stage): State
    requires tx in s.txs
  {
    s.(txs := s.txs[tx := s.txs[tx].(stage := g)])
  }

  /** What Submit does with the row Lookup returned. */
  function AfterLookup(found: Option<Record>, hash: Hash): Stage {
    if found.Some? && found.value.ids.Some? then
      Answered(if found.value.hash != hash then Conflict else Cached(found.value.ids.value))
    else Missed
  }

  function DoCommit(s: State, tx: Id): State
    requires tx in s.txs && (s.txs[tx].stage.Ready? || s.txs[tx].stage.Inserted?)
  {
    var t := s.txs[tx];
    s.(txs := s.txs - {tx},
       deliveries := s.deliveries[t.stage.ids.delivery := Row(t.stage.ids.event, t.slot.endpoint, t.start)],
       records := if t.stage.Ready? then s.records[t.slot := t.stage.done] else s.records)
  }

  function Apply(lockKey: Slot -> int, s: State, a: Action): State
    requires Enabled(lockKey, s, a)
  {
    match a
    case Advance(to) => s.(now := to)
    case Begin(tx, slot, hash) => s.(txs := s.txs[tx := Tx(s.now, slot, hash, Begun)])
    case AcquireLock(tx) => AtStage(s, tx, Locked)
    case Lookup(tx) => AtStage(s, tx, AfterLookup(Found(RowAt(s.records, s.txs[tx].slot), s.txs[tx].start), s.txs[tx].hash))
    case Claim(tx) => AtStage(s, tx, Claiming(Claimed(RowAt(s.records, s.txs[tx].slot), s.txs[tx].hash, s.txs[tx].start)))
    case Insert(tx, ids) =>
      AtStage(s, tx, Inserted(if s.txs[tx].stage.Claiming? then Some(s.txs[tx].stage.row) else None, ids))
    case Complete(tx) => AtStage(s, tx, Ready(Completed(s.txs[tx].stage.claim.value, s.txs[tx].stage.ids), s.txs[tx].stage.ids))
    case Commit(tx) => DoCommit(s, tx)
    case Rollback(tx) => s.(txs := s.txs - {tx})
    case PurgeRow(slot, at) =>
      if slot in s.records && s.records[slot].expiresAt < at then s.(records := s.records - {slot}) else s
  }

  datatype Run = Run(states: seq<State>, actions: seq<Action>) {
    ghost predicate StepAt(lockKey: Slot -> int, i: nat)
      requires |states| == |actions| + 1
    {
      i < |actions| && Enabled(lockKey, states[i], actions[i]) && states[i+1] == Apply(lockKey, states[i], actions[i])
    }

    ghost predicate Valid(lockKey: Slot -> int) {
      && |states| == |actions| + 1
      && Init(states[0])
      && forall i: nat :: i < |actions| ==> StepAt(lockKey, i)
    }
  }

  /** acts, all enabled, lead from s to s'. */
  ghost predicate Path(lockKey: Slot -> int, s: State, acts: seq<Action>, s': State) {
    if acts == [] then s' == s
    else
      var front, last := acts[..|acts|-1], acts[|acts|-1];
      exists m: State :: Path(lockKey, s, front, m) && Enabled(lockKey, m, last) && s' == Apply(lockKey, m, last)
  }

  lemma Extend(lockKey: Slot -> int, s0: State, acts: seq<Action>, s: State, a: Action) returns (acts': seq<Action>, s': State)
    requires Path(lockKey, s0, acts, s) && Enabled(lockKey, s, a)
    ensures acts' == acts + [a] && s' == Apply(lockKey, s, a) && Path(lockKey, s0, acts', s')
  {
    hide Enabled, Apply;
    acts', s' := acts + [a], Apply(lockKey, s, a);
    assert acts'[..|acts'|-1] == acts;
  }

  // ----- the invariant ---------------------------------------------------------

  /** No live record stands in the way of a transaction starting at start. */
  predicate Free(rs: Records, slot: Slot, start: Time) {
    slot in rs ==> rs[slot].expiresAt < start
  }

  predicate TxOk(s: State, t: Tx) {
    && t.start <= s.now
    && (t.slot.Keyed() && !t.stage.Begun? && !t.stage.Locked? && !t.stage.Answered? ==> Free(s.records, t.slot, t.start))
    && (t.stage.Claiming? ==> t.stage.row == Record(t.hash, None, t.start + WINDOW))
    && (t.stage.Inserted? ==>
          t.stage.claim == if t.slot.Keyed() then Some(Record(t.hash, None, t.start + WINDOW)) else None)
    && (t.stage.Ready? ==> t.stage.done == Record(t.hash, Some(t.stage.ids), t.start + WINDOW))
    && (!t.slot.Keyed() ==> t.stage.Begun? || t.stage.Inserted?)
  }

  /** Every committed record is complete, and its delivery is committed too. */
  predicate RecordsComplete(s: State) {
    forall slot | slot in s.records ::
      && s.records[slot].ids.Some?
      && s.records[slot].ids.value.delivery in s.deliveries
      && var d := s.deliveries[s.records[slot].ids.value.delivery];
      && d.event == s.records[slot].ids.value.event && d.endpoint == slot.endpoint
      && s.records[slot].expiresAt == d.createdAt + WINDOW
  }

  ghost predicate Exclusive(lockKey: Slot -> int, s: State) {
    forall t, u | t in s.txs && u in s.txs && HoldsLock(s.txs[t]) && HoldsLock(s.txs[u])
                  && lockKey(s.txs[t].slot) == lockKey(s.txs[u].slot) :: t == u
  }

  ghost predicate FreshIds(s: State) {
    && (forall t, d | t in s.txs && Uncommitted(s.txs[t], d) :: d !in s.deliveries)
    && (forall t, u, d | t in s.txs && u in s.txs && Uncommitted(s.txs[t], d) && Uncommitted(s.txs[u], d) :: t == u)
  }

  ghost predicate Inv(lockKey: Slot -> int, s: State) {
    && (forall t | t in s.txs :: TxOk(s, s.txs[t]))
    && RecordsComplete(s)
    && Exclusive(lockKey, s)
    && FreshIds(s)
  }

  lemma TxsOkStep(lockKey: Slot -> int, s: State, a: Action, u: Id)
    requires Inv(lockKey, s) && Enabled(lockKey, s, a) && u in Apply(lockKey, s, a).txs
    ensures TxOk(Apply(lockKey, s, a), Apply(lockKey, s, a).txs[u])
  {
    hide FreshIds, Uncommitted;
    if u in s.txs { assert TxOk(s, s.txs[u]); }
    match a
    case Commit(tx) =>
      assert TxOk(s, s.txs[tx]);
      if s.txs[tx].stage.Ready? && s.txs[u].slot == s.txs[tx].slot {
        assert !HoldsLock(s.txs[u]);
      }
    case _ =>
  }

  lemma RecordsStep(lockKey: Slot -> int, s: State, a: Action)
    requires Inv(lockKey, s) && Enabled(lockKey, s, a)
    ensures RecordsComplete(Apply(lockKey, s, a))
  {
    hide Exclusive, HoldsRow;
    match a
    case Commit(tx) =>
      assert TxOk(s, s.txs[tx]);
      assert Uncommitted(s.txs[tx], s.txs[tx].stage.ids.delivery);
    case _ =>
  }

  lemma ExclusiveStep(lockKey: Slot -> int, s: State, a: Action)
    requires Exclusive(lockKey, s) && Enabled(lockKey, s, a)
    ensures Exclusive(lockKey, Apply(lockKey, s, a))
  {
    hide Uncommitted;
  }

  lemma FreshIdsStep(lockKey: Slot -> int, s: State, a: Action)
    requires FreshIds(s) && Enabled(lockKey, s, a)
    ensures FreshIds(Apply(lockKey, s, a))
  {
    match a
    case Commit(tx) => assert Uncommitted(s.txs[tx], s.txs[tx].stage.ids.delivery);
    case _ =>
  }

  lemma InvStep(lockKey: Slot -> int, s: State, a: Action)
    requires Inv(lockKey, s) && Enabled(lockKey, s, a)
    ensures Inv(lockKey, Apply(lockKey, s, a))
  {
    hide Enabled, Apply, TxOk, RecordsComplete, Exclusive, FreshIds;
    RecordsStep(lockKey, s, a);
    ExclusiveStep(lockKey, s, a);
    FreshIdsStep(lockKey, s, a);
    forall u | u in Apply(lockKey, s, a).txs ensures TxOk(Apply(lockKey, s, a), Apply(lockKey, s, a).txs[u]) {
      TxsOkStep(lockKey, s, a, u);
    }
  }

  lemma {:induction false} InvAlways(lockKey: Slot -> int, r: Run, i: nat)
    requires r.Valid(lockKey) && i < |r.states|
    ensures Inv(lockKey, r.states[i])
  {
    if i > 0 {
      InvAlways(lockKey, r, i - 1);
      assert r.StepAt(lockKey, i - 1);
      InvStep(lockKey, r.states[i-1], r.actions[i-1]);
    }
  }

  // ----- refinement of the atomic map --------------------------------------------

  function EntryOf(row: Record): Entry
    requires row.ids.Some?
  {
    Entry(row.hash, row.ids.value, row.expiresAt)
  }

  function Abstract(rs: Records): Entries
    requires forall slot | slot in rs :: rs[slot].ids.Some?
  {
    map slot | slot in rs :: EntryOf(rs[slot])
  }

  /** The operation of the atomic map that action a performs, if any: a hit takes
      effect at its Lookup, a creation at its Commit. */
  function Linearized(lockKey: Slot -> int, s: State, a: Action): Option<Op>
    requires Enabled(lockKey, s, a)
  {
    match a
    case Lookup(tx) =>
      var t := s.txs[tx];
      if AfterLookup(Found(RowAt(s.records, t.slot), t.start), t.hash).Answered?
      then Some(Submit(t.slot, t.hash, t.start, Ids(0, 0))) else None
    case Commit(tx) =>
      var t := s.txs[tx];
      if t.slot.Keyed() then Some(Submit(t.slot, t.hash, t.start, t.stage.ids)) else None
    case PurgeRow(slot, at) => Some(Expunge(slot, at))
    case _ => None
  }

  /** What the caller of Submit is told as the result of that action. */
  function Told(lockKey: Slot -> int, s: State, a: Action): Option<Answer>
    requires Enabled(lockKey, s, a)
  {
    match a
    case Lookup(tx) =>
      var g := AfterLookup(Found(RowAt(s.records, s.txs[tx].slot), s.txs[tx].start), s.txs[tx].hash);
      if g.Answered? then Some(g.answer) else None
    case Commit(tx) => Some(Created(s.txs[tx].stage.ids))
    case _ => None
  }

  /** The condition StepRefines states of one action. */
  ghost predicate Refines(lockKey: Slot -> int, s: State, a: Action)
    requires Enabled(lockKey, s, a) && RecordsComplete(s) && RecordsComplete(Apply(lockKey, s, a))
  {
    var m, m' := Abstract(s.records), Abstract(Apply(lockKey, s, a).records);
    match Linearized(lockKey, s, a)
    case None => m' == m
    case Some(op) =>
      && m' == After(m, op)
      && (op.Submit? ==> Told(lockKey, s, a) == Some(AnswerTo(m, op.slot, op.hash, op.start, op.ids)))
  }

  lemma CommitRefines(lockKey: Slot -> int, s: State, tx: Id)
    requires RecordsComplete(s) && Enabled(lockKey, s, Commit(tx)) && TxOk(s, s.txs[tx])
    requires RecordsComplete(Apply(lockKey, s, Commit(tx)))
    ensures Refines(lockKey, s, Commit(tx))
  {
    var t := s.txs[tx];
    if t.slot.Keyed() {
      assert !Live(Abstract(s.records), t.slot, t.start);
      assert Abstract(s.records[t.slot := t.stage.done]) == Abstract(s.records)[t.slot := EntryOf(t.stage.done)];
    }
  }

  lemma LookupRefines(lockKey: Slot -> int, s: State, tx: Id)
    requires RecordsComplete(s) && Enabled(lockKey, s, Lookup(tx))
    ensures Refines(lockKey, s, Lookup(tx))
  {
  }

  /** Each action is one operation of the atomic map with the answer the atomic
      map gives, or leaves the map as it is. */
  lemma StepRefines(lockKey: Slot -> int, s: State, a: Action)
    requires Inv(lockKey, s) && Enabled(lockKey, s, a)
    ensures RecordsComplete(Apply(lockKey, s, a)) && Refines(lockKey, s, a)
  {
    RecordsStep(lockKey, s, a);
    match a
    case Commit(tx) =>
      assert TxOk(s, s.txs[tx]);
      hide Enabled, Apply, Refines, RecordsComplete;
      CommitRefines(lockKey, s, tx);
    case Lookup(tx) =>
      hide Enabled, Apply, Refines, RecordsComplete;
      LookupRefines(lockKey, s, tx);
    case _ => hide Exclusive, FreshIds, TxOk, HoldsLock, HoldsRow, Uncommitted;
  }

  ghost function Ops(lockKey: Slot -> int, r: Run, i: nat): seq<Op>
    requires r.Valid(lockKey) && i < |r.states|
  {
    if i == 0 then []
    else
      assert r.StepAt(lockKey, i - 1);
      match Linearized(lockKey, r.states[i-1], r.actions[i-1])
      case None => Ops(lockKey, r, i - 1)
      case Some(op) => Ops(lockKey, r, i - 1) + [op]
  }

  /** Every interleaving of submissions and purges, for every lock function, is
      the atomic map run over one sequence of operations, in the order their
      transactions performed them. */
  lemma {:induction false} Linearizable(lockKey: Slot -> int, r: Run, i: nat)
    requires r.Valid(lockKey) && i < |r.states|
    ensures RecordsComplete(r.states[i])
    ensures Abstract(r.states[i].records) == AfterAll(map[], Ops(lockKey, r, i))
  {
    InvAlways(lockKey, r, i);
    if i > 0 {
      Linearizable(lockKey, r, i - 1);
      InvAlways(lockKey, r, i - 1);
      assert r.StepAt(lockKey, i - 1);
      hide Inv, Enabled, Apply, Linearized, Abstract, RecordsComplete, After, AfterAll, Ops;
      StepRefines(lockKey, r.states[i-1], r.actions[i-1]);
      OpsStep(lockKey, r, i);
    }
  }

  /** Every caller with a key is told what the atomic map, after the operations
      performed so far, answers. */
  lemma AnswersAreAtomic(lockKey: Slot -> int, r: Run, i: nat)
    requires r.Valid(lockKey) && i < |r.actions| && r.StepAt(lockKey, i)
    requires Linearized(lockKey, r.states[i], r.actions[i]).Some?
    ensures var op := Linearized(lockKey, r.states[i], r.actions[i]).value;
            op.Submit? ==>
              Told(lockKey, r.states[i], r.actions[i])
              == Some(AnswerTo(AfterAll(map[], Ops(lockKey, r, i)), op.slot, op.hash, op.start, op.ids))
  {
    InvAlways(lockKey, r, i);
    Linearizable(lockKey, r, i);
    hide Inv, Enabled, Apply, Linearized, Told, Abstract, RecordsComplete, After, AfterAll, Ops, AnswerTo;
    StepRefines(lockKey, r.states[i], r.actions[i]);
  }

  lemma OpsStep(lockKey: Slot -> int, r: Run, i: nat)
    requires r.Valid(lockKey) && 0 < i < |r.states| && r.StepAt(lockKey, i - 1)
    ensures match Linearized(lockKey, r.states[i-1], r.actions[i-1])
            case None => Ops(lockKey, r, i) == Ops(lockKey, r, i - 1)
            case Some(op) => AfterAll(map[], Ops(lockKey, r, i)) == After(AfterAll(map[], Ops(lockKey, r, i - 1)), op)
  {
    hide Linearized, Enabled, Apply, After;
    match Linearized(lockKey, r.states[i-1], r.actions[i-1])
    case None =>
    case Some(op) => assert (Ops(lockKey, r, i - 1) + [op])[..|Ops(lockKey, r, i - 1)|] == Ops(lockKey, r, i - 1);
  }

  // ----- what callers may rely on ----------------------------------------------

  /** Step i commits a creation for slot. */
  ghost predicate Creates(lockKey: Slot -> int, r: Run, i: nat, slot: Slot)
    requires r.Valid(lockKey)
  {
    && i < |r.actions| && r.StepAt(lockKey, i) && r.actions[i].Commit?
    && slot.Keyed() && r.states[i].txs[r.actions[i].tx].slot == slot
  }

  lemma LiveRecordStep(lockKey: Slot -> int, s: State, a: Action, slot: Slot)
    requires Inv(lockKey, s) && Enabled(lockKey, s, a)
    requires slot in s.records && s.now <= s.records[slot].expiresAt
    ensures slot in Apply(lockKey, s, a).records && Apply(lockKey, s, a).records[slot] == s.records[slot]
  {
    match a
    case Commit(tx) => assert TxOk(s, s.txs[tx]);
    case _ =>
  }

  lemma {:induction false} NowGrows(lockKey: Slot -> int, r: Run, i: nat, j: nat)
    requires r.Valid(lockKey) && i <= j < |r.states|
    ensures r.states[i].now <= r.states[j].now
    decreases j
  {
    if i < j {
      NowGrows(lockKey, r, i, j - 1);
      assert r.StepAt(lockKey, j - 1);
    }
  }

  /** A record stays exactly as it is until the clock has passed its expires_at:
      neither the purge nor any other transaction touches it. */
  lemma {:induction false} LiveRecordStays(lockKey: Slot -> int, r: Run, i: nat, j: nat, slot: Slot)
    requires r.Valid(lockKey) && i <= j < |r.states|
    requires slot in r.states[i].records && r.states[j].now <= r.states[i].records[slot].expiresAt
    ensures slot in r.states[j].records && r.states[j].records[slot] == r.states[i].records[slot]
    decreases j
  {
    if i < j {
      NowGrows(lockKey, r, j - 1, j);
      LiveRecordStays(lockKey, r, i, j - 1, slot);
      InvAlways(lockKey, r, j - 1);
      assert r.StepAt(lockKey, j - 1);
      hide Inv, Enabled, Apply;
      LiveRecordStep(lockKey, r.states[j-1], r.actions[j-1], slot);
    }
  }

  /** The record a creation stores. */
  lemma CreationStores(lockKey: Slot -> int, r: Run, i: nat, slot: Slot)
    requires r.Valid(lockKey) && Creates(lockKey, r, i, slot)
    ensures var t := r.states[i].txs[r.actions[i].tx];
            && slot in r.states[i+1].records
            && r.states[i+1].records[slot] == Record(t.hash, Some(t.stage.ids), t.start + WINDOW)
            && Free(r.states[i].records, slot, t.start)
            && t.start <= r.states[i].now
  {
    InvAlways(lockKey, r, i);
    assert TxOk(r.states[i], r.states[i].txs[r.actions[i].tx]);
  }

  /** Two events for one key are created only if the clock passed the first
      record's expires_at before the second was committed. */
  lemma SecondCreationAfterExpiry(lockKey: Slot -> int, r: Run, i: nat, j: nat, slot: Slot)
    requires r.Valid(lockKey) && i < j && Creates(lockKey, r, i, slot) && Creates(lockKey, r, j, slot)
    ensures r.states[i].txs[r.actions[i].tx].start + WINDOW < r.states[j].now
  {
    CreationStores(lockKey, r, i, slot);
    CreationStores(lockKey, r, j, slot);
    if r.states[j].now <= r.states[i].txs[r.actions[i].tx].start + WINDOW {
      LiveRecordStays(lockKey, r, i + 1, j, slot);
    }
  }

  /** While the first record has not expired, every later submission of its key
      is answered with its ids if the payload hash is the same and with a
      conflict otherwise; neither creates anything. */
  lemma RepeatIsAnswered(lockKey: Slot -> int, r: Run, i: nat, j: nat, slot: Slot)
    requires r.Valid(lockKey) && i < j < |r.actions| && Creates(lockKey, r, i, slot)
    requires r.StepAt(lockKey, j) && r.actions[j].Lookup? && r.states[j].txs[r.actions[j].tx].slot == slot
    requires r.states[j].now <= r.states[i].txs[r.actions[i].tx].start + WINDOW
    ensures var first, again := r.states[i].txs[r.actions[i].tx], r.states[j].txs[r.actions[j].tx];
            && Told(lockKey, r.states[j], r.actions[j]) ==
                 Some(if again.hash == first.hash then Cached(first.stage.ids) else Conflict)
            && r.states[j+1].deliveries == r.states[j].deliveries && r.states[j+1].records == r.states[j].records
  {
    CreationStores(lockKey, r, i, slot);
    LiveRecordStays(lockKey, r, i + 1, j, slot);
    InvAlways(lockKey, r, j);
    assert TxOk(r.states[j], r.states[j].txs[r.actions[j].tx]);
  }

  /** Every record, and so every cached answer, comes from one creation with the same hash and ids. */
  lemma {:induction false} RecordHasCreator(lockKey: Slot -> int, r: Run, j: nat, slot: Slot) returns (i: nat)
    requires r.Valid(lockKey) && j < |r.states| && slot in r.states[j].records && slot.Keyed()
    ensures i < j && Creates(lockKey, r, i, slot)
    ensures var t := r.states[i].txs[r.actions[i].tx];
            r.states[j].records[slot] == Record(t.hash, Some(t.stage.ids), t.start + WINDOW)
    decreases j
  {
    i := j - 1;
    assert r.StepAt(lockKey, i);
    if Creates(lockKey, r, i, slot) {
      CreationStores(lockKey, r, i, slot);
    } else {
      InvAlways(lockKey, r, i);
      CommitOfOther(lockKey, r, i, slot);
      i := RecordHasCreator(lockKey, r, j - 1, slot);
    }
  }

  lemma CommitOfOther(lockKey: Slot -> int, r: Run, i: nat, slot: Slot)
    requires r.Valid(lockKey) && i < |r.actions| && slot.Keyed() && !Creates(lockKey, r, i, slot)
    requires slot in r.states[i+1].records
    ensures slot in r.states[i].records && r.states[i].records[slot] == r.states[i+1].records[slot]
  {
    assert r.StepAt(lockKey, i);
    InvAlways(lockKey, r, i);
    var a := r.actions[i];
    if a.Commit? { assert TxOk(r.states[i], r.states[i].txs[a.tx]); }
  }
}
