/** The idempotency_records table: the effect of each statement on one row, and
    the atomic map that concurrent submissions are meant to behave like. */
module Idempotency {
  import opened Model

  /** 24 hours, in nanoseconds. */
  const WINDOW: nat := 86_400_000_000_000

  type Hash = nat

  /** The unique key (endpoint_id, idempotency_key); the empty key means no deduplication. */
  datatype Slot = Slot(endpoint: Id, key: string) {
    predicate Keyed() {
      key != ""
    }
  }

  datatype Ids = Ids(event: Id, delivery: Id)

  /** ids is None while event_id and delivery_id are NULL. */
  datatype Record = Record(hash: Hash, ids: Option<Ids>, expiresAt: Time)

  type Records = map<Slot, Record>

  datatype Answer = Created(ids: Ids) | Cached(ids: Ids) | Conflict

  // ----- the statements -----------------------------------------------------

  function RowAt(rs: Records, slot: Slot): Option<Record> {
    if slot in rs then Some(rs[slot]) else None
  }

  /** Lookup returns the row while expires_at >= NOW(). */
  function Found(row: Option<Record>, start: Time): Option<Record> {
    if row.Some? && row.value.expiresAt >= start then row else None
  }

  /** Claim inserts a partial row, or overwrites one with expires_at < NOW(). */
  function Claimed(row: Option<Record>, hash: Hash, start: Time): Record {
    if row.Some? && !(row.value.expiresAt < start) then row.value else Record(hash, None, start + WINDOW)
  }

  function Completed(row: Record, ids: Ids): Record {
    row.(ids := Some(ids))
  }

  function Purge(rs: Records, at: Time): Records {
    map slot | slot in rs && !(rs[slot].expiresAt < at) :: rs[slot]
  }

  // ----- the atomic map -----------------------------------------------------

  datatype Entry = Entry(hash: Hash, ids: Ids, expiresAt: Time)

  type Entries = map<Slot, Entry>

  datatype Op =
    | Submit(slot: Slot, hash: Hash, start: Time, ids: Ids)
    | Expunge(slot: Slot, at: Time)

  predicate Live(m: Entries, slot: Slot, start: Time) {
    slot in m && m[slot].expiresAt >= start
  }

  function AnswerTo(m: Entries, slot: Slot, hash: Hash, start: Time, ids: Ids): Answer {
    if !Live(m, slot, start) then Created(ids)
    else if m[slot].hash == hash then Cached(m[slot].ids)
    else Conflict
  }

  function After(m: Entries, op: Op): Entries {
    match op
    case Submit(slot, hash, start, ids) =>
      if Live(m, slot, start) then m else m[slot := Entry(hash, ids, start + WINDOW)]
    case Expunge(slot, at) =>
      if slot in m && m[slot].expiresAt < at then m - {slot} else m
  }

  function AfterAll(m: Entries, ops: seq<Op>): Entries {
    if ops == [] then m else After(AfterAll(m, ops[..|ops|-1]), ops[|ops|-1])
  }

  // ----- what purging can change ----------------------------------------------

  /** m and n hold the same entries, as far as a transaction starting at t or later can see. */
  ghost predicate SameFrom(m: Entries, n: Entries, t: Time) {
    forall slot: Slot :: Live(m, slot, t) || Live(n, slot, t) ==> slot in m && slot in n && m[slot] == n[slot]
  }

  /** Purging an entry changes the answer to a transaction exactly when the entry
      was still valid at its start and expired by the time of the purge. */
  lemma PurgeChangesAnswerIff(m: Entries, slot: Slot, at: Time, hash: Hash, start: Time, ids: Ids)
    ensures AnswerTo(After(m, Expunge(slot, at)), slot, hash, start, ids) != AnswerTo(m, slot, hash, start, ids)
            <==> slot in m && start <= m[slot].expiresAt < at
  {
  }

  predicate StartsFrom(op: Op, t: Time) {
    op.Submit? ==> op.start >= t
  }

  lemma SameFromStep(m: Entries, n: Entries, t: Time, op: Op)
    requires SameFrom(m, n, t) && StartsFrom(op, t)
    ensures SameFrom(After(m, op), After(n, op), t)
    ensures op.Submit? ==> AnswerTo(m, op.slot, op.hash, op.start, op.ids) == AnswerTo(n, op.slot, op.hash, op.start, op.ids)
  {
    assert Live(m, op.slot, t) || Live(n, op.slot, t) ==> op.slot in m && op.slot in n && m[op.slot] == n[op.slot];
    if op.Submit? { assert Live(m, op.slot, op.start) <==> Live(n, op.slot, op.start); }
  }

  lemma {:induction false} SameFromAll(m: Entries, n: Entries, t: Time, ops: seq<Op>)
    requires SameFrom(m, n, t) && forall i | 0 <= i < |ops| :: StartsFrom(ops[i], t)
    ensures SameFrom(AfterAll(m, ops), AfterAll(n, ops), t)
  {
    if ops != [] {
      SameFromAll(m, n, t, ops[..|ops|-1]);
      SameFromStep(AfterAll(m, ops[..|ops|-1]), AfterAll(n, ops[..|ops|-1]), t, ops[|ops|-1]);
    }
  }

  /** Expunging at `at` changes no answer in any continuation whose transactions start at `at` or later. */
  lemma PurgeUnseenByLaterStarts(m: Entries, slot: Slot, at: Time, ops: seq<Op>, op: Op)
    requires forall i | 0 <= i < |ops| :: StartsFrom(ops[i], at)
    requires op.Submit? && op.start >= at
    ensures AnswerTo(AfterAll(After(m, Expunge(slot, at)), ops), op.slot, op.hash, op.start, op.ids)
         == AnswerTo(AfterAll(m, ops), op.slot, op.hash, op.start, op.ids)
  {
    var m' := After(m, Expunge(slot, at));
    assert SameFrom(m', m, at);
    SameFromAll(m', m, at, ops);
    SameFromStep(AfterAll(m', ops), AfterAll(m, ops), at, op);
  }
}
