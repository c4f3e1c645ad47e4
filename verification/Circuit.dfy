/** The circuit breaker columns of one endpoint: the effect of each UPDATE of
    circuit_store.go on the row, and a history specification of that row. */
module CircuitBreaker {
  import opened Model

  // ----- one function per UPDATE ------------------------------------------

  function HandleSuccess(c: Circuit): Circuit {
    if c.state.Open? then c
    else Circuit(Closed, 0, None, c.state.HalfOpen?, None)
  }

  function HandleTransientFailure(c: Circuit, cfg: Config, now: Time): Circuit {
    if c.state.Open? then c
    else
      var opens := c.state.HalfOpen? || c.sensitive || c.failures + 1 >= cfg.threshold;
      Circuit(
        if opens then Open else Closed,
        c.failures + 1,
        if opens then Some(now + cfg.suspension) else c.suspendedUntil,
        false,
        if c.state.HalfOpen? then None else c.probe)
  }

  function HandleProbePermanentFailure(c: Circuit, cfg: Config, now: Time): Circuit {
    if c.state.HalfOpen? then
      c.(state := Open, suspendedUntil := Some(now + cfg.suspension), probe := None)
    else c
  }

  /** The worker's dispatch on an attempt outcome; seen is the circuit state
      it loaded before the attempt. */
  function Settle(c: Circuit, cfg: Config, now: Time, o: Outcome, seen: Breaker): Circuit {
    match o
    case Success => HandleSuccess(c)
    case PermanentFailure => if seen.HalfOpen? then HandleProbePermanentFailure(c, cfg, now) else c
    case _ => HandleTransientFailure(c, cfg, now)
  }

  predicate Expired(c: Circuit, now: Time) {
    c.state.Open? && c.suspendedUntil.Some? && c.suspendedUntil.value <= now
  }

  function ExpireSuspension(c: Circuit, now: Time, queued: bool): Circuit {
    if !Expired(c, now) then c
    else if queued then c.(state := HalfOpen, suspendedUntil := None)
    else c.(state := Closed, failures := 0, suspendedUntil := None)
  }

  /** SetProbeDelivery's fallback when it found no non-terminal delivery. */
  function CloseEmpty(c: Circuit): Circuit {
    if c.state.HalfOpen? then c.(state := Closed, failures := 0, probe := None) else c
  }

  function AssignProbe(c: Circuit, d: Id): Circuit {
    if c.state.HalfOpen? then c.(probe := Some(d)) else c
  }

  // ----- events and their effect ------------------------------------------

  datatype Event =
    | Attempted(outcome: Outcome, seen: Breaker)
    | Expiry(queued: bool)
    | QueueEmpty
    | ProbeChosen(probe: Id)

  datatype Timed = Timed(now: Time, event: Event)

  function React(c: Circuit, cfg: Config, e: Timed): Circuit {
    match e.event
    case Attempted(o, seen) => Settle(c, cfg, e.now, o, seen)
    case Expiry(queued) => ExpireSuspension(c, e.now, queued)
    case QueueEmpty => CloseEmpty(c)
    case ProbeChosen(d) => AssignProbe(c, d)
  }

  /** The stored row after history h, starting from a new endpoint. */
  function Row(cfg: Config, h: seq<Timed>): Circuit {
    if h == [] then FreshCircuit
    else React(Row(cfg, h[..|h|-1]), cfg, h[|h|-1])
  }

  // ----- invariant of the row ---------------------------------------------

  predicate RowInv(c: Circuit, cfg: Config) {
    && (c.state.Open? <==> c.suspendedUntil.Some?)
    && (c.probe.Some? ==> c.state.HalfOpen?)
    && (c.sensitive ==> c.state.Closed? && c.failures == 0)
    && (c.state.Closed? ==> c.failures < cfg.threshold)
    && (!c.state.Closed? ==> c.failures >= 1)
  }

  lemma ReactKeepsRowInv(c: Circuit, cfg: Config, e: Timed)
    requires cfg.threshold >= 1 && RowInv(c, cfg)
    ensures RowInv(React(c, cfg, e), cfg)
  {
  }

  lemma {:induction false} RowInvAlways(cfg: Config, h: seq<Timed>)
    requires cfg.threshold >= 1
    ensures RowInv(Row(cfg, h), cfg)
  {
    if h != [] {
      RowInvAlways(cfg, h[..|h|-1]);
      ReactKeepsRowInv(Row(cfg, h[..|h|-1]), cfg, h[|h|-1]);
    }
  }

  // ----- history specification --------------------------------------------
  // What an observer who sees only the events and the circuit state (but not
  // the counter, the sensitive flag or the deadline) can compute.

  function StateAt(cfg: Config, h: seq<Timed>, i: nat): Breaker
    requires i <= |h|
  {
    Row(cfg, h[..i]).state
  }

  predicate IsSuccess(e: Timed) {
    e.event.Attempted? && e.event.outcome.Success?
  }

  predicate IsTransient(e: Timed) {
    e.event.Attempted? && e.event.outcome.Retryable()
  }

  /** Event i resets the counter: a success seen while not open, or any event
      that brings the circuit back to closed. */
  predicate ResetAt(cfg: Config, h: seq<Timed>, i: nat)
    requires i < |h|
  {
    StateAt(cfg, h, i + 1).Closed? && (IsSuccess(h[i]) || !StateAt(cfg, h, i).Closed?)
  }

  /** The counter was last reset just before position p (0: never since creation). */
  predicate LastReset(cfg: Config, h: seq<Timed>, p: nat) {
    && p <= |h|
    && (p > 0 ==> ResetAt(cfg, h, p - 1))
    && forall i :: p <= i < |h| ==> !ResetAt(cfg, h, i)
  }

  /** Transient failures seen from position p on while the circuit was not open. */
  function Streak(cfg: Config, h: seq<Timed>, p: nat): nat
    requires p <= |h|
  {
    if |h| == p then 0
    else
      var n := |h| - 1;
      Streak(cfg, h[..n], p) + if IsTransient(h[n]) && !StateAt(cfg, h, n).Open? then 1 else 0
  }

  /** The reset before position p was a probe success. */
  predicate RecoveredAt(cfg: Config, h: seq<Timed>, p: nat)
    requires p <= |h|
  {
    p > 0 && IsSuccess(h[p-1]) && StateAt(cfg, h, p - 1).HalfOpen?
  }

  /** The circuit went to open just before position p and has stayed open. */
  predicate LastOpening(cfg: Config, h: seq<Timed>, p: nat) {
    && 0 < p <= |h|
    && !StateAt(cfg, h, p - 1).Open?
    && forall i :: p <= i <= |h| ==> StateAt(cfg, h, i).Open?
  }

  /** The probe assignment in force is the one made just before position p. */
  predicate LastProbe(cfg: Config, h: seq<Timed>, p: nat) {
    && 0 < p <= |h|
    && h[p-1].event.ProbeChosen?
    && (forall i :: p - 1 <= i <= |h| ==> StateAt(cfg, h, i).HalfOpen?)
    && forall i :: p <= i < |h| ==> !h[i].event.ProbeChosen?
  }

  lemma Shorter(cfg: Config, h: seq<Timed>, h': seq<Timed>)
    requires h != [] && h' == h[..|h|-1]
    ensures h[..|h|] == h
    ensures forall i {:trigger StateAt(cfg, h', i)} {:trigger StateAt(cfg, h, i)} :: 0 <= i < |h| ==> StateAt(cfg, h', i) == StateAt(cfg, h, i)
    ensures forall i {:trigger ResetAt(cfg, h', i)} {:trigger ResetAt(cfg, h, i)} :: 0 <= i < |h| - 1 ==> ResetAt(cfg, h', i) == ResetAt(cfg, h, i)
    ensures Row(cfg, h) == React(Row(cfg, h'), cfg, h[|h|-1])
  {
    assert forall i :: 0 <= i < |h| ==> h'[..i] == h[..i];
  }

  /** Every history has a last reset. */
  lemma {:induction false} LastResetExists(cfg: Config, h: seq<Timed>)
    ensures exists p :: LastReset(cfg, h, p)
  {
    if h == [] {
      assert LastReset(cfg, h, 0);
    } else if ResetAt(cfg, h, |h| - 1) {
      assert LastReset(cfg, h, |h|);
    } else {
      LastResetExists(cfg, h[..|h|-1]);
      var p :| LastReset(cfg, h[..|h|-1], p);
      Shorter(cfg, h, h[..|h|-1]);
      assert LastReset(cfg, h, p);
    }
  }

  /** The stored counter is the streak of transient failures since the last
      reset; the sensitive flag says that this reset was a probe success and
      the circuit has stayed closed since; a closed circuit has been closed
      ever since its last reset. */
  lemma {:induction false} CounterIsStreak(cfg: Config, h: seq<Timed>, p: nat)
    requires cfg.threshold >= 1 && LastReset(cfg, h, p)
    ensures Row(cfg, h).failures == Streak(cfg, h, p)
    ensures Row(cfg, h).sensitive <==> Row(cfg, h).state.Closed? && RecoveredAt(cfg, h, p)
    ensures Row(cfg, h).state.Closed? ==> forall i :: p <= i <= |h| ==> StateAt(cfg, h, i).Closed?
  {
    RowInvAlways(cfg, h);
    if h != [] {
      Shorter(cfg, h, h[..|h|-1]);
      RowInvAlways(cfg, h[..|h|-1]);
      if p < |h| {
        assert LastReset(cfg, h[..|h|-1], p);
        CounterIsStreak(cfg, h[..|h|-1], p);
        assert !ResetAt(cfg, h, |h| - 1);
      }
    }
  }

  /** A closed circuit opens at exactly one kind of event: a transient failure
      that is the first since a probe success, or completes a streak of
      threshold transient failures since the last reset. */
  lemma OpensExactlyWhen(cfg: Config, h: seq<Timed>, p: nat, e: Timed)
    requires cfg.threshold >= 1 && LastReset(cfg, h, p) && Row(cfg, h).state.Closed?
    ensures Row(cfg, h + [e]).state.Open? <==>
            IsTransient(e) && (RecoveredAt(cfg, h, p) || Streak(cfg, h, p) + 1 >= cfg.threshold)
    ensures !Row(cfg, h + [e]).state.HalfOpen?
  {
    CounterIsStreak(cfg, h, p);
    assert (h + [e])[..|h|] == h;
  }

  /** Outcomes while open change nothing; only an expiry past the deadline,
      which is the time of the last opening plus the suspension, ends it. */
  lemma {:induction false} OpenUntilDeadline(cfg: Config, h: seq<Timed>, p: nat, e: Timed)
    requires LastOpening(cfg, h, p)
    ensures Row(cfg, h).suspendedUntil == Some(h[p-1].now + cfg.suspension)
    ensures Row(cfg, h + [e]) != Row(cfg, h) <==> e.event.Expiry? && h[p-1].now + cfg.suspension <= e.now
    ensures Row(cfg, h + [e]).state ==
            if e.event.Expiry? && h[p-1].now + cfg.suspension <= e.now
            then if e.event.queued then HalfOpen else Closed
            else Open
  {
    Shorter(cfg, h, h[..|h|-1]);
    assert (h + [e])[..|h|] == h;
    assert StateAt(cfg, h, |h|).Open?;
    if p < |h| {
      var h' := h[..|h|-1];
      assert StateAt(cfg, h, |h| - 1).Open?;
      assert LastOpening(cfg, h', p);
      OpenUntilDeadline(cfg, h', p, h[|h|-1]);
      assert h' + [h[|h|-1]] == h;
    }
  }

  /** While half open the stored probe is the last one chosen, and every
      attempt that ends a half-open probe decides the next state. */
  lemma {:induction false} HalfOpenEndsByProbe(cfg: Config, h: seq<Timed>, e: Timed)
    requires Row(cfg, h).state.HalfOpen?
    ensures Row(cfg, h + [e]).state ==
            if IsSuccess(e) || e.event.QueueEmpty? then Closed
            else if IsTransient(e) || (e.event.Attempted? && e.event.seen.HalfOpen?) then Open
            else HalfOpen
    ensures forall p :: LastProbe(cfg, h, p) ==> Row(cfg, h).probe == Some(h[p-1].event.probe)
  {
    assert (h + [e])[..|h|] == h;
    forall p | LastProbe(cfg, h, p)
      ensures Row(cfg, h).probe == Some(h[p-1].event.probe)
    {
      ProbeIsLastChosen(cfg, h, p);
    }
  }

  /** The circuit became half open just before position p and no probe has been chosen since. */
  predicate Unprobed(cfg: Config, h: seq<Timed>, p: nat) {
    && 0 < p <= |h|
    && !StateAt(cfg, h, p - 1).HalfOpen?
    && (forall i :: p <= i <= |h| ==> StateAt(cfg, h, i).HalfOpen?)
    && forall i :: p <= i < |h| ==> !h[i].event.ProbeChosen?
  }

  lemma {:induction false} NoProbeUntilChosen(cfg: Config, h: seq<Timed>, p: nat)
    requires cfg.threshold >= 1 && Unprobed(cfg, h, p)
    ensures Row(cfg, h).probe == None
  {
    Shorter(cfg, h, h[..|h|-1]);
    RowInvAlways(cfg, h[..|h|-1]);
    assert StateAt(cfg, h, |h|).HalfOpen?;
    if p < |h| {
      var h' := h[..|h|-1];
      assert Unprobed(cfg, h', p);
      NoProbeUntilChosen(cfg, h', p);
    }
  }

  lemma {:induction false} ProbeIsLastChosen(cfg: Config, h: seq<Timed>, p: nat)
    requires LastProbe(cfg, h, p)
    ensures Row(cfg, h).probe == Some(h[p-1].event.probe)
  {
    Shorter(cfg, h, h[..|h|-1]);
    assert StateAt(cfg, h, |h|).HalfOpen? && StateAt(cfg, h, |h| - 1).HalfOpen?;
    if p < |h| {
      var h' := h[..|h|-1];
      assert LastProbe(cfg, h', p);
      ProbeIsLastChosen(cfg, h', p);
    }
  }
}
