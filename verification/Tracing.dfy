/** Relating executable code to the transition system: every statement of a
    method is an action applied to a ghost state. */
module Tracing {
  import opened CircuitBreaker
  import opened Pipeline
  import opened RunFacts
  import opened Fenced
  import opened CircuitRuns
  import opened ProbeDiscipline
  import opened SoundRuns

  /** The invariant of sound runs. */
  ghost predicate Good(s: State) {
    && s.cfg.threshold >= 1 && s.cfg.batch >= 1
    && FencedInv(s) && AllDisciplined(s) && ClaimsInv(s) && RowsConsistent(s)
  }

  lemma RowsConsistentStep(s: State, a: Action)
    requires s.cfg.threshold >= 1 && RowsConsistent(s) && Enabled(s, a)
    ensures RowsConsistent(Apply(s, a))
  {
    StepLater(s, a);
    hide Enabled, Apply, Grows;
    forall e | e in Apply(s, a).db.endpoints
      ensures RowInv(Apply(s, a).db.endpoints[e].circuit, s.cfg)
    {
      CircuitStep(s, a, e);
      var h := CircuitEvent(s, a, e);
      if h != [] { ReactKeepsRowInv(s.db.endpoints[e].circuit, s.cfg, h[0]); }
    }
  }

  lemma GoodStep(s: State, a: Action)
    requires Good(s) && Enabled(s, a) && SoundAllows(s, a)
    ensures Good(Apply(s, a))
  {
    hide FencedInv, ClaimsInv, RowsConsistent, Disciplined, Enabled, Apply, Exclusive, Grows, SameEndpoints;
    hide FenceAllows, StepSound, CircuitStored, AssignIsCurrent, ExpiryFindsNoneLive;
    StepLater(s, a);
    FencedGivesExclusive(s);
    SoundStep(s, a);
    forall e ensures Disciplined(Apply(s, a), e) { DisciplineStep(s, a, e); }
    ClaimsStep(s, a);
    RowsConsistentStep(s, a);
    FencedStep(s, a);
  }

  lemma GoodAlways(r: Run, i: nat)
    requires SoundRun(r) && i < |r.states|
    ensures Good(r.states[i])
  {
    hide FencedInv, ClaimsInv, AllDisciplined, RowsConsistent, AssignIsCurrent, ExpiryFindsNoneLive, FenceAllows, Enabled, Apply;
    SoundIsFenced(r);
    RunLater(r, 0, i);
    FencedAlways(r, i);
    ClaimsAlways(r, i);
    StoredDisciplineIff(r);
    RowsConsistentAlways(r, i);
  }

  predicate Anything(s: State, a: Action) {
    true
  }

  /** acts, each enabled and allowed where it is taken, lead from s to s'. */
  ghost predicate Steps(allow: (State, Action) -> bool, s: State, acts: seq<Action>, s': State) {
    if acts == [] then s' == s
    else
      var front, last := acts[..|acts|-1], acts[|acts|-1];
      exists m: State :: Steps(allow, s, front, m) && Step(m, last, s') && allow(m, last)
  }

  lemma ExtendSteps(allow: (State, Action) -> bool, s0: State, acts: seq<Action>, s: State, a: Action)
    returns (acts': seq<Action>, s': State)
    requires Steps(allow, s0, acts, s) && Enabled(s, a) && allow(s, a)
    ensures acts' == acts + [a] && s' == Apply(s, a) && Steps(allow, s0, acts', s')
  {
    hide Enabled, Apply;
    acts', s' := acts + [a], Apply(s, a);
    assert acts'[..|acts'|-1] == acts && Step(s, a, s');
  }

  /** r' goes on from state i of r with allowed actions. */
  ghost predicate Continues(allow: (State, Action) -> bool, r: Run, i: nat, r': Run)
    requires |r.states| == |r.actions| + 1 && i < |r.states|
  {
    && r'.Valid() && i <= |r'.actions| && r'.actions[..i] == r.actions[..i] && r'.states[..i+1] == r.states[..i+1]
    && forall j: nat :: i <= j < |r'.actions| ==> allow(r'.states[j], r'.actions[j])
  }

  lemma CutRun(allow: (State, Action) -> bool, r: Run, i: nat) returns (r': Run)
    requires r.Valid() && i < |r.states|
    ensures Continues(allow, r, i, r') && r'.actions == r.actions[..i] && r'.states[i] == r.states[i]
  {
    hide Init, Enabled, Apply;
    r' := Run(r.states[..i+1], r.actions[..i]);
    forall j: nat | j < i ensures r'.StepAt(j) { assert r.StepAt(j); }
  }

  lemma ExtendedIsValid(r: Run, a: Action, s': State)
    requires r.Valid() && Step(r.states[|r.actions|], a, s')
    ensures Run(r.states + [s'], r.actions + [a]).Valid()
  {
    hide Init, Step;
    var r2 := Run(r.states + [s'], r.actions + [a]);
    forall j: nat | j < |r2.actions| ensures r2.StepAt(j) {
      if j < |r.actions| { assert r.StepAt(j); }
    }
  }

  lemma ExtendRun(allow: (State, Action) -> bool, r: Run, i: nat, r1: Run, a: Action, s': State) returns (r2: Run)
    requires |r.states| == |r.actions| + 1 && i < |r.states| && Continues(allow, r, i, r1)
    requires Step(r1.states[|r1.actions|], a, s') && allow(r1.states[|r1.actions|], a)
    ensures Continues(allow, r, i, r2) && r2.actions == r1.actions + [a] && r2.states[|r2.actions|] == s'
  {
    hide r1.StepAt, Init, Step;
    r2 := Run(r1.states + [s'], r1.actions + [a]);
    ExtendedIsValid(r1, a, s');
  }

  /** Allowed steps from a state of a run extend that run. */
  lemma {:induction false} Realize(allow: (State, Action) -> bool, r: Run, i: nat, acts: seq<Action>, s: State) returns (r': Run)
    requires r.Valid() && i < |r.states| && Steps(allow, r.states[i], acts, s)
    ensures Continues(allow, r, i, r') && r'.actions == r.actions[..i] + acts && r'.states[|r'.actions|] == s
    decreases |acts|
  {
    hide Continues, r.StepAt, Init, Step;
    if acts == [] {
      r' := CutRun(allow, r, i);
    } else {
      var front, last := acts[..|acts|-1], acts[|acts|-1];
      var m: State :| Steps(allow, r.states[i], front, m) && Step(m, last, s) && allow(m, last);
      r' := Realize(allow, r, i, front, m);
      r' := ExtendRun(allow, r, i, r', last, s);
      assert acts == front + [last];
    }
  }

  /** Any enabled actions. */
  ghost predicate Trace(s: State, acts: seq<Action>, s': State) {
    Steps(Anything, s, acts, s')
  }

  lemma Extend(s0: State, acts: seq<Action>, s: State, a: Action) returns (acts': seq<Action>, s': State)
    requires Trace(s0, acts, s) && Enabled(s, a)
    ensures acts' == acts + [a] && s' == Apply(s, a) && Trace(s0, acts', s')
    ensures Good(s) && SoundAllows(s, a) ==> Good(s')
  {
    hide Good, Enabled, Apply, SoundAllows, Steps;
    acts', s' := ExtendSteps(Anything, s0, acts, s, a);
    if Good(s) && SoundAllows(s, a) { GoodStep(s, a); }
  }

  /** Everything but the tables and the clock is as before. */
  predicate SameActors(s: State, s': State) {
    && s'.cfg == s.cfg && s'.submissions == s.submissions && s'.outbox == s.outbox && s'.msgs == s.msgs
    && s'.workers == s.workers && s'.probers == s.probers && s'.readFailed == s.readFailed && s'.posts == s.posts
  }
}
