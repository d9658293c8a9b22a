/** States in a row, and what runs keep from state to state. */
module Traces {
  import opened RaftTypes
  import opened Cluster

  type Moves = (State, State) -> bool

  ghost predicate MovesAt(t: seq<State>, k: nat, step: Moves)
    requires k + 1 < |t|
  {
    step(t[k], t[k + 1])
  }

  /** States in a row, from `s` to `s'`. */
  ghost predicate Trace(t: seq<State>, step: Moves, s: State, s': State) {
    && t != [] && t[0] == s && t[|t| - 1] == s'
    && forall k :: 0 <= k < |t| - 1 ==> MovesAt(t, k, step)
  }

  lemma TraceOne(step: Moves, s: State, s': State)
    requires step(s, s')
    ensures Trace([s, s'], step, s, s')
  {
  }

  lemma TraceJoin(t: seq<State>, u: seq<State>, step: Moves, a: State, b: State, c: State) returns (v: seq<State>)
    requires Trace(t, step, a, b) && Trace(u, step, b, c)
    ensures Trace(v, step, a, c) && v == t + u[1..]
  {
    v := t + u[1..];
    forall k | 0 <= k < |v| - 1 ensures MovesAt(v, k, step) {
      if k < |t| - 1 { assert MovesAt(t, k, step); } else { assert MovesAt(u, k + 1 - |t|, step); }
    }
  }

  lemma TraceMore(t: seq<State>, step: Moves, a: State, b: State, c: State) returns (v: seq<State>)
    requires Trace(t, step, a, b) && step(b, c)
    ensures Trace(v, step, a, c)
  {
    TraceOne(step, b, c);
    v := TraceJoin(t, [b, c], step, a, b, c);
  }

  lemma TraceThree(step: Moves, a: State, b: State, c: State, d: State)
    requires step(a, b) && step(b, c) && step(c, d)
    ensures Trace([a, b, c, d], step, a, d)
  {
  }

  ghost function AnyMove(): Moves { (s: State, s': State) => Next(s, s') }

  lemma RunIsTrace(r: Run, voters: set<nat>)
    requires IsRun(r, voters)
    ensures Trace(r, AnyMove(), r[0], r[|r| - 1])
  {
    forall k | 0 <= k < |r| - 1 ensures MovesAt(r, k, AnyMove()) { assert StepAt(r, k); }
  }

  lemma TraceIsRun(r: Run, voters: set<nat>, s': State)
    requires r != [] && Init(r[0], voters) && Trace(r, AnyMove(), r[0], s')
    ensures IsRun(r, voters)
  {
    forall k | 0 <= k < |r| - 1 ensures StepAt(r, k) { assert MovesAt(r, k, AnyMove()); }
  }

  lemma TraceExtends(r: seq<State>, t: seq<State>, step: Moves, step': Moves, a: State, b: State, c: State)
    returns (r': seq<State>)
    requires Trace(r, step', a, b) && Trace(t, step, b, c) && forall s, s' :: step(s, s') ==> step'(s, s')
    ensures Trace(r', step', a, c) && r <= r' && r'[|r| - 1..] == t && |r'| == |r| + |t| - 1
  {
    forall k | 0 <= k < |t| - 1 ensures MovesAt(t, k, step') { assert MovesAt(t, k, step); }
    r' := TraceJoin(r, t, step', a, b, c);
    assert r'[|r| - 1..] == t;
  }

  // ---- the last state of a run ----

  /** Run `r` of `voters` ends in state `s`. */
  ghost function EndsIn(voters: set<nat>): (Run, State) -> bool {
    (r: Run, s: State) => IsRun(r, voters) && r[|r| - 1] == s
  }

  lemma EndsIs(r: Run, voters: set<nat>, s: State)
    ensures EndsIn(voters)(r, s) <==> IsRun(r, voters) && r[|r| - 1] == s
  {
  }

  lemma EndsLater(r: Run, voters: set<nat>, s: State, t: seq<State>, step: Moves, s': State) returns (r': Run)
    requires EndsIn(voters)(r, s) && Trace(t, step, s, s') && forall a, b :: step(a, b) ==> AnyMove()(a, b)
    ensures EndsIn(voters)(r', s') && r <= r'
  {
    EndsIs(r, voters, s);
    RunIsTrace(r, voters);
    r' := TraceExtends(r, t, step, AnyMove(), r[0], s, s');
    TraceIsRun(r', voters, s');
  }

  lemma EndsMore(r: Run, voters: set<nat>, s: State, s': State) returns (r': Run)
    requires EndsIn(voters)(r, s) && Next(s, s')
    ensures EndsIn(voters)(r', s') && r <= r'
  {
    TraceOne(AnyMove(), s, s');
    r' := EndsLater(r, voters, s, [s, s'], AnyMove(), s');
  }

  // ---- induction over runs ----

  /** The step at moment `k` keeps what `kept` says. */
  ghost predicate KeepsAt(r: Run, k: nat, kept: State -> bool)
    requires k + 1 < |r|
  {
    kept(r[k]) ==> kept(r[k + 1])
  }

  lemma {:induction false} KeptAlong(r: Run, kept: State -> bool, k: nat)
    requires k < |r| && kept(r[0]) && forall q :: 0 <= q < |r| - 1 ==> KeepsAt(r, q, kept)
    ensures kept(r[k])
  {
    if k > 0 {
      KeptAlong(r, kept, k - 1);
      assert KeepsAt(r, k - 1, kept);
    }
  }

  /** A message was sent in some step. */
  lemma {:induction false} FirstSent(r: Run, k: nat, m: Message) returns (p: nat)
    requires k < |r| && r[0].sent == {} && m in r[k].sent
    ensures p < k && m !in r[p].sent && m in r[p + 1].sent
  {
    if m in r[k - 1].sent { p := FirstSent(r, k - 1, m); } else { p := k - 1; }
  }

  /** What every step of a trace keeps holds throughout. */
  lemma {:induction false} TraceKeeps(t: seq<State>, step: Moves, kept: State -> bool, k: nat)
    requires k < |t| && (forall q :: 0 <= q < |t| - 1 ==> MovesAt(t, q, step)) && kept(t[0])
    requires forall s, s' :: step(s, s') && kept(s) ==> kept(s')
    ensures kept(t[k])
  {
    if k > 0 {
      TraceKeeps(t, step, kept, k - 1);
      assert MovesAt(t, k - 1, step);
    }
  }
}
