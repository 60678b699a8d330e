/**
 The loop invariant of a call whose first prompt chunk the clamp on embd cuts:
 a long resumed session under a long batch. What is lost of the chunk shows up as
 session tokens left unread when sampling starts.
 */
module EngineClamp {
  import opened Wrappers
  import opened KvMemory
  import opened EngineSpec
  import opened EngineSteps

  ghost predicate Clamping(e: Env) {
    e.Valid() && Clamped(e.c, e.plan)
  }

  /** The variables when n session tokens have been passed over and m prompt tokens fetched. */
  ghost function Passed(e: Env, n: int, m: int, embd: seq<Token>): Vars
    requires Clamping(e)
  {
    Vars(
      St(e.plan.base, e.plan.session, n, 0, e.p.nPredict, e.p.hasPath, false,
         m == |e.plan.input| && e.c.isEog(e.plan.input[|e.plan.input| - 1]), [], e.file0),
      embd, m, n)
  }

  /** Where the clamp cuts the first chunk. */
  ghost function Cap(e: Env): int { e.c.nCtx - 4 }

  ghost function First(e: Env): nat { FirstBatch(e.c, e.plan) }

  /** Before the first pass. */
  ghost predicate AtStart(e: Env, v: Vars)
    requires Clamping(e)
  {
    v == Passed(e, 0, 0, [])
  }

  /** The loop head with the first chunk, too long for the clamp, in embd. */
  ghost predicate FirstWaits(e: Env, v: Vars)
    requires Clamping(e)
  {
    v == Passed(e, 0, First(e), e.plan.input[..First(e)])
  }

  /** The late chunk is due. */
  ghost predicate LateDue(e: Env, v: Vars)
    requires Clamping(e)
  {
    First(e) < |e.plan.input| && v == Passed(e, Cap(e), First(e), [])
  }

  /** The loop head with the late chunk in embd. */
  ghost predicate LateWaits(e: Env, v: Vars)
    requires Clamping(e)
  {
    First(e) < |e.plan.input| && v == Passed(e, Cap(e), |e.plan.input|, LateChunk(e.c, e.plan))
  }

  /** A sample is due while session tokens are unread. */
  ghost predicate LagDue(e: Env, v: Vars)
    requires Clamping(e)
  {
    && v.nConsumed == |e.plan.input| && v.st.path && v.nSession >= 0
    && Lagging(e.c, e.p, v.st, v.nSession)
    && Lag(e.c, e.p, e.plan, v.st, v.nSession) == e.Goal()
  }

  /** The loop head with a sampled token in embd while session tokens are unread. */
  ghost predicate LagWaiting(e: Env, v: Vars)
    requires Clamping(e)
  {
    && v.nConsumed == |e.plan.input| && v.st.path && v.nSession >= 0 && |v.embd| == 1
    && LagWaits(e.c, e.p, v.st, v.nSession)
    && LagPending(e.c, e.p, e.plan, v.st, v.nSession, v.embd[0]) == e.Goal()
  }

  lemma ClampingFacts(e: Env)
    requires Clamping(e)
    ensures e.plan.session == e.plan.input && e.p.hasPath && e.plan.cached == |e.plan.input|
    ensures 4 <= Cap(e) < First(e) <= |e.plan.input| < e.c.nCtx
    ensures Consumed(e.p, e.plan) == |e.plan.input|
    ensures |LateChunk(e.c, e.plan)| == |e.plan.input| - First(e)
  {
  }

  /** The clamped chunk is passed over up to the clamp, and the rest of it is forgotten. */
  lemma FirstHalfOfFirst(e: Env, v: Vars)
    requires Clamping(e) && FirstWaits(e, v)
    ensures 0 <= v.nSession <= |v.st.session|
    ensures FirstHalf(e.c, e.p, e.plan, v) == Half(Passed(e, Cap(e), First(e), []), None)
  {
    ClampingFacts(e);
    var embd := e.plan.input[..Cap(e)];
    assert v.embd[..Cap(e)] == embd;
    LcpIs(embd, e.plan.session, Cap(e));
    assert e.plan.session[0..] == e.plan.session;
    assert embd[Cap(e)..] == [];
  }

  /** When the first chunk was the whole prompt, sampling starts with session tokens unread. */
  lemma WholeChunkLags(e: Env)
    requires Clamping(e) && First(e) == |e.plan.input|
    ensures LagDue(e, Passed(e, Cap(e), First(e), []))
  {
    ClampingFacts(e);
    hide Lag;
    var late := LateChunk(e.c, e.plan);
    assert late == [];
    assert LateHeld(e.c, e.plan) == 0;
    assert Passed(e, Cap(e), First(e), []).st == ClampedSt(e.c, e.p, e.plan, e.file0, 0);
  }

  /** Decoding behind a cut session ends the call as specified, or leaves a plain sample due. */
  lemma CutDecodes(e: Env, w: Vars)
    requires Clamping(e) && w.embd != [] && w.nConsumed == |e.plan.input|
    requires w.st.path && w.nSession == |w.st.session| && LivePending(e.c, e.p, w.st) && w.st.nRemain != 0
    requires e.p.Unlimited() && e.p.nPredict < 0 ==> w.st.nPast + |w.embd| < e.c.nCtx
    requires AfterCut(e.c, e.p, e.plan, w.st, w.embd) == e.Goal()
    ensures var part := Within(e.p, w.embd);
      if |w.st.mem| + |part| > e.c.nCtx then Left(e, w, DecodeFailed)
      else var x := Recorded(w.(embd := part));
        if OutOfBudget(e.p, x.st) then Left(e, x, Broke) else part == w.embd && SampleDue(e, x)
  {
    ClampingFacts(e);
    hide Gen;
  }

  /** The first half of a pass whose chunk has cut the session. */
  lemma FirstHalfCuts(e: Env, v: Vars, w: Vars)
    requires Clamping(e) && 0 <= v.nSession <= |v.st.session| && !Full(e.c, v) && w == Prepare(e.c, e.plan, v)
    requires w.embd != [] && w.nConsumed == |e.plan.input|
    requires w.st.path && w.nSession == |w.st.session| && LivePending(e.c, e.p, w.st) && w.st.nRemain != 0
    requires e.p.Unlimited() && e.p.nPredict < 0 ==> w.st.nPast + |w.embd| < e.c.nCtx
    requires AfterCut(e.c, e.p, e.plan, w.st, w.embd) == e.Goal()
    ensures var h := FirstHalf(e.c, e.p, e.plan, v);
      if h.why.Some? then Left(e, h.v, h.why.value)
      else SampleDue(e, h.v) && h.v.nConsumed == w.nConsumed && h.v.st.sampled == w.st.sampled
           && h.v.st.nEval >= w.st.nEval && h.v.nSession == |h.v.st.session|
  {
    hide Prepare, Full, AfterCut, SampleDue, Left, LivePending, Clamping, Within, OutOfBudget;
    CutDecodes(e, w);
  }

  lemma LateFacts(e: Env, v: Vars)
    requires Clamping(e) && LateWaits(e, v)
    ensures !Full(e.c, v) && e.c.Valid() && e.plan.Valid(e.c) && Clamped(e.c, e.plan)
    ensures LateHeld(e.c, e.plan) == Lcp(LateChunk(e.c, e.plan), e.plan.session[Cap(e)..])
    ensures Cap(e) + |LateChunk(e.c, e.plan)| < |e.plan.session|
    ensures |v.embd| <= e.c.nCtx - 4 && v == Passed(e, Cap(e), |e.plan.input|, LateChunk(e.c, e.plan))
  {
    hide Lcp, LateChunk;
    ClampingFacts(e);
  }

  lemma PrepareLate(e: Env, v: Vars, j: nat)
    requires Clamping(e) && LateWaits(e, v)
    requires j == LateHeld(e.c, e.plan)
    ensures 0 <= v.nSession <= |v.st.session| && !Full(e.c, v)
    ensures var w := Prepare(e.c, e.plan, v);
      && w.embd == LateChunk(e.c, e.plan)[j..] && w.nSession == Cap(e) + j && w.nConsumed == |e.plan.input|
      && w.st == ClampedSt(e.c, e.p, e.plan, e.file0, j).(session :=
           if j < |LateChunk(e.c, e.plan)| then e.plan.session[..Cap(e) + j] else e.plan.session)
  {
    hide Lcp, LateChunk, Clamping, Shift;
    ClampingFacts(e);
    LateFacts(e, v);
    assert Room(e.c, e.plan, v) == v;
  }

  /** When the session repeats the late chunk, sampling starts with session tokens unread. */
  lemma LateRepeats(e: Env, w: Vars)
    requires Clamping(e) && w.embd == [] && w.nConsumed == |e.plan.input|
    requires var late := LateChunk(e.c, e.plan);
      && LateHeld(e.c, e.plan) == |late| && w.nSession == Cap(e) + |late|
      && w.st == ClampedSt(e.c, e.p, e.plan, e.file0, |late|)
    ensures LagDue(e, w)
  {
    ClampingFacts(e);
    hide Lag, AfterCut, Lcp;
  }

  /** The state in which the rest of the late chunk is decoded behind the cut, after j tokens of it. */
  ghost predicate LateCut(e: Env, w: Vars, j: nat)
    requires Clamping(e)
  {
    && j < |LateChunk(e.c, e.plan)| && w.embd == LateChunk(e.c, e.plan)[j..]
    && w.nSession == Cap(e) + j && w.nConsumed == |e.plan.input|
    && w.st == ClampedSt(e.c, e.p, e.plan, e.file0, j).(session := e.plan.session[..Cap(e) + j])
  }

  lemma LateCutFacts(e: Env, w: Vars, j: nat)
    requires Clamping(e) && LateCut(e, w, j)
    ensures w.st.path && w.nSession == |w.st.session| && LivePending(e.c, e.p, w.st) && w.st.nRemain != 0
    ensures e.p.Unlimited() && e.p.nPredict < 0 ==> w.st.nPast + |w.embd| < e.c.nCtx
    ensures w.embd != [] && w.st.sampled == [] && w.st.nEval == 0
  {
    ClampingFacts(e);
  }

  /** Otherwise the rest of it is decoded behind the cut. */
  lemma LateCutIsGoal(e: Env, w: Vars, j: nat)
    requires Clamping(e) && LateCut(e, w, j) && j == LateHeld(e.c, e.plan)
    requires LivePending(e.c, e.p, w.st) && w.st.nRemain != 0
    requires e.p.Unlimited() && e.p.nPredict < 0 ==> w.st.nPast + |w.embd| < e.c.nCtx
    ensures AfterCut(e.c, e.p, e.plan, w.st, w.embd) == e.Goal()
  {
    hide Lag, AfterCut, LateHeld, LateChunk, ClampedSt, LivePending;
  }

  /** The late chunk is passed over, or cuts the session. */
  lemma FirstHalfOfLate(e: Env, v: Vars)
    requires Clamping(e) && LateWaits(e, v)
    ensures 0 <= v.nSession <= |v.st.session|
    ensures var h := FirstHalf(e.c, e.p, e.plan, v);
      if h.why.Some? then Left(e, h.v, h.why.value)
      else h.v.nConsumed == v.nConsumed && h.v.st.sampled == [] && h.v.st.nEval >= 0
           && (LagDue(e, h.v) || SampleDue(e, h.v))
  {
    hide LateHeld, Prepare, Full, Left, SampleDue, LagDue, LateChunk, AfterCut, LivePending;
    var late := LateChunk(e.c, e.plan);
    var j := LateHeld(e.c, e.plan);
    PrepareLate(e, v, j);
    var w := Prepare(e.c, e.plan, v);
    if j < |late| {
      hide FirstHalf;
      LateCutFacts(e, w, j);
      LateCutIsGoal(e, w, j);
      FirstHalfCuts(e, v, w);
    } else {
      assert late[j..] == [];
      LateRepeats(e, w);
    }
  }

  lemma PrepareLag(e: Env, v: Vars)
    requires Clamping(e) && LagWaiting(e, v)
    ensures 0 <= v.nSession < |v.st.session| && !Full(e.c, v)
    ensures Prepare(e.c, e.plan, v) ==
      if v.st.session[v.nSession] == v.embd[0]
      then v.(embd := [], nSession := v.nSession + 1, st := v.st.(nPast := v.st.nPast + 1))
      else v.(st := v.st.(session := v.st.session[..v.nSession]))
  {
    hide LagPending;
    var rest := v.st.session[v.nSession..];
    assert v.embd == [v.embd[0]];
    LcpIs(v.embd, rest, if rest[0] == v.embd[0] then 1 else 0);
  }

  /** Passing over a token leaves a sample due, with one session token less unread. */
  lemma LagHeld(e: Env, v: Vars, w: Vars)
    requires Clamping(e) && LagWaiting(e, v) && v.st.nRemain != 0 && v.st.session[v.nSession] == v.embd[0]
    requires w == v.(embd := [], nSession := v.nSession + 1, st := v.st.(nPast := v.st.nPast + 1))
    ensures LagDue(e, w) || SampleDue(e, w)
  {
    ClampingFacts(e);
    hide Lag, Gen, AfterCut;
  }

  /** A token sampled with the session unread is passed over, or cuts the session. */
  lemma FirstHalfOfLag(e: Env, v: Vars)
    requires Clamping(e) && LagWaiting(e, v) && v.st.nRemain != 0
    ensures 0 <= v.nSession <= |v.st.session|
    ensures var h := FirstHalf(e.c, e.p, e.plan, v);
      if h.why.Some? then Left(e, h.v, h.why.value)
      else
        && h.v.nConsumed == v.nConsumed && h.v.st.sampled == v.st.sampled && h.v.st.nEval >= v.st.nEval
        && |h.v.st.session| - h.v.nSession < |v.st.session| - v.nSession
        && (LagDue(e, h.v) || SampleDue(e, h.v))
  {
    ClampingFacts(e);
    PrepareLag(e, v);
    hide Lag, Gen, AfterCut, Prepare, Full;
    assert v.embd == [v.embd[0]];
    var w := Prepare(e.c, e.plan, v);
    if v.st.session[v.nSession] == v.embd[0] {
      LagHeld(e, v, w);
    } else {
      hide FirstHalf;
      FirstHalfCuts(e, v, w);
    }
  }

  lemma LagSamples(e: Env, v: Vars, id: Token)
    requires Clamping(e) && LagDue(e, v) && id == e.c.next(Toks(v.st.mem))
    ensures LagWaiting(e, v.(embd := [id], st := Sample(e.c, e.p, v.st)))
  {
    hide LagPending;
  }

  lemma LagLeaves(e: Env, v: Vars)
    requires Clamping(e) && LagWaiting(e, v) && v.st.nRemain == 0
    ensures Left(e, v, NoRemain)
  {
    ClampingFacts(e);
  }
}
