/**
 Sampling while session tokens are still unread, as a clamped call does: a token
 that repeats the session is passed over, and the first one that does not cuts
 the session while the memory keeps its cells.
 */
module EngineLag {
  import opened Wrappers
  import opened KvMemory
  import opened EngineSpec
  import opened EngineStream

  /** How often xs repeats id before anything else. */
  function Repeats(id: Token, xs: seq<Token>): (j: nat)
    ensures j <= |xs|
    ensures j < |xs| ==> xs[j] != id
    ensures forall i :: 0 <= i < j ==> xs[i] == id
  {
    if xs == [] || xs[0] != id then 0 else 1 + Repeats(id, xs[1..])
  }

  /** The unread part of the session repeats the next token this often. */
  function RepeatsAt(c: Context, st: St, n: nat): (j: nat)
    requires n <= |st.session|
    ensures n + j <= |st.session|
  {
    Repeats(c.next(Toks(st.mem)), st.session[n..])
  }

  /** Sampling gets to a token that does not repeat the session. */
  predicate LagCuts(c: Context, st: St, n: nat)
    requires n <= |st.session|
  {
    n + RepeatsAt(c, st, n) < |st.session| && (st.nRemain < 0 || st.nRemain > RepeatsAt(c, st, n) + 1)
  }

  /** How many samples are passed over undecoded. */
  function HeldSamples(c: Context, st: St, n: nat): nat
    requires n <= |st.session|
  {
    if 0 < st.nRemain <= RepeatsAt(c, st, n) then st.nRemain - 1 else RepeatsAt(c, st, n)
  }

  /** One step of a lag. */
  lemma LagOnce(c: Context, p: Params, plan: Plan, st: St, n: nat)
    requires Lagging(c, p, st, n)
    ensures var s, id, e := Sample(c, p, st), c.next(Toks(st.mem)), Lag(c, p, plan, st, n);
      var h, cut := s.(nPast := n + 1), s.(session := s.session[..n]);
      if s.nRemain == 0 then e == End(s, NoRemain)
      else if st.session[n] == id then
        if n + 1 < |st.session| then Lagging(c, p, h, n + 1) && e == Lag(c, p, plan, h, n + 1)
        else Live(c, p, h) && e == Gen(c, p, plan, h)
      else
        && LivePending(c, p, cut) && (p.Unlimited() && p.nPredict < 0 ==> cut.nPast + 1 < c.nCtx)
        && e == AfterCut(c, p, plan, cut, [id])
  {
    hide Gen, AfterCut;
  }

  /** Passing over one repeated token leaves one less to repeat. */
  lemma OneHeld(c: Context, st: St, h: St, n: nat)
    requires n < |st.session| && st.session[n] == c.next(Toks(st.mem))
    requires h.mem == st.mem && h.session == st.session && h.nRemain == st.nRemain - 1
    ensures RepeatsAt(c, st, n) == 1 + RepeatsAt(c, h, n + 1)
    ensures st.nRemain != 0 && st.nRemain != 1 ==>
      && (LagCuts(c, st, n) <==> LagCuts(c, h, n + 1))
      && HeldSamples(c, st, n) == 1 + HeldSamples(c, h, n + 1)
    ensures st.nRemain == 1 ==> !LagCuts(c, st, n) && HeldSamples(c, st, n) == 0
  {
    assert st.session[n..][1..] == st.session[n + 1..];
  }

  lemma NoneHeld(c: Context, st: St, n: nat)
    requires n < |st.session| && st.session[n] != c.next(Toks(st.mem))
    ensures RepeatsAt(c, st, n) == 0 && HeldSamples(c, st, n) == 0
    ensures LagCuts(c, st, n) <==> st.nRemain < 0 || st.nRemain > 1
  {
    assert st.session[n..][0] == st.session[n];
  }

  /** The state before a generation that follows a lag: all tokens of the session, or a cut session, are recorded. */
  ghost predicate Tracked(c: Context, st: St) {
    Contiguous(st.mem) && st.path && !st.needSave && 0 < |st.session| < c.nCtx && |st.session| == st.nPast
  }

  /**
   How a lagging generation that kept its session path has grown: the memory along
   the stream, and the session by the same tokens, unless it was cut.
   */
  ghost predicate LagGrew(c: Context, st: St, e: End, cut: bool) {
    && e.st.file == st.file
    && (e.st.path ==>
        && 0 <= e.st.nEval - st.nEval && Contiguous(e.st.mem)
        && Toks(e.st.mem) == Stream(c.next, Toks(st.mem), e.st.nEval - st.nEval)
        && 0 < |e.st.session| < c.nCtx
        && (cut ==> |e.st.session| < |e.st.mem|)
        && (!cut ==> e.st.session == st.session + Toks(e.st.mem)[|st.mem|..]))
  }

  /** Generation from a recorded state. */
  lemma GenFromRecorded(c: Context, p: Params, plan: Plan, st: St)
    requires Live(c, p, st) && Tracked(c, st)
    ensures LagGrew(c, st, Gen(c, p, plan, st), false)
    ensures Gen(c, p, plan, st).st.path ==>
      |Gen(c, p, plan, st).st.session| - |st.session| == |Gen(c, p, plan, st).st.mem| - |st.mem|
  {
    hide Gen;
    GenFollowsStream(c, p, plan, st);
  }

  /** A generation that ends where it stands has grown by nothing. */
  lemma StopGrew(c: Context, st: St, e: End)
    requires Contiguous(st.mem) && 0 < |st.session| < c.nCtx
    requires e.st.mem == st.mem && e.st.session == st.session && e.st.nEval == st.nEval && e.st.file == st.file
    ensures LagGrew(c, st, e, false)
  {
    assert Toks(st.mem)[|st.mem|..] == [];
  }

  /** One sample decoded behind a cut, then what follows it. */
  lemma CutGrewOn(c: Context, st: St, d: St, e: End)
    requires Contiguous(st.mem) && |st.session| == |st.mem|
    requires d.mem == KvMemory.Decode(st.mem, [c.next(Toks(st.mem))]) && |d.session| <= |st.session|
    requires d.nEval == st.nEval + 1 && d.file == st.file && LagGrew(c, d, e, false)
    requires e.st.path ==> |e.st.session| - |d.session| == |e.st.mem| - |d.mem|
    ensures LagGrew(c, st, e, true)
  {
    DecodeHolds(st.mem, [c.next(Toks(st.mem))]);
    assert Toks(d.mem) == Stream(c.next, Toks(st.mem), 1);
    if e.st.path { StreamInTwo(c.next, Toks(st.mem), 1, e.st.nEval - d.nEval); }
  }

  /** Decoding behind a cut leaves more cells than recorded tokens. */
  lemma CutGrew(c: Context, p: Params, plan: Plan, st: St, cut: St, id: Token)
    requires Contiguous(st.mem) && |st.session| == |st.mem| < c.nCtx
    requires cut.mem == st.mem && cut.session < st.session && cut.nPast == |cut.session|
    requires cut.path && !cut.needSave && cut.file == st.file && cut.nEval == st.nEval
    requires LivePending(c, p, cut) && cut.nRemain != 0 && id == c.next(Toks(st.mem))
    ensures LagGrew(c, st, AfterCut(c, p, plan, cut, [id]), true)
  {
    assert Within(p, [id]) == [id];
    var d := DecodeIds(cut, [id]);
    DecodeHolds(cut.mem, [id]);
    hide Gen, LagGrew, LivePending, KvMemory.Decode;
    if OutOfBudget(p, d) {
      StopGrew(c, d, End(d, Broke));
      CutGrewOn(c, st, d, End(d, Broke));
    } else {
      GenFromRecorded(c, p, plan, d);
      CutGrewOn(c, st, d, Gen(c, p, plan, d));
    }
  }

  /** A lag follows the stream in memory, and in the session exactly when it does not cut it. */
  lemma {:induction false} LagFollowsStream(c: Context, p: Params, plan: Plan, st: St, n: nat)
    requires Lagging(c, p, st, n) && Contiguous(st.mem) && |st.session| == |st.mem| && st.path && !st.needSave
    ensures LagGrew(c, st, Lag(c, p, plan, st, n), LagCuts(c, st, n))
    decreases |st.session| - n, 0
  {
    hide Gen, AfterCut, LagCuts, LagGrew, Contiguous;
    var s := Sample(c, p, st);
    var id := c.next(Toks(st.mem));
    if st.session[n] == id {
      OneHeld(c, st, s.(nPast := n + 1), n);
    } else {
      NoneHeld(c, st, n);
    }
    if s.nRemain == 0 {
      StopGrew(c, st, End(s, NoRemain));
    } else if st.session[n] == id {
      HeldGrew(c, p, plan, st, s.(nPast := n + 1), n);
    } else {
      CutGrew(c, p, plan, st, s.(session := s.session[..n]), id);
    }
  }

  lemma {:induction false} HeldGrew(c: Context, p: Params, plan: Plan, st: St, h: St, n: nat)
    requires Contiguous(st.mem) && |st.session| == |st.mem| && n < |st.session| < c.nCtx
    requires h.mem == st.mem && h.session == st.session && h.nEval == st.nEval && h.file == st.file
    requires h.path && !h.needSave && h.nPast == n + 1 && Live(c, p, h)
    ensures n + 1 < |h.session| ==>
      LagGrew(c, st, Lag(c, p, plan, h, n + 1), LagCuts(c, h, n + 1))
    ensures n + 1 == |h.session| ==>
      LagGrew(c, st, Gen(c, p, plan, h), LagCuts(c, h, n + 1))
    decreases |st.session| - n - 1, 1
  {
    hide Gen, Lag;
    if n + 1 < |h.session| {
      hide LagCuts;
      LagFollowsStream(c, p, plan, h, n + 1);
    } else {
      GenFromRecorded(c, p, plan, h);
    }
  }

  /** A clamped call cuts its session: the late chunk differs from it, or sampling gets to a token that does. */
  predicate ClampedCuts(c: Context, p: Params, plan: Plan, file: Option<SessionFile>)
    requires c.Valid() && plan.Valid(c) && Clamped(c, plan)
  {
    var j := LateHeld(c, plan);
    j < |LateChunk(c, plan)| || LagCuts(c, ClampedSt(c, p, plan, file, j), c.nCtx - 4 + j)
  }

  /** The late chunk decoded again behind a cut leaves more cells than recorded tokens. */
  lemma LateGrew(c: Context, p: Params, plan: Plan, cut: St, ids: seq<Token>)
    requires Contiguous(cut.mem) && |cut.session| + |ids| < |cut.mem| < c.nCtx && ids != []
    requires cut.path && !cut.needSave && cut.nPast == |cut.session|
    requires LivePending(c, p, cut) && cut.nRemain != 0
    ensures var e := AfterCut(c, p, plan, cut, ids);
      && e.st.file == cut.file
      && (e.st.path && e.why != DecodeFailed ==>
          Contiguous(e.st.mem) && 0 < |e.st.session| < c.nCtx && |e.st.session| < |e.st.mem|)
  {
    hide Gen;
    var part := Within(p, ids);
    var d := DecodeIds(cut, part);
    DecodeHolds(cut.mem, part);
    if |cut.mem| + |part| <= c.nCtx && !OutOfBudget(p, d) {
      GenFromRecorded(c, p, plan, d);
    }
  }

  /**
   What a clamped call leaves behind, if it keeps its session path: the memory and
   the session grown along the stream, or fewer recorded tokens than cells.
   */
  ghost predicate ClampedGrew(c: Context, plan: Plan, file: Option<SessionFile>, e: End, cut: bool) {
    && |plan.base| == |plan.input| && e.st.file == file
    && (e.st.path && e.why != DecodeFailed ==>
        && Contiguous(e.st.mem) && 0 < |e.st.session| < c.nCtx && |e.st.session| <= |e.st.mem|
        && (cut ==> |e.st.session| < |e.st.mem|)
        && (!cut ==>
            && 0 <= e.st.nEval && Toks(e.st.mem) == Stream(c.next, Toks(plan.base), e.st.nEval)
            && e.st.session == plan.input + Toks(e.st.mem)[|plan.input|..]))
  }

  /** The sizes and flags with which a clamped call meets its session again. */
  lemma ClampedSizes(c: Context, p: Params, plan: Plan, file: Option<SessionFile>, j: nat)
    requires c.Valid() && plan.Valid(c) && Clamped(c, plan) && j <= |LateChunk(c, plan)|
    ensures var s, n := ClampedSt(c, p, plan, file, j), c.nCtx - 4 + j;
      && s.mem == plan.base && s.session == plan.input && s.path == p.hasPath && !s.needSave && s.file == file
      && s.nPast == n && s.nEval == 0 && s.sampled == []
      && plan.session == plan.input && 0 < n <= n + (|LateChunk(c, plan)| - j) < |plan.input| < c.nCtx
  {
  }

  lemma LagOutcomeGrew(c: Context, plan: Plan, file: Option<SessionFile>, s: St, e: End, cut: bool)
    requires LagGrew(c, s, e, cut) && s.mem == plan.base && s.session == plan.input
    requires s.file == file && s.nEval == 0 && |plan.base| == |plan.input|
    ensures ClampedGrew(c, plan, file, e, cut)
  {
    hide Stream;
  }

  lemma ClampedLags(c: Context, p: Params, plan: Plan, file: Option<SessionFile>)
    requires c.Valid() && plan.Valid(c) && p.Bounded(c) && Clamped(c, plan) && p.hasPath
    requires Contiguous(plan.base) && |plan.base| == |plan.input|
    requires LateHeld(c, plan) == |LateChunk(c, plan)|
    ensures ClampedGrew(c, plan, file, ClampedOutcome(c, p, plan, file), ClampedCuts(c, p, plan, file))
  {
    hide Lag, LagCuts, LateHeld, LateChunk, Lagging, ClampedSt, LagGrew, ClampedGrew, Plan.Valid, Clamped, Contiguous;
    var j := LateHeld(c, plan);
    ClampedStarts(c, p, plan, file, j);
    ClampedSizes(c, p, plan, file, j);
    var s := ClampedSt(c, p, plan, file, j);
    LagFollowsStream(c, p, plan, s, c.nCtx - 4 + j);
    LagOutcomeGrew(c, plan, file, s, ClampedOutcome(c, p, plan, file), LagCuts(c, s, c.nCtx - 4 + j));
  }

  lemma ClampedDecodesLate(c: Context, p: Params, plan: Plan, file: Option<SessionFile>)
    requires c.Valid() && plan.Valid(c) && p.Bounded(c) && Clamped(c, plan) && p.hasPath
    requires Contiguous(plan.base) && |plan.base| == |plan.input|
    requires LateHeld(c, plan) < |LateChunk(c, plan)|
    ensures ClampedGrew(c, plan, file, ClampedOutcome(c, p, plan, file), ClampedCuts(c, p, plan, file))
  {
    hide AfterCut, LateHeld, LateChunk, ClampedSt, Plan.Valid, Clamped, LivePending, Lagging, Contiguous;
    var j := LateHeld(c, plan);
    ClampedStarts(c, p, plan, file, j);
    ClampedSizes(c, p, plan, file, j);
    var s := ClampedSt(c, p, plan, file, j);
    var cut := s.(session := plan.session[..c.nCtx - 4 + j]);
    CutIsLive(c, p, s, cut);
    LateGrew(c, p, plan, cut, LateChunk(c, plan)[j..]);
  }

  lemma ClampedFollows(c: Context, p: Params, plan: Plan, file: Option<SessionFile>)
    requires c.Valid() && plan.Valid(c) && p.Bounded(c) && Clamped(c, plan) && p.hasPath
    requires Contiguous(plan.base) && |plan.base| == |plan.input|
    ensures ClampedGrew(c, plan, file, ClampedOutcome(c, p, plan, file), ClampedCuts(c, p, plan, file))
  {
    hide ClampedGrew, ClampedOutcome, ClampedCuts, LateHeld, LateChunk;
    if LateHeld(c, plan) == |LateChunk(c, plan)| {
      ClampedLags(c, p, plan, file);
    } else {
      ClampedDecodesLate(c, p, plan, file);
    }
  }

  /** A clamped call that records its tokens agrees with its memory exactly when it did at the start and did not cut. */
  lemma ClampedGrewAgrees(c: Context, plan: Plan, file: Option<SessionFile>, e: End, cut: bool)
    requires ClampedGrew(c, plan, file, e, cut) && e.st.path && e.why != DecodeFailed
    ensures Agrees(SessionFile(e.st.session, e.st.mem)) <==> Toks(plan.base) == plan.input && !cut
  {
    if !cut {
      AgreesIffToks(SessionFile(e.st.session, e.st.mem));
      var t := Toks(e.st.mem);
      assert t[..|plan.input|] == Toks(plan.base);
      assert t == Toks(plan.base) + t[|plan.input|..];
      assert e.st.session[..|plan.input|] == plan.input;
    }
  }

  /** Then, if nothing was cut, what it records is the stream. */
  lemma ClampedGrewStream(c: Context, plan: Plan, file: Option<SessionFile>, e: End)
    requires ClampedGrew(c, plan, file, e, false) && e.st.path && e.why != DecodeFailed
    requires Toks(plan.base) == plan.input
    ensures 0 <= e.st.nEval && e.st.session == Stream(c.next, plan.input, e.st.nEval)
  {
    var t := Toks(e.st.mem);
    assert t == plan.input + t[|plan.input|..];
  }
}
