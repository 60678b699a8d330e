/**
 Exactly which calls run out of room, and which reach their final save, said of
 their arguments: calls of every kind, those that decode a token twice and those
 that cut their session included.
 */
module EngineLimits {
  import opened Wrappers
  import opened KvMemory
  import opened EngineAhead
  import opened EngineLag
  import opened EngineRoom
  import opened EngineSpec
  import opened EngineStream
  import opened EngineTheorems

  // ------------------------------------------------------------ more cells than n_past

  /**
   A memory with more cells than n_past says, as a token decoded twice leaves it:
   h cells that context shifts still reach, at positions 0 .. h - 1, and behind
   them cells too high to be reached again.
   */
  ghost predicate Split(c: Context, w: Window, h: nat) {
    && h <= c.nCtx - 1 && w.nPast < c.nCtx && w.nPast + 1 <= |w.mem| <= c.nCtx
    && (forall i :: 0 <= i < |w.mem| && i < h ==> w.mem[i].pos == i)
    && (forall i :: h <= i < |w.mem| ==> w.mem[i].pos >= c.nCtx - 1)
    && (|w.mem| <= h ==> h == c.nCtx - 1)
  }

  /** How many of the h cells within reach the next shift drops. */
  function Dropped(c: Context, keep: int, h: nat): int {
    var d := (c.nCtx - 1 - keep) / 2;
    if keep > c.nCtx - 3 || h <= keep then 0 else if d < h - keep then d else h - keep
  }

  /**
   How many samples can still be decoded: one for each free cell, and one for
   each cell that shifts can drop, as long as shift and last free cell come together.
   */
  function Left(c: Context, keep: int, w: Window, h: nat): int {
    c.nCtx - |w.mem| + if |w.mem| == w.nPast + 1 && keep <= c.nCtx - 3 && h > keep then h - keep else 0
  }

  lemma NextPosSplit(c: Context, w: Window, h: nat)
    requires Split(c, w, h)
    ensures if |w.mem| < h then NextPos(w.mem) == |w.mem| else NextPos(w.mem) >= c.nCtx - 1
  {
    if |w.mem| <= h { NextPosContiguous(w.mem); } else { NextPosAbove(w.mem, h); }
  }

  lemma SplitDecode(c: Context, w: Window, h: nat, id: Token)
    requires Split(c, w, h) && |w.mem| < c.nCtx && w.nPast + 1 < c.nCtx
    ensures Split(c, Window(KvMemory.Decode(w.mem, [id]), w.nPast + 1), h)
  {
    NextPosSplit(c, w, h);
  }

  /** With at most one token to drop, a shift changes nothing. */
  lemma ShiftNothing(c: Context, keep: nat, w: Window)
    requires w.nPast - 1 <= keep <= w.nPast + 1
    ensures Shifted(keep, w) == w
  {
    hide SeqRm, SeqAdd;
    SeqRmNothing(w.mem, keep);
    SeqAddNothing(w.mem, keep, w.nPast);
  }

  /** What removing the dropped cells leaves. */
  lemma SplitRemoves(c: Context, keep: nat, w: Window, h: nat)
    requires Split(c, w, h) && Full(c, w) && keep <= c.nCtx - 3
    ensures var x, cut := Dropped(c, keep, h), SeqRm(w.mem, keep, keep + (w.nPast - keep) / 2);
      && 0 <= x <= h && |cut| == |w.mem| - x
      && forall i :: 0 <= i < |cut| ==> cut[i] == w.mem[if i < keep then i else i + x]
  {
    hide SeqRm;
    SeqRmCutsHead(w.mem, h, keep, keep + (w.nPast - keep) / 2);
  }

  /** Moving the cells behind the gap down closes it, and does not touch those too high. */
  lemma SplitCloses(c: Context, keep: nat, cut: Memory, h: nat, x: nat, nPast: int)
    requires nPast == c.nCtx - 1 && x <= h <= c.nCtx - 1 && keep <= c.nCtx - 3 && x <= (nPast - keep) / 2
    requires x < (nPast - keep) / 2 ==> h - x <= keep
    requires forall i :: 0 <= i < |cut| && i < h - x ==> cut[i].pos == if i < keep then i else i + x
    requires forall i :: h - x <= i < |cut| ==> cut[i].pos >= c.nCtx - 1
    ensures var d := (nPast - keep) / 2; var v := SeqAdd(cut, keep + d, nPast, -d);
      && (forall i :: 0 <= i < |v| && i < h - x ==> v[i].pos == i)
      && (forall i :: h - x <= i < |v| ==> v[i].pos >= c.nCtx - 1)
  {
  }

  lemma SplitCut(c: Context, keep: nat, w: Window, h: nat)
    requires Split(c, w, h) && Full(c, w) && keep <= c.nCtx - 3
    ensures var v, x := Shifted(keep, w), Dropped(c, keep, h);
      && 0 <= x <= h && |v.mem| == |w.mem| - x && v.nPast == w.nPast - (w.nPast - keep) / 2
      && Split(c, v, h - x)
  {
    hide SeqRm, SeqAdd;
    SplitRemoves(c, keep, w, h);
    var x := Dropped(c, keep, h);
    SplitCloses(c, keep, SeqRm(w.mem, keep, keep + (w.nPast - keep) / 2), h, x, w.nPast);
  }

  /** A shift of a full memory drops cells within reach only, and renumbers the rest of those. */
  lemma SplitShift(c: Context, keep: nat, w: Window, h: nat)
    requires Split(c, w, h) && Full(c, w) && keep <= c.nCtx
    ensures var v, x := Shifted(keep, w), Dropped(c, keep, h);
      && 0 <= x <= h && |v.mem| == |w.mem| - x && v.nPast == w.nPast - HalfTowardZero(w.nPast - keep)
      && Split(c, v, h - x)
  {
    if keep > c.nCtx - 3 {
      ShiftNothing(c, keep, w);
    } else {
      SplitCut(c, keep, w, h);
    }
  }

  lemma SplitBounds(c: Context, w: Window, h: nat)
    requires Split(c, w, h)
    ensures h <= c.nCtx - 1 && w.nPast < c.nCtx && w.nPast + 1 <= |w.mem| <= c.nCtx
  {
  }

  /** One more sample: there is no cell for it, or one less is left. */
  lemma OnwardSplit(c: Context, keep: nat, w: Window, h: nat)
    requires Split(c, w, h) && keep <= c.nCtx
    ensures var v := Onward(c, keep, w);
      var h' := if Full(c, w) then h - Dropped(c, keep, h) else h;
      && Left(c, keep, w, h) >= 0 && (Left(c, keep, w, h) == 0 <==> |v.mem| > c.nCtx)
      && (|v.mem| <= c.nCtx ==> h' >= 0 && Split(c, v, h') && Left(c, keep, v, h') == Left(c, keep, w, h) - 1)
      && (!Full(c, w) ==> |v.mem| - v.nPast == |w.mem| - w.nPast)
  {
    hide Split;
    SplitBounds(c, w, h);
    var id := c.next(Toks(w.mem));
    if Full(c, w) {
      SplitShift(c, keep, w, h);
      var u := Shifted(keep, w);
      var h' := h - Dropped(c, keep, h);
      if |u.mem| < c.nCtx { SplitDecode(c, u, h', id); }
    } else if |w.mem| < c.nCtx {
      SplitDecode(c, w, h, id);
    }
  }

  /** Sampling gets to a token for which there is no cell, after exactly k that are decoded. */
  ghost predicate RunsOutAt(c: Context, p: Params, keep: int, st: St, k: int) {
    && (|st.mem| <= st.nPast + 1 ==> p.ctxShift && p.nPredict != -2)
    && Outlasts(st, k) && UnspentAhead(c, p, keep, st, k)
  }

  lemma RunsOutNow(c: Context, p: Params, keep: int, st: St)
    requires Live(c, p, st)
    ensures RunsOutAt(c, p, keep, st, 0) <==>
      st.nRemain != 1 && (|st.mem| <= st.nPast + 1 ==> !p.StopsWhenFull())
  {
    LiveRemains(c, p, st);
  }

  lemma RunsOutLater(c: Context, p: Params, plan: Plan, st: St, k: int)
    requires Live(c, p, st) && k > 0
    ensures st.nRemain == 1 ==> !RunsOutAt(c, p, plan.keep, st, k)
    ensures OutOfBudget(p, NextSt(c, p, plan, st)) ==> !RunsOutAt(c, p, plan.keep, st, k)
    ensures st.nRemain != 1 && !OutOfBudget(p, NextSt(c, p, plan, st)) ==>
      var s2 := NextSt(c, p, plan, st);
      && (Outlasts(st, k) && UnspentAhead(c, p, plan.keep, st, k)
          <==> Outlasts(s2, k - 1) && UnspentAhead(c, p, plan.keep, s2, k - 1))
  {
    hide NextSt, UnspentAhead, Live;
    if OutOfBudget(p, NextSt(c, p, plan, st)) {
      SpentNow(c, p, plan, st, k);
    } else if st.nRemain != 1 {
      UnspentNext(c, p, plan, st, k);
    }
  }

  /** A generation from more cells than n_past runs out of room exactly when it decodes all that are left. */
  lemma {:induction false} SplitFailsIff(c: Context, p: Params, plan: Plan, st: St, h: nat)
    requires Live(c, p, st) && Split(c, WindowOf(st), h) && 0 <= plan.keep <= c.nCtx
    ensures Gen(c, p, plan, st).why == DecodeFailed
       <==> RunsOutAt(c, p, plan.keep, st, Left(c, plan.keep, WindowOf(st), h))
    decreases Fuel(c, p, st)
  {
    hide Gen, Live, NextSt, Fuel, Split, Dropped, Onward, UnspentAhead;
    GenStep(c, p, plan, st);
    NextIs(c, p, plan, st);
    var s2, w := NextSt(c, p, plan, st), WindowOf(st);
    OnwardSplit(c, plan.keep, w, h);
    SplitBounds(c, w, h);
    var k := Left(c, plan.keep, w, h);
    if k == 0 {
      RunsOutNow(c, p, plan.keep, st);
    } else {
      RunsOutLater(c, p, plan, st, k);
      if st.nRemain != 1 && !OutOfBudget(p, s2) && !(Full(c, w) && p.StopsWhenFull()) {
        SplitFailsIff(c, p, plan, s2, if Full(c, w) then h - Dropped(c, plan.keep, h) else h);
      }
    }
  }

  // ------------------------------------------------------------ as many cells as n_past

  /** A prefix to keep that leaves at most one token to drop makes a shift change nothing. */
  lemma OnwardStiff(c: Context, keep: nat, w: Window)
    requires Contiguous(w.mem) && |w.mem| == w.nPast <= c.nCtx && c.nCtx - 1 <= keep <= c.nCtx
    ensures var v := Onward(c, keep, w);
      Contiguous(v.mem) && |v.mem| == v.nPast == w.nPast + 1
  {
    hide Shifted, KvMemory.Decode;
    DecodeHolds(w.mem, [c.next(Toks(w.mem))]);
    if Full(c, w) { ShiftNothing(c, keep, w); }
  }

  lemma {:induction false} StiffFailsIff(c: Context, p: Params, plan: Plan, st: St)
    requires Live(c, p, st) && InOrder(st) && 0 <= c.nCtx - 1 <= plan.keep <= c.nCtx && st.nPast <= c.nCtx
    ensures Gen(c, p, plan, st).why == DecodeFailed
       <==> RunsOutAt(c, p, plan.keep, st, c.nCtx - st.nPast)
    decreases Fuel(c, p, st)
  {
    hide Gen, Live, NextSt, Fuel, Onward, UnspentAhead, Contiguous;
    GenStep(c, p, plan, st);
    NextIs(c, p, plan, st);
    OnwardStiff(c, plan.keep, WindowOf(st));
    var s2, k := NextSt(c, p, plan, st), c.nCtx - st.nPast;
    if k == 0 {
      RunsOutNow(c, p, plan.keep, st);
    } else {
      RunsOutLater(c, p, plan, st, k);
      if st.nRemain != 1 && !OutOfBudget(p, s2) && !(Full(c, WindowOf(st)) && p.StopsWhenFull()) {
        StiffFailsIff(c, p, plan, s2);
      }
    }
  }

  // ------------------------------------------------------------ any generation

  /** How many samples a generation can decode, if its context shifts run out of cells to drop. */
  function Capacity(c: Context, keep: int, st: St): int {
    c.nCtx - |st.mem| + if |st.mem| == st.nPast + 1 && keep <= c.nCtx - 3 then c.nCtx - 1 - keep else 0
  }

  /** The generation gets to a token for which there is no cell. */
  ghost predicate FailsFrom(c: Context, p: Params, plan: Plan, st: St) {
    && (|st.mem| == st.nPast ==> !Spare(c, plan))
    && RunsOutAt(c, p, plan.keep, st, Capacity(c, plan.keep, st))
  }

  lemma CellsSplit(c: Context, keep: int, st: St)
    requires InCells(c, st) && |st.mem| > st.nPast && c.nCtx > 0
    ensures Split(c, WindowOf(st), c.nCtx - 1)
    ensures Left(c, keep, WindowOf(st), c.nCtx - 1) == Capacity(c, keep, st)
  {
  }

  /** A generation lacks a cell for a sampled token exactly when FailsFrom says so of its start. */
  lemma GenFailsIff(c: Context, p: Params, plan: Plan, st: St)
    requires Live(c, p, st) && InCells(c, st) && 0 <= plan.keep <= c.nCtx && c.nCtx > 0
    ensures Gen(c, p, plan, st).why == DecodeFailed <==> FailsFrom(c, p, plan, st)
  {
    hide Gen, Live, RunsOutAt, Split, Left;
    if |st.mem| > st.nPast {
      CellsSplit(c, plan.keep, st);
      SplitFailsIff(c, p, plan, st, c.nCtx - 1);
    } else if Spare(c, plan) {
      GenHasRoom(c, p, plan, st);
    } else {
      StiffFailsIff(c, p, plan, st);
    }
  }

  /**
   From a memory in order, where every cell counts in n_past: no decode fails
   unless keep leaves no token to spare, context shift is on, and the g places left
   and one more are all decoded with a sample to follow.
   */
  lemma InOrderFailsIff(c: Context, p: Params, plan: Plan, st: St)
    requires Live(c, p, st) && InRoom(c, st) && 0 <= plan.keep <= c.nCtx
    ensures var g := c.nCtx - 1 - st.nPast;
      Gen(c, p, plan, st).why == DecodeFailed <==>
        && plan.keep >= c.nCtx - 1 && p.ctxShift && p.nPredict != -2
        && (st.nRemain < 0 || st.nRemain > g + 2)
        && (p.maxTokens > 0 ==> st.nEval + g + 1 < p.maxTokens)
        && !st.eog && NoEarlyEog(c, Toks(st.mem), g + 2)
  {
    hide Gen, Live, UnspentAhead;
    GenFailsIff(c, p, plan, st);
    UnspentIsStream(c, p, plan.keep, st, c.nCtx - st.nPast);
  }

  // ------------------------------------------------------------ where a call starts to generate

  /** Two calls end for the same reason, both with or both without their session path. */
  predicate SameStop(a: End, b: End) {
    a.why == b.why && a.st.path == b.st.path
  }

  /** What a generation looks at. */
  predicate SameStart(a: St, b: St) {
    && a.mem == b.mem && a.nPast == b.nPast && a.nEval == b.nEval
    && a.nRemain == b.nRemain && a.path == b.path && a.eog == b.eog
  }

  lemma {:induction false} GenSame(c: Context, p: Params, plan: Plan, a: St, b: St)
    requires Live(c, p, a) && SameStart(a, b)
    ensures Live(c, p, b) && SameStop(Gen(c, p, plan, a), Gen(c, p, plan, b))
    decreases Fuel(c, p, a)
  {
    hide Gen, NextSt, Onward;
    GenStep(c, p, plan, a);
    GenStep(c, p, plan, b);
    NextIs(c, p, plan, a);
    NextIs(c, p, plan, b);
    var a2, b2 := NextSt(c, p, plan, a), NextSt(c, p, plan, b);
    if a.nRemain != 1 && |a2.mem| <= c.nCtx && !OutOfBudget(p, a2) && !(Full(c, WindowOf(a)) && p.StopsWhenFull()) {
      GenSame(c, p, plan, a2, b2);
    }
  }

  /** The state of a lag once it has passed over every token that repeats the session. */
  function Met(c: Context, st: St, n: nat): St
    requires n <= |st.session|
  {
    var m := RepeatsAt(c, st, n);
    st.(nPast := n + m, nRemain := st.nRemain - m, eog := st.eog || (m > 0 && c.isEog(c.next(Toks(st.mem)))))
  }

  /** n_predict ends the lag before that. */
  predicate EndsInLag(c: Context, st: St, n: nat)
    requires n <= |st.session|
  {
    0 < st.nRemain <= RepeatsAt(c, st, n)
  }

  /** A sample that cuts the session is decoded as any other. */
  lemma CutIsGen(c: Context, p: Params, plan: Plan, st: St, n: nat)
    requires Lagging(c, p, st, n) && |st.session| <= |st.mem| < c.nCtx
    requires st.session[n] != c.next(Toks(st.mem))
    ensures SameStop(Lag(c, p, plan, st, n), Gen(c, p, plan, st))
  {
    LagOnce(c, p, plan, st, n);
    GenOnce(c, p, plan, st);
    var s, id := Sample(c, p, st), c.next(Toks(st.mem));
    if s.nRemain != 0 {
      assert Within(p, [id]) == [id];
      var cut := s.(session := s.session[..n]);
      var a, b := DecodeIds(s, [id]), DecodeIds(cut, [id]);
      hide Gen, Lag, Shift, Live;
      if !OutOfBudget(p, a) { GenSame(c, p, plan, a, b); }
    }
  }

  /** One token passed over is one less to pass over. */
  lemma MetHeld(c: Context, p: Params, st: St, n: nat)
    requires Lagging(c, p, st, n) && st.session[n] == c.next(Toks(st.mem))
    ensures var held := Sample(c, p, st).(nPast := n + 1);
      && held.session == st.session && held.path == st.path && held.mem == st.mem
      && (EndsInLag(c, st, n) <==> held.nRemain == 0 || EndsInLag(c, held, n + 1))
      && (held.nRemain != 0 ==> SameStart(Met(c, held, n + 1), Met(c, st, n)))
      && (n + 1 == |st.session| ==> !EndsInLag(c, held, n + 1) && SameStart(held, Met(c, held, n + 1)))
  {
    OneHeld(c, st, Sample(c, p, st).(nPast := n + 1), n);
    LiveRemains(c, p, st);
  }

  lemma MetNow(c: Context, p: Params, st: St, n: nat)
    requires Lagging(c, p, st, n) && st.session[n] != c.next(Toks(st.mem))
    ensures Met(c, st, n) == st && !EndsInLag(c, st, n)
  {
    NoneHeld(c, st, n);
  }

  lemma SameStartTwice(a: St, b: St, d: St)
    requires SameStart(a, b) && SameStart(b, d)
    ensures SameStart(a, d)
  {
  }

  /** A lag ends by n_predict, or goes on as a generation from where it stops repeating the session. */
  lemma {:induction false} LagIsGen(c: Context, p: Params, plan: Plan, st: St, n: nat)
    requires Lagging(c, p, st, n) && |st.session| <= |st.mem| < c.nCtx
    ensures var e := Lag(c, p, plan, st, n);
      if EndsInLag(c, st, n) then e.why == NoRemain && e.st.path == st.path
      else Live(c, p, Met(c, st, n)) && SameStop(e, Gen(c, p, plan, Met(c, st, n)))
    decreases |st.session| - n
  {
    hide Gen, Lag, AfterCut, Live, Met, EndsInLag, SaveEarly, SameStart;
    LagOnce(c, p, plan, st, n);
    if st.session[n] != c.next(Toks(st.mem)) {
      MetNow(c, p, st, n);
      CutIsGen(c, p, plan, st, n);
    } else {
      MetHeld(c, p, st, n);
      var held := Sample(c, p, st).(nPast := n + 1);
      if held.nRemain != 0 {
        if n + 1 < |st.session| {
          LagIsGen(c, p, plan, held, n + 1);
          if !EndsInLag(c, held, n + 1) { GenSame(c, p, plan, Met(c, held, n + 1), Met(c, st, n)); }
        } else {
          SameStartTwice(held, Met(c, held, n + 1), Met(c, st, n));
          GenSame(c, p, plan, held, Met(c, st, n));
        }
      }
    }
  }

  /**
   Where a call starts to generate: it may stop before that, or lack room for the
   last tokens of a clamped prompt.
   */
  datatype Start = Stops | Lacks | From(st: St)

  function ClampedStart(c: Context, p: Params, plan: Plan, file: Option<SessionFile>): Start
    requires c.Valid() && plan.Valid(c) && Clamped(c, plan)
  {
    var j := LateHeld(c, plan);
    var s, n := ClampedSt(c, p, plan, file, j), c.nCtx - 4 + j;
    if j == |LateChunk(c, plan)| then
      ClampedSizes(c, p, plan, file, j);
      if EndsInLag(c, s, n) then Stops else From(Met(c, s, n))
    else
      var part := Within(p, LateChunk(c, plan)[j..]);
      var d := DecodeIds(s, part);
      if |d.mem| > c.nCtx then Lacks else if OutOfBudget(p, d) then Stops else From(d)
  }

  function StartOf(c: Context, p: Params, plan: Plan, file: Option<SessionFile>): Start
    requires c.Valid() && plan.Valid(c)
  {
    var s := Prefill(c, p, plan, file);
    if Clamped(c, plan) then ClampedStart(c, p, plan, file)
    else if s.nEval > 0 && OutOfBudget(p, s) then Stops else From(s)
  }

  /** How a call that starts there ends. */
  ghost predicate Starts(c: Context, p: Params, plan: Plan, start: Start, e: End) {
    match start
    case Stops => e.why != DecodeFailed && e.st.path == p.hasPath
    case Lacks => e.why == DecodeFailed
    case From(st) =>
      Live(c, p, st) && InCells(c, st) && st.path == p.hasPath && SameStop(e, Gen(c, p, plan, st))
  }

  lemma LagStarts(c: Context, p: Params, plan: Plan, s: St, n: nat)
    requires Lagging(c, p, s, n) && |s.session| == |s.mem| < c.nCtx && Contiguous(s.mem) && s.path == p.hasPath
    ensures Starts(c, p, plan, if EndsInLag(c, s, n) then Stops else From(Met(c, s, n)), Lag(c, p, plan, s, n))
  {
    hide Lag, Gen;
    LagIsGen(c, p, plan, s, n);
  }

  lemma LateStarts(c: Context, p: Params, plan: Plan, s: St, session: seq<Token>, ids: seq<Token>)
    requires LivePending(c, p, s) && s.nRemain != 0 && Contiguous(s.mem) && s.path == p.hasPath
    requires p.Unlimited() && p.nPredict < 0 ==> s.nPast + |ids| < c.nCtx
    requires ids != [] && s.nPast <= |s.mem| < c.nCtx && s.nPast + |ids| < c.nCtx
    requires LivePending(c, p, s.(session := session))
    ensures var d := DecodeIds(s, Within(p, ids));
      Starts(c, p, plan, if |d.mem| > c.nCtx then Lacks else if OutOfBudget(p, d) then Stops else From(d),
             AfterCut(c, p, plan, s.(session := session), ids))
  {
    hide Gen;
    var part := Within(p, ids);
    var d, cut := DecodeIds(s, part), DecodeIds(s.(session := session), part);
    DecodeHolds(s.mem, part);
    if |d.mem| <= c.nCtx && !OutOfBudget(p, d) { GenSame(c, p, plan, cut, d); }
  }

  lemma ClampedStartIs(c: Context, p: Params, plan: Plan, file: Option<SessionFile>)
    requires c.Valid() && plan.Valid(c) && p.Bounded(c) && Clamped(c, plan)
    requires Contiguous(plan.base) && |plan.base| == |plan.input|
    ensures Starts(c, p, plan, ClampedStart(c, p, plan, file), ClampedOutcome(c, p, plan, file))
  {
    hide Lag, AfterCut, LateHeld, LateChunk, ClampedSt, Starts, Met, EndsInLag, Within, Plan.Valid, Clamped,
      LivePending, Lagging, Contiguous;
    var j := LateHeld(c, plan);
    ClampedStarts(c, p, plan, file, j);
    ClampedSizes(c, p, plan, file, j);
    var s := ClampedSt(c, p, plan, file, j);
    if j == |LateChunk(c, plan)| {
      LagStarts(c, p, plan, s, c.nCtx - 4 + j);
    } else {
      var session := plan.session[..c.nCtx - 4 + j];
      CutIsLive(c, p, s, s.(session := session));
      LateStarts(c, p, plan, s, session, LateChunk(c, plan)[j..]);
    }
  }

  lemma KeepInRange(c: Context, p: Params, file: Option<SessionFile>)
    requires Accepted(c, p, file)
    ensures 0 <= PlanOf(c, p, file).keep <= c.nCtx
  {
    PlanIsValid(c, p, file);
  }

  function StartTo(c: Context, p: Params, file: Option<SessionFile>): Start
    requires Accepted(c, p, file)
  {
    PlanIsValid(c, p, file);
    StartOf(c, p, PlanOf(c, p, file), file)
  }

  /** What a call that takes its whole prompt, and is not clamped, starts to generate with. */
  lemma PrefillFields(c: Context, p: Params, file: Option<SessionFile>)
    requires Accepted(c, p, file) && !Clamps(c, p, file)
    ensures var s, plan := PrefillOf(c, p, file), PlanOf(c, p, file);
      && plan.cached <= |plan.input| && 0 < |plan.input| < c.nCtx && InCells(c, s)
      && s.nRemain == p.nPredict && s.path == p.hasPath
      && |s.mem| - s.nPast == (if Redoes(c, p, file) then 1 else 0)
      && s.nEval == Consumed(p, plan) - plan.cached + |s.mem| - s.nPast
      && (Consumed(p, plan) == |plan.input| ==>
          s.nPast == |plan.input| && s.eog == c.isEog(plan.input[|plan.input| - 1]))
  {
    PlanIsValid(c, p, file);
    PrefillShape(c, p, file);
  }

  /** When an unclamped call starts to generate. */
  lemma PlainStarts(c: Context, p: Params, file: Option<SessionFile>)
    requires Accepted(c, p, file) && !Clamps(c, p, file)
    ensures var s, start := PrefillOf(c, p, file), StartTo(c, p, file);
      start == if s.nEval > 0 && OutOfBudget(p, s) then Stops else From(s)
  {
    PlanIsValid(c, p, file);
    hide ClampedStart;
  }

  lemma PlainStartIs(c: Context, p: Params, file: Option<SessionFile>)
    requires Accepted(c, p, file) && !Clamps(c, p, file)
    ensures Starts(c, p, PlanOf(c, p, file), StartTo(c, p, file), EndOf(c, p, file))
    ensures StartTo(c, p, file).From? ==> StartTo(c, p, file).st == PrefillOf(c, p, file)
  {
    hide Gen, EndOf, PrefillOf, PlanOf, StartTo, Accepted, Clamps, Redoes, InCells, Live;
    PrefillFields(c, p, file);
    PlainStarts(c, p, file);
    PlainEnd(c, p, file);
  }

  lemma StartIs(c: Context, p: Params, file: Option<SessionFile>)
    requires Accepted(c, p, file)
    ensures Starts(c, p, PlanOf(c, p, file), StartTo(c, p, file), EndOf(c, p, file))
  {
    if Clamps(c, p, file) {
      ClampsFacts(c, p, file);
      PlanIsValid(c, p, file);
      hide Starts, ClampedOutcome, ClampedStart;
      ClampedStartIs(c, p, PlanOf(c, p, file), file);
    } else {
      PlainStartIs(c, p, file);
    }
  }

  // ------------------------------------------------------------ calls

  /** The call gets to a token for which there is no cell. */
  ghost predicate LacksRoom(c: Context, p: Params, file: Option<SessionFile>)
    requires Accepted(c, p, file)
  {
    match StartTo(c, p, file)
    case Stops => false
    case Lacks => true
    case From(st) => FailsFrom(c, p, PlanOf(c, p, file), st)
  }

  /** The call goes on when there is no place left, by a context shift or into a failing decode. */
  ghost predicate LosesFile(c: Context, p: Params, file: Option<SessionFile>)
    requires Accepted(c, p, file)
  {
    match StartTo(c, p, file)
    case Stops => false
    case Lacks => true
    case From(st) => Overruns(c, p, st)
  }

  lemma CodeOfCall(c: Context, p: Params, file: Option<SessionFile>)
    requires Accepted(c, p, file)
    ensures Call(c, p, file).reply.code == if EndOf(c, p, file).why == DecodeFailed then 1 else 0
  {
    PlanIsValid(c, p, file);
    hide Outcome, PlanOf;
  }

  /** Any call fails in its loop exactly when it lacks room. */
  lemma CallFailsIff(c: Context, p: Params, file: Option<SessionFile>)
    requires Accepted(c, p, file)
    ensures EndOf(c, p, file).why == DecodeFailed <==> LacksRoom(c, p, file)
    ensures Call(c, p, file).reply.code == if LacksRoom(c, p, file) then 1 else 0
  {
    hide EndOf, StartTo, Gen, FailsFrom, PlanOf;
    StartIs(c, p, file);
    KeepInRange(c, p, file);
    CodeOfCall(c, p, file);
    if StartTo(c, p, file).From? { GenFailsIff(c, p, PlanOf(c, p, file), StartTo(c, p, file).st); }
  }

  /** Any call that may write its session file reaches its final save exactly unless it loses the file. */
  lemma CallSavesIff(c: Context, p: Params, file: Option<SessionFile>)
    requires Accepted(c, p, file) && Recording(p)
    ensures SavesAtEnd(c, p, file) <==> !LosesFile(c, p, file)
  {
    hide EndOf, StartTo, Gen, Overruns, PlanOf;
    StartIs(c, p, file);
    if StartTo(c, p, file).From? { GenOverrunsIff(c, p, PlanOf(c, p, file), StartTo(c, p, file).st); }
  }

  /**
   A call that decodes nothing twice, and is not clamped, fails exactly when n_keep
   leaves no token to spare, context shift is on, and one token more than there are
   places left is decoded with a sample to follow.
   */
  lemma PlainCallFailsIff(c: Context, p: Params, file: Option<SessionFile>)
    requires Accepted(c, p, file) && !Redoes(c, p, file) && !Clamps(c, p, file)
    ensures var plan := PlanOf(c, p, file);
      var g, taken := c.nCtx - 1 - |plan.input|, |plan.input| - plan.cached;
      && |plan.input| > 0
      && (Call(c, p, file).reply.code == 1 <==>
          && plan.keep >= c.nCtx - 1 && p.ctxShift && p.nPredict != -2
          && (p.nPredict < 0 || p.nPredict > g + 2)
          && (p.maxTokens > 0 ==> taken + g + 1 < p.maxTokens)
          && !c.isEog(plan.input[|plan.input| - 1]) && NoEarlyEog(c, Toks(PrefillOf(c, p, file).mem), g + 2))
  {
    hide PlanOf, PrefillOf, Redoes, StartTo, Call, UnspentAhead, NoEarlyEog;
    PrefillFields(c, p, file);
    PlainStarts(c, p, file);
    CallFailsIff(c, p, file);
    KeepInRange(c, p, file);
    var s, plan := PrefillOf(c, p, file), PlanOf(c, p, file);
    UnspentIsStream(c, p, plan.keep, s, c.nCtx - s.nPast);
  }

  lemma RedoFields(c: Context, p: Params, file: Option<SessionFile>)
    requires Accepted(c, p, file) && Redoes(c, p, file)
    ensures var plan := PlanOf(c, p, file);
      !Clamps(c, p, file) && plan.cached == |plan.input| == Consumed(p, plan) && |plan.input| < c.nCtx - 1
  {
    PlanIsValid(c, p, file);
  }

  /**
   A call that decodes its last prompt token twice fails exactly when context shift
   is on and nothing stops it before it has decoded one token for each free cell,
   and one for each cell that its first two shifts, and then a third, can drop.
   */
  lemma RedoCallFailsIff(c: Context, p: Params, file: Option<SessionFile>)
    requires Accepted(c, p, file) && Redoes(c, p, file)
    ensures var plan, s := PlanOf(c, p, file), PrefillOf(c, p, file);
      var k := c.nCtx - 1 - |plan.input| + if plan.keep <= c.nCtx - 3 then c.nCtx - 1 - plan.keep else 0;
      && |plan.input| > 0 && k > 0
      && (Call(c, p, file).reply.code == 1 <==>
          && p.ctxShift && p.nPredict != -2 && (p.nPredict < 0 || p.nPredict > k + 1)
          && UnspentAhead(c, p, plan.keep, s, k))
  {
    RedoFields(c, p, file);
    hide PlanOf, PrefillOf, StartTo, Call, Ahead, Redoes;
    PrefillFields(c, p, file);
    PlainStarts(c, p, file);
    CallFailsIff(c, p, file);
  }

  lemma UncutMet(c: Context, p: Params, st: St, n: nat)
    requires Lagging(c, p, st, n) && |st.session| == |st.mem| && !LagCuts(c, st, n) && !EndsInLag(c, st, n)
    ensures Met(c, st, n).nPast == |st.mem| || Met(c, st, n).nRemain == 1
  {
    LiveRemains(c, p, st);
  }

  lemma UncutClampedStart(c: Context, p: Params, plan: Plan, file: Option<SessionFile>)
    requires c.Valid() && plan.Valid(c) && p.Bounded(c) && Clamped(c, plan) && !ClampedCuts(c, p, plan, file)
    requires |plan.base| == |plan.input|
    ensures var start := ClampedStart(c, p, plan, file);
      !start.Lacks? && (start.From? ==> |start.st.mem| == start.st.nPast || start.st.nRemain == 1)
  {
    hide LateHeld, LateChunk, LagCuts, EndsInLag, ClampedSt, Lagging, LivePending;
    var j := LateHeld(c, plan);
    ClampedStarts(c, p, plan, file, j);
    ClampedSizes(c, p, plan, file, j);
    var s, n := ClampedSt(c, p, plan, file, j), c.nCtx - 4 + j;
    if !EndsInLag(c, s, n) { UncutMet(c, p, s, n); }
  }

  /**
   A call that cuts no session starts to generate with every cell counted in n_past,
   or with one sample to go, or with one cell from a token decoded twice.
   */
  lemma UncutStart(c: Context, p: Params, file: Option<SessionFile>)
    requires Accepted(c, p, file) && !Cuts(c, p, file)
    ensures var start := StartTo(c, p, file);
      && !start.Lacks?
      && (start.From? ==>
          || |start.st.mem| == start.st.nPast || start.st.nRemain == 1
          || (Redoes(c, p, file) && |start.st.mem| == start.st.nPast + 1))
  {
    if Clamps(c, p, file) {
      ClampsFacts(c, p, file);
      PlanIsValid(c, p, file);
      hide ClampedStart, ClampedCuts;
      UncutClampedStart(c, p, PlanOf(c, p, file), file);
    } else {
      PrefillFields(c, p, file);
      PlainStarts(c, p, file);
    }
  }

  /** A call whose n_keep leaves a token to spare, that decodes no token twice and cuts no session, never fails. */
  lemma CallHasRoom(c: Context, p: Params, file: Option<SessionFile>)
    requires Accepted(c, p, file) && Spare(c, PlanOf(c, p, file))
    requires !Redoes(c, p, file) && !Cuts(c, p, file)
    ensures EndOf(c, p, file).why != DecodeFailed && Call(c, p, file).reply.code == 0
  {
    hide EndOf, StartTo, Call, PlanOf, Redoes, Cuts, UnspentAhead, Accepted;
    UncutStart(c, p, file);
    StartIs(c, p, file);
    CallFailsIff(c, p, file);
  }

  /** Then, if it is not clamped, its memory ends in order and within the context. */
  lemma CallEndsInOrder(c: Context, p: Params, file: Option<SessionFile>)
    requires Accepted(c, p, file) && Spare(c, PlanOf(c, p, file))
    requires !Redoes(c, p, file) && !Clamps(c, p, file)
    ensures var st := EndOf(c, p, file).st;
      InOrder(st) && st.nPast <= c.nCtx && (Roomy(c, PlanOf(c, p, file)) ==> InRoom(c, st))
  {
    hide Gen, EndOf, PrefillOf, PlanOf, Redoes, Clamps;
    PrefillFields(c, p, file);
    PlainEnd(c, p, file);
    var s := PrefillOf(c, p, file);
    if !(s.nEval > 0 && OutOfBudget(p, s)) { GenHasRoom(c, p, PlanOf(c, p, file), s); }
  }

  /** Without context shift, every call that cuts no session reaches its final save. */
  lemma CallReachesSave(c: Context, p: Params, file: Option<SessionFile>)
    requires Accepted(c, p, file) && Recording(p) && (!p.ctxShift || p.nPredict == -2) && !Cuts(c, p, file)
    ensures SavesAtEnd(c, p, file)
  {
    hide EndOf, StartTo, Call, PlanOf, Redoes, Cuts, Unspent, SavesAtEnd;
    UncutStart(c, p, file);
    StartIs(c, p, file);
    CallSavesIff(c, p, file);
  }

  /** A client's call leaves the stream exactly when it cuts the session and reaches its final save. */
  lemma StaysOnStreamIff(c: Context, prompt: seq<Token>, p: Params, file: Option<SessionFile>)
    requires prompt != [] && OnStream(c, prompt, file) && Follows(c, prompt, p, file)
    ensures OnStream(c, prompt, Call(c, p, file).file) <==>
      !(Rejected(c, p, file).None? && Cuts(c, p, file) && !LosesFile(c, p, file))
  {
    hide Call, SavesAtEnd, Cuts, LosesFile, OnStream;
    CallStaysOnStream(c, prompt, p, file);
    if Rejected(c, p, file).None? { CallSavesIff(c, p, file); }
  }

  // ------------------------------------------------------------ two calls that fail

  /** A context of eight places, a batch of four, a model that always samples 99. */
  function SmallContext(): Context { Context(8, 4, false, 0, _ => 99, _ => false) }

  function FileOf(ts: seq<Token>): Option<SessionFile> {
    Some(SessionFile(ts, CellsFrom(0, ts)))
  }

  /** A prompt that the session goes beyond, context shift, twenty samples. */
  function RedecodeArgs(): Params { Params(false, [1], 0, 20, 0, true, true, false) }

  lemma RedecodePlan()
    ensures var c, p, file := SmallContext(), RedecodeArgs(), FileOf([1, 2]);
      && Accepted(c, p, file) && Redoes(c, p, file)
      && PlanOf(c, p, file).input == [1] && PlanOf(c, p, file).keep == 0
  {
    hide SeqRm;
    assert [1, 2][..1] == [1];
    LcpOfPrefix([1], [1, 2]);
  }

  /**
   A call that decodes its prompt token twice, with context shift on: after six
   places and seven dropped cells there is no cell for the fourteenth sample.
   */
  lemma RedecodeFailsExample()
    ensures var c, p, file := SmallContext(), RedecodeArgs(), FileOf([1, 2]);
      && Accepted(c, p, file) && Agrees(file.value) && Redoes(c, p, file) && !Cuts(c, p, file)
      && Roomy(c, PlanOf(c, p, file)) && Call(c, p, file).reply.code == 1
  {
    hide Call, Ahead, PrefillOf, PlanOf, Accepted, Redoes;
    RedecodePlan();
    var c, p, file := SmallContext(), RedecodeArgs(), FileOf([1, 2]);
    RedoFields(c, p, file);
    PrefillFields(c, p, file);
    RedoCallFailsIff(c, p, file);
  }

  /** Resume, keep everything, shift when the context is full, stop after ten samples. */
  function KeepAllArgs(): Params { Params(true, [], 0, 10, -1, true, true, false) }

  lemma KeepAllAccepted()
    ensures Accepted(SmallContext(), KeepAllArgs(), ClampFile())
  {
  }

  lemma KeepAllPlan()
    ensures var plan := PlanOf(SmallContext(), KeepAllArgs(), ClampFile());
      && |plan.input| == plan.cached == 7 == plan.keep && !Clamped(SmallContext(), plan)
      && !Redoes(SmallContext(), KeepAllArgs(), ClampFile())
  {
    hide SeqRm, CellsFrom;
    LcpOfPrefix(ClampFile().value.tokens, ClampFile().value.tokens);
  }

  /** A resumed call that keeps all of its seven tokens: there is no cell for the second sample. */
  lemma KeepAllFailsExample()
    ensures var c, p, file := SmallContext(), KeepAllArgs(), ClampFile();
      && Accepted(c, p, file) && Agrees(file.value) && !Redoes(c, p, file) && !Clamps(c, p, file)
      && Call(c, p, file).reply.code == 1
  {
    hide Call, PrefillOf, PlanOf, Accepted, Redoes;
    KeepAllAccepted();
    KeepAllPlan();
    PlainCallFailsIff(SmallContext(), KeepAllArgs(), ClampFile());
  }
}
