/**
 Generation one sample at a time, and where it would go if nothing stopped it:
 the conditions under which budget, n_predict and end-of-generation tokens let
 it get as far as its k-th decode, said of its start alone.
 */
module EngineAhead {
  import opened KvMemory
  import opened EngineSpec
  import opened EngineStream

  /** What a context shift works on. */
  datatype Window = Window(mem: Memory, nPast: int)

  function WindowOf(st: St): Window { Window(st.mem, st.nPast) }

  predicate Full(c: Context, w: Window) { w.nPast + 1 >= c.nCtx }

  /** The window after a shift that keeps its first keep tokens. */
  function Shifted(keep: int, w: Window): Window {
    var d := HalfTowardZero(w.nPast - keep);
    Window(SeqAdd(SeqRm(w.mem, keep, keep + d), keep + d, w.nPast, -d), w.nPast - d)
  }

  /** One more sample decoded, after a shift if the context is full. */
  function Onward(c: Context, keep: int, w: Window): Window {
    var v := if Full(c, w) then Shifted(keep, w) else w;
    Window(KvMemory.Decode(v.mem, [c.next(Toks(w.mem))]), v.nPast + 1)
  }

  /** The window after n more samples, if nothing stops the generation. */
  function Ahead(c: Context, keep: int, w: Window, n: nat): Window
    decreases n
  {
    if n == 0 then w else Ahead(c, keep, Onward(c, keep, w), n - 1)
  }

  /** The state after the next sample has been decoded. */
  function NextSt(c: Context, p: Params, plan: Plan, st: St): St {
    var s := Sample(c, p, st);
    DecodeIds(if s.nPast + 1 >= c.nCtx then Shift(plan, s) else s, [c.next(Toks(st.mem))])
  }

  lemma NextIs(c: Context, p: Params, plan: Plan, st: St)
    ensures var s2 := NextSt(c, p, plan, st);
      && WindowOf(s2) == Onward(c, plan.keep, WindowOf(st))
      && s2.nEval == st.nEval + 1 && s2.nRemain == st.nRemain - 1
      && s2.eog == (st.eog || c.isEog(c.next(Toks(st.mem))))
      && s2.path == (st.path && !Full(c, WindowOf(st)))
  {
    hide SeqRm, SeqAdd, KvMemory.Decode, HalfTowardZero;
  }

  lemma LiveRemains(c: Context, p: Params, st: St)
    requires Live(c, p, st)
    ensures st.nRemain != 0 && (p.maxTokens > 0 ==> st.nEval < p.maxTokens)
  {
  }

  lemma ShiftedIs(c: Context, p: Params, plan: Plan, st: St)
    ensures var s1 := Shift(plan, Sample(c, p, st));
      && s1.mem == Shifted(plan.keep, WindowOf(st)).mem && !s1.path
      && s1.nRemain == st.nRemain - 1 && s1.nPast == Shifted(plan.keep, WindowOf(st)).nPast
  {
    hide SeqRm, SeqAdd, HalfTowardZero;
  }

  lemma SampleLeaves(c: Context, p: Params, st: St)
    ensures var s := Sample(c, p, st);
      s.mem == st.mem && s.path == st.path && s.nPast == st.nPast && s.nRemain == st.nRemain - 1
  {
  }

  /** One step of a generation: the ways to stop, in their order, or the next state. */
  lemma GenStep(c: Context, p: Params, plan: Plan, st: St)
    requires Live(c, p, st)
    ensures var e, s2, full := Gen(c, p, plan, st), NextSt(c, p, plan, st), Full(c, WindowOf(st));
      && st.nRemain != 0
      && if st.nRemain == 1 then e.why == NoRemain && e.st.path == st.path && e.st.mem == st.mem
      else if full && p.StopsWhenFull() then e.why == ContextFull && e.st.path == st.path && e.st.mem == st.mem
      else if |s2.mem| > c.nCtx then
        && e.why == DecodeFailed && e.st.path == s2.path
        && e.st.mem == if full then Shifted(plan.keep, WindowOf(st)).mem else st.mem
      else if OutOfBudget(p, s2) then e == End(s2, Broke)
      else Live(c, p, s2) && 0 <= Fuel(c, p, s2) < Fuel(c, p, st) && e == Gen(c, p, plan, s2)
  {
    hide Gen, Shift, Shifted, NextPos, Fuel, SaveEarly, Live;
    GenOnce(c, p, plan, st);
    LiveRemains(c, p, st);
    ShiftedIs(c, p, plan, st);
    SampleLeaves(c, p, st);
  }

  /** No token but the last of the next n on the stream ends a generation. */
  ghost predicate NoEarlyEog(c: Context, ts: seq<Token>, n: nat) {
    forall k: nat :: k + 1 < n ==> !c.isEog(c.next(Stream(c.next, ts, k)))
  }

  /** Neither the budget nor an end-of-generation token stops a generation at one of its next k decodes. */
  ghost predicate Unspent(c: Context, p: Params, st: St, k: int) {
    && (p.maxTokens > 0 ==> st.nEval + k < p.maxTokens)
    && (k > 0 ==> !st.eog && NoEarlyEog(c, Toks(st.mem), k + 1))
  }

  /** The same over context shifts, where the tokens are those of the windows ahead. */
  ghost predicate UnspentAhead(c: Context, p: Params, keep: int, st: St, k: int) {
    && (p.maxTokens > 0 ==> st.nEval + k < p.maxTokens)
    && (k > 0 ==> !st.eog)
    && forall j: nat :: j < k ==> !c.isEog(c.next(Toks(Ahead(c, keep, WindowOf(st), j).mem)))
  }

  /** n_predict leaves more than k + 1 samples. */
  predicate Outlasts(st: St, k: int) { st.nRemain < 0 || st.nRemain > k + 1 }

  /** One decode later there is one less to get through. */
  lemma UnspentNext(c: Context, p: Params, plan: Plan, st: St, k: int)
    requires Live(c, p, st) && k > 0 && st.nRemain != 1 && !OutOfBudget(p, NextSt(c, p, plan, st))
    ensures var s2 := NextSt(c, p, plan, st);
      && (UnspentAhead(c, p, plan.keep, st, k) <==> UnspentAhead(c, p, plan.keep, s2, k - 1))
      && (Outlasts(st, k) <==> Outlasts(s2, k - 1))
  {
    hide Onward, NextSt, Sample, Live;
    LiveRemains(c, p, st);
    NextIs(c, p, plan, st);
    var s2, w := NextSt(c, p, plan, st), WindowOf(st);
    assert Ahead(c, plan.keep, w, 0) == w;
    if UnspentAhead(c, p, plan.keep, st, k) {
      forall j: nat | j < k - 1 ensures !c.isEog(c.next(Toks(Ahead(c, plan.keep, WindowOf(s2), j).mem))) {
        assert Ahead(c, plan.keep, w, j + 1) == Ahead(c, plan.keep, WindowOf(s2), j);
      }
    }
    if UnspentAhead(c, p, plan.keep, s2, k - 1) {
      forall j: nat | j < k ensures !c.isEog(c.next(Toks(Ahead(c, plan.keep, w, j).mem))) {
        if j > 0 { assert Ahead(c, plan.keep, w, j) == Ahead(c, plan.keep, WindowOf(s2), j - 1); }
      }
    }
  }

  /** A decode that spends the budget or an end-of-generation token is one of the next k. */
  lemma SpentNow(c: Context, p: Params, plan: Plan, st: St, k: int)
    requires k > 0 && OutOfBudget(p, NextSt(c, p, plan, st))
    ensures !UnspentAhead(c, p, plan.keep, st, k)
  {
    NextIs(c, p, plan, st);
    assert Ahead(c, plan.keep, WindowOf(st), 0) == WindowOf(st);
  }

  /** Until the context is full, the windows ahead hold the stream. */
  lemma {:induction false} AheadIsStream(c: Context, keep: int, w: Window, n: nat)
    requires Contiguous(w.mem) && w.nPast + n < c.nCtx
    ensures Toks(Ahead(c, keep, w, n).mem) == Stream(c.next, Toks(w.mem), n)
    decreases n
  {
    if n > 0 {
      var v := Onward(c, keep, w);
      DecodeHolds(w.mem, [c.next(Toks(w.mem))]);
      assert Toks(v.mem) == Stream(c.next, Toks(w.mem), 1);
      AheadIsStream(c, keep, v, n - 1);
      StreamInTwo(c.next, Toks(w.mem), 1, n - 1);
    }
  }

  /** Up to the first token that needs a shift, the windows ahead are said by the stream. */
  lemma UnspentIsStream(c: Context, p: Params, keep: int, st: St, k: int)
    requires Contiguous(st.mem) && st.nPast + k <= c.nCtx
    ensures UnspentAhead(c, p, keep, st, k) <==> Unspent(c, p, st, k)
  {
    forall j: nat | j < k
      ensures Toks(Ahead(c, keep, WindowOf(st), j).mem) == Stream(c.next, Toks(st.mem), j)
    {
      AheadIsStream(c, keep, WindowOf(st), j);
    }
  }
}
