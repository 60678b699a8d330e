/**
 Token accounting: how the counts and the flag on the wire relate to what a call
 sampled and decoded.
 */
module EngineCounts {
  import opened Wrappers
  import opened KvMemory
  import opened EngineLag
  import opened EngineSpec
  import opened EngineStream
  import opened EngineTheorems

  function AnyEog(c: Context, ids: seq<Token>): bool {
    exists i :: 0 <= i < |ids| && c.isEog(ids[i])
  }

  lemma ShiftLeaves(plan: Plan, s: St)
    ensures var t := Shift(plan, s);
      t.sampled == s.sampled && t.nEval == s.nEval && t.nRemain == s.nRemain && t.eog == s.eog
  {
  }

  lemma AnyEogCons(c: Context, id: Token, ids: seq<Token>)
    ensures AnyEog(c, [id] + ids) <==> c.isEog(id) || AnyEog(c, ids)
  {
    var all := [id] + ids;
    assert all[0] == id;
    assert forall i :: 0 <= i < |ids| ==> ids[i] == all[i + 1];
  }

  lemma NoEog(c: Context)
    ensures !AnyEog(c, [])
  {
  }

  /** What happens to counts and flag between two states of a call; again counts decodes that no sample explains. */
  ghost predicate Counted(c: Context, st: St, e: End, again: int) {
    && st.sampled <= e.st.sampled && e.st.nEval >= st.nEval
    && e.st.nEval - st.nEval == |e.st.sampled| - |st.sampled| - (if e.why == Broke then 0 else 1) + again
    && (e.st.eog <==> st.eog || AnyEog(c, e.st.sampled[|st.sampled|..]))
  }

  /** One sample that is passed over, decoded, or left dangling, then what follows it. */
  lemma CountedSample(c: Context, st: St, s: St, id: Token, e: End, again: int)
    requires s.sampled == st.sampled + [id] && s.eog == (st.eog || c.isEog(id))
    requires s.nEval - st.nEval in {0, 1} && Counted(c, s, e, again)
    ensures Counted(c, st, e, again - 1 + (s.nEval - st.nEval))
  {
    hide AnyEog;
    AnyEogCons(c, id, e.st.sampled[|s.sampled|..]);
    assert e.st.sampled[|st.sampled|..] == [id] + e.st.sampled[|s.sampled|..];
  }

  /** A state in which the call ends. */
  lemma CountedEnd(c: Context, st: St, why: Why)
    ensures why == Broke ==> Counted(c, st, End(st, why), 0)
    ensures why != Broke ==> Counted(c, st, End(st, why), 1)
  {
    assert st.sampled[|st.sampled|..] == [];
    NoEog(c);
  }

  lemma SampleSets(c: Context, p: Params, st: St)
    ensures var s, id := Sample(c, p, st), c.next(Toks(st.mem));
      && s.sampled == st.sampled + [id] && s.eog == (st.eog || c.isEog(id)) && s.nEval == st.nEval
      && s.nPast == st.nPast && s.mem == st.mem && s.session == st.session
  {
  }

  /**
   Every sampled token is decoded, except one when the loop ends before it gets
   there, and sampled tokens raise the flag.
   */
  lemma {:induction false} GenIsCounted(c: Context, p: Params, plan: Plan, st: St)
    requires Live(c, p, st)
    ensures Counted(c, st, Gen(c, p, plan, st), 0)
    decreases Fuel(c, p, st)
  {
    hide Gen, Live, Counted, AnyEog, Shift, SaveEarly;
    GenOnce(c, p, plan, st);
    var s := Sample(c, p, st);
    var id := c.next(Toks(st.mem));
    var e := Gen(c, p, plan, st);
    var full := s.nPast + 1 >= c.nCtx;
    SampleSets(c, p, st);
    ShiftLeaves(plan, s);
    var s1 := if full then Shift(plan, s) else s;
    if s.nRemain == 0 || (full && p.StopsWhenFull()) {
      CountedEnd(c, s, e.why);
      CountedSample(c, st, s, id, e, 1);
    } else if |s1.mem| + 1 > c.nCtx {
      CountedEnd(c, s1, DecodeFailed);
      CountedSample(c, st, s1, id, e, 1);
    } else {
      var s2 := DecodeIds(s1, [id]);
      if OutOfBudget(p, s2) { CountedEnd(c, s2, Broke); } else { GenIsCounted(c, p, plan, s2); }
      CountedSample(c, st, s2, id, e, 0);
    }
  }

  lemma CutIsCounted(c: Context, p: Params, plan: Plan, cut: St, ids: seq<Token>)
    requires LivePending(c, p, cut) && cut.nRemain != 0 && ids != []
    requires p.Unlimited() && p.nPredict < 0 ==> cut.nPast + |ids| < c.nCtx
    ensures var e, part := AfterCut(c, p, plan, cut, ids), Within(p, ids);
      && (|cut.mem| + |part| > c.nCtx ==> e == End(cut, DecodeFailed))
      && (|cut.mem| + |part| <= c.nCtx ==> Counted(c, cut, e, |part|))
  {
    var part := Within(p, ids);
    var d := DecodeIds(cut, part);
    if |cut.mem| + |part| <= c.nCtx {
      if OutOfBudget(p, d) { CountedEnd(c, d, Broke); } else { GenIsCounted(c, p, plan, d); }
      hide AnyEog, Gen;
    }
  }

  lemma CutIsCountedToo(c: Context, p: Params, plan: Plan, st: St, cut: St)
    requires LivePending(c, p, cut) && cut.nRemain != 0 && |cut.mem| < c.nCtx
    requires p.Unlimited() && p.nPredict < 0 ==> cut.nPast + 1 < c.nCtx
    requires var id := c.next(Toks(st.mem)); cut.sampled == st.sampled + [id] && cut.eog == (st.eog || c.isEog(id))
    requires cut.nEval == st.nEval
    ensures Counted(c, st, AfterCut(c, p, plan, cut, [c.next(Toks(st.mem))]), 0)
  {
    hide AnyEog, Counted, AfterCut, LivePending;
    var id := c.next(Toks(st.mem));
    assert Within(p, [id]) == [id];
    CutIsCounted(c, p, plan, cut, [id]);
    CountedSample(c, st, cut, id, AfterCut(c, p, plan, cut, [id]), 1);
  }

  lemma NoneLeft(c: Context, st: St, n: nat)
    requires n == |st.session|
    ensures HeldSamples(c, st, n) == 0
  {
  }

  /** A lag counts like any generation, but for the samples it passes over. */
  lemma {:induction false} LagIsCounted(c: Context, p: Params, plan: Plan, st: St, n: nat)
    requires Lagging(c, p, st, n) && |st.mem| == |st.session|
    ensures Counted(c, st, Lag(c, p, plan, st, n), 0 - HeldSamples(c, st, n))
    decreases |st.session| - n, 0
  {
    LagOnce(c, p, plan, st, n);
    var s := Sample(c, p, st);
    var id := c.next(Toks(st.mem));
    var h := s.(nPast := n + 1);
    if st.session[n] == id { OneHeld(c, st, h, n); } else { NoneHeld(c, st, n); }
    hide Gen, AfterCut, AnyEog, Counted, HeldSamples, Lag, LagCuts, RepeatsAt, Live, Lagging, LivePending;
    if s.nRemain == 0 {
      CountedEnd(c, s, NoRemain);
      CountedSample(c, st, s, id, End(s, NoRemain), 1);
    } else if st.session[n] == id {
      HeldIsCounted(c, p, plan, st, h, n);
    } else {
      CutIsCountedToo(c, p, plan, st, s.(session := s.session[..n]));
    }
  }

  lemma {:induction false} HeldIsCounted(c: Context, p: Params, plan: Plan, st: St, h: St, n: nat)
    requires |h.mem| == |h.session| && h.session == st.session && n < |st.session|
    requires var id := c.next(Toks(st.mem)); h.sampled == st.sampled + [id] && h.eog == (st.eog || c.isEog(id))
    requires h.nEval == st.nEval
    ensures n + 1 < |h.session| && Lagging(c, p, h, n + 1) ==>
      Counted(c, st, Lag(c, p, plan, h, n + 1), 0 - 1 - HeldSamples(c, h, n + 1))
    ensures n + 1 == |h.session| && Live(c, p, h) ==>
      Counted(c, st, Gen(c, p, plan, h), 0 - 1 - HeldSamples(c, h, n + 1))
    decreases |st.session| - n - 1, 1
  {
    hide Gen, AnyEog, Counted, HeldSamples, Lag;
    var id := c.next(Toks(st.mem));
    if n + 1 < |h.session| && Lagging(c, p, h, n + 1) {
      LagIsCounted(c, p, plan, h, n + 1);
      CountedSample(c, st, h, id, Lag(c, p, plan, h, n + 1), 0 - HeldSamples(c, h, n + 1));
    } else if n + 1 == |h.session| && Live(c, p, h) {
      GenIsCounted(c, p, plan, h);
      NoneLeft(c, h, n + 1);
      CountedSample(c, st, h, id, Gen(c, p, plan, h), 0);
    }
  }

  /** In a clamped call: the late tokens decoded again, or the samples passed over. */
  function ClampedAgain(c: Context, p: Params, plan: Plan, file: Option<SessionFile>): int
    requires c.Valid() && plan.Valid(c) && Clamped(c, plan)
  {
    var j := LateHeld(c, plan);
    if j < |LateChunk(c, plan)| then |Within(p, LateChunk(c, plan)[j..])|
    else 0 - HeldSamples(c, ClampedSt(c, p, plan, file, j), c.nCtx - 4 + j)
  }

  lemma ClampedEog(c: Context, p: Params, plan: Plan, file: Option<SessionFile>, j: nat)
    requires plan.Valid(c)
    ensures ClampedSt(c, p, plan, file, j).eog == c.isEog(plan.input[|plan.input| - 1])
  {
  }

  lemma SameStart(c: Context, a: St, b: St, e: End, again: int)
    requires a.sampled == b.sampled && a.nEval == b.nEval && a.eog == b.eog && Counted(c, b, e, again)
    ensures Counted(c, a, e, again)
  {
  }

  lemma ClampedCounts(c: Context, p: Params, plan: Plan, file: Option<SessionFile>, st: St)
    requires c.Valid() && plan.Valid(c) && p.Bounded(c) && Clamped(c, plan)
    requires |plan.base| == |plan.input| && ClampedOutcome(c, p, plan, file).why != DecodeFailed
    requires st.sampled == [] && st.nEval == 0 && st.eog == c.isEog(plan.input[|plan.input| - 1])
    ensures Counted(c, st, ClampedOutcome(c, p, plan, file), ClampedAgain(c, p, plan, file))
  {
    hide Lag, AfterCut, HeldSamples, LateHeld, LateChunk, Counted, ClampedSt, Lagging, LivePending, Plan.Valid, Clamped;
    var j := LateHeld(c, plan);
    ClampedStarts(c, p, plan, file, j);
    ClampedSizes(c, p, plan, file, j);
    ClampedEog(c, p, plan, file, j);
    var s := ClampedSt(c, p, plan, file, j);
    var e, again := ClampedOutcome(c, p, plan, file), ClampedAgain(c, p, plan, file);
    if j == |LateChunk(c, plan)| {
      LagIsCounted(c, p, plan, s, c.nCtx - 4 + j);
      SameStart(c, st, s, e, again);
    } else {
      var cut := s.(session := plan.session[..c.nCtx - 4 + j]);
      CutIsLive(c, p, s, cut);
      CutIsCounted(c, p, plan, cut, LateChunk(c, plan)[j..]);
      SameStart(c, st, cut, e, again);
    }
  }

  /** Tokens decoded without having been sampled, less samples passed over without being decoded. */
  function Again(c: Context, p: Params, file: Option<SessionFile>): int
    requires Accepted(c, p, file)
  {
    PlanIsValid(c, p, file);
    if Redoes(c, p, file) then 1
    else if Clamps(c, p, file) then ClampedAgain(c, p, PlanOf(c, p, file), file)
    else 0
  }

  lemma PrefillStarts(c: Context, p: Params, file: Option<SessionFile>)
    requires Accepted(c, p, file) && Clamps(c, p, file)
    ensures var s, plan := PrefillOf(c, p, file), PlanOf(c, p, file);
      plan.input != [] && s.sampled == [] && s.eog == c.isEog(plan.input[|plan.input| - 1])
  {
    PlanIsValid(c, p, file);
  }

  lemma ClampedIsCounted(c: Context, p: Params, file: Option<SessionFile>)
    requires Accepted(c, p, file) && Clamps(c, p, file) && EndOf(c, p, file).why != DecodeFailed
    ensures Counted(c, PrefillOf(c, p, file), EndOf(c, p, file), Again(c, p, file))
  {
    hide ClampedAgain, ClampedOutcome, PlanOf, Counted, Faithful, Redoes, Plan.Valid;
    ClampsFacts(c, p, file);
    PlanIsValid(c, p, file);
    PrefillStarts(c, p, file);
    ClampedCounts(c, p, PlanOf(c, p, file), file, PrefillOf(c, p, file));
  }

  lemma PlainIsCounted(c: Context, p: Params, file: Option<SessionFile>)
    requires Accepted(c, p, file) && !Clamps(c, p, file)
    ensures Counted(c, PrefillOf(c, p, file), EndOf(c, p, file), 0)
    ensures Consumed(p, PlanOf(c, p, file)) < |PlanOf(c, p, file).input| ==>
      EndOf(c, p, file) == End(PrefillOf(c, p, file), Broke)
  {
    PlanIsValid(c, p, file);
    var s := PrefillOf(c, p, file);
    hide Counted;
    if !(s.nEval > 0 && OutOfBudget(p, s)) {
      GenIsCounted(c, p, PlanOf(c, p, file), s);
    } else {
      CountedEnd(c, s, Broke);
    }
  }

  /** The counts of a reply reconcile, never underflow, and keep generation after ingestion. */
  ghost predicate Reconciles(p: Params, r: Reply, why: Why, again: int) {
    && r.nCached + r.nDecoded + r.nRemaining == r.nPrompt
    && 0 <= r.nCached && 0 <= r.nDecoded && 0 <= r.nRemaining && 0 <= r.nGenerated
    && (r.nRemaining > 0 ==> r.nGenerated == 0 && !r.eog && r.sampled == [])
    && (p.maxTokens > 0 ==> r.nDecoded + r.nGenerated <= p.maxTokens)
    && r.nGenerated == |r.sampled| - (if why == Broke then 0 else 1) + again
  }

  /** What a call that takes the prompt to n puts on the wire, from how its end is counted. */
  lemma CountedReconciles(c: Context, p: Params, plan: Plan, s: St, e: End, again: int, more: int)
    requires plan.cached <= |plan.input| && Counted(c, s, e, again) && s.sampled == [] && more >= 0
    requires s.nEval == Consumed(p, plan) - plan.cached + more && (p.maxTokens > 0 ==> e.st.nEval <= p.maxTokens)
    requires Consumed(p, plan) < |plan.input| ==> e == End(s, Broke) && !s.eog && again == more == 0
    ensures Reconciles(p, OkReply(p, plan, e), e.why, again + more)
  {
    hide AnyEog;
  }

  lemma PrefillFlag(c: Context, p: Params, plan: Plan, file: Option<SessionFile>)
    requires plan.Valid(c)
    ensures var s := Prefill(c, p, plan, file);
      && plan.cached <= |plan.input| && plan.input != [] && s.sampled == []
      && (s.eog <==> Consumed(p, plan) == |plan.input| && c.isEog(plan.input[|plan.input| - 1]))
  {
  }

  lemma StartFlag(c: Context, p: Params, file: Option<SessionFile>)
    requires Accepted(c, p, file)
    ensures var s, plan := PrefillOf(c, p, file), PlanOf(c, p, file);
      && plan.cached <= |plan.input| && plan.input != [] && s.sampled == []
      && (s.eog <==> Consumed(p, plan) == |plan.input| && c.isEog(plan.input[|plan.input| - 1]))
  {
    hide PlanOf, Prefill, Plan.Valid, Redecodes, Contiguous;
    PlanIsValid(c, p, file);
    PrefillFlag(c, p, PlanOf(c, p, file), file);
  }

  lemma StartEvals(c: Context, p: Params, file: Option<SessionFile>)
    requires Accepted(c, p, file)
    ensures var s, plan := PrefillOf(c, p, file), PlanOf(c, p, file);
      && plan.cached <= |plan.input|
      && s.nEval == Consumed(p, plan) - plan.cached + (if Redoes(c, p, file) then 1 else 0)
      && (Consumed(p, plan) < |plan.input| ==> !Redoes(c, p, file))
  {
    PlanIsValid(c, p, file);
  }

  lemma StartCounts(c: Context, p: Params, file: Option<SessionFile>)
    requires Accepted(c, p, file)
    ensures var s, plan := PrefillOf(c, p, file), PlanOf(c, p, file);
      && plan.cached <= |plan.input| && plan.input != [] && s.sampled == []
      && s.nEval == Consumed(p, plan) - plan.cached + (if Redoes(c, p, file) then 1 else 0)
      && (s.eog <==> Consumed(p, plan) == |plan.input| && c.isEog(plan.input[|plan.input| - 1]))
      && (Consumed(p, plan) < |plan.input| ==> !Redoes(c, p, file))
  {
    hide Accepted, PlanOf, PrefillOf, Redoes;
    StartFlag(c, p, file);
    StartEvals(c, p, file);
  }

  lemma EndReconciles(c: Context, p: Params, file: Option<SessionFile>)
    requires Accepted(c, p, file) && EndOf(c, p, file).why != DecodeFailed
    requires p.maxTokens > 0 ==> EndOf(c, p, file).st.nEval <= p.maxTokens
    ensures PlanOf(c, p, file).cached <= |PlanOf(c, p, file).input|
    ensures Reconciles(
      p, OkReply(p, PlanOf(c, p, file), EndOf(c, p, file)), EndOf(c, p, file).why, Again(c, p, file))
  {
    hide EndOf, PlanOf, PrefillOf, Accepted, Redoes, Clamps, Reconciles, Counted, ClampedAgain;
    StartCounts(c, p, file);
    var plan, s, e := PlanOf(c, p, file), PrefillOf(c, p, file), EndOf(c, p, file);
    if Clamps(c, p, file) {
      ClampsFacts(c, p, file);
      ClampedIsCounted(c, p, file);
      CountedReconciles(c, p, plan, s, e, Again(c, p, file), 0);
    } else {
      PlainIsCounted(c, p, file);
      CountedReconciles(c, p, plan, s, e, 0, if Redoes(c, p, file) then 1 else 0);
    }
  }

  /** The reply of a call, in terms of its final state. */
  lemma ReplyOfCall(c: Context, p: Params, file: Option<SessionFile>)
    requires Accepted(c, p, file)
    ensures var e, plan := EndOf(c, p, file), PlanOf(c, p, file);
      && plan.cached <= |plan.input|
      && Call(c, p, file).reply ==
         if e.why == DecodeFailed then ErrorReply(1, e.st.eog, e.st.sampled) else OkReply(p, plan, e)
  {
    PlanIsValid(c, p, file);
  }

  lemma RejectedHasCode(c: Context, p: Params, file: Option<SessionFile>)
    requires c.Valid() && p.Bounded(c) && Usable(c, file) && Rejected(c, p, file).Some?
    ensures Call(c, p, file).reply.code != 0
  {
  }

  lemma EndWithinBudget(c: Context, p: Params, file: Option<SessionFile>)
    requires Accepted(c, p, file) && p.maxTokens > 0
    ensures EndOf(c, p, file).st.nEval <= p.maxTokens
  {
    PlanIsValid(c, p, file);
    OutcomeWithinBudget(c, p, PlanOf(c, p, file), file);
  }

  /** Token accounting of every successful call. */
  lemma Accounting(c: Context, p: Params, file: Option<SessionFile>)
    requires c.Valid() && p.Bounded(c) && Usable(c, file)
    ensures var r := Call(c, p, file).reply;
      r.code == 0 ==> Accepted(c, p, file) && Reconciles(p, r, EndOf(c, p, file).why, Again(c, p, file))
  {
    hide Call, Rejected, EndOf, PlanOf, Again, Reconciles, Usable;
    if Rejected(c, p, file).None? {
      ReplyOfCall(c, p, file);
      if p.maxTokens > 0 { EndWithinBudget(c, p, file); }
      if EndOf(c, p, file).why != DecodeFailed { EndReconciles(c, p, file); }
    } else {
      RejectedHasCode(c, p, file);
    }
  }

  /**
   What the counts count: the input, the part of it the saved session agrees with, and
   what the budget leaves of the rest.
   */
  lemma CountsAre(c: Context, p: Params, file: Option<SessionFile>)
    requires Accepted(c, p, file) && Call(c, p, file).reply.code == 0
    ensures var r, input := Call(c, p, file).reply, PlanOf(c, p, file).input;
      var saved := if p.hasPath && file.Some? then file.value.tokens else [];
      && r.nPrompt == |input| && 0 <= r.nCached <= |input| && r.nCached <= |saved|
      && saved[..r.nCached] == input[..r.nCached]
      && (r.nCached < |input| && r.nCached < |saved| ==> saved[r.nCached] != input[r.nCached])
      && r.nRemaining == if p.maxTokens > 0 && |input| - r.nCached > p.maxTokens
                         then |input| - r.nCached - p.maxTokens else 0
  {
    ReplyOfCall(c, p, file);
    hide Call, EndOf, Accepted, SeqRm, EffectiveKeep;
  }

  /** The eog flag is raised by a sampled end-of-generation token, or by a prompt that ends with one. */
  lemma EogFlag(c: Context, p: Params, file: Option<SessionFile>)
    requires Accepted(c, p, file) && Call(c, p, file).reply.code == 0
    ensures var r, input := Call(c, p, file).reply, PlanOf(c, p, file).input;
      && input != []
      && (r.eog <==> AnyEog(c, r.sampled) || (r.nRemaining == 0 && c.isEog(input[|input| - 1])))
  {
    hide Call, EndOf, PlanOf, PrefillOf, Accepted, AnyEog, Again, Redoes, Clamps;
    ReplyOfCall(c, p, file);
    StartCounts(c, p, file);
    var all := EndOf(c, p, file).st.sampled;
    assert all[0..] == all;
    if Clamps(c, p, file) { ClampedIsCounted(c, p, file); } else { PlainIsCounted(c, p, file); }
  }
}
