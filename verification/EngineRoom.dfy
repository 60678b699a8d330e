/**
 Room in the context: what a context shift does to the memory, which generations
 go on past a full context, and which calls save at their first sample only.
 */
module EngineRoom {
  import opened Wrappers
  import opened KvMemory
  import opened EngineAhead
  import opened EngineSpec
  import opened EngineStream
  import opened EngineTheorems

  /** keep leaves at least two tokens to drop from a full context. */
  predicate Roomy(c: Context, plan: Plan) {
    0 <= plan.keep <= c.nCtx - 3
  }

  /** keep leaves at least one token to drop from a memory that holds every place. */
  predicate Spare(c: Context, plan: Plan) {
    0 <= plan.keep <= c.nCtx - 2
  }

  /**
   A shift of an ordered memory drops the tokens in [keep, keep + d), keeps the
   others in order, and renumbers them 0, 1, 2, ...
   */
  lemma ShiftKeepsOrder(plan: Plan, st: St)
    requires InOrder(st) && 0 <= plan.keep <= st.nPast
    ensures var d, s := Discard(plan, st.nPast), Shift(plan, st);
      && 0 <= d <= st.nPast - plan.keep && d == (st.nPast - plan.keep) / 2
      && InOrder(s) && s.nPast == st.nPast - d
      && Toks(s.mem) == Toks(st.mem)[..plan.keep] + Toks(st.mem)[plan.keep + d..]
  {
    CutAndClose(st.mem, plan.keep, Discard(plan, st.nPast));
  }

  /** In a context that has just become full, a shift frees a place exactly when keep is small enough. */
  lemma ShiftFreesRoom(c: Context, plan: Plan, st: St)
    requires InOrder(st) && st.nPast == c.nCtx - 1 && 0 <= plan.keep <= st.nPast
    ensures Shift(plan, st).nPast + 1 < c.nCtx <==> Discard(plan, st.nPast) >= 1
    ensures Shift(plan, st).nPast + 1 < c.nCtx <==> Roomy(c, plan)
  {
    ShiftKeepsOrder(plan, st);
  }

  ghost predicate InRoom(c: Context, st: St) {
    InOrder(st) && st.nPast < c.nCtx
  }

  /** The first n tokens of the memory are still there. */
  ghost predicate SameFirst(n: int, before: Memory, after: Memory) {
    0 <= n <= |before| ==> n <= |after| && Toks(after)[..n] == Toks(before)[..n]
  }

  lemma StepHasRoom(c: Context, plan: Plan, s: St, id: Token)
    requires InOrder(s) && s.nPast <= c.nCtx && Spare(c, plan)
    ensures var s1 := if s.nPast + 1 >= c.nCtx then Shift(plan, s) else s;
      var s2 := DecodeIds(s1, [id]);
      && |s1.mem| + 1 <= c.nCtx && InOrder(s2) && s2.nPast <= c.nCtx && SameFirst(plan.keep, s.mem, s2.mem)
      && (Roomy(c, plan) && s.nPast < c.nCtx ==> s2.nPast < c.nCtx)
  {
    var full := s.nPast + 1 >= c.nCtx;
    var s1 := if full then Shift(plan, s) else s;
    if full { ShiftKeepsOrder(plan, s); }
    DecodeHolds(s1.mem, [id]);
    if plan.keep <= |s.mem| {
      assert Toks(s1.mem)[..plan.keep] == Toks(s.mem)[..plan.keep];
      assert Toks(DecodeIds(s1, [id]).mem)[..plan.keep] == Toks(s1.mem)[..plan.keep];
    }
  }

  /** With a token to spare no decode ever lacks room, and the kept prefix survives every shift. */
  lemma {:induction false} GenHasRoom(c: Context, p: Params, plan: Plan, st: St)
    requires Live(c, p, st) && InOrder(st) && st.nPast <= c.nCtx && Spare(c, plan)
    ensures var e := Gen(c, p, plan, st);
      && e.why != DecodeFailed && InOrder(e.st) && e.st.nPast <= c.nCtx && SameFirst(plan.keep, st.mem, e.st.mem)
      && (Roomy(c, plan) && InRoom(c, st) ==> InRoom(c, e.st))
    decreases Fuel(c, p, st)
  {
    var s := Sample(c, p, st);
    var id := s.sampled[|s.sampled| - 1];
    var full := s.nPast + 1 >= c.nCtx;
    if s.nRemain != 0 && !(full && p.StopsWhenFull()) {
      hide Shift;
      StepHasRoom(c, plan, s, id);
      var s2 := DecodeIds(if full then Shift(plan, s) else s, [id]);
      if !OutOfBudget(p, s2) {
        GenHasRoom(c, p, plan, s2);
      }
    }
  }

  // ------------------------------------------------------------ past a full context

  /** The cells are in order, and there are at least as many as n_past says. */
  ghost predicate InCells(c: Context, st: St) {
    Contiguous(st.mem) && st.nPast <= |st.mem| <= c.nCtx && st.nPast < c.nCtx
  }

  /** How many more samples are decoded before the context is full, or there is no cell left. */
  function Places(c: Context, st: St): int {
    c.nCtx - if |st.mem| > st.nPast then |st.mem| else st.nPast + 1
  }

  /** Sampling goes on when there is no place left, and nothing stops it before. */
  ghost predicate Overruns(c: Context, p: Params, st: St) {
    var g := Places(c, st);
    && (|st.mem| <= st.nPast + 1 ==> p.ctxShift && p.nPredict != -2)
    && Outlasts(st, g) && Unspent(c, p, st, g)
  }

  /** A decode with a place to spare brings the last place one nearer. */
  lemma NextPlace(c: Context, p: Params, plan: Plan, st: St)
    requires InCells(c, st) && Places(c, st) > 0
    ensures var s2 := NextSt(c, p, plan, st);
      && InCells(c, s2) && Places(c, s2) == Places(c, st) - 1 && |s2.mem| - s2.nPast == |st.mem| - st.nPast
  {
    hide Sample;
    NextIs(c, p, plan, st);
    DecodeHolds(st.mem, [c.next(Toks(st.mem))]);
  }

  lemma OverrunsNext(c: Context, p: Params, plan: Plan, st: St)
    requires Live(c, p, st) && InCells(c, st) && Places(c, st) > 0
    ensures var s2 := NextSt(c, p, plan, st);
      if st.nRemain == 1 || OutOfBudget(p, s2) then !Overruns(c, p, st) else Overruns(c, p, st) <==> Overruns(c, p, s2)
  {
    hide NextSt, Unspent, UnspentAhead, Live;
    var s2, g := NextSt(c, p, plan, st), Places(c, st);
    NextPlace(c, p, plan, st);
    UnspentIsStream(c, p, plan.keep, st, g);
    if OutOfBudget(p, s2) {
      SpentNow(c, p, plan, st, g);
    } else if st.nRemain != 1 {
      UnspentNext(c, p, plan, st, g);
      UnspentIsStream(c, p, plan.keep, s2, g - 1);
    }
  }

  /** At the last place every generation that still has a token to decode overruns, unless it stops there. */
  lemma OverrunsNow(c: Context, p: Params, st: St)
    requires Live(c, p, st) && InCells(c, st) && Places(c, st) <= 0
    ensures Places(c, st) == 0
    ensures Overruns(c, p, st) <==>
      st.nRemain != 1 && (|st.mem| <= st.nPast + 1 ==> !p.StopsWhenFull())
  {
    LiveRemains(c, p, st);
  }

  /** A generation shifts its session path away, or lacks room for a token, exactly when it overruns its places. */
  lemma {:induction false} GenOverrunsIff(c: Context, p: Params, plan: Plan, st: St)
    requires Live(c, p, st) && InCells(c, st) && st.path
    ensures var e := Gen(c, p, plan, st);
      && (!e.st.path || e.why == DecodeFailed <==> Overruns(c, p, st))
      && (|st.mem| <= st.nPast + 1 && e.st.path ==> e.why != DecodeFailed)
    decreases Fuel(c, p, st)
  {
    hide Gen, Live, Overruns, NextSt, Fuel;
    GenStep(c, p, plan, st);
    NextIs(c, p, plan, st);
    var s2 := NextSt(c, p, plan, st);
    if Places(c, st) > 0 {
      NextPlace(c, p, plan, st);
      OverrunsNext(c, p, plan, st);
      if st.nRemain != 1 && !OutOfBudget(p, s2) { GenOverrunsIff(c, p, plan, s2); }
    } else {
      OverrunsNow(c, p, st);
      if Live(c, p, s2) && !s2.path { GenWithoutPath(c, p, plan, s2); }
    }
  }

  // ------------------------------------------------------------ saves at the first sample only

  /** The prompt brings new tokens, is taken whole, and generation goes on past a full context. */
  ghost predicate OutgrowsContext(c: Context, p: Params, file: Option<SessionFile>)
    requires Accepted(c, p, file)
  {
    PlanIsValid(c, p, file);
    var plan, s := PlanOf(c, p, file), PrefillOf(c, p, file);
    plan.cached < |plan.input| == Consumed(p, plan) && !OutOfBudget(p, s) && Overruns(c, p, s)
  }

  lemma NewPromptIsPlain(c: Context, p: Params, file: Option<SessionFile>)
    requires Accepted(c, p, file) && PlanOf(c, p, file).cached < |PlanOf(c, p, file).input|
    ensures !Redoes(c, p, file) && !Clamps(c, p, file) && PrefillOf(c, p, file).nEval > 0
  {
    PlanIsValid(c, p, file);
  }

  /** A prompt with new tokens is not what the session file holds. */
  lemma NewPromptIsNew(c: Context, p: Params, file: Option<SessionFile>)
    requires Accepted(c, p, file) && p.hasPath && PlanOf(c, p, file).cached < |PlanOf(c, p, file).input|
    ensures file.Some? ==> file.value.tokens != PlanOf(c, p, file).input
  {
    var s := LoadedSession(p, file);
    if file.Some? && s == PlanOf(c, p, file).input { LcpOfPrefix(s, s); }
  }

  lemma NothingToSave(c: Context, p: Params, file: Option<SessionFile>)
    requires Accepted(c, p, file) && PlanOf(c, p, file).cached >= |PlanOf(c, p, file).input|
    ensures !PrefillOf(c, p, file).needSave && PrefillOf(c, p, file).file == file
  {
    PlanIsValid(c, p, file);
  }

  lemma NothingNew(c: Context, p: Params, file: Option<SessionFile>)
    requires Accepted(c, p, file) && Recording(p) && PlanOf(c, p, file).cached >= |PlanOf(c, p, file).input|
    ensures SavesAtEnd(c, p, file) || Call(c, p, file).file == file
  {
    hide Accepted, Call, EndOf, PlanOf, Redoes, Grew;
    FileOfCall(c, p, file);
    if Clamps(c, p, file) {
      ClampsFacts(c, p, file);
      ClampedEnd(c, p, file);
    } else {
      EndFollowsStream(c, p, file);
      NothingToSave(c, p, file);
    }
  }

  /** The state after a prompt that brought new tokens. */
  lemma NewPromptStart(c: Context, p: Params, file: Option<SessionFile>)
    requires Accepted(c, p, file) && PlanOf(c, p, file).cached < |PlanOf(c, p, file).input|
    ensures var s, plan := PrefillOf(c, p, file), PlanOf(c, p, file);
      && InCells(c, s) && InOrder(s) && s.path == p.hasPath && s.nEval > 0 && s.needSave == p.hasPath
      && s.session == (if p.hasPath then plan.input[..Consumed(p, plan)] else [])
      && (Consumed(p, plan) < |plan.input| ==> OutOfBudget(p, s))
  {
    PlanIsValid(c, p, file);
    NewPromptIsPlain(c, p, file);
    PrefillShape(c, p, file);
  }

  lemma NewPromptSaves(c: Context, p: Params, file: Option<SessionFile>)
    requires Accepted(c, p, file) && Recording(p) && PlanOf(c, p, file).cached < |PlanOf(c, p, file).input|
    ensures (!SavesAtEnd(c, p, file) && Call(c, p, file).file != file) <==> OutgrowsContext(c, p, file)
  {
    hide Accepted, Call, EndOf, PrefillOf, PlanOf, Overruns, InCells, InOrder, Gen, Live, Redoes, Clamps;
    NewPromptIsPlain(c, p, file);
    NewPromptStart(c, p, file);
    NewPromptIsNew(c, p, file);
    PlainEnd(c, p, file);
    EndFollowsStream(c, p, file);
    FileOfCall(c, p, file);
    var s, plan := PrefillOf(c, p, file), PlanOf(c, p, file);
    assert plan.input[..|plan.input|] == plan.input;
    if !OutOfBudget(p, s) { GenOverrunsIff(c, p, plan, s); }
  }

  lemma NotOutgrown(c: Context, p: Params, file: Option<SessionFile>)
    requires Accepted(c, p, file) && PlanOf(c, p, file).cached >= |PlanOf(c, p, file).input|
    ensures !OutgrowsContext(c, p, file)
  {
  }

  /** A call saves at its first sample and not at its end exactly when it outgrows the context. */
  lemma SavesEarlyOnlyIff(c: Context, p: Params, file: Option<SessionFile>)
    requires Accepted(c, p, file) && Recording(p)
    ensures (!SavesAtEnd(c, p, file) && Call(c, p, file).file != file) <==> OutgrowsContext(c, p, file)
  {
    hide Accepted, Call, EndOf, PrefillOf, PlanOf, Overruns, SavesAtEnd, OutgrowsContext;
    if PlanOf(c, p, file).cached < |PlanOf(c, p, file).input| {
      NewPromptSaves(c, p, file);
    } else {
      NothingNew(c, p, file);
      NotOutgrown(c, p, file);
    }
  }
}
