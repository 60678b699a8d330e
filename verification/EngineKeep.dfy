/**
 What n_keep keeps: however often the context is shifted, the memory a call ends
 with starts with as many tokens of its input as the argument asks for, and every
 shift drops half of the tokens behind them.
 */
module EngineKeep {
  import opened Wrappers
  import opened KvMemory
  import opened EngineAhead
  import opened EngineLag
  import opened EngineLimits
  import opened EngineRoom
  import opened EngineSpec
  import opened EngineStream
  import opened EngineTheorems

  lemma KeptAtOnce(n: int, mem: Memory)
    ensures SameFirst(n, mem, mem)
  {
  }

  lemma KeptTwice(n: int, a: Memory, b: Memory, d: Memory)
    requires SameFirst(n, a, b) && SameFirst(n, b, d)
    ensures SameFirst(n, a, d)
  {
  }

  lemma DecodeKeeps(n: int, mem: Memory, ids: seq<Token>)
    ensures SameFirst(n, mem, KvMemory.Decode(mem, ids))
  {
  }

  /** A shift of a full memory with cells out of its reach keeps the prefix. */
  lemma SplitShiftKeeps(c: Context, plan: Plan, w: Window, h: nat, n: int)
    requires Split(c, w, h) && Full(c, w) && 0 <= n <= plan.keep <= c.nCtx
    ensures SameFirst(n, w.mem, Shifted(plan.keep, w).mem)
  {
    if plan.keep > c.nCtx - 3 {
      ShiftNothing(c, plan.keep, w);
    } else {
      hide SeqRm;
      SplitRemoves(c, plan.keep, w, h);
    }
  }

  /** So does a shift of a memory in order. */
  lemma OrderedShiftKeeps(c: Context, plan: Plan, w: Window, n: int)
    requires Contiguous(w.mem) && |w.mem| == w.nPast <= c.nCtx && Full(c, w) && 0 <= n <= plan.keep <= c.nCtx
    ensures SameFirst(n, w.mem, Shifted(plan.keep, w).mem)
    ensures Contiguous(Shifted(plan.keep, w).mem) && |Shifted(plan.keep, w).mem| == Shifted(plan.keep, w).nPast
    ensures Shifted(plan.keep, w).nPast <= w.nPast
  {
    if plan.keep >= w.nPast - 1 {
      ShiftNothing(c, plan.keep, w);
    } else {
      CutAndClose(w.mem, plan.keep, HalfTowardZero(w.nPast - plan.keep));
    }
  }

  /** The memory of a generation: all cells counted in n_past, or some out of reach. */
  ghost predicate Shaped(c: Context, w: Window) {
    || (Contiguous(w.mem) && |w.mem| == w.nPast <= c.nCtx)
    || exists h: nat :: Split(c, w, h)
  }

  lemma ShiftKeeps(c: Context, plan: Plan, w: Window, n: int)
    requires Shaped(c, w) && Full(c, w) && 0 <= n <= plan.keep <= c.nCtx
    ensures SameFirst(n, w.mem, Shifted(plan.keep, w).mem)
  {
    if Contiguous(w.mem) && |w.mem| == w.nPast <= c.nCtx {
      OrderedShiftKeeps(c, plan, w, n);
    } else {
      var h: nat :| Split(c, w, h);
      SplitShiftKeeps(c, plan, w, h, n);
    }
  }

  lemma ShapedNext(c: Context, plan: Plan, w: Window)
    requires Shaped(c, w) && 0 <= plan.keep <= c.nCtx && |Onward(c, plan.keep, w).mem| <= c.nCtx
    ensures Shaped(c, Onward(c, plan.keep, w))
  {
    if Contiguous(w.mem) && |w.mem| == w.nPast <= c.nCtx {
      if Full(c, w) { OrderedShiftKeeps(c, plan, w, 0); }
      DecodeHolds(if Full(c, w) then Shifted(plan.keep, w).mem else w.mem, [c.next(Toks(w.mem))]);
    } else {
      var h: nat :| Split(c, w, h);
      OnwardSplit(c, plan.keep, w, h);
    }
  }

  lemma OnwardKeeps(c: Context, plan: Plan, w: Window, n: int)
    requires Shaped(c, w) && 0 <= n <= plan.keep <= c.nCtx
    ensures Full(c, w) ==> SameFirst(n, w.mem, Shifted(plan.keep, w).mem)
    ensures SameFirst(n, w.mem, Onward(c, plan.keep, w).mem)
  {
    hide SameFirst, KvMemory.Decode, Shifted, Shaped;
    var id := c.next(Toks(w.mem));
    if Full(c, w) {
      ShiftKeeps(c, plan, w, n);
      DecodeKeeps(n, Shifted(plan.keep, w).mem, [id]);
      KeptTwice(n, w.mem, Shifted(plan.keep, w).mem, Onward(c, plan.keep, w).mem);
    } else {
      DecodeKeeps(n, w.mem, [id]);
    }
  }

  /** No generation touches the kept prefix of the memory it starts from. */
  lemma {:induction false} GenKeeps(c: Context, p: Params, plan: Plan, st: St, n: int)
    requires Live(c, p, st) && Shaped(c, WindowOf(st)) && 0 <= n <= plan.keep <= c.nCtx
    ensures SameFirst(n, st.mem, Gen(c, p, plan, st).st.mem)
    decreases Fuel(c, p, st)
  {
    hide Gen, Live, NextSt, Fuel, Onward, Shifted, SameFirst, Shaped;
    GenStep(c, p, plan, st);
    NextIs(c, p, plan, st);
    OnwardKeeps(c, plan, WindowOf(st), n);
    KeptAtOnce(n, st.mem);
    var s2, e := NextSt(c, p, plan, st), Gen(c, p, plan, st);
    if st.nRemain != 1 && |s2.mem| <= c.nCtx && !(Full(c, WindowOf(st)) && p.StopsWhenFull()) && !OutOfBudget(p, s2) {
      ShapedNext(c, plan, WindowOf(st));
      GenKeeps(c, p, plan, s2, n);
      KeptTwice(n, st.mem, s2.mem, e.st.mem);
    }
  }

  lemma CellsAreShaped(c: Context, st: St)
    requires InCells(c, st) && c.nCtx > 0
    ensures Shaped(c, WindowOf(st))
  {
    if |st.mem| > st.nPast { CellsSplit(c, 0, st); }
  }

  /** Decoding behind a cut keeps the prefix too. */
  lemma AfterCutKeeps(c: Context, p: Params, plan: Plan, cut: St, ids: seq<Token>, n: int)
    requires LivePending(c, p, cut) && cut.nRemain != 0 && Contiguous(cut.mem) && ids != []
    requires cut.nPast <= |cut.mem| < c.nCtx && cut.nPast + |ids| < c.nCtx && 0 <= n <= plan.keep <= c.nCtx
    ensures SameFirst(n, cut.mem, AfterCut(c, p, plan, cut, ids).st.mem)
  {
    hide Gen, SameFirst, Shaped;
    var part := Within(p, ids);
    var d := DecodeIds(cut, part);
    KeptAtOnce(n, cut.mem);
    DecodeKeeps(n, cut.mem, part);
    DecodeHolds(cut.mem, part);
    if |d.mem| <= c.nCtx && !OutOfBudget(p, d) {
      CellsAreShaped(c, d);
      GenKeeps(c, p, plan, d, n);
      KeptTwice(n, cut.mem, d.mem, Gen(c, p, plan, d).st.mem);
    }
  }

  lemma {:induction false} LagKeeps(c: Context, p: Params, plan: Plan, st: St, n: nat, k: int)
    requires Lagging(c, p, st, n) && Contiguous(st.mem) && |st.session| == |st.mem| < c.nCtx
    requires 0 <= k <= plan.keep <= c.nCtx
    ensures SameFirst(k, st.mem, Lag(c, p, plan, st, n).st.mem)
    decreases |st.session| - n
  {
    LagOnce(c, p, plan, st, n);
    hide Gen, Lag, AfterCut, SameFirst, SaveEarly, Contiguous;
    KeptAtOnce(k, st.mem);
    var s, id := Sample(c, p, st), c.next(Toks(st.mem));
    var held := s.(nPast := n + 1);
    if s.nRemain != 0 {
      if st.session[n] != id {
        AfterCutKeeps(c, p, plan, s.(session := s.session[..n]), [id], k);
      } else if n + 1 < |st.session| {
        LagKeeps(c, p, plan, held, n + 1, k);
      } else {
        CellsAreShaped(c, held);
        GenKeeps(c, p, plan, held, k);
      }
    }
  }

  lemma ClampedKeeps(c: Context, p: Params, plan: Plan, file: Option<SessionFile>, n: int)
    requires c.Valid() && plan.Valid(c) && p.Bounded(c) && Clamped(c, plan) && 0 <= n <= plan.keep <= c.nCtx
    requires Contiguous(plan.base) && |plan.base| == |plan.input|
    ensures SameFirst(n, plan.base, ClampedOutcome(c, p, plan, file).st.mem)
  {
    hide Lag, AfterCut, LateHeld, LateChunk, ClampedSt, SameFirst, Plan.Valid, Clamped, LivePending, Lagging,
      Contiguous;
    var j := LateHeld(c, plan);
    ClampedStarts(c, p, plan, file, j);
    ClampedSizes(c, p, plan, file, j);
    var s := ClampedSt(c, p, plan, file, j);
    if j == |LateChunk(c, plan)| {
      LagKeeps(c, p, plan, s, c.nCtx - 4 + j, n);
    } else {
      var cut := s.(session := plan.session[..c.nCtx - 4 + j]);
      CutIsLive(c, p, s, cut);
      AfterCutKeeps(c, p, plan, cut, LateChunk(c, plan)[j..], n);
    }
  }

  // ------------------------------------------------------------ calls

  /** What a call holds before it generates. */
  function StartMemory(c: Context, p: Params, file: Option<SessionFile>): Memory
    requires Accepted(c, p, file)
  {
    if Clamps(c, p, file) then PlanOf(c, p, file).base else PrefillOf(c, p, file).mem
  }

  lemma StartKept(c: Context, p: Params, file: Option<SessionFile>, n: int)
    requires Accepted(c, p, file) && 0 <= n <= PlanOf(c, p, file).keep
    ensures SameFirst(n, StartMemory(c, p, file), EndOf(c, p, file).st.mem)
  {
    KeepInRange(c, p, file);
    if Clamps(c, p, file) {
      ClampsFacts(c, p, file);
      PlanIsValid(c, p, file);
      hide ClampedOutcome, SameFirst;
      ClampedKeeps(c, p, PlanOf(c, p, file), file, n);
    } else {
      hide Gen, EndOf, PrefillOf, PlanOf, SameFirst, Shaped, Live;
      PrefillFields(c, p, file);
      PlainEnd(c, p, file);
      var s := PrefillOf(c, p, file);
      KeptAtOnce(n, s.mem);
      if !(s.nEval > 0 && OutOfBudget(p, s)) {
        CellsAreShaped(c, s);
        GenKeeps(c, p, PlanOf(c, p, file), s, n);
      }
    }
  }

  lemma BaseFacts(c: Context, p: Params, file: Option<SessionFile>)
    requires Accepted(c, p, file)
    ensures var plan := PlanOf(c, p, file);
      && plan.cached <= |plan.input| && |plan.base| == plan.cached
      && (Faithful(c, p, file) <==> Toks(plan.base) == plan.input[..plan.cached])
  {
    PlanIsValid(c, p, file);
  }

  /** Before it generates, a call whose cells are faithful holds the tokens it has taken. */
  lemma StartHoldsInput(c: Context, p: Params, file: Option<SessionFile>)
    requires Accepted(c, p, file) && Faithful(c, p, file)
    ensures var plan, mem := PlanOf(c, p, file), StartMemory(c, p, file);
      && plan.cached <= |plan.input|
      && var n := Consumed(p, plan); n <= |mem| && Toks(mem)[..n] == plan.input[..n]
  {
    hide Accepted, PlanOf, PrefillOf, Clamps, Faithful, Redoes, Contiguous;
    BaseFacts(c, p, file);
    var plan := PlanOf(c, p, file);
    var n := Consumed(p, plan);
    if Clamps(c, p, file) {
      ClampsFacts(c, p, file);
    } else {
      PrefillShape(c, p, file);
      SamePrefix(Toks(plan.base), plan.input, plan.cached, n);
    }
  }

  /** The first k of the tokens taken from the input are still the first ones of the memory. */
  ghost predicate StillHolds(mem: Memory, input: seq<Token>, taken: nat, k: int)
    requires taken <= |input|
  {
    var m := if k < taken then k else taken;
    0 <= m <= |mem| && Toks(mem)[..m] == input[..m]
  }

  lemma HeldFirst(mem: Memory, after: Memory, input: seq<Token>, taken: nat, k: nat)
    requires taken <= |input| && taken <= |mem| && Toks(mem)[..taken] == input[..taken]
    requires SameFirst(if k < taken then k else taken, mem, after)
    ensures StillHolds(after, input, taken, k)
  {
    var m := if k < taken then k else taken;
    assert Toks(mem)[..taken][..m] == Toks(mem)[..m] && input[..taken][..m] == input[..m];
  }

  lemma KeepsInput(c: Context, p: Params, file: Option<SessionFile>, k: nat)
    requires Accepted(c, p, file) && Faithful(c, p, file) && k <= PlanOf(c, p, file).keep
    ensures var plan := PlanOf(c, p, file);
      plan.cached <= |plan.input| && StillHolds(EndOf(c, p, file).st.mem, plan.input, Consumed(p, plan), k)
  {
    hide EndOf, PlanOf, StartMemory, SameFirst, StillHolds, Accepted, Faithful;
    StartHoldsInput(c, p, file);
    var plan := PlanOf(c, p, file);
    var taken := Consumed(p, plan);
    StartKept(c, p, file, if k < taken then k else taken);
    HeldFirst(StartMemory(c, p, file), EndOf(c, p, file).st.mem, plan.input, taken, k);
  }

  lemma KeepIs(c: Context, p: Params, file: Option<SessionFile>)
    requires Accepted(c, p, file)
    ensures var plan := PlanOf(c, p, file);
      && |plan.input| < c.nCtx
      && (p.nKeep < 0 || p.nKeep > |plan.input| ==> plan.keep == |plan.input|)
      && (0 <= p.nKeep <= |plan.input| ==> plan.keep == p.nKeep + if c.addBos then 1 else 0)
  {
    PlanIsValid(c, p, file);
  }

  /**
   Whatever is sampled, and however often the context is shifted: a call ends with
   the first n_keep tokens of its input at the front of its memory, one more with a
   beginning-of-stream token, and all it has taken of the input if n_keep is
   negative or beyond it.
   */
  lemma CallKeepsPrefix(c: Context, p: Params, file: Option<SessionFile>)
    requires Accepted(c, p, file) && Faithful(c, p, file)
    ensures var plan, mem := PlanOf(c, p, file), EndOf(c, p, file).st.mem;
      && plan.cached <= |plan.input|
      && var taken := Consumed(p, plan);
      && (p.nKeep < 0 || p.nKeep > |plan.input| ==> StillHolds(mem, plan.input, taken, |plan.input|))
      && (0 <= p.nKeep <= |plan.input| && !c.addBos ==> StillHolds(mem, plan.input, taken, p.nKeep))
      && (0 <= p.nKeep <= |plan.input| && c.addBos ==> StillHolds(mem, plan.input, taken, p.nKeep + 1))
  {
    KeepIs(c, p, file);
    hide EndOf, PlanOf, StillHolds, Accepted, Faithful;
    KeepsInput(c, p, file, PlanOf(c, p, file).keep);
  }

  /** What a shift keeps of a memory when it keeps the first k tokens: those, and the later half of the rest. */
  ghost predicate HalfDropped(before: St, after: St, k: int) {
    var d := (before.nPast - k) / 2;
    && InOrder(after) && after.nPast == before.nPast - d && 0 <= k <= k + d <= |before.mem|
    && Toks(after.mem) == Toks(before.mem)[..k] + Toks(before.mem)[k + d..]
  }

  /** Each context shift of a call drops, behind what n_keep asks to keep, exactly half of the memory. */
  lemma CallShiftDrops(c: Context, p: Params, file: Option<SessionFile>, st: St)
    requires Accepted(c, p, file) && InOrder(st) && st.nPast + 1 >= c.nCtx
    ensures var input, after := PlanOf(c, p, file).input, Shift(PlanOf(c, p, file), st);
      && (p.nKeep < 0 || p.nKeep > |input| ==> HalfDropped(st, after, |input|))
      && (0 <= p.nKeep <= |input| && !c.addBos ==> HalfDropped(st, after, p.nKeep))
      && (0 <= p.nKeep <= |input| && c.addBos && p.nKeep < st.nPast ==> HalfDropped(st, after, p.nKeep + 1))
  {
    hide PlanOf, Shift, Accepted;
    KeepIs(c, p, file);
    if PlanOf(c, p, file).keep <= st.nPast { ShiftKeepsOrder(PlanOf(c, p, file), st); }
  }
}
