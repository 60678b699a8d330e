/**
 The token repeated between generation calls: a call that ends before it has
 decoded its last sample leaves that sample to the next call, which samples it
 again. Dropping the repetition gives the sequence of one long call.
 */
module EngineBoundary {
  import opened Wrappers
  import opened KvMemory
  import opened EngineAhead
  import opened EngineCounts
  import opened EngineLimits
  import opened EngineRoom
  import opened EngineSpec
  import opened EngineStream
  import opened EngineTheorems

  /** A call, with a prompt or without, whose memory and session agree from its prompt on. */
  ghost predicate Clean(c: Context, p: Params, file: Option<SessionFile>) {
    && Accepted(c, p, file) && Recording(p)
    && !Redoes(c, p, file) && !Clamps(c, p, file) && Faithful(c, p, file)
  }

  /** An empty-prompt call on a session file whose memory and tokens agree. */
  ghost predicate Resuming(c: Context, p: Params, file: Option<SessionFile>) {
    && Accepted(c, p, file) && Recording(p) && !Clamps(c, p, file) && p.promptEmpty
    && file.Some? && Sound(c, file.value) && Agrees(file.value)
  }

  function InputTo(c: Context, p: Params, file: Option<SessionFile>): seq<Token> {
    PlanOf(c, p, file).input
  }

  /** The whole prompt is taken. */
  ghost predicate Whole(c: Context, p: Params, file: Option<SessionFile>)
    requires Accepted(c, p, file)
  {
    PlanIsValid(c, p, file);
    Consumed(p, PlanOf(c, p, file)) == |InputTo(c, p, file)|
  }

  lemma ResumingIsClean(c: Context, p: Params, file: Option<SessionFile>)
    requires Resuming(c, p, file)
    ensures Clean(c, p, file) && PlanOf(c, p, file).input == file.value.tokens && Whole(c, p, file)
  {
    var t := file.value.tokens;
    LcpOfPrefix(t, t);
    AgreeingIsFaithful(c, p, file);
  }

  lemma StartFields(c: Context, p: Params, file: Option<SessionFile>)
    requires Clean(c, p, file) && Whole(c, p, file)
    ensures var s, plan := PrefillOf(c, p, file), PlanOf(c, p, file);
      && plan.input != [] && s.session == plan.input && s.path && s.sampled == []
      && s.nRemain == p.nPredict && s.eog == c.isEog(plan.input[|plan.input| - 1])
      && plan.cached <= |plan.input| && Toks(plan.base) == plan.input[..plan.cached]
  {
    PlanIsValid(c, p, file);
    var t := PlanOf(c, p, file).input;
    assert t[..|t|] == t;
  }

  /** The state from which a clean call generates. */
  lemma CleanStart(c: Context, p: Params, file: Option<SessionFile>)
    requires Clean(c, p, file) && Whole(c, p, file)
    ensures var s, t := PrefillOf(c, p, file), InputTo(c, p, file);
      && t != [] && InOrder(s) && Toks(s.mem) == t && s.session == t && s.path && s.sampled == []
      && s.nPast == |t| && s.nRemain == p.nPredict && s.eog == c.isEog(t[|t| - 1])
  {
    hide Accepted, PlanOf, PrefillOf, Faithful, Redoes, Clamps;
    PrefillShape(c, p, file);
    StartFields(c, p, file);
    var plan := PlanOf(c, p, file);
    var t := plan.input;
    assert t[..plan.cached] + t[plan.cached..|t|] == t;
  }

  /** The first token a generation samples follows what the memory holds, whatever happens later. */
  lemma FirstSample(c: Context, p: Params, plan: Plan, st: St)
    requires Live(c, p, st)
    ensures var e := Gen(c, p, plan, st);
      |e.st.sampled| > |st.sampled| && e.st.sampled[|st.sampled|] == c.next(Toks(st.mem))
  {
    hide Gen, Live, Shift, SaveEarly, AnyEog;
    GenOnce(c, p, plan, st);
    SampleSets(c, p, st);
    var s := Sample(c, p, st);
    ShiftLeaves(plan, s);
    var s1 := if s.nPast + 1 >= c.nCtx then Shift(plan, s) else s;
    var s2 := DecodeIds(s1, [c.next(Toks(st.mem))]);
    if Live(c, p, s2) { GenIsCounted(c, p, plan, s2); }
  }

  /** The reply of a call that gets past its checks, and past its decodes. */
  lemma SampledOfCall(c: Context, p: Params, file: Option<SessionFile>)
    requires Accepted(c, p, file)
    ensures Call(c, p, file).reply.sampled == EndOf(c, p, file).st.sampled
  {
    PlanIsValid(c, p, file);
    hide Outcome, PlanOf, Usable, Rejected;
  }

  lemma ResumeDecodesNothing(c: Context, p: Params, file: Option<SessionFile>)
    requires Resuming(c, p, file)
    ensures PrefillOf(c, p, file).nEval == 0 && Live(c, p, PrefillOf(c, p, file))
  {
    PlanIsValid(c, p, file);
    var t := file.value.tokens;
    LcpOfPrefix(t, t);
  }

  /** A resumed call samples first the token that follows the saved session. */
  lemma ResumeSamplesNext(c: Context, p: Params, file: Option<SessionFile>)
    requires Resuming(c, p, file)
    ensures var sampled := Call(c, p, file).reply.sampled;
      sampled != [] && sampled[0] == c.next(file.value.tokens)
  {
    ResumingIsClean(c, p, file);
    CleanStart(c, p, file);
    PlainEnd(c, p, file);
    SampledOfCall(c, p, file);
    ResumeDecodesNothing(c, p, file);
    hide Gen, Call, EndOf, PrefillOf, Resuming, Clean, PlanOf;
    FirstSample(c, p, PlanOf(c, p, file), PrefillOf(c, p, file));
  }

  /** A call that leaves prompt for the next one samples nothing. */
  lemma PartSamplesNothing(c: Context, p: Params, file: Option<SessionFile>)
    requires Accepted(c, p, file) && !Whole(c, p, file)
    ensures !Clamps(c, p, file) && EndOf(c, p, file) == End(PrefillOf(c, p, file), Broke)
    ensures Call(c, p, file).reply.sampled == []
  {
    if Clamps(c, p, file) { ClampsFacts(c, p, file); }
    PlainIsCounted(c, p, file);
    SampledOfCall(c, p, file);
  }

  /** How many samples a generation can decode before n_predict or a full context ends it. */
  function Decodable(c: Context, st: St): int {
    var g := c.nCtx - 1 - st.nPast;
    if 0 < st.nRemain <= g then st.nRemain - 1 else g
  }

  /** The budget is spent, or an end-of-generation token decoded, at one of those. */
  ghost predicate BreaksOff(c: Context, p: Params, st: St) {
    Decodable(c, st) >= 1 && !Unspent(c, p, st, Decodable(c, st))
  }

  lemma NothingSpentYet(c: Context, p: Params, st: St)
    requires Live(c, p, st)
    ensures Unspent(c, p, st, 0)
  {
    LiveRemains(c, p, st);
  }

  lemma BreaksOffNext(c: Context, p: Params, plan: Plan, st: St)
    requires Live(c, p, st) && InRoom(c, st) && st.nRemain != 1 && !Full(c, WindowOf(st))
    ensures var s2 := NextSt(c, p, plan, st);
      && InRoom(c, s2)
      && (OutOfBudget(p, s2) ==> BreaksOff(c, p, st))
      && (!OutOfBudget(p, s2) && Live(c, p, s2) ==> (BreaksOff(c, p, st) <==> BreaksOff(c, p, s2)))
  {
    hide NextSt, Unspent, UnspentAhead, Live;
    var s2, k := NextSt(c, p, plan, st), Decodable(c, st);
    NextIs(c, p, plan, st);
    LiveRemains(c, p, st);
    DecodeHolds(st.mem, [c.next(Toks(st.mem))]);
    UnspentIsStream(c, p, plan.keep, st, k);
    if OutOfBudget(p, s2) {
      SpentNow(c, p, plan, st, k);
    } else {
      UnspentNext(c, p, plan, st, k);
      UnspentIsStream(c, p, plan.keep, s2, k - 1);
      if Live(c, p, s2) { NothingSpentYet(c, p, s2); }
    }
  }

  lemma NoneDecodable(c: Context, p: Params, st: St)
    requires InRoom(c, st) && (st.nRemain == 1 || Full(c, WindowOf(st)))
    ensures !BreaksOff(c, p, st)
  {
  }

  /** A generation that keeps its session path ends behind its last sample exactly when it breaks off. */
  lemma {:induction false} GenBreaksIff(c: Context, p: Params, plan: Plan, st: St)
    requires Live(c, p, st) && InRoom(c, st) && st.path
    ensures var e := Gen(c, p, plan, st);
      e.st.path ==> (e.why == Broke <==> BreaksOff(c, p, st))
    decreases Fuel(c, p, st)
  {
    hide Gen, Live, NextSt, Fuel, BreaksOff;
    GenStep(c, p, plan, st);
    NextIs(c, p, plan, st);
    LiveRemains(c, p, st);
    var s2 := NextSt(c, p, plan, st);
    if st.nRemain == 1 || (Full(c, WindowOf(st)) && p.StopsWhenFull()) {
      NoneDecodable(c, p, st);
    } else if Full(c, WindowOf(st)) {
      if Live(c, p, s2) { GenWithoutPath(c, p, plan, s2); }
    } else {
      BreaksOffNext(c, p, plan, st);
      if !OutOfBudget(p, s2) && |s2.mem| <= c.nCtx { GenBreaksIff(c, p, plan, s2); }
    }
  }

  /**
   The arguments of a call, its prompt, and what its file already holds of that make
   it end by n_predict or in a full context: of the k samples it could decode before
   that, neither the budget nor an end-of-generation token is spent on one.
   */
  ghost predicate LeavesSample(c: Context, p: Params, file: Option<SessionFile>) {
    var t := InputTo(c, p, file);
    var taken, g := |t| - PlanOf(c, p, file).cached, c.nCtx - 1 - |t|;
    var k := if 0 < p.nPredict <= g then p.nPredict - 1 else g;
    && t != []
    && (taken > 0 || k > 0 ==> !c.isEog(t[|t| - 1]))
    && (p.maxTokens > 0 && (taken > 0 || k > 0) ==> taken + k < p.maxTokens)
    && (k > 0 ==> NoEarlyEog(c, t, k + 1))
  }

  /** What the state from which a clean call generates says about that. */
  lemma LeavesFromStart(c: Context, p: Params, file: Option<SessionFile>)
    requires Clean(c, p, file) && Whole(c, p, file)
    ensures var s := PrefillOf(c, p, file);
      && InRoom(c, s) && s.path
      && (LeavesSample(c, p, file) <==> !(s.nEval > 0 && OutOfBudget(p, s)) && !BreaksOff(c, p, s))
  {
    hide Accepted, PlanOf, PrefillOf, Faithful, Redoes, Clamps, NoEarlyEog;
    CleanStart(c, p, file);
    PrefillFields(c, p, file);
  }

  lemma PartLeavesNone(c: Context, p: Params, file: Option<SessionFile>)
    requires Accepted(c, p, file) && !Whole(c, p, file)
    ensures !LeavesSample(c, p, file)
  {
    PlanIsValid(c, p, file);
  }

  lemma UnclampedEnd(c: Context, p: Params, file: Option<SessionFile>)
    requires Clean(c, p, file)
    ensures var s := PrefillOf(c, p, file);
      if s.nEval > 0 && OutOfBudget(p, s) then EndOf(c, p, file) == End(s, Broke)
      else Live(c, p, s) && EndOf(c, p, file) == Gen(c, p, PlanOf(c, p, file), s)
  {
    PlainEnd(c, p, file);
  }

  /** A clean call that gets to its final save ends with a sample undecoded exactly when its arguments say so. */
  lemma LeavesIff(c: Context, p: Params, file: Option<SessionFile>)
    requires Clean(c, p, file) && SavesAtEnd(c, p, file)
    ensures EndOf(c, p, file).why != Broke <==> LeavesSample(c, p, file)
  {
    if Whole(c, p, file) {
      hide Gen, EndOf, PrefillOf, PlanOf, Clean, LeavesSample, BreaksOff, Live, OutOfBudget;
      LeavesFromStart(c, p, file);
      UnclampedEnd(c, p, file);
      var s := PrefillOf(c, p, file);
      if !(s.nEval > 0 && OutOfBudget(p, s)) { GenBreaksIff(c, p, PlanOf(c, p, file), s); }
    } else {
      PartSamplesNothing(c, p, file);
      PartLeavesNone(c, p, file);
    }
  }

  /**
   What a clean call that takes its whole prompt samples is what its session grows
   by, then its dangling sample if it leaves one.
   */
  ghost predicate Output(c: Context, t: seq<Token>, r: CallResult, leaves: bool) {
    && r.file.Some? && Sound(c, r.file.value) && Agrees(r.file.value)
    && var t' := r.file.value.tokens;
    && |t| <= |t'| && t' == Stream(c.next, t, |t'| - |t|)
    && r.reply.sampled == t'[|t|..] + (if leaves then [c.next(t')] else [])
  }

  /** A generation that grew along the stream, and what a call makes of it. */
  lemma GrewOutput(c: Context, t: seq<Token>, s: St, e: End, r: CallResult)
    requires Grew(c, s, e) && Contiguous(s.mem) && Toks(s.mem) == t && s.session == t && s.sampled == []
    requires r.file == Some(SessionFile(e.st.session, e.st.mem)) && Sound(c, r.file.value) && Agrees(r.file.value)
    requires r.reply.sampled == e.st.sampled && Toks(e.st.mem) == e.st.session
    ensures Output(c, t, r, e.why != Broke)
  {
    hide Sound, Agrees, Stream;
  }

  lemma CleanFacts(c: Context, p: Params, file: Option<SessionFile>)
    requires Clean(c, p, file)
    ensures p.hasPath && !Cuts(c, p, file)
  {
    PlanIsValid(c, p, file);
  }

  lemma CleanEnd(c: Context, p: Params, file: Option<SessionFile>)
    requires Clean(c, p, file) && SavesAtEnd(c, p, file)
    ensures Grew(c, PrefillOf(c, p, file), EndOf(c, p, file)) && Contiguous(PrefillOf(c, p, file).mem)
  {
    CleanFacts(c, p, file);
    hide EndOf, PrefillOf, PlanOf, Grew, Faithful, Redoes, Clamps;
    EndFollowsStream(c, p, file);
    PrefillShape(c, p, file);
  }

  lemma CleanSound(c: Context, p: Params, file: Option<SessionFile>)
    requires Clean(c, p, file)
    ensures file.Some? ==> Sound(c, file.value)
  {
    hide PlanOf, Sound;
  }

  lemma CleanFile(c: Context, p: Params, file: Option<SessionFile>)
    requires Clean(c, p, file) && SavesAtEnd(c, p, file)
    ensures var r, st := Call(c, p, file).file, EndOf(c, p, file).st;
      && r == Some(SessionFile(st.session, st.mem)) && Sound(c, r.value) && Agrees(r.value)
      && Toks(st.mem) == st.session
  {
    CleanFacts(c, p, file);
    CleanSound(c, p, file);
    hide Call, EndOf, PrefillOf, PlanOf, Accepted, Recording, Cuts, Faithful, Redoes, Clamps, Sound;
    AgreementAfterCall(c, p, file);
    CallFile(c, p, file);
    SavedIsShort(c, p, file);
    AgreesIffToks(Call(c, p, file).file.value);
  }

  lemma CleanOutput(c: Context, p: Params, file: Option<SessionFile>)
    requires Clean(c, p, file) && Whole(c, p, file) && !LosesFile(c, p, file)
    ensures Output(c, InputTo(c, p, file), Call(c, p, file), LeavesSample(c, p, file))
  {
    CallSavesIff(c, p, file);
    CleanFacts(c, p, file);
    CleanEnd(c, p, file);
    hide Call, EndOf, PrefillOf, PlanOf, Clean, Output, Sound, Agrees, Grew, Contiguous, InputTo, SavesAtEnd,
      LeavesSample;
    CleanFile(c, p, file);
    CleanStart(c, p, file);
    SampledOfCall(c, p, file);
    LeavesIff(c, p, file);
    GrewOutput(c, InputTo(c, p, file), PrefillOf(c, p, file), EndOf(c, p, file), Call(c, p, file));
  }

  /**
   Whatever prompt a call carried, if its arguments make it leave a sample
   undecoded, the next call samples that first; otherwise all its samples are in the
   session file, and the next call goes on with the one that follows them.
   */
  lemma DanglingSample(c: Context, p: Params, q: Params, file: Option<SessionFile>)
    requires Clean(c, p, file) && !LosesFile(c, p, file)
    requires Resuming(c, q, Call(c, p, file).file)
    ensures var r, t, leaves := Call(c, p, file), InputTo(c, p, file), LeavesSample(c, p, file);
      var saved, next := r.file.value.tokens, Call(c, q, r.file).reply.sampled;
      && next != [] && next[0] == c.next(saved)
      && (!Whole(c, p, file) ==> !leaves && r.reply.sampled == [])
      && (Whole(c, p, file) ==> |t| <= |saved| && r.reply.sampled == saved[|t|..] + if leaves then [next[0]] else [])
  {
    CallSavesIff(c, p, file);
    if Whole(c, p, file) {
      CleanOutput(c, p, file);
    } else {
      PartSamplesNothing(c, p, file);
      LeavesIff(c, p, file);
    }
    ResumeSamplesNext(c, q, Call(c, p, file).file);
  }

  /** A model that samples how many tokens there are. */
  function CountingContext(): Context { Context(8, 4, false, 0, ts => |ts|, _ => false) }

  /** Resume, with a budget of one token. */
  function OneMoreArgs(): Params { Params(true, [], 1, -1, 0, false, true, false) }

  lemma OneMoreResumes(t: seq<Token>)
    requires 0 < |t| < 4
    ensures Resuming(CountingContext(), OneMoreArgs(), FileOf(t))
    ensures PlanOf(CountingContext(), OneMoreArgs(), FileOf(t)).cached == |t|
  {
    LcpOfPrefix(t, t);
  }

  /** A generation of one token under a budget of one. */
  lemma OneMoreGen(plan: Plan, s: St)
    requires InOrder(s) && 0 < s.nPast < 4 && s.nEval == 0 && s.nRemain == -1
    requires Live(CountingContext(), OneMoreArgs(), s) && s.path && s.sampled == []
    ensures var e := Gen(CountingContext(), OneMoreArgs(), plan, s);
      e.why == Broke && e.st.sampled == [s.nPast] && e.st.path && e.st.session == s.session + [s.nPast]
  {
    GenOnce(CountingContext(), OneMoreArgs(), plan, s);
    hide Gen;
  }

  lemma OneMoreLeavesNone(t: seq<Token>)
    requires 0 < |t| < 4 && PlanOf(CountingContext(), OneMoreArgs(), FileOf(t)).cached == |t|
    requires PlanOf(CountingContext(), OneMoreArgs(), FileOf(t)).input == t
    ensures !LeavesSample(CountingContext(), OneMoreArgs(), FileOf(t))
  {
    hide PlanOf;
  }

  lemma AgreeingFile(f: SessionFile)
    requires Agrees(f)
    ensures Some(f) == FileOf(f.tokens)
  {
    assert f.mem == CellsFrom(0, f.tokens);
  }

  lemma OneMoreCall(t: seq<Token>)
    requires 0 < |t| < 4
    ensures var c, p, file := CountingContext(), OneMoreArgs(), FileOf(t);
      && Resuming(c, p, file) && !LeavesSample(c, p, file)
      && Call(c, p, file).reply.sampled == [|t|] && Call(c, p, file).file == FileOf(t + [|t|])
  {
    hide LeavesSample, Gen, PrefillOf, PlanOf, EndOf, Call, Clean, Resuming, Whole, Live, Agrees, Sound;
    var c, p, file := CountingContext(), OneMoreArgs(), FileOf(t);
    OneMoreResumes(t);
    ResumingIsClean(c, p, file);
    OneMoreLeavesNone(t);
    ResumeDecodesNothing(c, p, file);
    CleanStart(c, p, file);
    UnclampedEnd(c, p, file);
    OneMoreGen(PlanOf(c, p, file), PrefillOf(c, p, file));
    SampledOfCall(c, p, file);
    CleanFile(c, p, file);
    AgreeingFile(Call(c, p, file).file.value);
  }

  /**
   A call that leaves nothing dangling: under a budget of one token the first call
   samples and saves 1, and the next samples 2. The last token is not repeated.
   */
  lemma NoRepeatExample()
    ensures var c, p, file := CountingContext(), OneMoreArgs(), FileOf([5]);
      && Resuming(c, p, file) && Resuming(c, p, FileOf([5, 1])) && !LeavesSample(c, p, file)
      && Call(c, p, file).reply.sampled == [1] && Call(c, p, file).file == FileOf([5, 1])
      && Call(c, p, FileOf([5, 1])).reply.sampled == [2]
  {
    hide Call, LeavesSample, Resuming;
    OneMoreCall([5]);
    assert [5] + [1] == [5, 1];
    OneMoreCall([5, 1]);
  }

  /** With room, budget and no early end of generation, sampling goes on until n_predict is used up. */
  lemma {:induction false} GenReachesPredict(c: Context, p: Params, plan: Plan, st: St)
    requires Live(c, p, st) && InOrder(st) && !st.eog && st.path
    requires st.nRemain > 0 && st.nPast + st.nRemain <= c.nCtx
    requires p.maxTokens > 0 ==> st.nEval + st.nRemain <= p.maxTokens
    requires NoEarlyEog(c, Toks(st.mem), st.nRemain)
    ensures var e := Gen(c, p, plan, st);
      e.why == NoRemain && e.st.path && e.st.nEval == st.nEval + st.nRemain - 1
    decreases st.nRemain
  {
    var t := Toks(st.mem);
    var s := Sample(c, p, st);
    var id := c.next(t);
    if s.nRemain > 0 {
      var s2 := DecodeIds(s, [id]);
      DecodeHolds(s.mem, [id]);
      assert c.next(Stream(c.next, t, 0)) == id && !c.isEog(id);
      assert Toks(s2.mem) == Stream(c.next, t, 1);
      forall k: nat | k + 1 < s2.nRemain ensures !c.isEog(c.next(Stream(c.next, Toks(s2.mem), k))) {
        StreamInTwo(c.next, t, 1, k);
        assert (k + 1) + 1 < st.nRemain;
      }
      GenReachesPredict(c, p, plan, s2);
    }
  }

  lemma PrefillIsLive(c: Context, p: Params, file: Option<SessionFile>)
    requires Accepted(c, p, file)
    requires !(PrefillOf(c, p, file).nEval > 0 && OutOfBudget(p, PrefillOf(c, p, file)))
    ensures Live(c, p, PrefillOf(c, p, file))
  {
    PlanIsValid(c, p, file);
  }

  /** A call with room, budget and no early end of generation ends by n_predict, after exactly that many samples. */
  lemma CallReachesPredict(c: Context, p: Params, file: Option<SessionFile>)
    requires Clean(c, p, file) && Whole(c, p, file) && p.nPredict > 0
    requires |InputTo(c, p, file)| + p.nPredict <= c.nCtx
    requires p.maxTokens > 0 ==> PrefillOf(c, p, file).nEval + p.nPredict <= p.maxTokens
    requires NoEarlyEog(c, InputTo(c, p, file), p.nPredict)
    requires InputTo(c, p, file) != [] && !c.isEog(InputTo(c, p, file)[|InputTo(c, p, file)| - 1])
    ensures EndOf(c, p, file).why == NoRemain && SavesAtEnd(c, p, file)
    ensures |Call(c, p, file).reply.sampled| == p.nPredict
  {
    CleanStart(c, p, file);
    PlainEnd(c, p, file);
    PlainIsCounted(c, p, file);
    SampledOfCall(c, p, file);
    PrefillIsLive(c, p, file);
    hide Gen, Call, EndOf, PrefillOf, Clean, PlanOf, AnyEog, NoEarlyEog, Live;
    GenReachesPredict(c, p, PlanOf(c, p, file), PrefillOf(c, p, file));
  }

  // ------------------------------------------------------------ stitching

  /** A run of resumed calls of which only the last may leave no dangling sample. */
  ghost predicate Resumed(c: Context, ps: seq<Params>, file: Option<SessionFile>) {
    ps != [] ==>
      && Resuming(c, ps[0], file) && !LosesFile(c, ps[0], file)
      && (|ps| > 1 ==> LeavesSample(c, ps[0], file))
      && Resumed(c, ps[1..], Call(c, ps[0], file).file)
  }

  function Last(c: Context, ps: seq<Params>, file: Option<SessionFile>): Option<SessionFile>
    requires Resumed(c, ps, file)
  {
    if ps == [] then file else Last(c, ps[1..], Call(c, ps[0], file).file)
  }

  function Outputs(c: Context, ps: seq<Params>, file: Option<SessionFile>): seq<seq<Token>>
    requires Resumed(c, ps, file)
  {
    if ps == [] then []
    else [Call(c, ps[0], file).reply.sampled] + Outputs(c, ps[1..], Call(c, ps[0], file).file)
  }

  /** The sample that is left dangling in the end, if there is one. */
  ghost function Left(c: Context, ps: seq<Params>, file: Option<SessionFile>): seq<Token>
    requires Resumed(c, ps, file)
  {
    if ps == [] then (if file.Some? then [c.next(file.value.tokens)] else [])
    else if |ps| == 1 && !LeavesSample(c, ps[0], file) then []
    else Left(c, ps[1..], Call(c, ps[0], file).file)
  }

  /** Concatenate, dropping the first token of every piece. */
  function DropFirsts(outs: seq<seq<Token>>): seq<Token> {
    if outs == [] then []
    else (if outs[0] == [] then [] else outs[0][1..]) + DropFirsts(outs[1..])
  }

  /** What a client is told to do with the pieces: drop the leading duplicate of each call after the first. */
  function Stitch(outs: seq<seq<Token>>): seq<Token> {
    if outs == [] then [] else outs[0] + DropFirsts(outs[1..])
  }

  /** One piece and the stitched rest, chained through the dangling token between them. */
  lemma ChainPieces(out: seq<Token>, rest: seq<Token>, t: seq<Token>, t1: seq<Token>, tn: seq<Token>,
                    d: Token, d1: Token, left: seq<Token>)
    requires t <= t1 <= tn
    requires out == t1[|t|..] + [d1] && out[0] == d
    requires [d1] + rest == tn[|t1|..] + left
    ensures [d] + (out[1..] + rest) == tn[|t|..] + left
  {
    assert [d] + out[1..] == out;
    assert [d] + (out[1..] + rest) == out + rest;
    assert out + rest == t1[|t|..] + ([d1] + rest);
    assert t1[|t|..] + tn[|t1|..] == tn[|t|..];
  }

  lemma OneMore(c: Context, t: seq<Token>, k: nat)
    ensures var t' := Stream(c.next, t, k);
      Stream(c.next, t, k + 1)[|t|..] == t'[|t|..] + [c.next(t')]
  {
  }

  /** The last of a run of resumed calls: what it adds, then what it leaves dangling. */
  lemma LastAdds(c: Context, t: seq<Token>, r: CallResult, leaves: bool, left: seq<Token>)
    requires Output(c, t, r, leaves) && r.reply.sampled != [] && r.reply.sampled[0] == c.next(t)
    requires left == if leaves then [c.next(r.file.value.tokens)] else []
    ensures [c.next(t)] + DropFirsts([r.reply.sampled]) == r.file.value.tokens[|t|..] + left
  {
    var out := r.reply.sampled;
    var none: seq<seq<Token>> := [];
    assert [out][1..] == none;
    assert DropFirsts([out]) == out[1..];
  }

  /** What a run of one call yields, and what it leaves. */
  lemma OnlyPiece(c: Context, ps: seq<Params>, file: Option<SessionFile>)
    requires Resumed(c, ps, file) && |ps| == 1 && Call(c, ps[0], file).file.Some?
    ensures var r := Call(c, ps[0], file);
      && Outputs(c, ps, file) == [r.reply.sampled] && Last(c, ps, file) == r.file
      && Left(c, ps, file) == if LeavesSample(c, ps[0], file) then [c.next(r.file.value.tokens)] else []
  {
    hide Call, EndOf, SavesAtEnd, LosesFile, LeavesSample, Rejected, Usable, Agrees, Sound, Clamps;
    var r := Call(c, ps[0], file);
    var rest := ps[1..];
    assert rest == [];
    assert Outputs(c, rest, r.file) == [];
    assert Left(c, rest, r.file) == [c.next(r.file.value.tokens)];
  }

  lemma OutputFacts(c: Context, t: seq<Token>, r: CallResult, leaves: bool)
    requires Output(c, t, r, leaves)
    ensures r.file.Some? && t <= r.file.value.tokens
    ensures var t' := r.file.value.tokens;
      && t' == Stream(c.next, t, |t'| - |t|)
      && r.reply.sampled == t'[|t|..] + (if leaves then [c.next(t')] else [])
  {
  }

  lemma DropNothing()
    ensures DropFirsts([]) == []
  {
  }

  lemma DropFirstsCons(out: seq<Token>, outs: seq<seq<Token>>)
    requires out != []
    ensures DropFirsts([out] + outs) == out[1..] + DropFirsts(outs)
  {
    assert ([out] + outs)[1..] == outs;
  }

  lemma StreamZero(c: Context, t: seq<Token>)
    ensures Stream(c.next, t, 0) == t
  {
  }

  /** The dangling token of a file, then the stitched rest, is what the calls add, then the last dangling token. */
  lemma {:induction false} DropFirstsAdds(c: Context, ps: seq<Params>, file: Option<SessionFile>)
    requires Resumed(c, ps, file) && file.Some?
    ensures var last := Last(c, ps, file); var t := file.value.tokens;
      && last.Some? && t <= last.value.tokens
      && last.value.tokens == Stream(c.next, t, |last.value.tokens| - |t|)
      && (ps != [] || last == file)
      && (|Left(c, ps, file)| > 0 ==> Left(c, ps, file) == [c.next(last.value.tokens)])
      && [c.next(t)] + DropFirsts(Outputs(c, ps, file)) == last.value.tokens[|t|..] + Left(c, ps, file)
  {
    hide Call, Stream, EndOf, SavesAtEnd, LosesFile, Output, Resuming, DropFirsts, LeavesSample;
    var t := file.value.tokens;
    if ps == [] {
      assert t[|t|..] == [];
      StreamZero(c, t);
      DropNothing();
    } else {
      ResumingIsClean(c, ps[0], file);
      CleanOutput(c, ps[0], file);
      ResumeSamplesNext(c, ps[0], file);
      var r, leaves := Call(c, ps[0], file), LeavesSample(c, ps[0], file);
      OutputFacts(c, t, r, leaves);
      if |ps| == 1 {
        OnlyPiece(c, ps, file);
        LastAdds(c, t, r, leaves, Left(c, ps, file));
      } else {
        DropFirstsAdds(c, ps[1..], r.file);
        var t1, tn := r.file.value.tokens, Last(c, ps[1..], r.file).value.tokens;
        StreamInTwo(c.next, t, |t1| - |t|, |tn| - |t1|);
        var outs := Outputs(c, ps[1..], r.file);
        ChainPieces(r.reply.sampled, DropFirsts(outs), t, t1, tn, c.next(t), c.next(t1), Left(c, ps[1..], r.file));
        DropFirstsCons(r.reply.sampled, outs);
      }
    }
  }

  /** A first call, with its prompt or without, and the calls that resume it. */
  ghost predicate Pieces(c: Context, ps: seq<Params>, file: Option<SessionFile>) {
    && ps != [] && Clean(c, ps[0], file) && Whole(c, ps[0], file) && !LosesFile(c, ps[0], file)
    && (|ps| > 1 ==> LeavesSample(c, ps[0], file))
    && Resumed(c, ps[1..], Call(c, ps[0], file).file)
  }

  /** What the client gets. */
  function AllOutputs(c: Context, ps: seq<Params>, file: Option<SessionFile>): seq<seq<Token>>
    requires Pieces(c, ps, file)
  {
    [Call(c, ps[0], file).reply.sampled] + Outputs(c, ps[1..], Call(c, ps[0], file).file)
  }

  /** The first piece and the stitched rest, joined through the dangling token between them. */
  lemma JoinPieces(out: seq<Token>, rest: seq<Token>, t: seq<Token>, t1: seq<Token>, tn: seq<Token>,
                   d1: Token, left: seq<Token>)
    requires t <= t1 <= tn && out == t1[|t|..] + [d1] && [d1] + rest == tn[|t1|..] + left
    ensures out + rest == tn[|t|..] + left
  {
    assert out + rest == t1[|t|..] + ([d1] + rest);
    assert t1[|t|..] + tn[|t1|..] == tn[|t|..];
  }

  /** What a session has grown by along the stream, and a sample after it, is a piece of the stream. */
  lemma GrownIsStream(c: Context, t: seq<Token>, t': seq<Token>, left: seq<Token>)
    requires |t| <= |t'| && t' == Stream(c.next, t, |t'| - |t|)
    requires left == [] || left == [c.next(t')]
    ensures var out := t'[|t|..] + left;
      out == Stream(c.next, t, |out|)[|t|..]
  {
    OneMore(c, t, |t'| - |t|);
  }

  /** The pieces after a first one that left its last sample dangling. */
  lemma StitchedRest(c: Context, t: seq<Token>, r: CallResult, leaves: bool, ps: seq<Params>)
    requires Output(c, t, r, leaves) && leaves && Resumed(c, ps, r.file)
    ensures var out := r.reply.sampled + DropFirsts(Outputs(c, ps, r.file));
      out == Stream(c.next, t, |out|)[|t|..]
  {
    hide Call, Stream, EndOf, SavesAtEnd, LosesFile, LeavesSample, Resumed, Outputs, Last, Left, DropFirsts, Output;
    OutputFacts(c, t, r, leaves);
    DropFirstsAdds(c, ps, r.file);
    var t1, tn, left := r.file.value.tokens, Last(c, ps, r.file).value.tokens, Left(c, ps, r.file);
    StreamInTwo(c.next, t, |t1| - |t|, |tn| - |t1|);
    JoinPieces(r.reply.sampled, DropFirsts(Outputs(c, ps, r.file)), t, t1, tn, c.next(t1), left);
    GrownIsStream(c, t, tn, left);
  }

  lemma NoOutputs(c: Context, ps: seq<Params>, file: Option<SessionFile>)
    requires Resumed(c, ps, file) && ps == []
    ensures Outputs(c, ps, file) == []
  {
  }

  /** Stitched outputs are exactly the stream after the input of the first call. */
  lemma StitchedIsStream(c: Context, ps: seq<Params>, file: Option<SessionFile>)
    requires Pieces(c, ps, file)
    ensures var t, out := InputTo(c, ps[0], file), Stitch(AllOutputs(c, ps, file));
      out == Stream(c.next, t, |out|)[|t|..]
  {
    hide Call, Stream, EndOf, SavesAtEnd, LosesFile, LeavesSample, Whole, InputTo, Output, Resumed, Outputs;
    CleanOutput(c, ps[0], file);
    hide Clean;
    var t := InputTo(c, ps[0], file);
    var r, leaves := Call(c, ps[0], file), LeavesSample(c, ps[0], file);
    OutputFacts(c, t, r, leaves);
    var t1 := r.file.value.tokens;
    var outs := Outputs(c, ps[1..], r.file);
    assert AllOutputs(c, ps, file)[1..] == outs;
    if |ps| == 1 {
      NoOutputs(c, ps[1..], r.file);
      DropNothing();
      assert Stitch(AllOutputs(c, ps, file)) == r.reply.sampled + [];
      GrownIsStream(c, t, t1, if leaves then [c.next(t1)] else []);
    } else {
      StitchedRest(c, t, r, leaves, ps[1..]);
    }
  }

  lemma OneOutput(c: Context, q: Params, file: Option<SessionFile>)
    requires Pieces(c, [q], file)
    ensures Stitch(AllOutputs(c, [q], file)) == Call(c, q, file).reply.sampled
  {
    hide Call;
    var outs := AllOutputs(c, [q], file);
    var none: seq<Params> := [];
    assert [q][1..] == none;
    assert outs == [Call(c, q, file).reply.sampled];
    assert outs[1..] == [];
    DropNothing();
  }

  /** One call and any split of it that samples as much tell the client the same tokens. */
  lemma StitchedIsOneCall(
    c: Context, ps: seq<Params>, file: Option<SessionFile>, q: Params, whole: Option<SessionFile>)
    requires Pieces(c, ps, file) && Pieces(c, [q], whole)
    requires InputTo(c, q, whole) == InputTo(c, ps[0], file)
    requires |Call(c, q, whole).reply.sampled| == |Stitch(AllOutputs(c, ps, file))|
    ensures Call(c, q, whole).reply.sampled == Stitch(AllOutputs(c, ps, file))
  {
    hide Call, Stream, Outputs, InputTo;
    StitchedIsStream(c, ps, file);
    StitchedIsStream(c, [q], whole);
    OneOutput(c, q, whole);
  }
}
