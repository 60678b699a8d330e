/**
 The passes of the decode loop: the states its head can be in, the states between
 the halves of a pass, and that every pass leads nearer the specified end.
 */
module EnginePass {
  import opened Wrappers
  import opened KvMemory
  import opened EngineSpec
  import opened EngineSteps
  import opened EngineClamp

  // ------------------------------------------------------------ the loop as sets of states

  /** The state right before the first pass. */
  function Initial(e: Env): Vars {
    Vars(St(e.plan.base, e.plan.session, 0, 0, e.p.nPredict, e.p.hasPath,
            e.p.hasPath && e.plan.cached < |e.plan.input|, false, [], e.file0), [], 0, 0)
  }

  /** The states of the loop head. */
  ghost function Head(e: Env): iset<Vars> {
    iset v: Vars | e.Valid() && v.st.nEval >= 0 &&
      if v.st.sampled != [] then Waiting(e, v) || (Clamped(e.c, e.plan) && LagWaiting(e, v))
      else if v.embd == [] then v == Initial(e)
      else if Clamped(e.c, e.plan) then FirstWaits(e, v) || LateWaits(e, v)
      else Fetched(e, v)
  }

  /** The states between the halves of a pass. */
  ghost function Due(e: Env): iset<Vars> {
    iset v: Vars | e.Valid() && v.st.nEval >= 0 &&
      if v.nConsumed < |e.plan.input|
      then if Clamped(e.c, e.plan) then AtStart(e, v) || LateDue(e, v) else PromptDue(e, v)
      else SampleDue(e, v) || (Clamped(e.c, e.plan) && LagDue(e, v))
  }

  /** The states the loop may be left in. */
  ghost function Ended(e: Env, why: Why): iset<Vars> {
    iset v: Vars | e.Valid() && Left(e, v, why)
  }

  /** What is left of embd after reuse fits one batch. */
  predicate Fits(c: Context, plan: Plan, v: Vars) {
    && c.Valid() && 0 <= v.nSession <= |v.st.session|
    && var w := Prepare(c, plan, v);
    && |w.embd| <= c.nBatch && w.nSession <= |w.st.session|
  }

  lemma PrepareKeeps(c: Context, plan: Plan, v: Vars)
    requires Fits(c, plan, v)
    ensures var w := Prepare(c, plan, v);
      w.nConsumed == v.nConsumed && |w.embd| <= c.nBatch && 0 <= w.nSession <= |w.st.session|
      && w.st.nEval == v.st.nEval
  {
    hide SeqAdd, SeqRm, Discard;
  }

  lemma PrepareShrinks(c: Context, plan: Plan, v: Vars)
    requires c.Valid() && 0 <= v.nSession <= |v.st.session| && |v.embd| <= c.nBatch
    ensures Fits(c, plan, v)
  {
    hide SeqAdd, SeqRm, Discard;
  }

  /** In every loop head with work in embd, the session has been read up to some point, and embd fits a batch. */
  lemma HeadFits(e: Env, v: Vars)
    requires v in Head(e) && v.embd != []
    ensures e.c.Valid() && 0 <= v.nSession <= |v.st.session| && Fits(e.c, e.plan, v)
  {
    hide Gen, Lag, LagPending, Pending, Fits;
    if Clamped(e.c, e.plan) { ClampingFacts(e); }
    if v.st.sampled == [] && !Clamped(e.c, e.plan) { ChunkReuse(e, v); }
    PrepareShrinks(e.c, e.plan, v);
  }

  /** How much of the session is unread. */
  ghost function Unread(v: Vars): nat {
    if |v.st.session| > v.nSession then |v.st.session| - v.nSession else 0
  }

  /** What the first half of a pass achieves. */
  ghost predicate HalfDone(e: Env, v: Vars, h: Half) {
    if h.why.Some? then h.v in Ended(e, h.why.value)
    else
      && h.v in Due(e) && h.v.nConsumed == v.nConsumed && h.v.st.sampled == v.st.sampled
      && (v.st.sampled != [] ==>
          && v.nConsumed == |e.plan.input|
          && (Unread(h.v) < Unread(v)
              || (Unread(h.v) == Unread(v) && Fuel(e.c, e.p, h.v.st) < PendingFuel(e.c, e.p, v.st))))
  }

  /** The first half of a pass that decodes all of what reuse leaves in embd. */
  lemma HalfOfDecode(c: Context, p: Params, plan: Plan, v: Vars, w: Vars)
    requires c.Valid() && 0 <= v.nSession <= |v.st.session| && !Full(c, v) && w == Prepare(c, plan, v)
    requires w.embd != [] && (p.maxTokens > 0 ==> |w.embd| <= p.maxTokens) && |w.st.mem| + |w.embd| <= c.nCtx
    ensures var x := Recorded(w);
      FirstHalf(c, p, plan, v) == Half(x, if OutOfBudget(p, x.st) then Some(Broke) else None)
  {
    hide Prepare, Full, Recorded, OutOfBudget;
    assert Within(p, w.embd) == w.embd;
    assert w.(embd := w.embd) == w;
  }

  /** A chunk that the session holds. */
  lemma FetchedHeld(e: Env, v: Vars)
    requires e.Plain() && Fetched(e, v) && v.st.sampled == [] && v.nConsumed <= e.plan.reused
    ensures 0 <= v.nSession <= |v.st.session|
    ensures HalfDone(e, v, FirstHalf(e.c, e.p, e.plan, v))
  {
    ChunkReuse(e, v);
    PrepareHeld(e, v);
    hide Prepare, Gen;
    AfterHeld(e, v);
  }

  lemma NewShape(e: Env, v: Vars, n: nat)
    requires e.Plain() && Fetched(e, v) && n <= v.nConsumed && v.st.nEval >= 0
    ensures var w := At(e, v, n);
      && w.st.mem == v.st.mem && |w.embd| == v.nConsumed - n
      && Recorded(w).st.sampled == v.st.sampled && Recorded(w).nConsumed == v.nConsumed && Recorded(w).st.nEval >= 0
  {
  }

  lemma DueAfterChunk(e: Env, v: Vars)
    requires e.Plain() && AfterPass(e, v) && v.st.nEval >= 0
    ensures v in Due(e)
  {
  }

  lemma HalfOfChunk(e: Env, v: Vars, x: Vars, why: Option<Why>)
    requires e.Plain() && v.st.sampled == [] && x.st.sampled == [] && x.nConsumed == v.nConsumed && x.st.nEval >= 0
    requires if why.Some? then Left(e, x, why.value) else AfterPass(e, x)
    ensures HalfDone(e, v, Half(x, why))
  {
    hide Due, AfterPass, Left;
    if why.None? { DueAfterChunk(e, x); }
  }

  /** A chunk of which something is left to decode. */
  lemma FetchedNew(e: Env, v: Vars, n: nat)
    requires e.Plain() && Fetched(e, v) && v.st.sampled == [] && v.nConsumed > e.plan.reused && v.st.nEval >= 0
    requires n == if v.st.nPast <= e.plan.reused then e.plan.reused else v.st.nPast
    ensures 0 <= v.nSession <= |v.st.session|
    ensures HalfDone(e, v, FirstHalf(e.c, e.p, e.plan, v))
  {
    hide AfterPass, Left, Prepare, Full, FirstHalf, Due, HalfDone, OutOfBudget, Recorded, At;
    ChunkReuse(e, v);
    AfterNew(e, v, n);
    NewShape(e, v, n);
    var w := At(e, v, n);
    HalfOfDecode(e.c, e.p, e.plan, v, w);
    HalfOfChunk(e, v, Recorded(w), if OutOfBudget(e.p, Recorded(w).st) then Some(Broke) else None);
  }

  /** A plain chunk of the prompt. */
  lemma FetchedHalf(e: Env, v: Vars)
    requires v in Head(e) && v.embd != [] && v.st.sampled == [] && !Clamped(e.c, e.plan)
    ensures 0 <= v.nSession <= |v.st.session|
    ensures HalfDone(e, v, FirstHalf(e.c, e.p, e.plan, v))
  {
    assert Fetched(e, v);
    hide Head, HalfDone, FirstHalf;
    if v.nConsumed <= e.plan.reused {
      FetchedHeld(e, v);
    } else {
      FetchedNew(e, v, if v.st.nPast <= e.plan.reused then e.plan.reused else v.st.nPast);
    }
  }

  /** A sampled token, with all of the session read. */
  lemma WaitingHalf(e: Env, v: Vars)
    requires v in Head(e) && Waiting(e, v) && v.st.nRemain != 0 && v.st.sampled != [] && Fits(e.c, e.plan, v)
    ensures HalfDone(e, v, FirstHalf(e.c, e.p, e.plan, v))
  {
    AfterWaiting(e, v);
    hide Prepare, Gen, SeqAdd, SeqRm, Discard;
    assert Within(e.p, v.embd) == v.embd;
  }

  /** A chunk of a clamped call. */
  lemma ClampedChunk(e: Env, v: Vars)
    requires Clamping(e) && v.st.sampled == [] && (FirstWaits(e, v) || LateWaits(e, v))
    ensures 0 <= v.nSession <= |v.st.session|
    ensures HalfDone(e, v, FirstHalf(e.c, e.p, e.plan, v))
  {
    hide FirstHalf, Lag, Gen, Prepare, LateChunk, SampleDue, LagDue, Left;
    ClampingFacts(e);
    if FirstWaits(e, v) {
      FirstHalfOfFirst(e, v);
      if First(e) == |e.plan.input| { WholeChunkLags(e); }
    } else {
      FirstHalfOfLate(e, v);
    }
  }

  /** A sampled token of a clamped call, with session tokens unread. */
  lemma ClampedToken(e: Env, v: Vars)
    requires Clamping(e) && v.st.sampled != [] && LagWaiting(e, v) && v.st.nRemain != 0 && v.st.nEval >= 0
    ensures 0 <= v.nSession <= |v.st.session|
    ensures HalfDone(e, v, FirstHalf(e.c, e.p, e.plan, v))
  {
    hide FirstHalf, Lag, LagPending, Gen, Prepare, SampleDue, LagDue, Left;
    FirstHalfOfLag(e, v);
  }

  lemma ClampedHalf(e: Env, v: Vars)
    requires v in Head(e) && v.embd != [] && v.st.nRemain != 0 && Clamped(e.c, e.plan)
    requires !(v.st.sampled != [] && Waiting(e, v))
    ensures 0 <= v.nSession <= |v.st.session|
    ensures HalfDone(e, v, FirstHalf(e.c, e.p, e.plan, v))
  {
    hide HalfDone, FirstHalf, Waiting, LagWaiting, FirstWaits, LateWaits;
    if v.st.sampled != [] { ClampedToken(e, v); } else { ClampedChunk(e, v); }
  }

  /** The first half ends the call as specified, or leaves a due state. */
  lemma HalfEnds(e: Env, v: Vars)
    requires v in Head(e) && v.embd != [] && v.st.nRemain != 0 && Fits(e.c, e.plan, v)
    ensures HalfDone(e, v, FirstHalf(e.c, e.p, e.plan, v))
  {
    hide Due, Ended, FirstHalf, Waiting, HalfDone, Fits;
    if v.st.sampled != [] && Waiting(e, v) {
      WaitingHalf(e, v);
    } else if Clamped(e.c, e.plan) {
      ClampedHalf(e, v);
    } else {
      FetchedHalf(e, v);
    }
  }

  lemma HalfLeft(e: Env, v: Vars)
    requires v.embd != [] && Fits(e.c, e.plan, v) && HalfDone(e, v, FirstHalf(e.c, e.p, e.plan, v))
    ensures var h := FirstHalf(e.c, e.p, e.plan, v);
      h.why.Some? ==> h.v in Ended(e, h.why.value)
  {
    hide FirstHalf, Ended, Due, Fuel, PendingFuel, Prepare;
  }

  /** A read-only call leaves its last chunk out of the session; nothing depends on it. */
  lemma EndedReadOnly(e: Env, v: Vars, w: Vars, why: Why)
    requires v in Ended(e, why) && w.nConsumed == v.nConsumed
    requires w.st == if e.p.readOnly then v.st.(session := w.st.session) else v.st
    ensures w in Ended(e, why)
  {
  }

  /** A due state can fetch, if it is prompt that is due. */
  lemma DueFits(e: Env, v: Vars)
    requires v in Due(e)
    ensures e.c.Valid() && 0 <= v.nConsumed <= |e.plan.input| && Fuel(e.c, e.p, v.st) >= 0
    ensures v.nConsumed < |e.plan.input| ==>
      e.p.maxTokens > 0 ==> v.nConsumed < e.plan.cached + e.p.maxTokens
  {
    hide Lag, Gen;
    if Clamped(e.c, e.plan) { ClampingFacts(e); }
  }

  /** What Supply does: one sample, or more prompt up to w.nConsumed. */
  ghost predicate Supplied(e: Env, v: Vars, w: Vars) {
    if v.nConsumed >= |e.plan.input| then
      w == v.(embd := [e.c.next(Toks(v.st.mem))], st := Sample(e.c, e.p, v.st))
    else
      && 0 <= v.nConsumed < w.nConsumed <= |e.plan.input|
      && w.embd == e.plan.input[v.nConsumed..w.nConsumed] && |w.embd| <= e.c.nBatch
      && (e.p.maxTokens > 0 ==> w.nConsumed <= e.plan.cached + e.p.maxTokens)
      && (|w.embd| == e.c.nBatch || w.nConsumed == |e.plan.input|
          || (e.p.maxTokens > 0 && w.nConsumed == e.plan.cached + e.p.maxTokens))
      && w == v.(embd := w.embd, nConsumed := w.nConsumed, st := v.st.(eog := w.st.eog))
      && w.st.eog == (v.st.eog || (w.nConsumed == |e.plan.input| && e.c.isEog(w.embd[|w.embd| - 1])))
  }

  /** What a sample supplies. */
  lemma SampleSupplied(e: Env, v: Vars, w: Vars)
    requires v.nConsumed >= |e.plan.input|
    requires var id := e.c.next(Toks(v.st.mem));
      && w == v.(embd := [id], st := Sample(e.c, e.p, v.st).(eog := w.st.eog))
      && w.st.eog == (v.st.eog || e.c.isEog(id))
    ensures Supplied(e, v, w)
  {
  }

  /** What fetching supplies. */
  lemma FetchSupplied(e: Env, v: Vars, w: Vars)
    requires 0 <= v.nConsumed < w.nConsumed <= |e.plan.input|
    requires w.embd == e.plan.input[v.nConsumed..w.nConsumed] && |w.embd| <= e.c.nBatch
    requires e.p.maxTokens > 0 ==> w.nConsumed <= e.plan.cached + e.p.maxTokens
    requires |w.embd| == e.c.nBatch || w.nConsumed == |e.plan.input|
      || (e.p.maxTokens > 0 && w.nConsumed == e.plan.cached + e.p.maxTokens)
    requires w == v.(embd := w.embd, nConsumed := w.nConsumed, st := v.st.(eog := w.st.eog))
    requires w.st.eog == (v.st.eog || (w.nConsumed == |e.plan.input| && e.c.isEog(w.embd[|w.embd| - 1])))
    ensures Supplied(e, v, w)
  {
  }

  /** After a sample. */
  lemma SampledStarts(e: Env, v: Vars, w: Vars)
    requires v in Due(e) && Supplied(e, v, w) && v.nConsumed >= |e.plan.input|
    ensures w in Head(e) && w.embd != [] && w.st.sampled != []
    ensures PendingFuel(e.c, e.p, w.st) == Fuel(e.c, e.p, v.st) && Unread(w) == Unread(v)
  {
    hide Gen, Lag, LagPending, Pending;
    var id := e.c.next(Toks(v.st.mem));
    if SampleDue(e, v) { AfterSample(e, v, id); } else { LagSamples(e, v, id); }
  }

  /** After more prompt, in a clamped call. */
  lemma ClampedFetchStarts(e: Env, v: Vars, w: Vars)
    requires v in Due(e) && Supplied(e, v, w) && v.nConsumed < |e.plan.input| && Clamped(e.c, e.plan)
    ensures w in Head(e) && w.embd != [] && w.st.sampled == [] && w.nConsumed > v.nConsumed
  {
    ClampingFacts(e);
    hide Gen, Lag;
    if AtStart(e, v) {
      assert w.nConsumed == First(e);
      assert FirstWaits(e, w);
    } else {
      assert w.nConsumed == |e.plan.input|;
      assert w.embd == LateChunk(e.c, e.plan);
      assert LateWaits(e, w);
    }
  }

  /** The second half leaves a loop head nearer the end. */
  lemma SuppliedStarts(e: Env, v: Vars, w: Vars)
    requires v in Due(e) && Supplied(e, v, w)
    ensures w in Head(e) && w.embd != []
    ensures v.nConsumed >= |e.plan.input| ==>
      && w.st.sampled != [] && PendingFuel(e.c, e.p, w.st) == Fuel(e.c, e.p, v.st) && Unread(w) == Unread(v)
    ensures v.nConsumed < |e.plan.input| ==> w.st.sampled == [] && w.nConsumed > v.nConsumed
  {
    if v.nConsumed >= |e.plan.input| {
      hide Head, Due;
      SampledStarts(e, v, w);
    } else if Clamped(e.c, e.plan) {
      hide Head, Due;
      ClampedFetchStarts(e, v, w);
    }
  }

  /** Prompt tokens to fetch come first, then session tokens to read. */
  ghost function Rank(e: Env, v: Vars): nat {
    if v.st.sampled != [] || v.nConsumed > |e.plan.input| then Unread(v)
    else e.c.nCtx + 1 + |e.plan.input| - v.nConsumed
  }

  /** The variables between the halves of a pass that does not leave the loop. */
  function Middle(e: Env, v: Vars): Vars
    requires v.embd != [] ==> e.c.Valid() && 0 <= v.nSession <= |v.st.session|
  {
    if v.embd == [] then v else FirstHalf(e.c, e.p, e.plan, v).v
  }

  /** The fuel of a loop head, once generation has started. */
  ghost function Countdown(e: Env, v: Vars): nat {
    if PendingFuel(e.c, e.p, v.st) > 0 then PendingFuel(e.c, e.p, v.st) else 0
  }

  /** A loop head is followed by one that is closer to the end of the call. */
  ghost predicate Closer(e: Env, v: Vars, w: Vars) {
    Rank(e, w) < Rank(e, v) || (Rank(e, w) == Rank(e, v) && Countdown(e, w) < Countdown(e, v))
  }

  lemma InitialIsDue(e: Env, v: Vars)
    requires v in Head(e) && v.embd == []
    ensures v == Initial(e) && v in Due(e)
  {
    if Clamped(e.c, e.plan) { ClampingFacts(e); }
    assert e.plan.input[0..0] == [];
  }

  lemma MiddleIsDue(e: Env, v: Vars)
    requires v in Head(e) && v.st.nRemain != 0
    requires v.embd != [] ==> Fits(e.c, e.plan, v) && FirstHalf(e.c, e.p, e.plan, v).why == None
    ensures Middle(e, v) in Due(e) && Middle(e, v).nConsumed == v.nConsumed
    ensures e.c.Valid() && 0 <= v.nConsumed <= |e.plan.input|
    ensures v.nConsumed < |e.plan.input| ==>
      e.p.maxTokens > 0 ==> v.nConsumed < e.plan.cached + e.p.maxTokens
  {
    if v.embd != [] {
      hide Head, Due, FirstHalf;
      HalfEnds(e, v);
    } else {
      InitialIsDue(e, v);
    }
    hide Head, Due, FirstHalf;
    DueFits(e, Middle(e, v));
  }

  /** Tokens are counted up, and sampling only ever follows a session shorter than the context, or one that is read. */
  lemma HeadUnread(e: Env, v: Vars)
    requires v in Head(e)
    ensures v.st.nEval >= 0
    ensures v.st.sampled != [] ==> Unread(v) < e.c.nCtx
  {
  }

  lemma PassLaw(e: Env, v: Vars, w: Vars)
    requires v in Head(e) && v.st.nRemain != 0
    requires v.embd != [] ==> Fits(e.c, e.plan, v) && FirstHalf(e.c, e.p, e.plan, v).why == None
    requires Supplied(e, Middle(e, v), w)
    ensures w in Head(e) && w.st.nEval >= 0 && w.embd != [] && Closer(e, v, w)
  {
    MiddleIsDue(e, v);
    DueFits(e, Middle(e, v));
    SuppliedStarts(e, Middle(e, v), w);
    HeadUnread(e, w);
    if v.embd != [] {
      HalfEnds(e, v);
    } else {
      InitialIsDue(e, v);
    }
    hide Head, Due, FirstHalf, Fits, Fuel, PendingFuel, Supplied;
  }

  /** The loop exits at its guard only with a sampled token left in embd. */
  lemma HeadAtZero(e: Env, v: Vars)
    requires v in Head(e) && v.st.nRemain == 0
    ensures v in Ended(e, NoRemain)
  {
    hide Gen, Lag;
    if Clamped(e.c, e.plan) && v.st.sampled != [] && LagWaiting(e, v) {
      LagLeaves(e, v);
    }
  }

  lemma InitialIsHead(e: Env)
    requires e.Valid()
    ensures Initial(e) in Head(e) && Initial(e).st.nEval == 0
  {
  }

  /** How many prompt tokens the first pass fetches. */
  function FirstChunk(c: Context, p: Params, plan: Plan): nat {
    if p.maxTokens > 0 && plan.cached + p.maxTokens < FirstBatch(c, plan)
    then plan.cached + p.maxTokens else FirstBatch(c, plan)
  }

  /** The clamp cuts the first chunk exactly in calls that resume a long session under a long batch. */
  lemma ClampCutsIff(c: Context, p: Params, file: Option<SessionFile>)
    requires c.Valid() && Usable(c, file) && Rejected(c, p, file).None?
    ensures var plan := PlanOf(c, p, file);
      && (FirstChunk(c, p, plan) > c.nCtx - 4 <==> Clamped(c, plan))
      && (Clamped(c, plan) <==>
          Resumes(p, file) && |LoadedSession(p, file)| > c.nCtx - 4 && c.nBatch > c.nCtx - 4)
  {
    PlanIsValid(c, p, file);
  }

  lemma EnvIsValid(c: Context, p: Params, file: Option<SessionFile>)
    requires c.Valid() && p.Bounded(c) && Usable(c, file) && Rejected(c, p, file).None?
    ensures Env(c, p, PlanOf(c, p, file), file).Valid()
  {
    PlanIsValid(c, p, file);
  }

  /** What the call leaves behind, from the state the loop was left in. */
  lemma CallOfGoal(e: Env)
    requires e.c.Valid() && e.p.Bounded(e.c) && Usable(e.c, e.file0)
    requires Rejected(e.c, e.p, e.file0).None? && e.plan == PlanOf(e.c, e.p, e.file0)
    ensures e.Valid() && e.plan.cached <= |e.plan.input|
    ensures Call(e.c, e.p, e.file0) == CallResult(
      if e.Goal().why == DecodeFailed then ErrorReply(1, e.Goal().st.eog, e.Goal().st.sampled)
      else OkReply(e.p, e.plan, e.Goal()),
      FinalFile(e.p, e.Goal()))
    ensures e.p.maxTokens > 0 ==> e.Goal().st.nEval <= e.p.maxTokens
  {
    EnvIsValid(e.c, e.p, e.file0);
    hide Outcome;
    if e.p.maxTokens > 0 { OutcomeWithinBudget(e.c, e.p, e.plan, e.file0); }
  }

  lemma EndedIsCall(e: Env, v: Vars, why: Why)
    requires e.c.Valid() && e.p.Bounded(e.c) && Usable(e.c, e.file0)
    requires Rejected(e.c, e.p, e.file0).None? && e.plan == PlanOf(e.c, e.p, e.file0)
    requires v in Ended(e, why)
    ensures var r := Call(e.c, e.p, e.file0);
      && r.file == (if why != DecodeFailed && v.st.path && !e.p.readOnly
                    then Some(SessionFile(v.st.session, v.st.mem)) else v.st.file)
      && r.reply == if why == DecodeFailed then ErrorReply(1, v.st.eog, v.st.sampled)
         else Reply(0, |e.plan.input|, e.plan.cached, v.nConsumed - e.plan.cached,
                    v.st.nEval - (v.nConsumed - e.plan.cached), |e.plan.input| - v.nConsumed,
                    v.st.eog, v.st.sampled)
    ensures e.p.maxTokens > 0 ==> v.st.nEval <= e.p.maxTokens
  {
    hide Call, Outcome, Usable, Rejected, PlanOf, Consumed;
    CallOfGoal(e);
  }

  lemma RejectedIsCall(c: Context, p: Params, file: Option<SessionFile>)
    requires c.Valid() && p.Bounded(c) && Usable(c, file) && Rejected(c, p, file).Some?
    ensures Call(c, p, file) == CallResult(ErrorReply(Rejected(c, p, file).value, false, []), file)
    ensures Rejected(c, p, file).value != 0
  {
  }

  lemma PlanOfLoaded(c: Context, p: Params, file: Option<SessionFile>)
    ensures PlanOf(c, p, file) == MakePlan(c, p, LoadedSession(p, file), LoadedMem(p, file))
  {
  }
}
