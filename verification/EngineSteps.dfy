/**
 The invariant of the decode loop, on values: which states the loop head can be
 in, and what each half of a pass does to them. The object in module Engine
 carries these facts from pass to pass.
 */
module EngineSteps {
  import opened Wrappers
  import opened KvMemory
  import opened EngineSpec

  /** All variables of the loop. */
  datatype Vars = Vars(st: St, embd: seq<Token>, nConsumed: int, nSession: int)

  /** The fixed surroundings of one call; file0 is the session file it started from. */
  datatype Env = Env(c: Context, p: Params, plan: Plan, file0: Option<SessionFile>) {
    ghost predicate Valid() {
      && c.Valid() && p.Bounded(c) && plan.Valid(c)
      && Contiguous(plan.base) && |plan.base| == plan.cached
      && (!p.hasPath ==> plan.session == [])
    }

    /** No chunk of the prompt is cut by the clamp on embd. */
    ghost predicate Plain() { Valid() && !Clamped(c, plan) }

    ghost function Goal(): End
      requires Valid()
    {
      Outcome(c, p, plan, file0)
    }
  }

  /** The variables when exactly the prompt tokens before n have been taken, and none is due. */
  ghost predicate TakenTo(e: Env, v: Vars, n: int)
    requires e.Valid()
  {
    var r := e.plan.reused;
    && 0 <= n <= |e.plan.input|
    && v.st.nPast == n
    && v.st.path == e.p.hasPath
    && v.st.needSave == (e.p.hasPath && e.plan.cached < |e.plan.input|)
    && v.st.nRemain == e.p.nPredict && v.st.sampled == [] && v.st.file == e.file0
    && (n <= r ==>
      v.st.mem == e.plan.base && v.st.session == e.plan.session && v.nSession == n && v.st.nEval == 0)
    && (n > r ==>
      && v.st.mem == KvMemory.Decode(e.plan.base, e.plan.input[r..n])
      && v.st.session == (if e.p.hasPath then e.plan.input[..n] else [])
      && v.nSession == |v.st.session| && v.st.nEval == n - r)
  }

  /** The eog flag: raised once the whole prompt has been fetched and its last token ends a generation. */
  ghost predicate EogFits(e: Env, v: Vars)
    requires e.Valid()
  {
    v.st.eog == (v.nConsumed == |e.plan.input| && e.c.isEog(e.plan.input[|e.plan.input| - 1]))
  }

  /** More prompt is due. */
  ghost predicate PromptDue(e: Env, v: Vars)
    requires e.Valid()
  {
    && v.nConsumed < |e.plan.input| && TakenTo(e, v, v.nConsumed) && EogFits(e, v)
    && (e.p.maxTokens > 0 ==> v.nConsumed < e.plan.cached + e.p.maxTokens)
  }

  /** The loop head with fetched prompt tokens waiting in embd. */
  ghost predicate Fetched(e: Env, v: Vars)
    requires e.Valid()
  {
    && 0 <= v.st.nPast < v.nConsumed <= |e.plan.input|
    && TakenTo(e, v, v.st.nPast) && EogFits(e, v)
    && v.embd == e.plan.input[v.st.nPast..v.nConsumed] && |v.embd| <= e.c.nBatch
    && (e.p.maxTokens > 0 ==>
        v.nConsumed <= e.plan.cached + e.p.maxTokens && v.st.nEval < e.p.maxTokens)
  }

  /** A sample is due, and finishing from here gives the specified end. */
  ghost predicate SampleDue(e: Env, v: Vars)
    requires e.Valid()
  {
    && v.nConsumed == |e.plan.input| == Consumed(e.p, e.plan)
    && v.nSession == |v.st.session|
    && Live(e.c, e.p, v.st)
    && Gen(e.c, e.p, e.plan, v.st) == e.Goal()
  }

  /** The loop head with a sampled token waiting in embd. */
  ghost predicate Waiting(e: Env, v: Vars)
    requires e.Valid()
  {
    && v.nConsumed == |e.plan.input| == Consumed(e.p, e.plan)
    && v.nSession == |v.st.session| && |v.embd| == 1
    && LivePending(e.c, e.p, v.st)
    && Pending(e.c, e.p, e.plan, v.st, v.embd[0]) == e.Goal()
  }

  /** The loop has been left; a read-only call keeps its last chunk out of session_tokens. */
  ghost predicate Left(e: Env, v: Vars, why: Why)
    requires e.Valid()
  {
    && v.nConsumed == Consumed(e.p, e.plan)
    && e.Goal().why == why
    && e.Goal().st == if e.p.readOnly then v.st.(session := e.Goal().st.session) else v.st
  }

  // ------------------------------------------------------------ halves of a pass

  predicate Full(c: Context, v: Vars) {
    v.st.nPast + (if |v.embd| > c.nCtx - 4 then c.nCtx - 4 else |v.embd|) >= c.nCtx
  }

  /** Clamp embd; shift the context if it is full. */
  function Room(c: Context, plan: Plan, v: Vars): Vars
    requires c.Valid()
  {
    v.(embd := if |v.embd| > c.nCtx - 4 then v.embd[..c.nCtx - 4] else v.embd,
       st := if Full(c, v) then Shift(plan, v.st) else v.st)
  }

  /** Take from embd what the session already holds; a mismatch cuts the session there. */
  function Reuse(v: Vars): Vars
    requires 0 <= v.nSession <= |v.st.session|
  {
    var j := Lcp(v.embd, v.st.session[v.nSession..]);
    v.(
      embd := v.embd[j..],
      nSession := v.nSession + j,
      st := v.st.(
        nPast := v.st.nPast + j,
        session := if j < |v.embd| && v.nSession + j < |v.st.session|
                   then v.st.session[..v.nSession + j] else v.st.session))
  }

  /** Reuse, told field by field. */
  lemma IsReuse(v: Vars, w: Vars, j: nat)
    requires 0 <= v.nSession <= |v.st.session|
    requires j == Lcp(v.embd, v.st.session[v.nSession..])
    requires w.embd == v.embd[j..] && w.nSession == v.nSession + j && w.nConsumed == v.nConsumed
    requires w.st == v.st.(nPast := v.st.nPast + j, session := w.st.session)
    requires w.st.session == if j < |v.embd| && v.nSession + j < |v.st.session|
                             then v.st.session[..v.nSession + j] else v.st.session
    ensures w == Reuse(v)
  {
  }

  function Prepare(c: Context, plan: Plan, v: Vars): Vars
    requires c.Valid() && 0 <= v.nSession <= |v.st.session|
  {
    Reuse(Room(c, plan, v))
  }

  /** Decode embd and record it in the session. */
  function Recorded(v: Vars): Vars {
    var st := DecodeIds(v.st, v.embd);
    v.(st := st, nSession := if v.st.path then |st.session| else v.nSession)
  }

  /** The first half of a pass as a function: the new variables, and the reason to leave if there is one. */
  datatype Half = Half(v: Vars, why: Option<Why>)

  function FirstHalf(c: Context, p: Params, plan: Plan, v: Vars): Half
    requires c.Valid() && 0 <= v.nSession <= |v.st.session|
  {
    if Full(c, v) && p.StopsWhenFull() then Half(v, Some(ContextFull))
    else
      var w := Prepare(c, plan, v);
      if w.embd == [] then Half(w, None)
      else
        var part := Within(p, w.embd);
        if |w.st.mem| + |part| > c.nCtx then Half(w, Some(DecodeFailed))
        else
          var x := Recorded(w.(embd := part));
          Half(x, if OutOfBudget(p, x.st) then Some(Broke) else None)
  }

  lemma LcpIs(a: seq<Token>, b: seq<Token>, i: nat)
    requires i <= |a| && i <= |b| && forall k :: 0 <= k < i ==> a[k] == b[k]
    requires i < |a| && i < |b| ==> a[i] != b[i]
    ensures Lcp(a, b) == i
  {
    var m := Lcp(a, b);
    forall k | 0 <= k < m ensures a[k] == b[k] {
      assert a[..m][k] == b[..m][k];
    }
  }

  /** How much of a fetched chunk the session already holds. */
  lemma ChunkReuse(e: Env, v: Vars)
    requires e.Plain() && Fetched(e, v)
    ensures 0 <= v.nSession <= |v.st.session| && !Full(e.c, v) && |v.embd| <= e.c.nCtx - 4
    ensures Lcp(v.embd, v.st.session[v.nSession..]) ==
            if v.nConsumed <= e.plan.reused then v.nConsumed - v.st.nPast
            else if v.st.nPast <= e.plan.reused then e.plan.reused - v.st.nPast
            else 0
  {
    var r, n0, n1 := e.plan.reused, v.st.nPast, v.nConsumed;
    var b := v.st.session[v.nSession..];
    if n0 <= r {
      var i := (if r < n1 then r else n1) - n0;
      forall k | 0 <= k < i ensures v.embd[k] == b[k] {
        assert e.plan.input[..r][n0 + k] == e.plan.session[..r][n0 + k];
      }
      LcpIs(v.embd, b, i);
    } else {
      LcpIs(v.embd, b, 0);
    }
  }

  /** A chunk the session holds entirely is taken without decoding. */
  lemma PrepareHeld(e: Env, v: Vars)
    requires e.Plain() && Fetched(e, v) && v.nConsumed <= e.plan.reused
    ensures 0 <= v.nSession <= |v.st.session|
    ensures Prepare(e.c, e.plan, v)
         == v.(embd := [], nSession := v.nConsumed, st := v.st.(nPast := v.nConsumed))
  {
    ChunkReuse(e, v);
  }

  /** The state from which the rest of a chunk is decoded: n prompt tokens are in the memory and the session. */
  function At(e: Env, v: Vars, n: nat): Vars
    requires n <= v.nConsumed <= |e.plan.input|
  {
    v.(embd := e.plan.input[n..v.nConsumed],
       nSession := if e.p.hasPath then n else 0,
       st := v.st.(nPast := n, session := if e.p.hasPath then e.plan.input[..n] else []))
  }

  lemma SliceOfSlice(xs: seq<Token>, lo: nat, mid: nat, hi: nat)
    requires lo <= mid <= hi <= |xs|
    ensures xs[lo..hi][mid - lo..] == xs[mid..hi]
  {
  }

  /** What the fetched variables are made of, up to the end of the held prefix. */
  lemma CrossingFacts(e: Env, v: Vars)
    requires e.Plain() && Fetched(e, v) && v.st.nPast <= e.plan.reused < v.nConsumed
    ensures var r, n0, n1 := e.plan.reused, v.st.nPast, v.nConsumed;
      && v.nSession == n0 && v.st.session == e.plan.session && v.embd == e.plan.input[n0..n1]
      && 0 <= n0 <= r < n1 <= |e.plan.input| && r <= |v.st.session|
      && v.st.session[..r] == e.plan.input[..r]
      && (!e.p.hasPath ==> r == 0 && v.st.session == [])
  {
    hide KvMemory.Decode, Clamped;
  }

  lemma RoomIsFree(e: Env, v: Vars)
    requires e.Plain() && Fetched(e, v)
    ensures e.c.Valid() && Room(e.c, e.plan, v) == v
  {
    hide Shift, TakenTo, EogFits;
    ChunkReuse(e, v);
  }

  /** Of a chunk that crosses the end of the held prefix, the part after it is left to decode. */
  lemma PrepareCrossing(e: Env, v: Vars)
    requires e.Plain() && Fetched(e, v) && v.st.nPast <= e.plan.reused < v.nConsumed
    ensures 0 <= v.nSession <= |v.st.session|
    ensures Prepare(e.c, e.plan, v) == At(e, v, e.plan.reused)
  {
    hide Lcp, Fetched, Shift, Full, Env.Plain;
    CrossingFacts(e, v);
    ChunkReuse(e, v);
    RoomIsFree(e, v);
    var r := e.plan.reused;
    SliceOfSlice(e.plan.input, v.st.nPast, r, v.nConsumed);
    assert r == |v.st.session| ==> v.st.session == e.plan.input[..r];
  }

  /** A chunk past the held prefix is left whole. */
  lemma PreparePast(e: Env, v: Vars)
    requires e.Plain() && Fetched(e, v) && v.st.nPast > e.plan.reused
    ensures 0 <= v.nSession <= |v.st.session|
    ensures Prepare(e.c, e.plan, v) == At(e, v, v.st.nPast)
  {
    ChunkReuse(e, v);
  }

  /** Decoding the rest of a chunk extends the memory by exactly that chunk. */
  lemma ChunkMemory(e: Env, v: Vars, n: nat)
    requires e.Plain() && Fetched(e, v)
    requires n == if v.st.nPast <= e.plan.reused then e.plan.reused else v.st.nPast
    requires n < v.nConsumed
    ensures KvMemory.Decode(v.st.mem, e.plan.input[n..v.nConsumed])
         == KvMemory.Decode(e.plan.base, e.plan.input[e.plan.reused..v.nConsumed])
    ensures |v.st.mem| + v.nConsumed - n <= e.c.nCtx
  {
    var r, n1 := e.plan.reused, v.nConsumed;
    if v.st.nPast > r {
      DecodeInTwo(e.plan.base, e.plan.input[r..n], e.plan.input[n..n1]);
      assert e.plan.input[r..n] + e.plan.input[n..n1] == e.plan.input[r..n1];
    }
  }

  /** Decoding the rest of a chunk takes the prompt to the end of the chunk. */
  lemma RecordedTakes(e: Env, v: Vars, n: nat)
    requires e.Plain() && Fetched(e, v)
    requires n == if v.st.nPast <= e.plan.reused then e.plan.reused else v.st.nPast
    requires n < v.nConsumed
    ensures TakenTo(e, Recorded(At(e, v, n)), v.nConsumed)
  {
    ChunkMemory(e, v, n);
    var x := Recorded(At(e, v, n));
    assert x.st.session == if e.p.hasPath then e.plan.input[..v.nConsumed] else [];
    assert x.nSession == |x.st.session|;
    assert x.st.nEval == v.nConsumed - e.plan.reused;
  }

  /** Taking prompt tokens up to where the call is meant to get gives the closed form. */
  lemma TakenIsPrefill(e: Env, v: Vars)
    requires e.Valid() && TakenTo(e, v, v.nConsumed) && EogFits(e, v)
    requires v.nConsumed == Consumed(e.p, e.plan)
    ensures v.st == Prefill(e.c, e.p, e.plan, e.file0)
    ensures v.nConsumed == |e.plan.input| ==> v.nSession == |v.st.session|
  {
    var n := v.nConsumed;
    if n <= e.plan.reused {
      assert e.plan.input[n..n] == [];
      assert KvMemory.Decode(e.plan.base, []) == e.plan.base;
      assert e.plan.session[..e.plan.reused] == e.plan.input[..n];
    }
  }

  /** More prompt is due, or the first sample. */
  ghost predicate AfterPass(e: Env, v: Vars)
    requires e.Valid()
  {
    if v.nConsumed < |e.plan.input| then PromptDue(e, v) else SampleDue(e, v)
  }

  /** After a chunk of the prompt: the specified stop, more prompt, or the first sample. */
  lemma AfterChunk(e: Env, x: Vars)
    requires e.Plain() && TakenTo(e, x, x.nConsumed) && EogFits(e, x) && x.nConsumed > 0
    requires e.p.maxTokens > 0 ==>
      x.nConsumed <= e.plan.cached + e.p.maxTokens && x.st.nEval <= e.p.maxTokens
    ensures x.st.nEval > 0 && OutOfBudget(e.p, x.st) ==> Left(e, x, Broke)
    ensures !(x.st.nEval > 0 && OutOfBudget(e.p, x.st)) ==>
      AfterPass(e, x)
  {
    if (x.st.nEval > 0 && OutOfBudget(e.p, x.st)) || x.nConsumed == |e.plan.input| {
      assert x.nConsumed == Consumed(e.p, e.plan);
      TakenIsPrefill(e, x);
    }
  }

  /** A chunk the session holds leaves nothing to decode. */
  lemma AfterHeld(e: Env, v: Vars)
    requires e.Plain() && Fetched(e, v) && v.nConsumed <= e.plan.reused
    ensures 0 <= v.nSession <= |v.st.session|
    ensures var w := Prepare(e.c, e.plan, v);
      w.embd == [] && w.nConsumed == v.nConsumed && w.st.sampled == [] && AfterPass(e, w)
  {
    PrepareHeld(e, v);
    AfterChunk(e, Prepare(e.c, e.plan, v));
  }

  lemma ChunkCounts(e: Env, v: Vars, n: nat)
    requires e.Plain() && Fetched(e, v) && v.nConsumed > e.plan.reused
    requires n == if v.st.nPast <= e.plan.reused then e.plan.reused else v.st.nPast
    requires n < v.nConsumed
    ensures e.p.maxTokens > 0 ==> v.nConsumed - n <= e.p.maxTokens
    ensures var x := Recorded(At(e, v, n));
      && EogFits(e, x) && x.nConsumed == v.nConsumed && v.st.mem == At(e, v, n).st.mem
      && (e.p.maxTokens > 0 ==> x.nConsumed <= e.plan.cached + e.p.maxTokens && x.st.nEval <= e.p.maxTokens)
  {
  }

  /** Any other chunk fits its batch and its budget, and decoding the rest ends the pass as it should. */
  lemma AfterNew(e: Env, v: Vars, n: nat)
    requires e.Plain() && Fetched(e, v) && v.nConsumed > e.plan.reused
    requires n == if v.st.nPast <= e.plan.reused then e.plan.reused else v.st.nPast
    ensures 0 <= v.nSession <= |v.st.session|
    ensures Prepare(e.c, e.plan, v) == At(e, v, n) && |At(e, v, n).embd| > 0
    ensures |v.st.mem| + |At(e, v, n).embd| <= e.c.nCtx
    ensures e.p.maxTokens > 0 ==> v.nConsumed - n <= e.p.maxTokens
    ensures var x := Recorded(At(e, v, n));
      if OutOfBudget(e.p, x.st) then Left(e, x, Broke) else AfterPass(e, x)
  {
    hide Prepare, TakenTo, AfterPass, Left, KvMemory.Decode;
    ChunkReuse(e, v);
    if v.st.nPast <= e.plan.reused { PrepareCrossing(e, v); } else { PreparePast(e, v); }
    ChunkMemory(e, v, n);
    RecordedTakes(e, v, n);
    ChunkCounts(e, v, n);
    AfterChunk(e, Recorded(At(e, v, n)));
  }

  // ------------------------------------------------------------ a sampled token

  /** A waiting token is carried past a possible shift unreused. */
  lemma PrepareWaiting(c: Context, plan: Plan, v: Vars)
    requires c.Valid() && v.nSession == |v.st.session| && |v.embd| == 1
    ensures Prepare(c, plan, v) == v.(st := if Full(c, v) then Shift(plan, v.st) else v.st)
  {
    hide SeqAdd, SeqRm, Discard;
    var w := Room(c, plan, v);
    assert w.st.session[w.nSession..] == [];
    assert Lcp(v.embd, []) == 0;
    assert v.embd == [v.embd[0]];
  }

  /** A waiting token meets a full context, or is decoded behind a possible shift. */
  lemma AfterWaiting(e: Env, v: Vars)
    requires e.Valid() && Waiting(e, v) && v.st.nRemain != 0
    ensures Full(e.c, v) && e.p.StopsWhenFull() ==> Left(e, v, ContextFull)
    ensures !(Full(e.c, v) && e.p.StopsWhenFull()) ==>
      var w := Prepare(e.c, e.plan, v);
      && w == v.(st := if Full(e.c, v) then Shift(e.plan, v.st) else v.st)
      && if |w.st.mem| + 1 > e.c.nCtx then Left(e, w, DecodeFailed)
         else var x := Recorded(w);
           if OutOfBudget(e.p, x.st) then Left(e, x, Broke) else SampleDue(e, x)
  {
    hide Prepare, Gen;
    PrepareWaiting(e.c, e.plan, v);
    assert v.embd == [v.embd[0]];
  }

  /** Sampling leaves the token waiting. */
  lemma AfterSample(e: Env, v: Vars, id: Token)
    requires e.Valid() && SampleDue(e, v) && id == e.c.next(Toks(v.st.mem))
    ensures Waiting(e, v.(embd := [id], st := Sample(e.c, e.p, v.st)))
  {
  }
}
