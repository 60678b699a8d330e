/**
 The budgeted decode loop of main_, as the object it works on: the persisted
 context and session file, and the variables of one call.
 */
module Engine {
  import opened Wrappers
  import opened KvMemory
  import opened EngineSpec
  import opened EngineSteps
  import opened EnginePass

  function Sum(xs: seq<int>): int {
    if xs == [] then 0 else Sum(xs[..|xs| - 1]) + xs[|xs| - 1]
  }

  lemma SumAppend(xs: seq<int>, x: int)
    ensures Sum(xs + [x]) == Sum(xs) + x
  {
    assert (xs + [x])[..|xs|] == xs;
  }

  class Canister {
    const c: Context

    // carried between calls
    var file: Option<SessionFile>

    // one call
    var p: Params
    var plan: Plan
    var mem: Memory
    var session: seq<Token>
    var embd: seq<Token>
    var nPast: int
    var nConsumed: int
    var nSession: int
    var nEval: int
    var nRemain: int
    var path: bool
    var needSave: bool
    var eog: bool
    var sampled: seq<Token>

    ghost var batches: seq<int>            // the size of every llama_decode of this call
    ghost var file0: Option<SessionFile>   // the session file the call started from

    constructor (c: Context)
      requires c.Valid()
      ensures this.c == c && file == None
    {
      this.c := c;
      file := None;
      p := Params(true, [], 0, 1, 0, false, false, true);
      plan := Plan([], 0, 0, [], [], 0);
      mem, session, embd, sampled, batches := [], [], [], [], [];
      nPast, nConsumed, nSession, nEval, nRemain := 0, 0, 0, 0, 0;
      path, needSave, eog := false, false, false;
      file0 := None;
    }

    function Now(): St
      reads this
    {
      St(mem, session, nPast, nEval, nRemain, path, needSave, eog, sampled, file)
    }

    function Vars(): EngineSteps.Vars
      reads this
    {
      EngineSteps.Vars(Now(), embd, nConsumed, nSession)
    }

    ghost function Env(): EngineSteps.Env
      reads this
    {
      EngineSteps.Env(c, p, plan, file0)
    }

    /** Every llama_decode got between 1 and n_batch tokens, and they add up to n_eval_total. */
    ghost predicate BatchesFit()
      reads this
    {
      && Sum(batches) == nEval
      && forall i :: 0 <= i < |batches| ==> 1 <= batches[i] <= c.nBatch
    }

    // ---------------------------------------------------------- parts of one pass

    /** Makes room in a full context, or reports that the call stops there. */
    method MakeRoom() returns (stop: bool)
      requires c.Valid()
      modifies this`embd, this`mem, this`nPast, this`path
      ensures stop == (Full(c, old(Vars())) && p.StopsWhenFull())
      ensures embd == if |old(embd)| > c.nCtx - 4 then old(embd)[..c.nCtx - 4] else old(embd)
      ensures stop || !Full(c, old(Vars())) ==> mem == old(mem) && nPast == old(nPast) && path == old(path)
      ensures !stop && Full(c, old(Vars())) ==>
        var d := Discard(plan, old(nPast));
        && mem == SeqAdd(SeqRm(old(mem), plan.keep, plan.keep + d), plan.keep + d, old(nPast), -d)
        && nPast == old(nPast) - d && !path
    {
      if |embd| > c.nCtx - 4 {
        embd := embd[..c.nCtx - 4];
      }
      stop := false;
      if nPast + |embd| >= c.nCtx {
        if p.StopsWhenFull() {
          return true;
        }
        var nLeft := nPast - plan.keep;
        var nDiscard := HalfTowardZero(nLeft);
        mem := SeqRm(mem, plan.keep, plan.keep + nDiscard);
        mem := SeqAdd(mem, plan.keep + nDiscard, nPast, -nDiscard);
        nPast := nPast - nDiscard;
        path := false;
      }
    }

    /** Takes from embd what the loaded session already holds. */
    method TakeHeld()
      requires 0 <= nSession <= |session|
      modifies this`embd, this`session, this`nPast, this`nSession
      ensures var j := Lcp(old(embd), old(session)[old(nSession)..]);
        && nPast == old(nPast) + j && nSession == old(nSession) + j
        && embd == old(embd)[j..]
        && session == (if j < |old(embd)| && nSession < |old(session)|
                       then old(session)[..nSession] else old(session))
    {
      ghost var rest := session[nSession..];
      if nSession < |session| {
        var i := 0;
        while i < |embd|
          invariant 0 <= i <= |embd| && i < |rest|
          invariant nSession == old(nSession) + i && nPast == old(nPast) + i
          invariant embd == old(embd) && session == old(session)
          invariant forall k :: 0 <= k < i ==> embd[k] == rest[k]
        {
          if embd[i] != session[nSession] {
            session := session[..nSession];
            break;
          }
          nPast := nPast + 1;
          nSession := nSession + 1;
          if nSession >= |session| {
            i := i + 1;
            break;
          }
          i := i + 1;
        }
        LcpIs(embd, rest, i);
        if i > 0 {
          embd := embd[i..];
        }
      } else {
        LcpIs(embd, rest, 0);
      }
    }

    /** One llama_decode, on the n tokens of embd from i on, and what follows from the budget. */
    method DecodeBatch(i: nat, n: nat) returns (why: Option<Why>)
      requires i + n <= |embd| && 1 <= n <= c.nBatch && BatchesFit()
      modifies this`mem, this`session, this`nPast, this`nSession, this`nEval, this`batches
      ensures BatchesFit()
      ensures |old(mem)| + n > c.nCtx ==> why == Some(DecodeFailed) && unchanged(this)
      ensures |old(mem)| + n <= c.nCtx ==>
        && mem == KvMemory.Decode(old(mem), embd[i..i + n])
        && nPast == old(nPast) + n && nEval == old(nEval) + n
        && why == (if OutOfBudget(p, Now()) then Some(Broke) else None)
        && session == (if why.Some? && path && !p.readOnly then old(session) + embd[i..i + n] else old(session))
        && nSession == (if why.Some? && path && !p.readOnly then |session| else old(nSession))
    {
      hide Sum, KvMemory.Decode;
      if |mem| + n > c.nCtx {   // llama_decode finds no room
        return Some(DecodeFailed);
      }
      mem := KvMemory.Decode(mem, embd[i..i + n]);
      SumAppend(batches, n);
      batches := batches + [n];
      nPast := nPast + n;
      nEval := nEval + n;
      why := None;
      if OutOfBudget(p, Now()) {
        if path && !p.readOnly {
          session := session + embd[i..i + n];
          nSession := |session|;
        }
        why := Some(Broke);
      }
    }

    /** Feeds embd to llama_decode in batches bounded by the context batch and the budget. */
    method DecodeEmbd() returns (why: Option<Why>)
      requires c.Valid() && |embd| <= c.nBatch && nEval >= 0
      requires BatchesFit()
      modifies this`mem, this`session, this`nPast, this`nSession, this`nEval, this`batches
      ensures BatchesFit()
      ensures embd == [] ==> why == None && unchanged(this)
      ensures var part := Within(p, embd);
        && (part != [] && |old(mem)| + |part| > c.nCtx ==> why == Some(DecodeFailed) && unchanged(this))
        && (part != [] && |old(mem)| + |part| <= c.nCtx ==>
            && mem == KvMemory.Decode(old(mem), part)
            && nPast == old(nPast) + |part| && nEval == old(nEval) + |part|
            && why == (if OutOfBudget(p, Now()) then Some(Broke) else None)
            && (why == None ==> part == embd)
            && session == (if why.Some? && path && !p.readOnly then old(session) + part else old(session))
            && nSession == (if why.Some? && path && !p.readOnly then |session| else old(nSession)))
    {
      hide BatchesFit, KvMemory.Decode;
      why := None;
      var i := 0;
      while i < |embd|
        invariant i == 0 || i == c.nBatch
        invariant i == 0 ==> unchanged(this)
        invariant i > 0 ==>
          && |old(mem)| + |embd| <= c.nCtx && embd != [] && Within(p, embd) == embd
          && mem == KvMemory.Decode(old(mem), embd) && session == old(session) && nSession == old(nSession)
          && nPast == old(nPast) + |embd| && nEval == old(nEval) + |embd|
          && !OutOfBudget(p, Now())
        invariant BatchesFit()
        invariant why == None
        decreases |embd| - i
      {
        var n := |embd| - i;
        if n > c.nBatch {
          n := c.nBatch;
        }
        if p.maxTokens > 0 && n >= p.maxTokens {
          n := p.maxTokens;
        }
        assert embd[i..i + n] == Within(p, embd);
        why := DecodeBatch(i, n);
        if why.Some? {
          return;
        }
        i := i + c.nBatch;
      }
    }

    /** Samples the next token, saving the session first if this is the first sample. */
    method SampleNext()
      modifies this`file, this`needSave, this`embd, this`sampled, this`nRemain
      ensures embd == old(embd) + [c.next(Toks(mem))]
      ensures Now() == Sample(c, p, old(Now())).(eog := eog)
    {
      if path && needSave && !p.readOnly {
        needSave := false;
        file := Some(SessionFile(session, mem));
      }
      var id := c.next(Toks(mem));
      sampled := sampled + [id];
      embd := embd + [id];
      nRemain := nRemain - 1;
    }

    /** Fetches prompt tokens until a batch is full or the budget past the cached prefix is reached. */
    method FetchPrompt()
      requires c.Valid() && embd == [] && 0 <= nConsumed < |plan.input|
      requires p.maxTokens > 0 ==> nConsumed < plan.cached + p.maxTokens
      modifies this`embd, this`nConsumed
      ensures old(nConsumed) < nConsumed <= |plan.input|
      ensures embd == plan.input[old(nConsumed)..nConsumed] && |embd| <= c.nBatch
      ensures p.maxTokens > 0 ==> nConsumed <= plan.cached + p.maxTokens
      ensures |embd| == c.nBatch || nConsumed == |plan.input|
        || (p.maxTokens > 0 && nConsumed == plan.cached + p.maxTokens)
      ensures old(nConsumed) == 0 ==> |embd| == FirstChunk(c, p, plan)
    {
      while |plan.input| > nConsumed
        invariant old(nConsumed) <= nConsumed <= |plan.input|
        invariant embd == plan.input[old(nConsumed)..nConsumed] && |embd| < c.nBatch
        invariant p.maxTokens > 0 ==> nConsumed < plan.cached + p.maxTokens
        decreases |plan.input| - nConsumed
      {
        embd := embd + [plan.input[nConsumed]];
        nConsumed := nConsumed + 1;
        if |embd| >= c.nBatch {
          break;
        }
        if p.maxTokens > 0 && nConsumed >= plan.cached + p.maxTokens {
          break;
        }
      }
    }

    // ---------------------------------------------------------- one pass of the loop

    method ReusePrefix()
      requires 0 <= nSession <= |session|
      modifies this`embd, this`session, this`nPast, this`nSession
      ensures Vars() == Reuse(old(Vars()))
    {
      ghost var v := Vars();
      TakeHeld();
      IsReuse(v, Vars(), Lcp(v.embd, v.st.session[v.nSession..]));
    }

    /** Make room, then reuse. */
    method PrepareEmbd() returns (stop: bool)
      requires c.Valid() && 0 <= nSession <= |session|
      modifies this`embd, this`mem, this`nPast, this`path, this`session, this`nSession
      ensures stop == (Full(c, old(Vars())) && p.StopsWhenFull())
      ensures !stop ==> Vars() == Prepare(c, plan, old(Vars()))
      ensures stop ==> Now() == old(Now())
    {
      ghost var v := Vars();
      stop := MakeRoom();
      if !stop {
        ghost var u := Vars();
        assert u == Room(c, plan, v);
        ReusePrefix();
      }
    }

    /** Decode, then append what was decoded to the session. */
    method DecodeAndRecord() returns (why: Option<Why>)
      requires c.Valid() && |embd| <= c.nBatch && nEval >= 0
      requires BatchesFit() && 0 <= nSession <= |session|
      modifies this`mem, this`session, this`nPast, this`nSession, this`nEval, this`batches
      ensures BatchesFit()
      ensures embd == [] ==> why == None && Vars() == old(Vars())
      ensures embd != [] && |old(mem)| + |Within(p, embd)| > c.nCtx ==>
        why == Some(DecodeFailed) && Vars() == old(Vars())
      ensures embd != [] && |old(mem)| + |Within(p, embd)| <= c.nCtx ==>
        var x := Recorded(old(Vars()).(embd := Within(p, embd)));
        && why == (if OutOfBudget(p, x.st) then Some(Broke) else None)
        && (why == None ==> Vars() == x)
        && (why.Some? ==> Now() == if p.readOnly then x.st.(session := session) else x.st)
    {
      why := DecodeEmbd();
      hide Within, BatchesFit;
      if why.Some? {
        return;
      }
      if embd != [] && path {
        session := session + embd;
        nSession := |session|;
      }
    }

    /** The first half of a pass. */
    method Process() returns (why: Option<Why>)
      requires Fits(c, plan, Vars()) && BatchesFit() && embd != [] && nEval >= 0
      modifies this`mem, this`session, this`embd, this`nPast, this`nSession, this`nEval, this`path, this`batches
      ensures BatchesFit()
      ensures var h := FirstHalf(c, p, plan, old(Vars()));
        && why == h.why
        && (why == None ==> Vars() == h.v)
        && (why.Some? ==>
            nConsumed == h.v.nConsumed && Now() == if p.readOnly then h.v.st.(session := session) else h.v.st)
    {
      hide Prepare, Within, OutOfBudget, Discard, Sum;
      PrepareKeeps(c, plan, Vars());
      var stop := PrepareEmbd();
      if stop {
        return Some(ContextFull);
      }
      why := DecodeAndRecord();
    }

    /** generated_eog is raised by the last token in embd, once no prompt is left to fetch. */
    method RaiseFlag()
      modifies this`eog
      ensures eog == (old(eog) || (|plan.input| <= nConsumed && embd != [] && c.isEog(embd[|embd| - 1])))
    {
      if |plan.input| <= nConsumed && embd != [] && c.isEog(embd[|embd| - 1]) {
        eog := true;
      }
    }

    /** One sample in an empty embd. */
    method SupplySample()
      requires |plan.input| <= nConsumed
      modifies this`embd, this`file, this`needSave, this`sampled, this`nRemain, this`eog
      ensures Supplied(Env(), old(Vars()), Vars())
    {
      hide Supplied, SaveEarly, Sample;
      ghost var v := Vars();
      embd := [];
      SampleNext();
      RaiseFlag();
      SampleSupplied(Env(), v, Vars());
    }

    /** More prompt in an empty embd. */
    method SupplyPrompt()
      requires c.Valid() && 0 <= nConsumed < |plan.input|
      requires p.maxTokens > 0 ==> nConsumed < plan.cached + p.maxTokens
      modifies this`embd, this`nConsumed, this`eog
      ensures Supplied(Env(), old(Vars()), Vars())
    {
      hide Supplied, FirstChunk;
      ghost var v := Vars();
      embd := [];
      FetchPrompt();
      RaiseFlag();
      FetchSupplied(Env(), v, Vars());
    }

    /** The second half of a pass: sample, or fetch more prompt. */
    method Supply()
      requires c.Valid() && 0 <= nConsumed <= |plan.input|
      requires nConsumed < |plan.input| && p.maxTokens > 0 ==> nConsumed < plan.cached + p.maxTokens
      modifies this`embd, this`nConsumed, this`file, this`needSave, this`sampled, this`nRemain, this`eog
      ensures Supplied(Env(), old(Vars()), Vars())
    {
      hide Supplied;
      if |plan.input| <= nConsumed {
        SupplySample();
      } else {
        SupplyPrompt();
      }
    }

    /** One pass of the loop. */
    method Step() returns (why: Option<Why>)
      requires Vars() in Head(Env()) && BatchesFit() && nRemain != 0 && nEval >= 0
      modifies this`mem, this`session, this`embd, this`nPast, this`nSession, this`nEval, this`path, this`batches,
               this`nConsumed, this`file, this`needSave, this`sampled, this`nRemain, this`eog
      ensures BatchesFit()
      ensures why.Some? ==> Vars() in Ended(Env(), why.value)
      ensures why == None ==>
        Vars() in Head(Env()) && nEval >= 0 && embd != [] && Closer(Env(), old(Vars()), Vars())
    {
      hide Head, Due, Ended, Supplied, Fits;
      ghost var e, v := Env(), Vars();
      why := None;
      if embd != [] {
        HeadFits(e, v);
        why := Process();
        if why.Some? {
          HalfEnds(e, v);
          HalfLeft(e, v);
          EndedReadOnly(e, FirstHalf(c, p, plan, v).v, Vars(), why.value);
          return;
        }
      }
      MiddleIsDue(e, v);
      assert Vars() == Middle(e, v);
      Supply();
      PassLaw(e, v, Vars());
    }

    // ---------------------------------------------------------- one call

    /** n_matching_session_tokens. */
    method MatchPrefix(a: seq<Token>, b: seq<Token>) returns (m: nat)
      ensures m == Lcp(a, b)
    {
      m := 0;
      for i := 0 to |a|
        invariant m == i <= |b|
        invariant forall k :: 0 <= k < m ==> a[k] == b[k]
      {
        if m >= |b| || a[i] != b[m] {
          break;
        }
        m := m + 1;
      }
      LcpIs(a, b, m);
    }

    /** Loads the session file, tokenizes the prompt, and rejects what cannot run. */
    method Load() returns (rejected: Option<int>, input: seq<Token>)
      requires c.Valid()
      modifies this`mem, this`session
      ensures rejected == Rejected(c, p, file)
      ensures rejected == None ==>
        && session == LoadedSession(p, file) && mem == LoadedMem(p, file)
        && input == InputOf(c, p, session) != []
    {
      rejected, input := None, [];
      mem, session := [], [];
      if p.hasPath && file.Some? {
        if |file.value.tokens| > c.nCtx {
          rejected := Some(1);
          return;
        }
        session, mem := file.value.tokens, file.value.mem;
      }
      input := InputOf(c, p, session);
      if input == [] {
        rejected := Some(-1);
      } else if !(p.promptEmpty && session != []) && |input| > c.nCtx - 4 {
        rejected := Some(1);
      }
    }

    /** Matches the session against the input and trims memory and session. */
    method Match(input: seq<Token>) returns (pl: Plan)
      requires input != [] && input == InputOf(c, p, session)
      modifies this`mem, this`session
      ensures pl == MakePlan(c, p, old(session), old(mem))
      ensures mem == pl.base && session == pl.session
    {
      var m := MatchPrefix(session, input);
      if session != [] {
        mem := SeqRm(mem, m, -1);
      }
      var redo := m == |input| && |session| > |input|;
      if redo {
        session := session[..|input| - 1];
      }
      pl := Plan(input, m, if redo then m - 1 else m, session, mem, EffectiveKeep(c, p, input));
    }

    method ResetCounters()
      modifies this`eog, this`nPast, this`nConsumed, this`nSession, this`nEval, this`embd, this`sampled
      ensures !eog && nPast == nConsumed == nSession == nEval == 0 && embd == [] && sampled == []
    {
      eog, embd, sampled := false, [], [];
      nPast, nConsumed, nSession, nEval := 0, 0, 0, 0;
    }

    /** Sets up the loop. */
    method Begin(pl: Plan)
      requires mem == pl.base && session == pl.session
      modifies this`plan, this`file0, this`path, this`needSave, this`eog, this`nPast, this`nRemain,
               this`nConsumed, this`nSession, this`nEval, this`embd, this`sampled, this`batches
      ensures plan == pl && file0 == file && batches == []
      ensures Vars() == Initial(EngineSteps.Env(c, p, pl, file))
    {
      plan, file0, batches := pl, file, [];
      ResetCounters();
      path, needSave := p.hasPath, p.hasPath && pl.cached < |pl.input|;
      nRemain := p.nPredict;
    }

    /** The main loop. */
    method Loop() returns (why: Why)
      requires Vars() in Head(Env()) && BatchesFit() && nEval >= 0
      modifies this`mem, this`session, this`embd, this`nPast, this`nSession, this`nEval, this`path, this`batches,
               this`nConsumed, this`file, this`needSave, this`sampled, this`nRemain, this`eog
      ensures Vars() in Ended(Env(), why) && BatchesFit()
    {
      hide Head, Due, Ended;
      ghost var e := Env();
      while nRemain != 0
        invariant Vars() in Head(e) && BatchesFit() && nEval >= 0
        decreases Rank(e, Vars()), Countdown(e, Vars())
      {
        var left := Step();
        if left.Some? {
          return left.value;
        }
      }
      HeadAtZero(e, Vars());
      why := NoRemain;
    }

    /** One run call. */
    method Run(args: Params) returns (r: Reply)
      requires c.Valid() && args.Bounded(c) && Usable(c, file)
      modifies this
      ensures r == Call(c, args, old(file)).reply
      ensures file == Call(c, args, old(file)).file
      ensures Rejected(c, args, old(file)).None? ==>
        BatchesFit() && (args.maxTokens > 0 ==> Sum(batches) <= args.maxTokens)
    {
      hide Head, Due, Ended, Call, PlanOf, Rejected, Usable, MakePlan, InputOf;
      p := args;
      var rejected, input := Load();
      if rejected.Some? {
        RejectedIsCall(c, p, file);
        return ErrorReply(rejected.value, false, []);
      }
      EnvIsValid(c, p, file);
      var pl := Match(input);
      Begin(pl);
      ghost var e := Env();
      PlanOfLoaded(c, p, file);
      InitialIsHead(e);
      var why := Loop();
      EndedIsCall(e, Vars(), why);
      if why == DecodeFailed {
        return ErrorReply(1, eog, sampled);
      }
      if path && !p.readOnly {
        file := Some(SessionFile(session, mem));
      }
      var decodedPrompt := nConsumed - plan.cached;
      r := Reply(0, |plan.input|, plan.cached, decodedPrompt, nEval - decodedPrompt,
                 |plan.input| - nConsumed, eog, sampled);
    }
  }
}
