/**
 The ideal token stream, and how generation follows it: memory, session and
 samples grow by the same tokens until a context shift forgets the session path.
 */
module EngineStream {
  import opened Wrappers
  import opened KvMemory
  import opened EngineSpec

  // ------------------------------------------------------------ the ideal stream

  /** prompt followed by n generated tokens, each sampled after everything before it. */
  function Stream(next: seq<Token> -> Token, prompt: seq<Token>, n: nat): (s: seq<Token>)
    ensures |s| == |prompt| + n && s[..|prompt|] == prompt
  {
    if n == 0 then prompt
    else
      var before := Stream(next, prompt, n - 1);
      before + [next(before)]
  }

  lemma {:induction false} StreamInTwo(next: seq<Token> -> Token, prompt: seq<Token>, a: nat, b: nat)
    ensures Stream(next, Stream(next, prompt, a), b) == Stream(next, prompt, a + b)
  {
    if b > 0 {
      StreamInTwo(next, prompt, a, b - 1);
    }
  }

  lemma StreamGrows(next: seq<Token> -> Token, prompt: seq<Token>, a: nat, b: nat)
    requires a <= b
    ensures Stream(next, prompt, b)[..|prompt| + a] == Stream(next, prompt, a)
  {
    StreamInTwo(next, prompt, a, b - a);
  }

  // ------------------------------------------------------------ generation

  /** Memory and counters fit together: nPast cells at positions 0 .. nPast - 1. */
  ghost predicate InOrder(st: St) {
    Contiguous(st.mem) && st.nPast == |st.mem|
  }

  /** The token a call has sampled but not decoded, if its way of ending leaves one. */
  function Dangling(next: seq<Token> -> Token, e: End): seq<Token> {
    if e.why == Broke then [] else [next(Toks(e.st.mem))]
  }

  /** Once a context shift has cleared the session path, the session file is left alone. */
  lemma {:induction false} GenWithoutPath(c: Context, p: Params, plan: Plan, st: St)
    requires Live(c, p, st) && !st.path
    ensures var e := Gen(c, p, plan, st);
      !e.st.path && e.st.file == st.file && e.st.nEval >= st.nEval
    decreases Fuel(c, p, st)
  {
    var s := Sample(c, p, st);
    var id := s.sampled[|s.sampled| - 1];
    var full := s.nPast + 1 >= c.nCtx;
    if s.nRemain != 0 && !(full && p.StopsWhenFull()) {
      var s1 := if full then Shift(plan, s) else s;
      var s2 := DecodeIds(s1, [id]);
      if |s1.mem| + 1 <= c.nCtx && !OutOfBudget(p, s2) {
        GenWithoutPath(c, p, plan, s2);
      }
    }
  }

  /**
   A generation that kept its session path: the memory holds the stream from
   where it started, the session grew by the same tokens, and those are what was
   sampled, apart from one dangling sample.
   */
  ghost predicate Grew(c: Context, st: St, e: End) {
    && 0 <= e.st.nEval - st.nEval
    && Toks(e.st.mem) == Stream(c.next, Toks(st.mem), e.st.nEval - st.nEval)
    && Contiguous(e.st.mem)
    && e.st.session == st.session + Toks(e.st.mem)[|st.mem|..]
    && e.st.sampled == st.sampled + Toks(e.st.mem)[|st.mem|..] + Dangling(c.next, e)
    && e.st.nPast - st.nPast == e.st.nEval - st.nEval
    && (st.nPast < c.nCtx ==> e.st.nPast < c.nCtx)
    && (|st.mem| <= c.nCtx ==> |e.st.mem| <= c.nCtx)
  }

  lemma GrewNotAtAll(c: Context, st: St, s: St, why: Why)
    requires Contiguous(st.mem) && why != Broke
    requires s.mem == st.mem && s.session == st.session && s.nPast == st.nPast && s.nEval == st.nEval
    requires s.sampled == st.sampled + [c.next(Toks(st.mem))]
    ensures Grew(c, st, End(s, why))
  {
    assert Toks(st.mem)[|st.mem|..] == [];
  }

  lemma Regroup(xs: seq<Token>, id: Token, t: seq<Token>, n: nat, end: seq<Token>)
    requires n < |t| && t[n] == id
    ensures (xs + [id]) + t[n + 1..] == xs + t[n..]
    ensures (xs + [id]) + t[n + 1..] + end == xs + t[n..] + end
  {
    assert t[n..] == [id] + t[n + 1..];
    assert (xs + [id]) + t[n + 1..] == xs + ([id] + t[n + 1..]);
  }

  /** One decoded sample, then growth from there. */
  lemma GrewOnce(c: Context, st: St, s2: St, e: End)
    requires Contiguous(st.mem) && |st.mem| + 1 <= c.nCtx && st.nPast + 1 < c.nCtx
    requires var id := c.next(Toks(st.mem));
      && s2.mem == KvMemory.Decode(st.mem, [id]) && s2.session == st.session + [id]
      && s2.sampled == st.sampled + [id] && s2.nPast == st.nPast + 1 && s2.nEval == st.nEval + 1
    requires Grew(c, s2, e)
    ensures Grew(c, st, e)
  {
    var id := c.next(Toks(st.mem));
    DecodeHolds(st.mem, [id]);
    assert Toks(s2.mem) == Stream(c.next, Toks(st.mem), 1);
    StreamInTwo(c.next, Toks(st.mem), 1, e.st.nEval - s2.nEval);
    hide Stream, KvMemory.Decode;
    var t := Toks(e.st.mem);
    assert t[..|s2.mem|] == Toks(s2.mem);
    assert t[|st.mem|] == t[..|s2.mem|][|st.mem|] == id;
    Regroup(st.session, id, t, |st.mem|, []);
    Regroup(st.sampled, id, t, |st.mem|, Dangling(c.next, e));
  }

  lemma GrewOnceAndBroke(c: Context, st: St, s2: St)
    requires Contiguous(st.mem) && |st.mem| + 1 <= c.nCtx && st.nPast + 1 < c.nCtx
    requires var id := c.next(Toks(st.mem));
      && s2.mem == KvMemory.Decode(st.mem, [id]) && s2.session == st.session + [id]
      && s2.sampled == st.sampled + [id] && s2.nPast == st.nPast + 1 && s2.nEval == st.nEval + 1
    ensures Grew(c, st, End(s2, Broke))
  {
    var id := c.next(Toks(st.mem));
    DecodeHolds(st.mem, [id]);
    assert Toks(s2.mem)[|s2.mem|..] == [];
    assert Grew(c, s2, End(s2, Broke));
    GrewOnce(c, st, s2, End(s2, Broke));
  }

  /** One step of a generation. */
  lemma GenOnce(c: Context, p: Params, plan: Plan, st: St)
    requires Live(c, p, st)
    ensures var s, id, e := Sample(c, p, st), c.next(Toks(st.mem)), Gen(c, p, plan, st);
      var full := s.nPast + 1 >= c.nCtx;
      var s1 := if full then Shift(plan, s) else s;
      var s2 := DecodeIds(s1, [id]);
      if s.nRemain == 0 then e == End(s, NoRemain)
      else if full && p.StopsWhenFull() then e == End(s, ContextFull)
      else if |s1.mem| + 1 > c.nCtx then e == End(s1, DecodeFailed)
      else if OutOfBudget(p, s2) then e == End(s2, Broke)
      else Live(c, p, s2) && 0 <= Fuel(c, p, s2) < Fuel(c, p, st) && e == Gen(c, p, plan, s2)
  {
  }

  /** A generation that shifts has left the session file as its first sample did. */
  lemma ShiftedGen(c: Context, p: Params, plan: Plan, st: St)
    requires Live(c, p, st) && st.path && Sample(c, p, st).nRemain != 0
    requires st.nPast + 1 >= c.nCtx && !p.StopsWhenFull()
    ensures Gen(c, p, plan, st).st.file == SaveEarly(p, st).file && !Gen(c, p, plan, st).st.path
  {
    GenOnce(c, p, plan, st);
    hide Gen, SeqAdd, SeqRm, Live;
    var s2 := DecodeIds(Shift(plan, Sample(c, p, st)), [c.next(Toks(st.mem))]);
    if |Shift(plan, Sample(c, p, st)).mem| + 1 <= c.nCtx && !OutOfBudget(p, s2) {
      GenWithoutPath(c, p, plan, s2);
    }
  }

  /** A generation either follows the stream, or has shifted and left the file as its first sample did. */
  lemma {:induction false} GenFollowsStream(c: Context, p: Params, plan: Plan, st: St)
    requires Live(c, p, st) && st.path && Contiguous(st.mem)
    ensures var e := Gen(c, p, plan, st);
      e.st.file == SaveEarly(p, st).file && (e.st.path ==> Grew(c, st, e))
    decreases Fuel(c, p, st)
  {
    GenOnce(c, p, plan, st);
    var id := c.next(Toks(st.mem));
    var s := Sample(c, p, st);
    hide Gen, Grew, Live, Shift;
    if s.nRemain == 0 {
      GrewNotAtAll(c, st, s, NoRemain);
    } else if s.nPast + 1 >= c.nCtx {
      if p.StopsWhenFull() { GrewNotAtAll(c, st, s, ContextFull); } else { ShiftedGen(c, p, plan, st); }
    } else if |s.mem| + 1 > c.nCtx {
      GrewNotAtAll(c, st, s, DecodeFailed);
    } else {
      var s2 := DecodeIds(s, [id]);
      if OutOfBudget(p, s2) {
        GrewOnceAndBroke(c, st, s2);
      } else {
        DecodeHolds(st.mem, [id]);
        GenFollowsStream(c, p, plan, s2);
        if Gen(c, p, plan, s2).st.path {
          GrewOnce(c, st, s2, Gen(c, p, plan, s2));
        }
      }
    }
  }

  lemma AgreesIffToks(f: SessionFile)
    requires Contiguous(f.mem)
    ensures Agrees(f) <==> Toks(f.mem) == f.tokens
  {
  }

  /** Growing along the stream keeps agreement and keeps disagreement. */
  lemma GrewAgrees(c: Context, st: St, e: End)
    requires Contiguous(st.mem) && Grew(c, st, e)
    ensures Agrees(SessionFile(e.st.session, e.st.mem)) <==> Agrees(SessionFile(st.session, st.mem))
  {
    AgreesIffToks(SessionFile(e.st.session, e.st.mem));
    AgreesIffToks(SessionFile(st.session, st.mem));
    var t := Toks(e.st.mem);
    assert t[..|st.mem|] == Toks(st.mem);
    assert t == Toks(st.mem) + t[|st.mem|..];
    assert e.st.session[..|st.session|] == st.session;
    if t == e.st.session {
      assert |st.session| == |st.mem|;
    }
  }
}
