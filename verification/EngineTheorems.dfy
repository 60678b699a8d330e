/**
 What the canister promises about run calls, proved of the specification Call:
 the ideal token stream, agreement between memory and session file, prompt
 ingestion, token accounting, context shifts, and the repeated boundary token.
 */
module EngineTheorems {
  import opened Wrappers
  import opened KvMemory
  import opened EngineLag
  import opened EngineSpec
  import opened EngineStream

  // ------------------------------------------------------------ one call

  /** The call gets past its argument checks. */
  ghost predicate Accepted(c: Context, p: Params, file: Option<SessionFile>) {
    c.Valid() && p.Bounded(c) && Usable(c, file) && Rejected(c, p, file).None?
  }

  /**
   What the input of a call is: its prompt, or the session in place of an empty one,
   or a lone beginning-of-stream token.
   */
  lemma InputIs(c: Context, p: Params, file: Option<SessionFile>)
    ensures var input := PlanOf(c, p, file).input;
      var saved := if p.hasPath && file.Some? then file.value.tokens else [];
      && (p.promptEmpty && saved != [] ==> input == saved)
      && (!(p.promptEmpty && saved != []) && p.toks != [] ==> input == p.toks)
      && (!(p.promptEmpty && saved != []) && p.toks == [] ==> input == if c.addBos then [c.bos] else [])
  {
    hide Lcp, SeqRm, EffectiveKeep;
  }

  /** Why a call is refused, whatever its session file holds. */
  lemma RejectedIs(c: Context, p: Params, file: Option<SessionFile>)
    ensures var input := PlanOf(c, p, file).input;
      var saved := if p.hasPath && file.Some? then file.value.tokens else [];
      && (Rejected(c, p, file) == Some(-1) <==> |saved| <= c.nCtx && input == [])
      && (Rejected(c, p, file) == Some(1) <==>
          |saved| > c.nCtx || (input != [] && !(p.promptEmpty && saved != []) && |input| > c.nCtx - 4))
      && Rejected(c, p, file) in {None, Some(1), Some(-1)}
  {
    hide PlanOf;
  }

  /** A reply with an error carries no counts. */
  predicate NoCounts(r: Reply) {
    r.nPrompt == 0 && r.nCached == 0 && r.nDecoded == 0 && r.nGenerated == 0 && r.nRemaining == 0
  }

  /** A reply to a call that was refused. */
  predicate Refused(r: Reply, code: int) {
    r.code == code && NoCounts(r) && !r.eog && r.sampled == []
  }

  /**
   A call is refused for a session too long to load, an empty input, or a prompt
   too long, and then leaves its session file alone.
   */
  lemma RejectedCall(c: Context, p: Params, file: Option<SessionFile>)
    requires c.Valid() && p.Bounded(c) && Usable(c, file)
    ensures var r, input := Call(c, p, file), PlanOf(c, p, file).input;
      var saved := if p.hasPath && file.Some? then file.value.tokens else [];
      if |saved| > c.nCtx then Refused(r.reply, 1) && r.file == file
      else if input == [] then Refused(r.reply, -1) && r.file == file
      else if !(p.promptEmpty && saved != []) && |input| > c.nCtx - 4 then Refused(r.reply, 1) && r.file == file
      else Accepted(c, p, file) && r.reply.code in {0, 1} && (r.reply.code == 1 ==> NoCounts(r.reply))
  {
    hide Outcome, PlanOf;
  }

  /** The call names a session file and may write it. */
  predicate Recording(p: Params) {
    p.hasPath && !p.readOnly
  }

  function EndOf(c: Context, p: Params, file: Option<SessionFile>): End
    requires Accepted(c, p, file)
  {
    PlanIsValid(c, p, file);
    Outcome(c, p, PlanOf(c, p, file), file)
  }

  function PrefillOf(c: Context, p: Params, file: Option<SessionFile>): St
    requires Accepted(c, p, file)
  {
    PlanIsValid(c, p, file);
    Prefill(c, p, PlanOf(c, p, file), file)
  }

  /** The prompt is a proper prefix of the saved session, so its last token is decoded twice. */
  predicate Redoes(c: Context, p: Params, file: Option<SessionFile>) {
    Redecodes(LoadedSession(p, file), PlanOf(c, p, file).input)
  }

  /** The cells kept by the trim hold the tokens they are matched with. */
  predicate Faithful(c: Context, p: Params, file: Option<SessionFile>)
    requires Accepted(c, p, file)
  {
    PlanIsValid(c, p, file);
    var plan := PlanOf(c, p, file);
    Toks(plan.base) == plan.input[..plan.cached]
  }

  /** The clamp on embd cuts the first chunk of the resumed prompt. */
  predicate Clamps(c: Context, p: Params, file: Option<SessionFile>) {
    Clamped(c, PlanOf(c, p, file))
  }

  /** What the clamp left unread cuts the session later in the call. */
  predicate Cuts(c: Context, p: Params, file: Option<SessionFile>)
    requires Accepted(c, p, file)
  {
    PlanIsValid(c, p, file);
    Clamps(c, p, file) && ClampedCuts(c, p, PlanOf(c, p, file), file)
  }

  /** A session that leaves four places free, or a batch that does, is never clamped, nor is a prompt. */
  lemma SmallNeverClamps(c: Context, p: Params, file: Option<SessionFile>)
    requires c.Valid() && Usable(c, file) && Rejected(c, p, file).None?
    requires !Resumes(p, file) || |LoadedSession(p, file)| <= c.nCtx - 4 || c.nBatch <= c.nCtx - 4
    ensures !Clamps(c, p, file)
  {
  }

  /** The call writes its final state to the session file. */
  predicate SavesAtEnd(c: Context, p: Params, file: Option<SessionFile>)
    requires Accepted(c, p, file)
  {
    EndOf(c, p, file).why != DecodeFailed && EndOf(c, p, file).st.path && !p.readOnly
  }

  lemma AgreeingIsFaithful(c: Context, p: Params, file: Option<SessionFile>)
    requires Accepted(c, p, file) && (file.Some? ==> Agrees(file.value))
    ensures Faithful(c, p, file)
  {
    PlanIsValid(c, p, file);
    var plan := PlanOf(c, p, file);
    var s := LoadedSession(p, file);
    assert s[..Lcp(s, plan.input)] == plan.input[..Lcp(s, plan.input)];
  }

  /** The state after the prompt: tokens in session and memory. */
  lemma PrefillShape(c: Context, p: Params, file: Option<SessionFile>)
    requires Accepted(c, p, file)
    ensures var s, plan := PrefillOf(c, p, file), PlanOf(c, p, file);
      var n := Consumed(p, plan);
      && Contiguous(s.mem) && 0 < n <= |plan.input| < c.nCtx && s.nPast == n
      && |s.mem| == n + (if Redoes(c, p, file) then 1 else 0) <= c.nCtx
      && (!Redoes(c, p, file) ==> Toks(s.mem) == Toks(plan.base) + plan.input[plan.cached..n])
      && (Redoes(c, p, file) ==>
          plan.cached == n == |plan.input| && Toks(s.mem) == Toks(plan.base) + [plan.input[n - 1]])
  {
    PlanIsValid(c, p, file);
    var plan := PlanOf(c, p, file);
    DecodeHolds(plan.base, plan.input[plan.reused..Consumed(p, plan)]);
  }

  /** Why a clamped call is not a re-decoding one, and what its cells are matched with. */
  lemma ClampsFacts(c: Context, p: Params, file: Option<SessionFile>)
    requires Accepted(c, p, file) && Clamps(c, p, file)
    ensures var plan := PlanOf(c, p, file);
      && p.hasPath && !Redoes(c, p, file) && plan.cached == |plan.input| == Consumed(p, plan)
      && |plan.base| == |plan.input| && plan.input[..|plan.input|] == plan.input
      && (Faithful(c, p, file) <==> Toks(plan.base) == plan.input)
      && PrefillOf(c, p, file).nEval == 0
  {
    PlanIsValid(c, p, file);
    var plan := PlanOf(c, p, file);
    assert plan.input[..|plan.input|] == plan.input;
  }

  /** What a clamped call leaves behind. */
  lemma ClampedEnd(c: Context, p: Params, file: Option<SessionFile>)
    requires Accepted(c, p, file) && Clamps(c, p, file)
    ensures ClampedGrew(c, PlanOf(c, p, file), file, EndOf(c, p, file), Cuts(c, p, file))
  {
    ClampsFacts(c, p, file);
    PlanIsValid(c, p, file);
    hide ClampedOutcome, ClampedCuts, ClampedGrew;
    ClampedFollows(c, p, PlanOf(c, p, file), file);
  }

  /** A clamped call writes agreeing tokens exactly when its cells are faithful and its session is not cut. */
  lemma ClampedAgrees(c: Context, p: Params, file: Option<SessionFile>)
    requires Accepted(c, p, file) && Clamps(c, p, file) && SavesAtEnd(c, p, file)
    ensures var st := EndOf(c, p, file).st;
      Agrees(SessionFile(st.session, st.mem)) <==> Faithful(c, p, file) && !Cuts(c, p, file)
  {
    ClampsFacts(c, p, file);
    ClampedEnd(c, p, file);
    hide EndOf, Cuts, Faithful, PlanOf, ClampedGrew, Agrees;
    ClampedGrewAgrees(c, PlanOf(c, p, file), file, EndOf(c, p, file), Cuts(c, p, file));
  }

  /** How an unclamped call goes on from the state after its prompt. */
  lemma PlainEnd(c: Context, p: Params, file: Option<SessionFile>)
    requires Accepted(c, p, file) && !Clamps(c, p, file)
    ensures var s := PrefillOf(c, p, file);
      if s.nEval > 0 && OutOfBudget(p, s) then EndOf(c, p, file) == End(s, Broke)
      else Live(c, p, s) && EndOf(c, p, file) == Gen(c, p, PlanOf(c, p, file), s)
  {
    PlanIsValid(c, p, file);
  }

  /** A call that ends with its session path set has grown from the prefilled state along the stream. */
  lemma EndFollowsStream(c: Context, p: Params, file: Option<SessionFile>)
    requires Accepted(c, p, file) && p.hasPath && !Clamps(c, p, file)
    ensures var e, s := EndOf(c, p, file), PrefillOf(c, p, file);
      && (e.st.path ==> Grew(c, s, e))
      && e.st.file == if s.nEval > 0 && OutOfBudget(p, s) then file else SaveEarly(p, s).file
  {
    PrefillShape(c, p, file);
    var s := PrefillOf(c, p, file);
    if s.nEval > 0 && OutOfBudget(p, s) {
      assert Toks(s.mem)[|s.mem|..] == [];
    } else {
      GenFollowsStream(c, p, PlanOf(c, p, file), s);
    }
  }

  /** What the session records after the prompt, and what its cells are matched with. */
  lemma PrefillSession(c: Context, p: Params, file: Option<SessionFile>)
    requires Accepted(c, p, file) && p.hasPath
    ensures var s, plan := PrefillOf(c, p, file), PlanOf(c, p, file);
      var n := Consumed(p, plan);
      && plan.cached <= n <= |plan.input| && s.session == plan.input[..n]
      && (Faithful(c, p, file) <==> Toks(plan.base) == plan.input[..plan.cached])
      && |plan.base| == plan.cached
  {
    PlanIsValid(c, p, file);
  }

  lemma SamePrefix(t: seq<Token>, xs: seq<Token>, m: nat, n: nat)
    requires |t| == m <= n <= |xs|
    ensures t + xs[m..n] == xs[..n] <==> t == xs[..m]
  {
    assert xs[..m] + xs[m..n] == xs[..n];
    assert (t + xs[m..n])[..m] == t && xs[..n][..m] == xs[..m];
  }

  lemma PrefillAgrees(c: Context, p: Params, file: Option<SessionFile>)
    requires Accepted(c, p, file) && p.hasPath
    ensures var s := PrefillOf(c, p, file);
      Agrees(SessionFile(s.session, s.mem)) <==> !Redoes(c, p, file) && Faithful(c, p, file)
  {
    hide Accepted, PrefillOf, PlanOf, Redoes, Faithful, Agrees;
    PrefillSession(c, p, file);
    PrefillShape(c, p, file);
    var s, plan := PrefillOf(c, p, file), PlanOf(c, p, file);
    var n := Consumed(p, plan);
    AgreesIffToks(SessionFile(s.session, s.mem));
    if !Redoes(c, p, file) {
      SamePrefix(Toks(plan.base), plan.input, plan.cached, n);
    }
  }

  /** The save at the first sample writes agreeing tokens exactly when the call started from faithful cells. */
  lemma AgreementAtFirstSample(c: Context, p: Params, file: Option<SessionFile>)
    requires Accepted(c, p, file) && Recording(p) && PrefillOf(c, p, file).needSave
    ensures var s := PrefillOf(c, p, file);
      && SaveEarly(p, s).file == Some(SessionFile(s.session, s.mem))
      && (Agrees(SessionFile(s.session, s.mem)) <==> Faithful(c, p, file))
  {
    PlanIsValid(c, p, file);
    PrefillAgrees(c, p, file);
  }

  /** The file of a call is that of its final state, or the one it wrote there. */
  lemma FileOfCall(c: Context, p: Params, file: Option<SessionFile>)
    requires Accepted(c, p, file)
    ensures Call(c, p, file).file == FinalFile(p, EndOf(c, p, file))
    ensures PrefillOf(c, p, file).file == file && (!p.hasPath ==> !PrefillOf(c, p, file).path)
  {
    PlanIsValid(c, p, file);
  }

  lemma PathlessFile(c: Context, p: Params, file: Option<SessionFile>)
    requires Accepted(c, p, file) && !p.hasPath && !Clamps(c, p, file)
    ensures !EndOf(c, p, file).st.path && EndOf(c, p, file).st.file == file
  {
    FileOfCall(c, p, file);
    PlainEnd(c, p, file);
    hide Gen, EndOf, PrefillOf, Accepted, Clamps;
    var s := PrefillOf(c, p, file);
    if !(s.nEval > 0 && OutOfBudget(p, s)) { GenWithoutPath(c, p, PlanOf(c, p, file), s); }
  }

  /** A read-only call, or one without a session path, leaves the session file as it was. */
  lemma ReadOnlyLeavesFile(c: Context, p: Params, file: Option<SessionFile>)
    requires c.Valid() && p.Bounded(c) && Usable(c, file) && (p.readOnly || !p.hasPath)
    ensures Call(c, p, file).file == file
  {
    if Rejected(c, p, file).None? {
      FileOfCall(c, p, file);
      if Clamps(c, p, file) {
        ClampsFacts(c, p, file);
        ClampedEnd(c, p, file);
      } else if p.hasPath {
        EndFollowsStream(c, p, file);
      } else {
        PathlessFile(c, p, file);
      }
      hide Call, EndOf, PrefillOf, PlanOf, Usable, Rejected;
    }
  }

  /** Which state a recording call leaves in the session file. */
  lemma CallFile(c: Context, p: Params, file: Option<SessionFile>)
    requires Accepted(c, p, file) && Recording(p)
    ensures var r, e, s := Call(c, p, file).file, EndOf(c, p, file), PrefillOf(c, p, file);
      && (SavesAtEnd(c, p, file) ==> r == Some(SessionFile(e.st.session, e.st.mem)))
      && (!SavesAtEnd(c, p, file) ==>
          r == file || (!Redoes(c, p, file) && !Clamps(c, p, file) && r == Some(SessionFile(s.session, s.mem))
                        && s.session == PlanOf(c, p, file).input))
  {
    PlanIsValid(c, p, file);
    hide Outcome;
    if Clamps(c, p, file) { ClampedEnd(c, p, file); } else { EndFollowsStream(c, p, file); }
  }

  /**
   Memory and session file agree after a call exactly when the call started from
   faithful cells, did not decode its last prompt token twice, and did not cut its
   session after the clamp on embd.
   */
  lemma AgreementAfterCall(c: Context, p: Params, file: Option<SessionFile>)
    requires Accepted(c, p, file) && Recording(p)
    ensures var r := Call(c, p, file).file;
      && (SavesAtEnd(c, p, file) ==>
          r.Some? && (Agrees(r.value) <==> Faithful(c, p, file) && !Redoes(c, p, file) && !Cuts(c, p, file)))
      && (!SavesAtEnd(c, p, file) ==>
          r == file
          || (r.Some? && !Redoes(c, p, file) && !Cuts(c, p, file) && (Agrees(r.value) <==> Faithful(c, p, file))))
  {
    CallFile(c, p, file);
    PrefillAgrees(c, p, file);
    hide Call, EndOf, PrefillOf, PlanOf, Faithful, Agrees;
    if Clamps(c, p, file) {
      ClampsFacts(c, p, file);
      if SavesAtEnd(c, p, file) { ClampedAgrees(c, p, file); }
    } else {
      PrefillShape(c, p, file);
      EndFollowsStream(c, p, file);
      if SavesAtEnd(c, p, file) { GrewAgrees(c, PrefillOf(c, p, file), EndOf(c, p, file)); }
    }
  }

  /**
   The disagreeing case: a session holding a, b, d meets the prompt a, b under a
   budget of one token. The file then records two tokens beside three cells.
   */
  lemma RedecodeExample(c: Context, a: Token, b: Token, d: Token)
    requires c.Valid()
    ensures var file := Some(SessionFile([a, b, d], CellsFrom(0, [a, b, d])));
      var p := Params(false, [a, b], 1, -1, 0, true, true, false);
      && Agrees(file.value) && Accepted(c, p, file) && Redoes(c, p, file)
      && Call(c, p, file).file == Some(SessionFile([a, b], CellsFrom(0, [a, b, b])))
      && !Agrees(Call(c, p, file).file.value)
  {
    var s, t := [a, b, d], [a, b];
    var mem := CellsFrom(0, s);
    var file := Some(SessionFile(s, mem));
    var p := Params(false, t, 1, -1, 0, true, true, false);
    assert s[..2] == t;
    LcpOfPrefix(t, s);
    SeqRmTail(mem, 2);
    var plan := PlanOf(c, p, file);
    assert plan.base == CellsFrom(0, t) && plan.reused == 1;
    NextPosContiguous(plan.base);
    assert t[1..2] == [b] && t[..2] == t;
    assert KvMemory.Decode(plan.base, [b]) == CellsFrom(0, [a, b, b]);
    PlanIsValid(c, p, file);
    assert EndOf(c, p, file) == End(PrefillOf(c, p, file), Broke);
  }

  /** A context of eight places, a batch of eight, a model that always samples 99. */
  function ClampContext(): Context { Context(8, 8, false, 0, _ => 99, _ => false) }

  /** Resume, with a budget of one token. */
  function ClampArgs(): Params { Params(true, [], 1, -1, 0, false, true, false) }

  function ClampFile(): Option<SessionFile> {
    Some(SessionFile([1, 2, 3, 4, 5, 6, 7], CellsFrom(0, [1, 2, 3, 4, 5, 6, 7])))
  }

  lemma ClampExampleAccepted()
    ensures Accepted(ClampContext(), ClampArgs(), ClampFile())
  {
  }

  lemma ClampExamplePlan()
    ensures PlanOf(ClampContext(), ClampArgs(), ClampFile())
         == Plan(ClampFile().value.tokens, 7, 7, ClampFile().value.tokens, ClampFile().value.mem, 0)
    ensures Clamps(ClampContext(), ClampArgs(), ClampFile()) && !Redoes(ClampContext(), ClampArgs(), ClampFile())
  {
    hide Accepted;
    var t := ClampFile().value.tokens;
    LcpOfPrefix(t, t);
    SeqRmTail(ClampFile().value.mem, 7);
  }

  lemma ClampExampleOutcome()
    ensures var c, p, file := ClampContext(), ClampArgs(), ClampFile();
      var plan := Plan(file.value.tokens, 7, 7, file.value.tokens, file.value.mem, 0);
      && plan.Valid(c) && ClampedCuts(c, p, plan, file)
      && var e := ClampedOutcome(c, p, plan, file);
      && e.why == Broke && e.st.path
      && SessionFile(e.st.session, e.st.mem) == SessionFile([1, 2, 3, 4, 99], CellsFrom(0, [1, 2, 3, 4, 5, 6, 7, 99]))
  {
    var c, p, file := ClampContext(), ClampArgs(), ClampFile();
    var plan := Plan(file.value.tokens, 7, 7, file.value.tokens, file.value.mem, 0);
    assert LateChunk(c, plan) == [];
    var s := ClampedSt(c, p, plan, file, 0);
    NoneHeld(c, s, 4);
    NextPosContiguous(plan.base);
    assert KvMemory.Decode(plan.base, [99]) == CellsFrom(0, [1, 2, 3, 4, 5, 6, 7, 99]);
    var cut := Sample(c, p, s).(session := s.session[..4]);
    assert s.session[..4] == [1, 2, 3, 4];
    assert Within(p, [99]) == [99];
    assert AfterCut(c, p, plan, cut, [99]) == End(DecodeIds(cut, [99]), Broke);
    assert Lag(c, p, plan, s, 4) == AfterCut(c, p, plan, cut, [99]);
  }

  /**
   The clamped case: the clamp lets four of seven resumed tokens through. The next
   token cuts the session after those four, and the file records five tokens
   beside eight cells.
   */
  lemma ClampExample()
    ensures var c, p, file := ClampContext(), ClampArgs(), ClampFile();
      && Accepted(c, p, file) && Agrees(file.value) && Faithful(c, p, file) && Cuts(c, p, file)
      && Call(c, p, file).file == Some(SessionFile([1, 2, 3, 4, 99], CellsFrom(0, [1, 2, 3, 4, 5, 6, 7, 99])))
      && !Agrees(Call(c, p, file).file.value)
  {
    ClampExampleAccepted();
    ClampExamplePlan();
    ClampExampleOutcome();
    hide ClampedOutcome, ClampedCuts;
    AgreeingIsFaithful(ClampContext(), ClampArgs(), ClampFile());
    hide Faithful;
  }

  lemma PlainStaysUsable(c: Context, p: Params, file: Option<SessionFile>)
    requires Accepted(c, p, file) && !Clamps(c, p, file)
    ensures Usable(c, Call(c, p, file).file)
  {
    PlanIsValid(c, p, file);
    PrefillShape(c, p, file);
    var s := PrefillOf(c, p, file);
    if p.hasPath {
      EndFollowsStream(c, p, file);
    } else if !(s.nEval > 0 && OutOfBudget(p, s)) {
      GenWithoutPath(c, p, PlanOf(c, p, file), s);
    }
    hide Rejected, PlanOf, Outcome;
  }

  /** Files written by calls are files that calls can load. */
  lemma CallStaysUsable(c: Context, p: Params, file: Option<SessionFile>)
    requires c.Valid() && p.Bounded(c) && Usable(c, file)
    ensures Usable(c, Call(c, p, file).file)
  {
    if Rejected(c, p, file).None? {
      PlanIsValid(c, p, file);
      PrefillShape(c, p, file);
      hide Outcome, Rejected, PlanOf;
      if Clamps(c, p, file) {
        ClampedEnd(c, p, file);
      } else {
        PlainStaysUsable(c, p, file);
      }
    }
  }

  // ------------------------------------------------------------ many calls

  ghost predicate PrefixOfStream(c: Context, prompt: seq<Token>, ts: seq<Token>) {
    ts == Stream(c.next, prompt, |ts|)[..|ts|]
  }

  /** The session file, if there is one, holds a prefix of the ideal stream from prompt, and so does its memory dump. */
  ghost predicate OnStream(c: Context, prompt: seq<Token>, file: Option<SessionFile>) {
    file.Some? ==>
      && Sound(c, file.value) && Agrees(file.value)
      && PrefixOfStream(c, prompt, file.value.tokens)
  }

  /** The calls a client makes: the whole prompt until none of it remains, then empty prompts. */
  ghost predicate Follows(c: Context, prompt: seq<Token>, p: Params, file: Option<SessionFile>) {
    && c.Valid() && p.Bounded(c) && Recording(p) && Usable(c, file)
    && var held := |LoadedSession(p, file)|;
    if p.promptEmpty then held >= |prompt| else p.toks == prompt && held <= |prompt|
  }

  lemma PromptIsPrefix(c: Context, prompt: seq<Token>, n: nat)
    requires n <= |prompt|
    ensures PrefixOfStream(c, prompt, prompt[..n])
  {
    hide Stream;
    var s := Stream(c.next, prompt, n);
    assert s[..|prompt|][..n] == s[..n];
  }

  lemma StreamIsPrefix(c: Context, prompt: seq<Token>, k: nat)
    ensures PrefixOfStream(c, prompt, Stream(c.next, prompt, k))
  {
    hide Stream;
    StreamGrows(c.next, prompt, k, |prompt| + k);
  }

  lemma ShortPrefix(c: Context, prompt: seq<Token>, ts: seq<Token>)
    requires PrefixOfStream(c, prompt, ts) && |ts| <= |prompt|
    ensures ts == prompt[..|ts|]
  {
    PromptIsPrefix(c, prompt, |ts|);
  }

  lemma LongPrefix(c: Context, prompt: seq<Token>, ts: seq<Token>)
    requires PrefixOfStream(c, prompt, ts) && |ts| >= |prompt|
    ensures ts == Stream(c.next, prompt, |ts| - |prompt|)
  {
    hide Stream;
    StreamGrows(c.next, prompt, |ts| - |prompt|, |ts|);
  }

  /** In the protocol, what a call has matched is the whole session. */
  lemma FollowingPlan(c: Context, prompt: seq<Token>, p: Params, file: Option<SessionFile>)
    requires prompt != [] && OnStream(c, prompt, file) && Follows(c, prompt, p, file)
    requires Rejected(c, p, file).None?
    ensures var plan := PlanOf(c, p, file);
      && plan.input == (if p.promptEmpty then LoadedSession(p, file) else prompt)
      && plan.cached == |LoadedSession(p, file)| && !Redoes(c, p, file)
      && Faithful(c, p, file)
  {
    var s := LoadedSession(p, file);
    AgreeingIsFaithful(c, p, file);
    if p.promptEmpty {
      LcpOfPrefix(s, s);
    } else {
      if s != [] { ShortPrefix(c, prompt, s); }
      LcpOfPrefix(s, prompt);
    }
  }

  /** Generating on from a prefix that covers the prompt stays on the stream. */
  lemma PrefixExtends(c: Context, prompt: seq<Token>, input: seq<Token>, k: nat)
    requires PrefixOfStream(c, prompt, input) && |input| >= |prompt|
    ensures PrefixOfStream(c, prompt, Stream(c.next, input, k))
  {
    hide Stream, PrefixOfStream;
    var a := |input| - |prompt|;
    LongPrefix(c, prompt, input);
    StreamInTwo(c.next, prompt, a, k);
    StreamIsPrefix(c, prompt, a + k);
  }

  /** The saved tokens are the taken prompt, then as many tokens of the stream as were decoded after it. */
  ghost predicate TokensSaved(c: Context, p: Params, plan: Plan, s: St, e: End)
    requires plan.cached <= |plan.input|
  {
    var n, k := Consumed(p, plan), e.st.nEval - s.nEval;
    && k >= 0 && e.st.session == Stream(c.next, plan.input[..n], k)
    && (n < |plan.input| ==> e.st.session == plan.input[..n] && e.why == Broke && e.st == s)
    && (n == |plan.input| ==> e.st.session == Stream(c.next, plan.input, k))
  }

  lemma ClampedTokens(c: Context, p: Params, file: Option<SessionFile>)
    requires Accepted(c, p, file) && SavesAtEnd(c, p, file)
    requires Faithful(c, p, file) && Clamps(c, p, file) && !Cuts(c, p, file)
    ensures var plan := PlanOf(c, p, file);
      plan.cached <= |plan.input| && TokensSaved(c, p, plan, PrefillOf(c, p, file), EndOf(c, p, file))
  {
    ClampsFacts(c, p, file);
    ClampedEnd(c, p, file);
    hide EndOf, PrefillOf, PlanOf, Faithful, ClampedGrew, Stream, Cuts, Accepted;
    ClampedGrewStream(c, PlanOf(c, p, file), file, EndOf(c, p, file));
  }

  /** A call that leaves prompt for the next one ends where its prompt does. */
  lemma PartEnds(c: Context, p: Params, file: Option<SessionFile>)
    requires Accepted(c, p, file) && !Clamps(c, p, file)
    requires Consumed(p, PlanOf(c, p, file)) < |PlanOf(c, p, file).input|
    ensures EndOf(c, p, file) == End(PrefillOf(c, p, file), Broke)
  {
    PlainEnd(c, p, file);
  }

  /** Growing from an agreeing session of n tokens by k is the stream of those n tokens by k. */
  lemma GrewTokens(c: Context, s: St, e: End, t: seq<Token>)
    requires Contiguous(s.mem) && Grew(c, s, e) && s.session == t && Agrees(SessionFile(s.session, s.mem))
    ensures e.st.nEval >= s.nEval && e.st.session == Stream(c.next, t, e.st.nEval - s.nEval)
  {
    GrewAgrees(c, s, e);
    AgreesIffToks(SessionFile(e.st.session, e.st.mem));
    AgreesIffToks(SessionFile(s.session, s.mem));
  }

  lemma PlainTokens(c: Context, p: Params, file: Option<SessionFile>)
    requires Accepted(c, p, file) && Recording(p) && SavesAtEnd(c, p, file)
    requires !Redoes(c, p, file) && Faithful(c, p, file) && !Clamps(c, p, file)
    ensures var plan := PlanOf(c, p, file);
      plan.cached <= |plan.input| && TokensSaved(c, p, plan, PrefillOf(c, p, file), EndOf(c, p, file))
  {
    hide Accepted, PlanOf, PrefillOf, EndOf, Clamps, Redoes, Faithful, Grew, Agrees, Stream;
    var s, e, plan := PrefillOf(c, p, file), EndOf(c, p, file), PlanOf(c, p, file);
    PrefillSession(c, p, file);
    PrefillShape(c, p, file);
    var n := Consumed(p, plan);
    PrefillAgrees(c, p, file);
    EndFollowsStream(c, p, file);
    GrewTokens(c, s, e, plan.input[..n]);
    if n < |plan.input| { PartEnds(c, p, file); } else { assert plan.input[..n] == plan.input; }
  }

  /** The tokens a final save writes, when no token was decoded twice and the session was not cut. */
  lemma SavedTokens(c: Context, p: Params, file: Option<SessionFile>)
    requires Accepted(c, p, file) && Recording(p) && SavesAtEnd(c, p, file)
    requires !Redoes(c, p, file) && Faithful(c, p, file) && !Cuts(c, p, file)
    ensures var plan := PlanOf(c, p, file);
      plan.cached <= |plan.input| && TokensSaved(c, p, plan, PrefillOf(c, p, file), EndOf(c, p, file))
  {
    hide TokensSaved, SavesAtEnd;
    if Clamps(c, p, file) {
      ClampedTokens(c, p, file);
    } else {
      PlainTokens(c, p, file);
    }
  }

  /** What a call of the protocol saves at its end is on the stream. */
  lemma SavedIsOnStream(c: Context, prompt: seq<Token>, p: Params, file: Option<SessionFile>)
    requires prompt != [] && OnStream(c, prompt, file) && Follows(c, prompt, p, file)
    requires Rejected(c, p, file).None? && SavesAtEnd(c, p, file) && !Cuts(c, p, file)
    ensures PrefixOfStream(c, prompt, EndOf(c, p, file).st.session)
  {
    hide PrefixOfStream, Stream, EndOf, PrefillOf, PlanOf;
    FollowingPlan(c, prompt, p, file);
    SavedTokens(c, p, file);
    var input := PlanOf(c, p, file).input;
    var n := Consumed(p, PlanOf(c, p, file));
    if n < |input| {
      assert input == prompt;
      PromptIsPrefix(c, prompt, n);
    } else {
      if !p.promptEmpty {
        PromptIsPrefix(c, prompt, |prompt|);
        assert prompt[..|prompt|] == prompt;
      }
      PrefixExtends(c, prompt, input, EndOf(c, p, file).st.nEval - PrefillOf(c, p, file).nEval);
    }
  }

  /** The call spoils its session file: it cuts the session, and gets to its final save. */
  predicate Spoils(c: Context, p: Params, file: Option<SessionFile>)
    requires c.Valid() && p.Bounded(c) && Usable(c, file)
  {
    Rejected(c, p, file).None? && SavesAtEnd(c, p, file) && Cuts(c, p, file)
  }

  /** Without a long resumed session under a long batch no call spoils its file. */
  lemma SmallNeverSpoils(c: Context, p: Params, file: Option<SessionFile>)
    requires c.Valid() && p.Bounded(c) && Usable(c, file)
    requires !Resumes(p, file) || |LoadedSession(p, file)| <= c.nCtx - 4 || c.nBatch <= c.nCtx - 4
    ensures !Spoils(c, p, file)
  {
    if Rejected(c, p, file).None? { SmallNeverClamps(c, p, file); }
  }

  /** A save before the first sample holds exactly the prompt. */
  lemma SavedEarly(c: Context, prompt: seq<Token>, p: Params, file: Option<SessionFile>)
    requires prompt != [] && OnStream(c, prompt, file) && Follows(c, prompt, p, file)
    requires Rejected(c, p, file).None? && !SavesAtEnd(c, p, file) && Call(c, p, file).file != file
    ensures Call(c, p, file).file.Some? && PrefixOfStream(c, prompt, Call(c, p, file).file.value.tokens)
  {
    FollowingPlan(c, prompt, p, file);
    CallFile(c, p, file);
    var input := PlanOf(c, p, file).input;
    if p.promptEmpty {
      assert input == LoadedSession(p, file);
    } else {
      PromptIsPrefix(c, prompt, |prompt|);
      assert prompt[..|prompt|] == prompt;
    }
  }

  /** Saved sessions are shorter than the context, so the loader accepts them. */
  lemma SavedIsShort(c: Context, p: Params, file: Option<SessionFile>)
    requires Accepted(c, p, file) && Recording(p) && (file.Some? ==> Sound(c, file.value))
    ensures Call(c, p, file).file.Some? ==> Sound(c, Call(c, p, file).file.value)
  {
    CallFile(c, p, file);
    PrefillShape(c, p, file);
    hide Call, EndOf, PrefillOf, PlanOf, Redoes, Outcome;
    if Clamps(c, p, file) { ClampedEnd(c, p, file); } else { EndFollowsStream(c, p, file); }
  }

  lemma FollowedStays(c: Context, prompt: seq<Token>, p: Params, file: Option<SessionFile>)
    requires prompt != [] && OnStream(c, prompt, file) && Follows(c, prompt, p, file)
    requires Rejected(c, p, file).None? && !Spoils(c, p, file)
    requires Faithful(c, p, file) && !Redoes(c, p, file)
    ensures OnStream(c, prompt, Call(c, p, file).file)
  {
    AgreementAfterCall(c, p, file);
    CallFile(c, p, file);
    SavedIsShort(c, p, file);
    if SavesAtEnd(c, p, file) {
      SavedIsOnStream(c, prompt, p, file);
    } else if Call(c, p, file).file != file {
      SavedEarly(c, prompt, p, file);
    }
    hide Call, EndOf, PrefillOf, PlanOf, Faithful, Cuts, PrefixOfStream, Redoes, Agrees, Sound;
  }

  /** One call of the protocol keeps the session file a prefix of the ideal stream, exactly unless it spoils it. */
  lemma CallStaysOnStream(c: Context, prompt: seq<Token>, p: Params, file: Option<SessionFile>)
    requires prompt != [] && OnStream(c, prompt, file) && Follows(c, prompt, p, file)
    ensures OnStream(c, prompt, Call(c, p, file).file) <==> !Spoils(c, p, file)
  {
    if Rejected(c, p, file).None? {
      FollowingPlan(c, prompt, p, file);
      AgreementAfterCall(c, p, file);
      if !Spoils(c, p, file) {
        hide Call, EndOf, PrefillOf, PlanOf, Faithful, Cuts, PrefixOfStream, Redoes;
        FollowedStays(c, prompt, p, file);
      }
    }
  }

  /** The calls of a client, none of which spoils its file. */
  ghost predicate Protocol(c: Context, prompt: seq<Token>, ps: seq<Params>, file: Option<SessionFile>) {
    ps != [] ==>
      && Follows(c, prompt, ps[0], file) && !Spoils(c, ps[0], file)
      && Protocol(c, prompt, ps[1..], Call(c, ps[0], file).file)
  }

  function After(c: Context, prompt: seq<Token>, ps: seq<Params>, file: Option<SessionFile>): Option<SessionFile>
    requires Protocol(c, prompt, ps, file)
  {
    if ps == [] then file else After(c, prompt, ps[1..], Call(c, ps[0], file).file)
  }

  /** Every call is one the client makes, whatever becomes of the file. */
  ghost predicate AllFollow(c: Context, prompt: seq<Token>, ps: seq<Params>, file: Option<SessionFile>) {
    ps != [] ==>
      Follows(c, prompt, ps[0], file) && AllFollow(c, prompt, ps[1..], Call(c, ps[0], file).file)
  }

  /** With a batch that leaves four places free, any calls a client makes follow the protocol. */
  lemma {:induction false} SmallBatchProtocol(
    c: Context, prompt: seq<Token>, ps: seq<Params>, file: Option<SessionFile>)
    requires c.nBatch <= c.nCtx - 4 && AllFollow(c, prompt, ps, file)
    ensures Protocol(c, prompt, ps, file)
  {
    if ps != [] {
      SmallNeverSpoils(c, ps[0], file);
      SmallBatchProtocol(c, prompt, ps[1..], Call(c, ps[0], file).file);
    }
  }

  /** Multi-call refinement: whatever the budgets, the session file only ever holds a prefix of the one ideal stream. */
  lemma {:induction false} ProtocolStaysOnStream(
    c: Context, prompt: seq<Token>, ps: seq<Params>, file: Option<SessionFile>)
    requires prompt != [] && OnStream(c, prompt, file) && Protocol(c, prompt, ps, file)
    ensures OnStream(c, prompt, After(c, prompt, ps, file))
  {
    if ps != [] {
      CallStaysOnStream(c, prompt, ps[0], file);
      ProtocolStaysOnStream(c, prompt, ps[1..], Call(c, ps[0], file).file);
    }
  }

  /** Two ways of splitting the work that get equally far leave the same session file, memory dump included. */
  lemma SplitsAgree(c: Context, prompt: seq<Token>, ps: seq<Params>, qs: seq<Params>)
    requires prompt != [] && Protocol(c, prompt, ps, None) && Protocol(c, prompt, qs, None)
    requires var f, g := After(c, prompt, ps, None), After(c, prompt, qs, None);
      f.Some? && g.Some? && |f.value.tokens| == |g.value.tokens|
    ensures After(c, prompt, ps, None) == After(c, prompt, qs, None)
  {
    ProtocolStaysOnStream(c, prompt, ps, None);
    ProtocolStaysOnStream(c, prompt, qs, None);
    var f, g := After(c, prompt, ps, None).value, After(c, prompt, qs, None).value;
    assert f.mem == g.mem;
  }
}
