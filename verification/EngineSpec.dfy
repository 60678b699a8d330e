/**
 What one run call does to the session file, as a function of its inputs.
 The prompt half is a closed form (no batches, no chunks); the generation half
 is one recursion per sampled token. Module Engine proves the loop of main_
 against this, and module EngineTheorems proves what the canister promises.
 */
module EngineSpec {
  import opened Wrappers
  import opened KvMemory

  /** What load_model fixes: context size, batch size, vocabulary, and the model itself. */
  datatype Context = Context(
    nCtx: nat,
    nBatch: nat,
    addBos: bool,
    bos: Token,
    next: seq<Token> -> Token,   // the token sampled when the memory holds these tokens
    isEog: Token -> bool
  ) {
    predicate Valid() { nCtx >= 8 && nBatch >= 1 }
  }

  /** The arguments of one call; toks is the tokenized prompt string. */
  datatype Params = Params(
    promptEmpty: bool,
    toks: seq<Token>,
    maxTokens: nat,   // 0 is unlimited
    nPredict: int,    // negative is infinite, -2 also stops when the context is full
    nKeep: int,
    ctxShift: bool,
    hasPath: bool,
    readOnly: bool
  ) {
    predicate Unlimited() { maxTokens == 0 }

    /** The call ends whatever the model samples. */
    predicate Bounded(c: Context) {
      nPredict != 0 && (maxTokens > 0 || nPredict > 0 || StopsWhenFull())
    }

    predicate StopsWhenFull() { !ctxShift || nPredict == -2 }
  }

  /** A session file holds the token list and a dump of the memory. */
  datatype SessionFile = SessionFile(tokens: seq<Token>, mem: Memory)

  /** What llama_state_save_file is given on every save that starts from a sound file. */
  ghost predicate Sound(c: Context, f: SessionFile) {
    Contiguous(f.mem) && |f.tokens| <= |f.mem| && 0 < |f.tokens| && |f.tokens| < c.nCtx
  }

  /** The memory dump holds exactly the recorded tokens. */
  ghost predicate Agrees(f: SessionFile) {
    Holds(f.mem, f.tokens)
  }

  function Lcp(a: seq<Token>, b: seq<Token>): (m: nat)
    ensures m <= |a| && m <= |b|
    ensures a[..m] == b[..m]
    ensures m < |a| && m < |b| ==> a[m] != b[m]
  {
    if a == [] || b == [] || a[0] != b[0] then 0
    else
      var k := Lcp(a[1..], b[1..]);
      assert a[..k + 1] == [a[0]] + a[1..][..k];
      assert b[..k + 1] == [b[0]] + b[1..][..k];
      k + 1
  }

  /** C++ integer division by two truncates toward zero. */
  function HalfTowardZero(x: int): int {
    if x >= 0 then x / 2 else -((-x) / 2)
  }

  /** Everything fixed before the main loop starts. */
  datatype Plan = Plan(
    input: seq<Token>,     // embd_inp
    cached: nat,           // n_matching_session_tokens
    reused: nat,           // prompt tokens the loop takes from the session instead of decoding
    session: seq<Token>,   // session_tokens, after the possible resize
    base: Memory,          // memory, after the trim
    keep: int              // effective n_keep
  ) {
    ghost predicate Valid(c: Context) {
      && 0 < |input| < c.nCtx
      && reused <= |input| && reused <= |session|
      && session[..reused] == input[..reused]
      && (reused < |session| && reused < |input| ==> session[reused] != input[reused])
      && (reused == |input| ==> session == input)
      && (cached == reused || (reused + 1 == cached == |input|))
      && (|input| > c.nCtx - 4 ==> reused == cached == |input|)
    }
  }

  function InputOf(c: Context, p: Params, session: seq<Token>): seq<Token> {
    var inp := if !p.promptEmpty || session == [] then p.toks else session;
    if inp == [] && c.addBos then [c.bos] else inp
  }

  function EffectiveKeep(c: Context, p: Params, input: seq<Token>): int {
    if p.nKeep < 0 || p.nKeep > |input| then |input|
    else p.nKeep + if c.addBos then 1 else 0
  }

  /** The prompt is a proper prefix of the session: its last token is decoded again. */
  predicate Redecodes(session: seq<Token>, input: seq<Token>) {
    |input| < |session| && session[..|input|] == input
  }

  function MakePlan(c: Context, p: Params, session: seq<Token>, mem: Memory): Plan {
    var input := InputOf(c, p, session);
    var m := Lcp(session, input);
    var redo := input != [] && m == |input| && |session| > |input|;
    Plan(
      input, m,
      if redo then m - 1 else m,
      if redo then session[..m - 1] else session,
      if session != [] then SeqRm(mem, m, -1) else mem,
      EffectiveKeep(c, p, input))
  }

  /** The mutable state of the loop at the points where a sample is due. */
  datatype St = St(
    mem: Memory,
    session: seq<Token>,
    nPast: int,
    nEval: int,
    nRemain: int,
    path: bool,       // path_session is not empty
    needSave: bool,   // need_to_save_session
    eog: bool,        // generated_eog
    sampled: seq<Token>,
    file: Option<SessionFile>
  )

  datatype Why = Broke | NoRemain | ContextFull | DecodeFailed

  datatype End = End(st: St, why: Why)

  // ------------------------------------------------------------ generation

  /** Sampling is due and the call can still take a step. */
  predicate Live(c: Context, p: Params, st: St) {
    && p.Bounded(c)
    && (p.maxTokens > 0 ==> 0 <= st.nEval < p.maxTokens)
    && (p.nPredict > 0 ==> st.nRemain > 0)
    && (p.nPredict < 0 ==> st.nRemain < 0)
    && (p.Unlimited() && p.nPredict < 0 ==> st.nPast < c.nCtx)
  }

  /** What a live call has left: budget, samples, or room in the context. */
  function Fuel(c: Context, p: Params, st: St): int {
    if p.maxTokens > 0 then p.maxTokens - st.nEval
    else if p.nPredict > 0 then st.nRemain
    else c.nCtx - st.nPast
  }

  function SaveEarly(p: Params, st: St): St {
    if st.path && st.needSave && !p.readOnly
    then st.(needSave := false, file := Some(SessionFile(st.session, st.mem)))
    else st
  }

  function Sample(c: Context, p: Params, st: St): St {
    var id := c.next(Toks(st.mem));
    SaveEarly(p, st).(
      sampled := st.sampled + [id],
      nRemain := st.nRemain - 1,
      eog := st.eog || c.isEog(id))
  }

  function Discard(plan: Plan, nPast: int): int {
    HalfTowardZero(nPast - plan.keep)
  }

  /** One context shift: cut the discarded cells, move the later ones down, forget the session path. */
  function Shift(plan: Plan, st: St): St {
    var d := Discard(plan, st.nPast);
    st.(
      mem := SeqAdd(SeqRm(st.mem, plan.keep, plan.keep + d), plan.keep + d, st.nPast, -d),
      nPast := st.nPast - d,
      path := false)
  }

  function DecodeIds(st: St, ids: seq<Token>): St {
    st.(
      mem := KvMemory.Decode(st.mem, ids),
      nPast := st.nPast + |ids|,
      nEval := st.nEval + |ids|,
      session := if st.path then st.session + ids else st.session)
  }

  predicate OutOfBudget(p: Params, st: St) {
    st.eog || (p.maxTokens > 0 && st.nEval >= p.maxTokens)
  }

  predicate LivePending(c: Context, p: Params, st: St) {
    && p.Bounded(c)
    && (p.maxTokens > 0 ==> 0 <= st.nEval < p.maxTokens)
    && (p.nPredict > 0 ==> st.nRemain >= 0)
    && (p.nPredict < 0 ==> st.nRemain < 0)
    && (p.Unlimited() && p.nPredict < 0 ==> st.nPast < c.nCtx)
  }

  function PendingFuel(c: Context, p: Params, st: St): int {
    if p.maxTokens == 0 && p.nPredict > 0 then st.nRemain + 1 else Fuel(c, p, st)
  }

  /** Sample one token, then handle it. */
  function Gen(c: Context, p: Params, plan: Plan, st: St): End
    requires Live(c, p, st)
    decreases Fuel(c, p, st), 1
  {
    var s := Sample(c, p, st);
    Pending(c, p, plan, s, s.sampled[|s.sampled| - 1])
  }

  /** The loop head with the sampled token id waiting in embd. */
  function Pending(c: Context, p: Params, plan: Plan, st: St, id: Token): End
    requires LivePending(c, p, st)
    decreases PendingFuel(c, p, st), 0
  {
    if st.nRemain == 0 then End(st, NoRemain)
    else
      var full := st.nPast + 1 >= c.nCtx;
      if full && p.StopsWhenFull() then End(st, ContextFull)
      else
        var s1 := if full then Shift(plan, st) else st;
        if |s1.mem| + 1 > c.nCtx then End(s1, DecodeFailed)
        else
          var s2 := DecodeIds(s1, [id]);
          if OutOfBudget(p, s2) then End(s2, Broke)
          else Gen(c, p, plan, s2)
  }

  // ------------------------------------------------------------ a clamped chunk

  /**
   The length check is skipped when session tokens stand in for the prompt, so a
   first chunk can be longer than embd is allowed to be, and loses its end.
   */
  predicate Clamped(c: Context, plan: Plan) {
    |plan.input| > c.nCtx - 4 && c.nBatch > c.nCtx - 4
  }

  /** As many tokens of embd as the budget lets one llama_decode take. */
  function Within(p: Params, embd: seq<Token>): (part: seq<Token>)
    ensures part <= embd
    ensures (p.maxTokens > 0 ==> |embd| <= p.maxTokens) <==> part == embd
  {
    if p.maxTokens > 0 && |embd| >= p.maxTokens then embd[..p.maxTokens] else embd
  }

  /** Sampling is due while session tokens from n on are still unread. */
  predicate Lagging(c: Context, p: Params, st: St, n: nat) {
    Live(c, p, st) && st.nPast == n < |st.session| < c.nCtx
  }

  predicate LagWaits(c: Context, p: Params, st: St, n: nat) {
    LivePending(c, p, st) && st.nPast == n < |st.session| < c.nCtx
  }

  /** Decode ids behind a session that has just been cut. */
  function AfterCut(c: Context, p: Params, plan: Plan, cut: St, ids: seq<Token>): End
    requires LivePending(c, p, cut) && cut.nRemain != 0
    requires p.Unlimited() && p.nPredict < 0 ==> cut.nPast + |ids| < c.nCtx
  {
    var part := Within(p, ids);
    if |cut.mem| + |part| > c.nCtx then End(cut, DecodeFailed)
    else
      var st := DecodeIds(cut, part);
      if OutOfBudget(p, st) then End(st, Broke) else Gen(c, p, plan, st)
  }

  /** Sample one token while the session is unread from n on, then handle it. */
  function Lag(c: Context, p: Params, plan: Plan, st: St, n: nat): End
    requires Lagging(c, p, st, n)
    decreases |st.session| - n, 1
  {
    var s := Sample(c, p, st);
    LagPending(c, p, plan, s, n, s.sampled[|s.sampled| - 1])
  }

  /** A token that repeats the session is passed over undecoded; any other one cuts the session there. */
  function LagPending(c: Context, p: Params, plan: Plan, st: St, n: nat, id: Token): End
    requires LagWaits(c, p, st, n)
    decreases |st.session| - n, 0
  {
    if st.nRemain == 0 then End(st, NoRemain)
    else if st.session[n] == id then
      var held := st.(nPast := n + 1);
      if n + 1 < |st.session| then Lag(c, p, plan, held, n + 1) else Gen(c, p, plan, held)
    else
      AfterCut(c, p, plan, st.(session := st.session[..n]), [id])
  }

  /** How many tokens the first chunk has. */
  function FirstBatch(c: Context, plan: Plan): nat {
    if c.nBatch < |plan.input| then c.nBatch else |plan.input|
  }

  /** What the second chunk brings after the clamped first one. */
  function LateChunk(c: Context, plan: Plan): (late: seq<Token>)
    ensures Clamped(c, plan) ==> |late| < |plan.input| - (c.nCtx - 4)
  {
    plan.input[FirstBatch(c, plan)..]
  }

  /** The state once a clamped prompt has been fetched and the session has held j tokens of its late chunk. */
  function ClampedSt(c: Context, p: Params, plan: Plan, file: Option<SessionFile>, j: nat): St
    requires plan.Valid(c)
  {
    St(plan.base, plan.session, c.nCtx - 4 + j, 0, p.nPredict, p.hasPath, false,
       c.isEog(plan.input[|plan.input| - 1]), [], file)
  }

  /** A clamped call, once its prompt is fetched and the session has held j tokens of the late chunk. */
  function ClampedFrom(c: Context, p: Params, plan: Plan, file: Option<SessionFile>, j: nat): End
    requires c.Valid() && plan.Valid(c) && p.Bounded(c) && Clamped(c, plan) && j <= |LateChunk(c, plan)|
  {
    var s := ClampedSt(c, p, plan, file, j);
    if j == |LateChunk(c, plan)| then Lag(c, p, plan, s, c.nCtx - 4 + j)
    else AfterCut(c, p, plan, s.(session := plan.session[..c.nCtx - 4 + j]), LateChunk(c, plan)[j..])
  }

  /** How much of the late chunk the session holds where the clamped one ended, which is not where it belongs. */
  function LateHeld(c: Context, plan: Plan): (j: nat)
    requires c.Valid() && plan.Valid(c) && Clamped(c, plan)
    ensures j <= |LateChunk(c, plan)|
  {
    Lcp(LateChunk(c, plan), plan.session[c.nCtx - 4..])
  }

  function ClampedOutcome(c: Context, p: Params, plan: Plan, file: Option<SessionFile>): End
    requires c.Valid() && plan.Valid(c) && p.Bounded(c) && Clamped(c, plan)
  {
    ClampedFrom(c, p, plan, file, LateHeld(c, plan))
  }

  // ------------------------------------------------------------ one call

  /** What run.cpp puts on the wire: status, token counts, eog flag, sampled ids. */
  datatype Reply = Reply(
    code: int,
    nPrompt: int, nCached: int, nDecoded: int, nGenerated: int, nRemaining: int,
    eog: bool,
    sampled: seq<Token>
  )

  /** How far into the prompt a call gets: to the end, or maxTokens past the cached prefix. */
  function Consumed(p: Params, plan: Plan): (n: nat)
    requires plan.cached <= |plan.input|
    ensures plan.cached <= n <= |plan.input|
  {
    if p.maxTokens > 0 && |plan.input| - plan.cached >= p.maxTokens
    then plan.cached + p.maxTokens else |plan.input|
  }

  /** The state once the call has taken all the prompt tokens it is going to take. */
  function Prefill(c: Context, p: Params, plan: Plan, file: Option<SessionFile>): St
    requires plan.Valid(c)
  {
    var n, r := Consumed(p, plan), plan.reused;
    St(KvMemory.Decode(plan.base, plan.input[r..n]),
       if p.hasPath then plan.input[..n] else [],
       n, n - r, p.nPredict,
       p.hasPath, p.hasPath && plan.cached < |plan.input|,
       n == |plan.input| && c.isEog(plan.input[n - 1]),
       [], file)
  }

  function Outcome(c: Context, p: Params, plan: Plan, file: Option<SessionFile>): End
    requires c.Valid() && plan.Valid(c) && p.Bounded(c)
  {
    var s := Prefill(c, p, plan, file);
    if Clamped(c, plan) then ClampedOutcome(c, p, plan, file)
    else if s.nEval > 0 && OutOfBudget(p, s) then End(s, Broke) else Gen(c, p, plan, s)
  }

  /** No call decodes more than its budget. */
  lemma {:induction false} GenWithinBudget(c: Context, p: Params, plan: Plan, st: St)
    requires Live(c, p, st) && p.maxTokens > 0
    ensures Gen(c, p, plan, st).st.nEval <= p.maxTokens
    decreases Fuel(c, p, st)
  {
    var s := Sample(c, p, st);
    var e := Pending(c, p, plan, s, s.sampled[|s.sampled| - 1]);
    if s.nRemain != 0 && !(s.nPast + 1 >= c.nCtx && p.StopsWhenFull()) {
      var s1 := if s.nPast + 1 >= c.nCtx then Shift(plan, s) else s;
      var s2 := DecodeIds(s1, [s.sampled[|s.sampled| - 1]]);
      if |s1.mem| + 1 <= c.nCtx && !OutOfBudget(p, s2) {
        GenWithinBudget(c, p, plan, s2);
      }
    }
  }

  lemma AfterCutWithinBudget(c: Context, p: Params, plan: Plan, cut: St, ids: seq<Token>)
    requires LivePending(c, p, cut) && cut.nRemain != 0 && p.maxTokens > 0 && |ids| > 0
    ensures AfterCut(c, p, plan, cut, ids).st.nEval <= p.maxTokens + cut.nEval
    ensures |ids| == 1 ==> AfterCut(c, p, plan, cut, ids).st.nEval <= p.maxTokens
  {
    var st := DecodeIds(cut, Within(p, ids));
    if |cut.mem| + |Within(p, ids)| <= c.nCtx && !OutOfBudget(p, st) {
      GenWithinBudget(c, p, plan, st);
    }
  }

  lemma {:induction false} LagWithinBudget(c: Context, p: Params, plan: Plan, st: St, n: nat)
    requires Lagging(c, p, st, n) && p.maxTokens > 0
    ensures Lag(c, p, plan, st, n).st.nEval <= p.maxTokens
    decreases |st.session| - n
  {
    var s := Sample(c, p, st);
    var id := s.sampled[|s.sampled| - 1];
    if s.nRemain != 0 {
      if s.session[n] != id {
        AfterCutWithinBudget(c, p, plan, s.(session := s.session[..n]), [id]);
      } else if n + 1 < |s.session| {
        LagWithinBudget(c, p, plan, s.(nPast := n + 1), n + 1);
      } else {
        GenWithinBudget(c, p, plan, s.(nPast := n + 1));
      }
    }
  }

  /** The state in which a clamped call meets its session again. */
  lemma ClampedStarts(c: Context, p: Params, plan: Plan, file: Option<SessionFile>, j: nat)
    requires c.Valid() && plan.Valid(c) && p.Bounded(c) && Clamped(c, plan) && j <= |LateChunk(c, plan)|
    ensures var s := ClampedSt(c, p, plan, file, j);
      && 0 < c.nCtx - 4 + j < |plan.session| && s.session == plan.session
      && Lagging(c, p, s, c.nCtx - 4 + j)
      && LivePending(c, p, s) && s.nRemain != 0 && s.nEval == 0
      && (p.Unlimited() && p.nPredict < 0 ==> s.nPast + (|LateChunk(c, plan)| - j) < c.nCtx)
  {
  }

  lemma CutIsLive(c: Context, p: Params, st: St, cut: St)
    requires LivePending(c, p, st) && cut == st.(session := cut.session)
    ensures LivePending(c, p, cut)
  {
  }

  lemma ClampedWithinBudget(c: Context, p: Params, plan: Plan, file: Option<SessionFile>, j: nat)
    requires c.Valid() && plan.Valid(c) && p.Bounded(c) && p.maxTokens > 0 && Clamped(c, plan)
    requires j <= |LateChunk(c, plan)|
    ensures ClampedFrom(c, p, plan, file, j).st.nEval <= p.maxTokens
  {
    hide Lag, AfterCut, LateChunk, ClampedSt, Lagging, LivePending, Plan.Valid, Clamped;
    ClampedStarts(c, p, plan, file, j);
    var s := ClampedSt(c, p, plan, file, j);
    if j == |LateChunk(c, plan)| {
      LagWithinBudget(c, p, plan, s, c.nCtx - 4 + j);
    } else {
      var cut := s.(session := plan.session[..c.nCtx - 4 + j]);
      CutIsLive(c, p, s, cut);
      AfterCutWithinBudget(c, p, plan, cut, LateChunk(c, plan)[j..]);
    }
  }

  lemma OutcomeWithinBudget(c: Context, p: Params, plan: Plan, file: Option<SessionFile>)
    requires c.Valid() && plan.Valid(c) && p.Bounded(c) && p.maxTokens > 0
    ensures Outcome(c, p, plan, file).st.nEval <= p.maxTokens
  {
    hide ClampedFrom, Gen;
    var s := Prefill(c, p, plan, file);
    if Clamped(c, plan) {
      ClampedWithinBudget(c, p, plan, file, LateHeld(c, plan));
    } else if !(s.nEval > 0 && OutOfBudget(p, s)) {
      GenWithinBudget(c, p, plan, s);
    }
  }

  function FinalFile(p: Params, e: End): Option<SessionFile> {
    if e.why != DecodeFailed && e.st.path && !p.readOnly
    then Some(SessionFile(e.st.session, e.st.mem)) else e.st.file
  }

  function ErrorReply(code: int, eog: bool, sampled: seq<Token>): Reply {
    Reply(code, 0, 0, 0, 0, 0, eog, sampled)
  }

  function OkReply(p: Params, plan: Plan, e: End): Reply
    requires plan.cached <= |plan.input|
  {
    var n := Consumed(p, plan);
    Reply(0, |plan.input|, plan.cached, n - plan.cached,
          e.st.nEval - (n - plan.cached), |plan.input| - n, e.st.eog, e.st.sampled)
  }

  /** A file this context can load is sound; a longer one is rejected by the loader. */
  ghost predicate Usable(c: Context, file: Option<SessionFile>) {
    file.Some? ==> Sound(c, file.value) || |file.value.tokens| > c.nCtx
  }

  function LoadedSession(p: Params, file: Option<SessionFile>): seq<Token> {
    if p.hasPath && file.Some? then file.value.tokens else []
  }

  function LoadedMem(p: Params, file: Option<SessionFile>): Memory {
    if p.hasPath && file.Some? then file.value.mem else []
  }

  function PlanOf(c: Context, p: Params, file: Option<SessionFile>): Plan {
    MakePlan(c, p, LoadedSession(p, file), LoadedMem(p, file))
  }

  /** The prompt was left empty and the session tokens stand in for it. */
  predicate Resumes(p: Params, file: Option<SessionFile>) {
    p.promptEmpty && LoadedSession(p, file) != []
  }

  /** The call ends with an error before the main loop. */
  function Rejected(c: Context, p: Params, file: Option<SessionFile>): Option<int> {
    if p.hasPath && file.Some? && |file.value.tokens| > c.nCtx then Some(1)
    else
      var input := PlanOf(c, p, file).input;
      if input == [] then Some(-1)
      else if !Resumes(p, file) && |input| > c.nCtx - 4 then Some(1)
      else None
  }

  datatype CallResult = CallResult(reply: Reply, file: Option<SessionFile>)

  lemma LcpOfPrefix(a: seq<Token>, b: seq<Token>)
    requires |a| <= |b| && b[..|a|] == a
    ensures Lcp(a, b) == |a| && Lcp(b, a) == |a|
  {
    forall i | 0 <= i < |a| ensures a[i] == b[i] {
      assert b[..|a|][i] == a[i];
    }
  }

  /** Session and prompt agree on the reused part, and what is left of the memory is the cached part. */
  lemma PlanIsValid(c: Context, p: Params, file: Option<SessionFile>)
    requires c.Valid() && Usable(c, file) && Rejected(c, p, file).None?
    ensures var plan := PlanOf(c, p, file);
      && plan.Valid(c)
      && Contiguous(plan.base) && |plan.base| == plan.cached
      && plan.base == LoadedMem(p, file)[..plan.cached]
      && plan.reused == (if Redecodes(LoadedSession(p, file), plan.input)
                          then plan.cached - 1 else plan.cached)
      && (Redecodes(LoadedSession(p, file), plan.input) ==> plan.cached == |plan.input|)
  {
    var plan := PlanOf(c, p, file);
    var s, mem := LoadedSession(p, file), LoadedMem(p, file);
    var m := Lcp(s, plan.input);
    if s != [] { SeqRmTail(mem, m); }
    if Redecodes(s, plan.input) {
      LcpOfPrefix(plan.input, s);
      assert s[..m][..m - 1] == plan.input[..m][..m - 1];
    } else if m == |plan.input| {
      assert s[..m] == s;
    }
  }

  function Call(c: Context, p: Params, file: Option<SessionFile>): CallResult
    requires c.Valid() && p.Bounded(c) && Usable(c, file)
  {
    var rejected := Rejected(c, p, file);
    if rejected.Some? then CallResult(ErrorReply(rejected.value, false, []), file)
    else
      PlanIsValid(c, p, file);
      var plan := PlanOf(c, p, file);
      var e := Outcome(c, p, plan, file);
      CallResult(
        if e.why == DecodeFailed then ErrorReply(1, e.st.eog, e.st.sampled) else OkReply(p, plan, e),
        FinalFile(p, e))
  }
}
