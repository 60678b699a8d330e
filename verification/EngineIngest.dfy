/** Ingestion of a prompt that is sent again until none of it remains. */
module EngineIngest {
  import opened Arithmetic
  import opened Wrappers
  import opened KvMemory
  import opened EngineLimits
  import opened EngineRoom
  import opened EngineSpec
  import opened EngineStream
  import opened EngineTheorems

  /** A client re-sends the same prompt with a budget; keep leaves room for generation. */
  ghost predicate Sends(c: Context, p: Params, prompt: seq<Token>) {
    && c.Valid() && p.Bounded(c) && Recording(p) && p.maxTokens > 0
    && !p.promptEmpty && p.toks == prompt && 0 < |prompt| <= c.nCtx - 4
  }

  function Matched(file: Option<SessionFile>, prompt: seq<Token>): nat {
    if file.Some? then Lcp(file.value.tokens, prompt) else 0
  }

  ghost predicate Loadable(c: Context, file: Option<SessionFile>) {
    file.Some? ==> Sound(c, file.value)
  }

  lemma SendingPlan(c: Context, p: Params, prompt: seq<Token>, file: Option<SessionFile>)
    requires Sends(c, p, prompt) && Loadable(c, file) && Matched(file, prompt) < |prompt|
    ensures Accepted(c, p, file) && !Redoes(c, p, file)
    ensures PlanOf(c, p, file).input == prompt && PlanOf(c, p, file).cached == Matched(file, prompt)
    ensures Roomy(c, PlanOf(c, p, file))
  {
    if Redoes(c, p, file) {
      LcpOfPrefix(prompt, LoadedSession(p, file));
    }
  }

  lemma LcpSplit(a: seq<Token>, b: seq<Token>, n: nat)
    requires n <= |a| && n <= |b| && a[..n] == b[..n] && (n == |a| || n == |b|)
    ensures Lcp(a, b) == n
  {
    forall k | 0 <= k < n ensures a[k] == b[k] {
      assert a[..n][k] == b[..n][k];
    }
  }

  /** The saved session starts with all the prompt tokens taken so far. */
  lemma IngestedFile(c: Context, p: Params, prompt: seq<Token>, file: Option<SessionFile>)
    requires Sends(c, p, prompt) && Loadable(c, file) && Matched(file, prompt) < |prompt|
    requires Usable(c, file) && Accepted(c, p, file) && !Redoes(c, p, file)
    requires PlanOf(c, p, file).input == prompt && PlanOf(c, p, file).cached == Matched(file, prompt)
    requires EndOf(c, p, file).why != DecodeFailed
    ensures Call(c, p, file).file.Some?
    ensures Matched(Call(c, p, file).file, prompt) == Consumed(p, PlanOf(c, p, file))
  {
    PlanIsValid(c, p, file);
    PrefillShape(c, p, file);
    EndFollowsStream(c, p, file);
    var e, s, plan := EndOf(c, p, file), PrefillOf(c, p, file), PlanOf(c, p, file);
    var n := Consumed(p, plan);
    var saved := Call(c, p, file).file.value.tokens;
    assert s.session == prompt[..n] && n <= |saved|;
    assert saved[..n] == prompt[..n];
    if n < |prompt| {
      assert saved == prompt[..n];
    }
    LcpSplit(saved, prompt, n);
  }

  /** A call on a partly ingested prompt takes min(M, left) tokens and saves exactly as far as it got. */
  lemma IngestCall(c: Context, p: Params, prompt: seq<Token>, file: Option<SessionFile>)
    requires Sends(c, p, prompt) && Loadable(c, file) && Matched(file, prompt) < |prompt|
    ensures Usable(c, file)
    ensures var r := Call(c, p, file);
      var m := Matched(file, prompt);
      var taken := if |prompt| - m < p.maxTokens then |prompt| - m else p.maxTokens;
      && r.reply.code == 0 && r.reply.nCached == m && r.reply.nDecoded == taken
      && r.reply.nRemaining == |prompt| - m - taken
      && Matched(r.file, prompt) == m + taken
      && Loadable(c, r.file)
  {
    SendingPlan(c, p, prompt, file);
    CallHasRoom(c, p, file);
    PlanIsValid(c, p, file);
    SavedIsShort(c, p, file);
    IngestedFile(c, p, prompt, file);
  }

  /** The session file after k calls that all send the same prompt. */
  function Resend(c: Context, p: Params, file: Option<SessionFile>, k: nat): (r: Option<SessionFile>)
    requires c.Valid() && p.Bounded(c) && Usable(c, file)
    ensures Usable(c, r)
    decreases k
  {
    if k == 0 then file
    else
      var before := Resend(c, p, file, k - 1);
      CallStaysUsable(c, p, before);
      Call(c, p, before).file
  }

  /** After k calls short of the whole prompt, exactly k budgets of it are in the session. */
  lemma {:induction false} ResendProgress(
    c: Context, p: Params, prompt: seq<Token>, file: Option<SessionFile>, k: nat)
    requires Sends(c, p, prompt) && Loadable(c, file)
    requires Matched(file, prompt) + k * p.maxTokens < |prompt|
    ensures Matched(Resend(c, p, file, k), prompt) == Matched(file, prompt) + k * p.maxTokens
    ensures Loadable(c, Resend(c, p, file, k))
    decreases k
  {
    if k > 0 {
      assert k * p.maxTokens == (k - 1) * p.maxTokens + p.maxTokens;
      ResendProgress(c, p, prompt, file, k - 1);
      IngestCall(c, p, prompt, Resend(c, p, file, k - 1));
    }
  }

  lemma CeilDivIs(a: nat, b: nat, k: nat)
    requires b > 0 && k * b < a
    ensures k + 1 == CeilDiv(a, b) <==> a - k * b <= b
  {
    OneMoreTimes(k, b);
    CeilDivCovers(a, b, k);
    CeilDivCovers(a, b, k + 1);
  }

  /**
   The (k+1)-st call finds k budgets cached, decodes the next one or what is left,
   and is the call that finishes the prompt exactly when k + 1 is the rounded-up
   number of budgets in the part of the prompt that was not matched at the start.
   */
  lemma IngestionProgress(
    c: Context, p: Params, prompt: seq<Token>, file: Option<SessionFile>, k: nat)
    requires Sends(c, p, prompt) && Loadable(c, file)
    requires Matched(file, prompt) + k * p.maxTokens < |prompt|
    ensures var left := |prompt| - Matched(file, prompt) - k * p.maxTokens;
      var r := Call(c, p, Resend(c, p, file, k)).reply;
      && r.code == 0
      && r.nCached == Matched(file, prompt) + k * p.maxTokens
      && r.nDecoded == (if left < p.maxTokens then left else p.maxTokens)
      && r.nRemaining == left - r.nDecoded
      && (r.nRemaining == 0 <==> k + 1 == CeilDiv(|prompt| - Matched(file, prompt), p.maxTokens))
  {
    hide Resend, Call, CeilDiv, Lcp;
    ResendProgress(c, p, prompt, file, k);
    IngestCall(c, p, prompt, Resend(c, p, file, k));
    CeilDivIs(|prompt| - Matched(file, prompt), p.maxTokens, k);
  }
}
