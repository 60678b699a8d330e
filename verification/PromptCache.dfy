/**
 The provenance protocol of prompt-cache files: every cache may have a sidecar
 stamp naming the format and model that wrote it, and a cache whose stamp does
 not vouch for the running build and the loaded model is discarded before
 llama_state_load_file can see it.
 */
module PromptCache {
  import opened Wrappers
  import EngineRoom
  import EngineSpec
  import EngineTheorems

  type Path = string

  const FORMAT: string := "llama_cpp_canister-prompt-cache-v2"
  const SUFFIX: string := ".icppfmt"

  datatype Writer = Build(format: string, model: string) | Foreign

  datatype Bytes = Session(file: EngineSpec.SessionFile) | Raw(bytes: seq<int>)

  /** A file is a cache, remembered with who wrote it, or a text such as a stamp. */
  datatype Content = Cache(writer: Writer, bytes: Bytes) | Text(text: string)

  type Files = map<Path, Content>

  /** loaded is the description of the loaded model, empty when there is none. */
  datatype State = State(files: Files, loaded: string)

  // ------------------------------------------------------------ paths

  /** What is left of a name without its leading slashes. */
  function StripSlashes(name: string): string {
    if name == "" || name[0] != '/' then name else StripSlashes(name[1..])
  }

  /** get_canister_path_session: each principal has its own folder; no name, no path. */
  function SessionPath(name: string, principal: string): Path {
    if name == "" then "" else ".canister_cache/" + principal + "/sessions/" + StripSlashes(name)
  }

  lemma FoldersApart(root: string, p: string, middle: string, x: string, q: string, y: string)
    requires '/' !in p && '/' !in q && middle != "" && middle[0] == '/'
    ensures root + p + middle + x == root + q + middle + y <==> p == q && x == y
  {
    var s, t := root + p + middle + x, root + q + middle + y;
    if s == t {
      var n := |root|;
      assert forall i :: 0 <= i < |p| ==> s[n + i] == p[i] != '/';
      assert forall i :: 0 <= i < |q| ==> t[n + i] == q[i] != '/';
      assert s[n + |p|] == '/' && t[n + |q|] == '/';
      assert s[n..n + |p|] == p && t[n..n + |q|] == q;
      assert s[n + |p| + |middle|..] == x && t[n + |q| + |middle|..] == y;
    }
  }

  lemma {:induction false} StripSlashesIs(name: string)
    ensures var r := StripSlashes(name);
      && (r == "" || r[0] != '/') && |r| <= |name| && name[|name| - |r|..] == r
      && forall i :: 0 <= i < |name| - |r| ==> name[i] == '/'
  {
    if name != "" && name[0] == '/' {
      StripSlashesIs(name[1..]);
      var r := StripSlashes(name[1..]);
      assert name[|name| - |r|..] == name[1..][|name[1..]| - |r|..];
      forall i | 0 <= i < |name| - |r| ensures name[i] == '/' {
        if i > 0 { assert name[i] == name[1..][i - 1]; }
      }
    }
  }

  /** The names have the same end, and before it nothing but slashes. */
  ghost predicate SameButSlashes(a: string, b: string) {
    exists i, j :: 0 <= i <= |a| && 0 <= j <= |b| && a[i..] == b[j..]
      && (forall k :: 0 <= k < i ==> a[k] == '/') && (forall k :: 0 <= k < j ==> b[k] == '/')
  }

  /** Leading slashes make no difference. */
  lemma {:induction false} StripMore(name: string, i: nat)
    requires i <= |name| && forall k :: 0 <= k < i ==> name[k] == '/'
    ensures StripSlashes(name) == StripSlashes(name[i..])
  {
    if i > 0 {
      StripMore(name[1..], i - 1);
      assert name[1..][i - 1..] == name[i..];
    }
  }

  lemma StrippedIsSame(a: string, b: string)
    ensures StripSlashes(a) == StripSlashes(b) <==> SameButSlashes(a, b)
  {
    if StripSlashes(a) == StripSlashes(b) {
      StripSlashesIs(a);
      StripSlashesIs(b);
      var n := |StripSlashes(a)|;
      assert a[|a| - n..] == b[|b| - n..];
    }
    if SameButSlashes(a, b) {
      var i, j :| 0 <= i <= |a| && 0 <= j <= |b| && a[i..] == b[j..]
                  && (forall k :: 0 <= k < i ==> a[k] == '/') && (forall k :: 0 <= k < j ==> b[k] == '/');
      StripMore(a, i);
      StripMore(b, j);
    }
  }

  /** Two names lead to one file exactly when they are the same caller's and differ only in leading slashes. */
  lemma SessionPathsApart(a: string, p: string, b: string, q: string)
    requires a != "" && b != "" && '/' !in p && '/' !in q
    ensures SessionPath(a, p) == SessionPath(b, q) <==> p == q && SameButSlashes(a, b)
  {
    FoldersApart(".canister_cache/", p, "/sessions/", StripSlashes(a), q, StripSlashes(b));
    StrippedIsSame(a, b);
  }

  /** No name, no path; otherwise the caller's own folder, and the name without its leading slashes. */
  lemma SessionPathIs(name: string, p: string, tail: string)
    ensures SessionPath("", p) == ""
    ensures name != "" && name[0] != '/' ==> SessionPath(name, p) == ".canister_cache/" + p + "/sessions/" + name
    ensures SessionPath("/" + name, p) == ".canister_cache/" + p + "/sessions/" + StripSlashes(name)
  {
    assert ("/" + name)[1..] == name;
  }

  function StampPath(p: Path): Path { p + SUFFIX }

  /** The path is not itself that of a stamp. */
  predicate CacheName(p: Path) {
    |p| >= |SUFFIX| ==> p[|p| - |SUFFIX|..] != SUFFIX
  }

  lemma StampPathInjective(p: Path, q: Path)
    ensures StampPath(p) == StampPath(q) <==> p == q
  {
    if StampPath(p) == StampPath(q) {
      assert StampPath(p)[..|p|] == p;
      assert StampPath(q)[..|q|] == q;
    }
  }

  lemma StampIsNoCache(p: Path, q: Path)
    requires CacheName(q)
    ensures StampPath(p) != q
  {
    assert StampPath(p)[|StampPath(p)| - |SUFFIX|..] == SUFFIX;
  }

  // ------------------------------------------------------------ stamps

  function LineEnd(text: string): (n: nat)
    ensures n <= |text|
    ensures forall i :: 0 <= i < n ==> text[i] != '\n'
    ensures n < |text| ==> text[n] == '\n'
  {
    if text == "" || text[0] == '\n' then 0 else 1 + LineEnd(text[1..])
  }

  /** getline: the first line, and what is left to read after it. */
  function GetLine(text: string): (string, string) {
    var n := LineEnd(text);
    (text[..n], if n < |text| then text[n + 1..] else "")
  }

  function StampText(format: string, model: string): string {
    format + "\n" + model + "\n"
  }

  predicate OneLine(s: string) {
    forall i :: 0 <= i < |s| ==> s[i] != '\n'
  }

  /** The model a stamp of this build names; None for a stamp of another format or a cut-off one. */
  function StampedModel(content: Content): Option<string> {
    if !content.Text? then None
    else
      var (format, rest) := GetLine(content.text);
      if format != FORMAT || rest == "" then None else Some(GetLine(rest).0)
  }

  /** prompt_cache_format_is_current. */
  predicate IsCurrent(files: Files, p: Path, model: string) {
    && StampPath(p) in files
    && StampedModel(files[StampPath(p)]).Some?
    && (model == "" || StampedModel(files[StampPath(p)]).value == model)
  }

  lemma LineEndIs(a: string, b: string)
    requires OneLine(a)
    ensures LineEnd(a + "\n" + b) == |a|
  {
    var text := a + "\n" + b;
    assert forall i :: 0 <= i < |a| ==> text[i] == a[i];
    assert text[|a|] == '\n';
  }

  lemma FormatIsOneLine()
    ensures OneLine(FORMAT)
  {
  }

  /** What a stamp says is what was stamped. */
  lemma StampRoundTrip(model: string)
    requires OneLine(model)
    ensures StampedModel(Text(StampText(FORMAT, model))) == Some(model)
  {
    var rest := model + "\n";
    assert StampText(FORMAT, model) == FORMAT + "\n" + rest;
    FormatIsOneLine();
    LineEndIs(FORMAT, rest);
    LineEndIs(model, "");
    assert rest == model + "\n" + "";
    assert (FORMAT + "\n" + rest)[..|FORMAT|] == FORMAT;
    assert (FORMAT + "\n" + rest)[|FORMAT| + 1..] == rest;
    assert rest[..|model|] == model;
  }

  lemma CutOut(text: string, n: nat)
    requires n < |text|
    ensures text == text[..n] + [text[n]] + text[n + 1..]
  {
  }

  lemma LineSplit(text: string)
    requires LineEnd(text) < |text|
    ensures var n := LineEnd(text); text == text[..n] + "\n" + text[n + 1..]
  {
    CutOut(text, LineEnd(text));
  }

  /** A named model is on the second line, behind this format and a line end. */
  lemma StampedText(text: string)
    requires StampedModel(Text(text)).Some?
    ensures LineEnd(text) < |text| && text[..LineEnd(text)] == FORMAT && text[LineEnd(text) + 1..] != ""
  {
    hide LineEnd, FORMAT;
  }

  lemma VouchingIsText(content: Content)
    requires StampedModel(content).Some?
    ensures content.Text?
  {
    hide LineEnd;
  }

  /** A stamp that vouches for anything starts with this format, on a line of its own. */
  lemma VouchingText(files: Files, p: Path, model: string)
    requires IsCurrent(files, p, model)
    ensures var stamp := files[p + SUFFIX];
      stamp.Text? && FORMAT + "\n" <= stamp.text && |stamp.text| > |FORMAT| + 1
  {
    hide LineEnd, StampedModel;
    var stamp := files[StampPath(p)];
    VouchingIsText(stamp);
    StampedText(stamp.text);
    LineSplit(stamp.text);
  }

  /** The stamp of another format vouches for nothing, whatever model it names and whatever model is loaded. */
  lemma OtherFormatVouchesNot(files: Files, p: Path, format: string, stamped: string, model: string)
    requires OneLine(format) && format != FORMAT
    requires p + SUFFIX in files && files[p + SUFFIX] == Text(format + "\n" + stamped + "\n")
    ensures !IsCurrent(files, p, model)
  {
    var text := format + "\n" + stamped + "\n";
    assert text == format + "\n" + (stamped + "\n");
    LineEndIs(format, stamped + "\n");
    assert text[..|format|] == format;
  }

  /** A stamp of this format vouches for the model on its second line and no other, or for any while none is loaded. */
  lemma ThisFormatVouches(files: Files, p: Path, stamped: string, model: string)
    requires OneLine(stamped)
    requires p + ".icppfmt" in files
    requires files[p + ".icppfmt"] == Text("llama_cpp_canister-prompt-cache-v2\n" + stamped + "\n")
    ensures IsCurrent(files, p, model) <==> model == "" || model == stamped
  {
    assert "llama_cpp_canister-prompt-cache-v2\n" == FORMAT + "\n";
    StampRoundTrip(stamped);
  }

  // ------------------------------------------------------------ steps

  /** How a run call ends, as far as its session file goes. */
  datatype RunEnd =
    | SavedFinal(file: EngineSpec.SessionFile)   // reached the save at the end
    | SavedEarly(file: EngineSpec.SessionFile)   // saved at the first sample only
    | NotSaved

  function WriteStamp(st: State, p: Path): State {
    st.(files := st.files[StampPath(p) := Text(StampText(FORMAT, st.loaded))])
  }

  function RemoveStamp(st: State, p: Path): State {
    if p == "" then st else st.(files := st.files - {StampPath(p)})
  }

  function CopyStamp(st: State, from: Path, to: Path): State {
    var files := st.files - {StampPath(to)};
    st.(files := if StampPath(from) in files
                 then files[StampPath(to) := files[StampPath(from)]] else files)
  }

  function DiscardIfStale(st: State, p: Path): State {
    if p == "" || p !in st.files || IsCurrent(st.files, p, st.loaded) then st
    else st.(files := st.files - {p} - {StampPath(p)})
  }

  function NewChat(st: State, p: Path): State {
    if p == "" then st
    else
      var st1 := DiscardIfStale(st, p);
      if p in st1.files then st1 else WriteStamp(st1, p)
  }

  function LoadModel(st: State, model: string): State {
    st.(loaded := model)
  }

  function RemoveCache(st: State, p: Path): State {
    if p == "" || p !in st.files then st
    else RemoveStamp(st.(files := st.files - {p}), p)
  }

  function CopyCache(st: State, from: Path, to: Path): State {
    if from == "" || from !in st.files then st
    else
      var files := st.files - {to};
      if to == "" || from !in files then st.(files := files)   // the copy itself fails
      else CopyStamp(st.(files := files[to := files[from]]), from, to)
  }

  function UploadChunk(st: State, p: Path, bytes: seq<int>): State {
    if p == "" then st
    else
      var st1 := RemoveStamp(st, p);
      st1.(files := st1.files[p := Cache(Foreign, Raw(bytes))])
  }

  /** The periodic cleanup deletes some files, caches and stamps alike. */
  function CleanUp(st: State, gone: set<Path>): State {
    st.(files := st.files - gone)
  }

  /** The state in which a run call consults the session file. */
  function BeforeLoad(st: State, p: Path, model: Option<string>): State {
    var st0 := if model.Some? then LoadModel(st, model.value) else st;
    if st0.loaded == "" then st0 else DiscardIfStale(st0, p)
  }

  /** What llama_state_load_file is given, if it is called. */
  function Loads(st: State, p: Path, model: Option<string>): Option<Content> {
    var st1 := BeforeLoad(st, p, model);
    if st1.loaded != "" && p != "" && p in st1.files then Some(st1.files[p]) else None
  }

  function Run(st: State, p: Path, model: Option<string>, end: RunEnd): State {
    var st1 := BeforeLoad(st, p, model);
    if st1.loaded == "" || p == "" then st1
    else
      match end
      case NotSaved => st1
      case SavedEarly(f) => st1.(files := st1.files[p := Cache(Build(FORMAT, st1.loaded), Session(f))])
      case SavedFinal(f) =>
        WriteStamp(st1.(files := st1.files[p := Cache(Build(FORMAT, st1.loaded), Session(f))]), p)
  }

  datatype Step =
    | StepNewChat(p: Path)
    | StepLoad(model: string)
    | StepRun(p: Path, newModel: Option<string>, end: RunEnd)
    | StepRemove(p: Path)
    | StepCopy(from: Path, to: Path)
    | StepUpload(p: Path, bytes: seq<int>)
    | StepCleanUp(gone: set<Path>)

  function Do(st: State, step: Step): State {
    match step
    case StepNewChat(p) => NewChat(st, p)
    case StepLoad(model) => LoadModel(st, model)
    case StepRun(p, model, end) => Run(st, p, model, end)
    case StepRemove(p) => RemoveCache(st, p)
    case StepCopy(from, to) => CopyCache(st, from, to)
    case StepUpload(p, bytes) => UploadChunk(st, p, bytes)
    case StepCleanUp(gone) => CleanUp(st, gone)
  }

  /** What the steps leave in the files, said of the files alone. */
  lemma StepEffects(st: State, p: Path, to: Path, bytes: seq<int>, model: string, gone: set<Path>)
    requires p != "" && to != "" && p != to && CacheName(p) && CacheName(to)
    ensures Do(st, StepLoad(model)) == State(st.files, model)
    ensures Do(st, StepCleanUp(gone)) == State(st.files - gone, st.loaded)
    ensures p in st.files ==> Do(st, StepRemove(p)) == State(st.files - {p, p + SUFFIX}, st.loaded)
    ensures p !in st.files ==> Do(st, StepRemove(p)) == st
    ensures Do(st, StepUpload(p, bytes)) == State((st.files - {p + SUFFIX})[p := Cache(Foreign, Raw(bytes))], st.loaded)
    ensures p !in st.files ==> Do(st, StepCopy(p, to)) == st
    ensures p in st.files && p + SUFFIX !in st.files ==>
      Do(st, StepCopy(p, to)) == State((st.files - {to + SUFFIX})[to := st.files[p]], st.loaded)
    ensures p in st.files && p + SUFFIX in st.files ==>
      Do(st, StepCopy(p, to)) == State(st.files[to := st.files[p]][to + SUFFIX := st.files[p + SUFFIX]], st.loaded)
    ensures p in st.files && IsCurrent(st.files, p, st.loaded) ==> Do(st, StepNewChat(p)) == st
    ensures !(p in st.files && IsCurrent(st.files, p, st.loaded)) ==>
      Do(st, StepNewChat(p))
      == State((st.files - {p})[p + SUFFIX := Text(FORMAT + "\n" + st.loaded + "\n")], st.loaded)
  {
    StampPathInjective(p, to);
    StampIsNoCache(p, p);
    StampIsNoCache(p, to);
    StampIsNoCache(to, to);
    StampIsNoCache(to, p);
    hide IsCurrent, CacheName;
  }

  // ------------------------------------------------------------ safety

  /** A stamp that names a model names the writer of the cache beside it. */
  ghost predicate Honest(files: Files, p: Path) {
    p in files && StampPath(p) in files ==>
      forall m :: m != "" && StampedModel(files[StampPath(p)]) == Some(m) ==>
        files[p].Cache? && files[p].writer == Build(FORMAT, m)
  }

  ghost predicate AllHonest(st: State) {
    && OneLine(st.loaded)
    && forall p :: CacheName(p) ==> Honest(st.files, p)
  }

  /** A stamp waits for a cache of another model than the loaded one. */
  predicate OrphanStamp(st: State, p: Path) {
    && p !in st.files && StampPath(p) in st.files
    && var m := StampedModel(st.files[StampPath(p)]);
    && m.Some? && m.value != "" && m.value != st.loaded
  }

  /** The steps callers can take: cache names, one-line model names, no early save over an orphan stamp. */
  ghost predicate Allowed(st: State, step: Step) {
    match step
    case StepNewChat(p) => CacheName(p)
    case StepLoad(model) => OneLine(model)
    case StepRun(p, model, end) =>
      && CacheName(p) && (model.Some? ==> OneLine(model.value))
      && (end.SavedEarly? ==> !OrphanStamp(BeforeLoad(st, p, model), p))
    case StepRemove(p) => CacheName(p)
    case StepCopy(from, to) => CacheName(from) && CacheName(to)
    case StepUpload(p, _) => CacheName(p)
    case StepCleanUp(_) => true
  }

  /** Files away from p and its stamp stay as honest as they were. */
  lemma HonestElsewhere(before: Files, after: Files, p: Path)
    requires CacheName(p)
    requires forall q :: CacheName(q) ==> Honest(before, q)
    requires forall k :: k != p && k != StampPath(p) && k in after ==> k in before && after[k] == before[k]
    requires Honest(after, p)
    ensures forall q :: CacheName(q) ==> Honest(after, q)
  {
    forall q | CacheName(q) ensures Honest(after, q) {
      StampPathInjective(p, q);
      StampIsNoCache(p, q);
      StampIsNoCache(q, p);
      if q != p { assert Honest(before, q); }
    }
  }

  lemma DiscardHonest(st: State, p: Path)
    requires AllHonest(st) && CacheName(p)
    ensures AllHonest(DiscardIfStale(st, p))
  {
    HonestElsewhere(st.files, DiscardIfStale(st, p).files, p);
  }

  lemma StampHonest(st: State, p: Path)
    requires OneLine(st.loaded) && CacheName(p)
    requires st.loaded != "" ==> p in st.files ==> st.files[p].Cache? && st.files[p].writer == Build(FORMAT, st.loaded)
    ensures Honest(WriteStamp(st, p).files, p)
  {
    StampRoundTrip(st.loaded);
    StampIsNoCache(p, p);
  }

  lemma NewChatHonest(st: State, p: Path)
    requires AllHonest(st) && CacheName(p)
    ensures AllHonest(NewChat(st, p))
  {
    DiscardHonest(st, p);
    if p != "" {
      var st1 := DiscardIfStale(st, p);
      if p !in st1.files {
        StampHonest(st1, p);
        HonestElsewhere(st1.files, WriteStamp(st1, p).files, p);
      }
    }
  }

  lemma RemoveHonest(st: State, p: Path)
    requires AllHonest(st) && CacheName(p)
    ensures AllHonest(RemoveCache(st, p))
  {
    HonestElsewhere(st.files, RemoveCache(st, p).files, p);
  }

  lemma UploadHonest(st: State, p: Path, bytes: seq<int>)
    requires AllHonest(st) && CacheName(p)
    ensures AllHonest(UploadChunk(st, p, bytes))
  {
    StampIsNoCache(p, p);
    HonestElsewhere(st.files, UploadChunk(st, p, bytes).files, p);
  }

  lemma CopyHonest(st: State, from: Path, to: Path)
    requires AllHonest(st) && CacheName(from) && CacheName(to)
    ensures AllHonest(CopyCache(st, from, to))
  {
    StampPathInjective(from, to);
    StampIsNoCache(from, to);
    StampIsNoCache(to, from);
    StampIsNoCache(to, to);
    assert Honest(st.files, from);
    HonestElsewhere(st.files, CopyCache(st, from, to).files, to);
  }

  lemma CleanUpHonest(st: State, gone: set<Path>)
    requires AllHonest(st)
    ensures AllHonest(CleanUp(st, gone))
  {
    forall q | CacheName(q) ensures Honest(CleanUp(st, gone).files, q) {
      assert Honest(st.files, q);
    }
  }

  /** An early save keeps every stamp honest exactly when it does not land beside an orphan stamp. */
  lemma EarlySaveHonest(st: State, p: Path, f: EngineSpec.SessionFile)
    requires AllHonest(st) && CacheName(p) && p != "" && st.loaded != ""
    requires st == DiscardIfStale(st, p)
    ensures AllHonest(Run(st, p, None, SavedEarly(f))) <==> !OrphanStamp(st, p)
  {
    var after := Run(st, p, None, SavedEarly(f));
    assert BeforeLoad(st, p, None) == st;
    StampIsNoCache(p, p);
    if !OrphanStamp(st, p) {
      assert Honest(st.files, p);
      HonestElsewhere(st.files, after.files, p);
    } else {
      var m := StampedModel(st.files[StampPath(p)]).value;
      assert StampedModel(after.files[StampPath(p)]) == Some(m);
      assert !Honest(after.files, p);
    }
  }

  lemma RunHonest(st: State, p: Path, model: Option<string>, end: RunEnd)
    requires AllHonest(st) && Allowed(st, StepRun(p, model, end))
    ensures AllHonest(Run(st, p, model, end))
  {
    var st0 := if model.Some? then LoadModel(st, model.value) else st;
    DiscardHonest(st0, p);
    var st1 := BeforeLoad(st, p, model);
    if st1.loaded != "" && p != "" {
      match end
      case NotSaved =>
      case SavedEarly(f) =>
        assert BeforeLoad(st1, p, None) == st1;
        EarlySaveHonest(st1, p, f);
      case SavedFinal(f) =>
        var st2 := st1.(files := st1.files[p := Cache(Build(FORMAT, st1.loaded), Session(f))]);
        StampHonest(st2, p);
        HonestElsewhere(st1.files, WriteStamp(st2, p).files, p);
    }
  }

  /** Every step keeps every stamp honest. */
  lemma StepHonest(st: State, step: Step)
    requires AllHonest(st) && Allowed(st, step)
    ensures AllHonest(Do(st, step))
  {
    match step
    case StepNewChat(p) => NewChatHonest(st, p);
    case StepLoad(model) =>
    case StepRun(p, model, end) => RunHonest(st, p, model, end);
    case StepRemove(p) => RemoveHonest(st, p);
    case StepCopy(from, to) => CopyHonest(st, from, to);
    case StepUpload(p, bytes) => UploadHonest(st, p, bytes);
    case StepCleanUp(gone) => CleanUpHonest(st, gone);
  }

  /** What the loader is given was written by this format with the model that is loaded now. */
  ghost predicate LoadsOwn(st: State, p: Path, model: Option<string>) {
    var x := Loads(st, p, model);
    x.Some? ==> x.value.Cache? && x.value.writer == Build(FORMAT, BeforeLoad(st, p, model).loaded)
  }

  lemma HonestLoadsOwn(st: State, p: Path, model: Option<string>)
    requires AllHonest(st) && CacheName(p) && (model.Some? ==> OneLine(model.value))
    ensures LoadsOwn(st, p, model)
  {
    var st0 := if model.Some? then LoadModel(st, model.value) else st;
    DiscardHonest(st0, p);
    assert Honest(BeforeLoad(st, p, model).files, p);
  }

  ghost predicate AllAllowed(st: State, steps: seq<Step>)
    decreases |steps|
  {
    steps != [] ==> Allowed(st, steps[0]) && AllAllowed(Do(st, steps[0]), steps[1..])
  }

  ghost predicate EveryLoadIsOwn(st: State, steps: seq<Step>)
    decreases |steps|
  {
    steps != [] ==>
      && (steps[0].StepRun? ==> LoadsOwn(st, steps[0].p, steps[0].newModel))
      && EveryLoadIsOwn(Do(st, steps[0]), steps[1..])
  }

  function DoAll(st: State, steps: seq<Step>): State
    decreases |steps|
  {
    if steps == [] then st else DoAll(Do(st, steps[0]), steps[1..])
  }

  /** Stamp safety over every run of the protocol. */
  lemma {:induction false} StampSafety(st: State, steps: seq<Step>)
    requires AllHonest(st) && AllAllowed(st, steps)
    ensures EveryLoadIsOwn(st, steps) && AllHonest(DoAll(st, steps))
    decreases |steps|
  {
    if steps != [] {
      if steps[0].StepRun? {
        HonestLoadsOwn(st, steps[0].p, steps[0].newModel);
      }
      StepHonest(st, steps[0]);
      StampSafety(Do(st, steps[0]), steps[1..]);
    }
  }

  /** In particular from a canister that has no files and no model yet. */
  lemma FreshIsSafe(steps: seq<Step>)
    requires AllAllowed(State(map[], ""), steps)
    ensures EveryLoadIsOwn(State(map[], ""), steps) && AllHonest(DoAll(State(map[], ""), steps))
  {
    StampSafety(State(map[], ""), steps);
  }

  /**
   A store as any mixture of builds may have left it: every stamp is the two lines of
   some format and some model, and the cache beside it was written by just those.
   */
  ghost predicate StampedByWriters(files: Files) {
    forall p :: CacheName(p) && p in files && p + SUFFIX in files ==>
      && files[p].Cache? && files[p].writer.Build?
      && var w := files[p].writer;
      && OneLine(w.format) && OneLine(w.model) && files[p + SUFFIX] == Text(w.format + "\n" + w.model + "\n")
  }

  lemma WrittenStampIsHonest(files: Files, p: Path)
    requires StampedByWriters(files) && CacheName(p)
    ensures Honest(files, p)
  {
    if p in files && StampPath(p) in files {
      var w, stamp := files[p].writer, files[StampPath(p)];
      if w.Build? {
        if w.format == FORMAT {
          StampRoundTrip(w.model);
        } else {
          OtherFormatVouchesNot(files, p, w.format, w.model, "");
        }
      }
    }
  }

  /** An upgrade is safe: whatever formats wrote the caches that are there, every load is of this format's own bytes. */
  lemma UpgradeIsSafe(st: State, steps: seq<Step>)
    requires OneLine(st.loaded) && StampedByWriters(st.files) && AllAllowed(st, steps)
    ensures EveryLoadIsOwn(st, steps) && AllHonest(DoAll(st, steps))
  {
    forall p | CacheName(p) ensures Honest(st.files, p) {
      WrittenStampIsHonest(st.files, p);
    }
    StampSafety(st, steps);
  }

  /** A cache that another format stamped is not loaded, and gone with its stamp at the first run under a model. */
  lemma OldFormatIsDiscarded(st: State, p: Path, format: string, stamped: string)
    requires OneLine(format) && format != FORMAT && p != "" && st.loaded != ""
    requires p in st.files && p + SUFFIX in st.files
    requires st.files[p + SUFFIX] == Text(format + "\n" + stamped + "\n")
    ensures Loads(st, p, None) == None
    ensures Run(st, p, None, NotSaved).files == st.files - {p, p + SUFFIX}
  {
    OtherFormatVouchesNot(st.files, p, format, stamped, st.loaded);
    hide IsCurrent;
  }

  // ------------------------------------------------------------ save and restore

  /** Copy away, remove, copy back, new chat. */
  function SaveRemoveRestore(st: State, live: Path, save: Path): State {
    NewChat(CopyCache(RemoveCache(CopyCache(st, live, save), live), save, live), live)
  }

  /** A copy carries bytes and stamp. */
  lemma Copied(st: State, from: Path, to: Path)
    requires CacheName(from) && CacheName(to) && from != to && from != "" && to != ""
    requires from in st.files && StampPath(from) in st.files
    ensures var r := CopyCache(st, from, to);
      && r.loaded == st.loaded && to in r.files && r.files[to] == st.files[from]
      && StampPath(to) in r.files && r.files[StampPath(to)] == st.files[StampPath(from)]
  {
    StampPathInjective(from, to);
    StampIsNoCache(from, to);
    StampIsNoCache(to, from);
    StampIsNoCache(to, to);
    hide StampPath, CacheName;
  }

  /** A cache that was warm is warm again after a save, a removal and a restore. */
  lemma SaveRestoreStaysWarm(st: State, live: Path, save: Path)
    requires CacheName(live) && CacheName(save) && live != save && live != "" && save != ""
    requires live in st.files && IsCurrent(st.files, live, st.loaded)
    ensures var st' := SaveRemoveRestore(st, live, save);
      && st'.loaded == st.loaded
      && live in st'.files && st'.files[live] == st.files[live]
      && st'.files[StampPath(live)] == st.files[StampPath(live)]
      && IsCurrent(st'.files, live, st.loaded) && DiscardIfStale(st', live) == st'
      && (st.loaded != "" ==> Loads(st', live, None) == Loads(st, live, None) == Some(st.files[live]))
    ensures forall model :: Loads(RemoveCache(CopyCache(st, live, save), live), live, model) == None
  {
    StampPathInjective(live, save);
    StampIsNoCache(live, save);
    StampIsNoCache(save, live);
    StampIsNoCache(live, live);
    StampIsNoCache(save, save);
    hide StampedModel, StampPath, CacheName, StampText, CopyCache;
    Copied(st, live, save);
    var st1 := CopyCache(st, live, save);
    var st2 := RemoveCache(st1, live);
    assert live !in st2.files && st2.files[save] == st.files[live];
    forall model ensures Loads(st2, live, model) == None {
      assert live !in BeforeLoad(st2, live, model).files;
    }
    Copied(st2, save, live);
  }

  /** The session file a run call starts from, given what the loader saw. */
  function AsFile(x: Option<Content>): Option<EngineSpec.SessionFile> {
    if x.Some? && x.value.Cache? && x.value.bytes.Session? then Some(x.value.bytes.file) else None
  }

  /** The next call after a restore is the call that would have been made on the original, counts included. */
  lemma RestoredCallIsSame(
    c: EngineSpec.Context, args: EngineSpec.Params, st: State, live: Path, save: Path)
    requires CacheName(live) && CacheName(save) && live != save && live != "" && save != ""
    requires live in st.files && IsCurrent(st.files, live, st.loaded) && st.loaded != ""
    requires c.Valid() && args.Bounded(c) && EngineSpec.Usable(c, AsFile(Loads(st, live, None)))
    ensures var st' := SaveRemoveRestore(st, live, save);
      EngineSpec.Usable(c, AsFile(Loads(st', live, None)))
      && EngineSpec.Call(c, args, AsFile(Loads(st', live, None)))
      == EngineSpec.Call(c, args, AsFile(Loads(st, live, None)))
  {
    SaveRestoreStaysWarm(st, live, save);
  }

  // ------------------------------------------------------------ run calls as steps

  /** How the call args ends for the session file it is given. */
  ghost function EndOfRun(c: EngineSpec.Context, args: EngineSpec.Params, file: Option<EngineSpec.SessionFile>): RunEnd
    requires EngineTheorems.Accepted(c, args, file) && EngineTheorems.Recording(args)
  {
    EngineTheorems.CallFile(c, args, file);
    var after := EngineSpec.Call(c, args, file).file;
    if EngineTheorems.SavesAtEnd(c, args, file) then SavedFinal(after.value)
    else if after == file then NotSaved
    else SavedEarly(after.value)
  }

  /** A call that does not save leaves the cache file the loader was given. */
  lemma LoadedFile(st: State, p: Path)
    requires st.loaded != "" && p != "" && (p in st.files ==> st.files[p].Cache? && st.files[p].bytes.Session?)
    ensures var before := BeforeLoad(st, p, None);
      && before.loaded == st.loaded
      && (p in before.files <==> Loads(st, p, None).Some?)
      && (p in before.files ==>
          Loads(st, p, None) == Some(before.files[p]) && AsFile(Some(before.files[p])).Some?)
  {
    hide IsCurrent;
  }

  lemma SuffixIsLonger(p: Path)
    ensures StampPath(p) != p
  {
    assert |StampPath(p)| > |p|;
  }

  /** The step leaves in the cache file what the call leaves in its session file. */
  lemma RunIsCall(c: EngineSpec.Context, args: EngineSpec.Params, st: State, p: Path)
    requires st.loaded != "" && p != "" && (p in st.files ==> st.files[p].Cache? && st.files[p].bytes.Session?)
    requires EngineTheorems.Accepted(c, args, AsFile(Loads(st, p, None))) && EngineTheorems.Recording(args)
    ensures var file := AsFile(Loads(st, p, None));
      var st' := Run(st, p, None, EndOfRun(c, args, file));
      (if p in st'.files then AsFile(Some(st'.files[p])) else None) == EngineSpec.Call(c, args, file).file
  {
    var file := AsFile(Loads(st, p, None));
    EngineTheorems.CallFile(c, args, file);
    SuffixIsLonger(p);
    LoadedFile(st, p);
    hide EngineSpec.Call, EngineTheorems.SavesAtEnd, BeforeLoad, Loads, StampText, StampPath,
         EngineTheorems.Accepted, EngineTheorems.Redoes, EngineTheorems.EndOf, EngineTheorems.PrefillOf,
          EngineSpec.PlanOf;
  }

  /** A call saves at its first sample only exactly when it outgrows the context. */
  lemma EarlyEndIff(c: EngineSpec.Context, args: EngineSpec.Params, file: Option<EngineSpec.SessionFile>)
    requires EngineTheorems.Accepted(c, args, file) && EngineTheorems.Recording(args)
    ensures EndOfRun(c, args, file).SavedEarly? <==> EngineRoom.OutgrowsContext(c, args, file)
  {
    hide EngineSpec.Call, EngineTheorems.SavesAtEnd, EngineTheorems.Accepted, EngineRoom.OutgrowsContext;
    EngineRoom.SavesEarlyOnlyIff(c, args, file);
  }

  /**
   A call is a step the protocol allows exactly unless it outgrows the context on
   top of another model's orphan stamp; without context shift it never does.
   */
  lemma CallIsAllowed(c: EngineSpec.Context, args: EngineSpec.Params, st: State, p: Path)
    requires CacheName(p)
    requires EngineTheorems.Accepted(c, args, AsFile(Loads(st, p, None))) && EngineTheorems.Recording(args)
    ensures var file := AsFile(Loads(st, p, None));
      && (Allowed(st, StepRun(p, None, EndOfRun(c, args, file)))
          <==> !EngineRoom.OutgrowsContext(c, args, file) || !OrphanStamp(BeforeLoad(st, p, None), p))
      && (!args.ctxShift || args.nPredict == -2 ==> Allowed(st, StepRun(p, None, EndOfRun(c, args, file))))
  {
    EarlyEndIff(c, args, AsFile(Loads(st, p, None)));
    hide EngineSpec.Call, EngineTheorems.SavesAtEnd, EngineTheorems.Accepted, EndOfRun, BeforeLoad, Loads, OrphanStamp;
  }

  /** A context of eight places and a model that always samples 99. */
  function EarlyContext(): EngineSpec.Context { EngineSpec.Context(8, 8, false, 0, _ => 99, _ => false) }

  /** A prompt of four tokens and ten tokens to generate, with context shift. */
  function EarlyArgs(): EngineSpec.Params { EngineSpec.Params(false, [1, 2, 3, 4], 0, 10, 0, true, true, false) }

  /** A call on a cold cache that saves at its first sample only. */
  lemma EarlyCall()
    ensures EngineTheorems.Accepted(EarlyContext(), EarlyArgs(), None) && EngineTheorems.Recording(EarlyArgs())
    ensures EndOfRun(EarlyContext(), EarlyArgs(), None).SavedEarly?
  {
    var c, args := EarlyContext(), EarlyArgs();
    assert EngineSpec.Lcp([], args.toks) == 0;
    EngineSpec.PlanIsValid(c, args, None);
    EarlyEndIff(c, args, None);
    hide EndOfRun;
  }

  lemma TwoSteps(st: State, x: Step, y: Step)
    ensures DoAll(st, [x, y]) == Do(Do(st, x), y)
  {
    assert [x, y][1..] == [y];
    assert DoAll(Do(Do(st, x), y), [y][1..]) == Do(Do(st, x), y);
  }

  lemma ThreeSteps(st: State, x: Step, y: Step, z: Step)
    ensures DoAll(st, [x, y, z]) == Do(Do(Do(st, x), y), z)
  {
    assert [x, y, z][1..] == [y, z];
    TwoSteps(Do(st, x), y, z);
  }

  /**
   The excluded run: new_chat stamps for model a, a call under model b outgrows its
   context, and back under model a the loader is given b's bytes.
   */
  lemma EarlySaveExample(p: Path, a: string, b: string)
    requires CacheName(p) && p != "" && OneLine(a) && OneLine(b) && a != b && a != "" && b != ""
    ensures EngineTheorems.Accepted(EarlyContext(), EarlyArgs(), None) && EngineTheorems.Recording(EarlyArgs())
    ensures var end := EndOfRun(EarlyContext(), EarlyArgs(), None);
      var before := DoAll(State(map[], ""), [StepLoad(a), StepNewChat(p), StepLoad(b)]);
      var after := DoAll(before, [StepRun(p, None, end), StepLoad(a)]);
      && AsFile(Loads(before, p, None)) == None && end.SavedEarly?
      && after.loaded == a && Loads(after, p, None) == Some(Cache(Build(FORMAT, b), Session(end.file)))
  {
    EarlyCall();
    hide EndOfRun, StampText, StampPath, StampedModel, CacheName, EngineTheorems.Accepted, EngineTheorems.Recording;
    var end := EndOfRun(EarlyContext(), EarlyArgs(), None);
    StampRoundTrip(a);
    SuffixIsLonger(p);
    var stamped := State(map[StampPath(p) := Text(StampText(FORMAT, a))], a);
    ThreeSteps(State(map[], ""), StepLoad(a), StepNewChat(p), StepLoad(b));
    assert NewChat(State(map[], a), p) == stamped;
    var before := stamped.(loaded := b);
    TwoSteps(before, StepRun(p, None, end), StepLoad(a));
  }

  // ------------------------------------------------------------ the canister's files

  /** Every other path has what it had. */
  ghost predicate OnlyAt(at: set<Path>, before: Files, after: Files) {
    forall k :: k !in at ==> (k in after <==> k in before) && (k in after ==> after[k] == before[k])
  }

  class CacheStore {
    var files: Files
    var loaded: string

    function Now(): State
      reads this
    {
      State(files, loaded)
    }

    constructor ()
      ensures Now() == State(map[], "")
    {
      files, loaded := map[], "";
    }

    /** prompt_cache_format_is_current, line by line. */
    method FormatIsCurrent(p: Path) returns (current: bool)
      ensures current == IsCurrent(files, p, loaded)
    {
      if StampPath(p) !in files {
        return false;
      }
      var content := files[StampPath(p)];
      if !content.Text? {
        return false;
      }
      var (format, rest) := GetLine(content.text);
      if format != FORMAT {
        return false;
      }
      if rest == "" {
        return false;
      }
      var (stampedModel, _) := GetLine(rest);
      if loaded == "" {
        return true;
      }
      return stampedModel == loaded;
    }

    /** Afterwards the stamp vouches for the cache under the loaded model, and under no other. */
    method WriteFormatStamp(p: Path)
      modifies this`files
      ensures Now() == WriteStamp(old(Now()), p)
      ensures OneLine(loaded) ==> forall m :: m != "" ==> (IsCurrent(files, p, m) <==> m == loaded)
      ensures OnlyAt({StampPath(p)}, old(files), files)
    {
      if OneLine(loaded) { StampRoundTrip(loaded); }
      hide StampText;
      files := files[StampPath(p) := Text(StampText(FORMAT, loaded))];
    }

    /** Afterwards nothing vouches for the cache, whatever model is loaded. */
    method RemoveFormatStamp(p: Path)
      modifies this`files
      ensures Now() == RemoveStamp(old(Now()), p)
      ensures p != "" ==> forall m :: !IsCurrent(files, p, m)
      ensures OnlyAt({StampPath(p)}, old(files), files)
    {
      if p == "" {
        return;
      }
      files := files - {StampPath(p)};
    }

    /** Afterwards the target is vouched for under exactly the models the source was. */
    method CopyFormatStamp(from: Path, to: Path)
      modifies this`files
      ensures Now() == CopyStamp(old(Now()), from, to)
      ensures forall m :: IsCurrent(files, to, m) <==> from != to && IsCurrent(old(files), from, m)
      ensures OnlyAt({StampPath(to)}, old(files), files)
    {
      StampPathInjective(from, to);
      hide StampPath, StampedModel;
      files := files - {StampPath(to)};
      if StampPath(from) in files {
        files := files[StampPath(to) := files[StampPath(from)]];
      }
    }

    /** prompt_cache_discard_if_stale. */
    method Discard(p: Path) returns (discarded: bool)
      modifies this`files
      ensures Now() == DiscardIfStale(old(Now()), p)
      ensures discarded <==> p != "" && p in old(files) && !IsCurrent(old(files), p, loaded)
      ensures discarded ==> p !in files && p + SUFFIX !in files
      ensures !discarded ==> files == old(files)
      ensures OnlyAt({p, StampPath(p)}, old(files), files)
    {
      if p == "" {
        return false;
      }
      if p !in files {
        return false;
      }
      var current := FormatIsCurrent(p);
      if current {
        return false;
      }
      files := files - {p};
      files := files - {StampPath(p)};
      discarded := true;
    }

    /** Afterwards a cache that is there is vouched for; where none is, a stamp of the loaded model waits for one. */
    method StartChat(p: Path) returns (ok: bool)
      modifies this`files
      ensures ok == (p != "")
      ensures Now() == NewChat(old(Now()), p)
      ensures ok ==> (p in files <==> p in old(files) && IsCurrent(old(files), p, loaded))
      ensures ok && p in files ==> files == old(files)
      ensures ok && p !in files && OneLine(loaded) ==> forall m :: m != "" ==> (IsCurrent(files, p, m) <==> m == loaded)
      ensures OnlyAt(if ok then {p, StampPath(p)} else {}, old(files), files)
    {
      if p == "" {
        return false;
      }
      SuffixIsLonger(p);
      hide IsCurrent;
      var _ := Discard(p);
      if p !in files {
        WriteFormatStamp(p);
      }
      ok := true;
    }

    /** Afterwards neither cache nor stamp is left, if there was a cache. */
    method RemovePromptCache(p: Path) returns (removed: bool)
      modifies this`files
      ensures removed == (p != "" && p in old(files))
      ensures removed ==> p !in files && p + SUFFIX !in files
      ensures !removed ==> files == old(files)
      ensures OnlyAt({p, StampPath(p)}, old(files), files)
      ensures Now() == RemoveCache(old(Now()), p)
    {
      SuffixIsLonger(p);
      removed := false;
      if p != "" && p in files {
        files := files - {p};
        RemoveFormatStamp(p);
        removed := true;
      }
    }

    /** Afterwards the target is the source, vouched for under the same models; a cache copied onto itself is lost. */
    method CopyPromptCache(from: Path, to: Path) returns (ok: bool)
      modifies this`files
      ensures Now() == CopyCache(old(Now()), from, to)
      ensures ok ==> from in old(files)
      ensures ok && CacheName(from) && CacheName(to) ==>
        && to in files && files[to] == old(files)[from]
        && (forall m :: IsCurrent(files, to, m) <==> IsCurrent(old(files), from, m))
        && OnlyAt({to, StampPath(to)}, old(files), files)
      ensures !ok ==> files == if from != "" && from in old(files) then old(files) - {to} else old(files)
      ensures ok == (from != "" && to != "" && from in old(files) && from != to)
    {
      SuffixIsLonger(to);
      if CacheName(to) { StampIsNoCache(from, to); }
      if CacheName(from) { StampIsNoCache(to, from); }
      if from == "" || from !in files {
        return false;
      }
      if to in files {
        files := files - {to};
      }
      assert files == old(files) - {to};
      if to == "" || from !in files {
        return false;
      }
      files := files[to := files[from]];
      CopyFormatStamp(from, to);
      ok := true;
    }

    /** Afterwards the foreign bytes lie at p, and no run under any model is given them. */
    method UploadPromptCacheChunk(p: Path, bytes: seq<int>)
      modifies this`files
      ensures Now() == UploadChunk(old(Now()), p, bytes)
      ensures p != "" ==> p in files && files[p] == Cache(Foreign, Raw(bytes))
      ensures forall model :: Loads(Now(), p, model) == None
      ensures OnlyAt({p, StampPath(p)}, old(files), files)
    {
      SuffixIsLonger(p);
      RemoveFormatStamp(p);
      if p != "" {
        files := files[p := Cache(Foreign, Raw(bytes))];
      }
    }

    /** main_, as far as files go: maybe load a model, discard, load, and save as end says. */
    method RunUpdate(p: Path, model: Option<string>, end: RunEnd) returns (given: Option<Content>)
      modifies this
      ensures given == Loads(old(Now()), p, model)
      ensures Now() == Run(old(Now()), p, model, end)
      ensures loaded == (if model.Some? then model.value else old(loaded))
      ensures given.Some? <==> loaded != "" && p != "" && p in old(files) && IsCurrent(old(files), p, loaded)
      ensures given.Some? ==> given.value == old(files)[p]
      ensures loaded != "" && p != "" && !end.NotSaved? ==>
        p in files && files[p] == Cache(Build(FORMAT, loaded), Session(end.file))
      ensures loaded != "" && p != "" && end.SavedFinal? && OneLine(loaded) ==>
        forall m :: m != "" ==> (IsCurrent(files, p, m) <==> m == loaded)
      ensures OnlyAt({p, StampPath(p)}, old(files), files)
    {
      hide IsCurrent, StampPath, StampText;
      SuffixIsLonger(p);
      given := None;
      if model.Some? {
        loaded := model.value;
      }
      if loaded == "" {
        return;
      }
      var _ := Discard(p);
      if p == "" {
        return;
      }
      if p in files {
        given := Some(files[p]);
      }
      match end {
        case NotSaved =>
        case SavedEarly(f) =>
          files := files[p := Cache(Build(FORMAT, loaded), Session(f))];
        case SavedFinal(f) =>
          files := files[p := Cache(Build(FORMAT, loaded), Session(f))];
          WriteFormatStamp(p);
      }
    }
  }
}
