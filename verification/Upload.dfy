/**
 Chunked upload: per-file sessions with a streaming hash, the files themselves,
 and the metadata index. Delivering every chunk at least once, in order, leaves
 the file, its size and its hash as if the chunks had been concatenated.
 */
module Upload {
  import opened Wrappers
  import opened LittleEndian
  import opened Metadata

  const MAX_CHUNK_SIZE: nat := 2 * 1024 * 1024

  /** hashed stands for the state of the streaming SHA-256: the bytes added so far. */
  datatype Session = Session(isFirstChunk: bool, previousOffset: nat, hashed: seq<byte>)

  // ------------------------------------------------------------ lists of records

  /** A list that can be saved and, up to its first oversized record, read back as a map. */
  ghost predicate Good(xs: seq<Entry>) {
    && |xs| < MAX64 && UniqueNames(FitPrefix(xs))
    && forall e :: e in xs ==> Writable(e)
  }

  /** A list of which all is read back. */
  ghost predicate Whole(xs: seq<Entry>) {
    Good(xs) && forall e :: e in xs ==> Fits(e)
  }

  lemma GoodLoads(xs: seq<Entry>)
    requires Good(xs)
    ensures Load(Save(xs)) == FitPrefix(xs) && Whole(FitPrefix(xs)) && |FitPrefix(xs)| <= |xs|
  {
    LoadOfSave(xs);
    var ys := FitPrefix(xs);
    FitPrefixAll(ys);
    assert forall e :: e in ys ==> e in xs;
  }

  lemma WholeIsRead(xs: seq<Entry>)
    requires Whole(xs)
    ensures FitPrefix(xs) == xs && UniqueNames(xs)
  {
    FitPrefixAll(xs);
  }

  lemma ReplaceIsWhole(xs: seq<Entry>, i: nat, e: Entry)
    requires Whole(xs) && i < |xs| && xs[i].name == e.name && Fits(e) && Writable(e)
    ensures Whole(xs[i := e])
  {
    WholeIsRead(xs);
    FitPrefixAll(xs[i := e]);
  }

  /** A new record is there at the next load if it fits, and leaves no trace if it does not. */
  lemma AppendIsGood(xs: seq<Entry>, e: Entry)
    requires Whole(xs) && |xs| + 1 < MAX64 && Writable(e)
    requires forall i :: 0 <= i < |xs| ==> xs[i].name != e.name
    ensures Good(xs + [e]) && FitPrefix(xs + [e]) == if Fits(e) then xs + [e] else xs
  {
    hide FitPrefix, Fits, Writable;
    WholeIsRead(xs);
    FitPrefixAppend(xs, e);
  }

  lemma EraseIsWhole(xs: seq<Entry>, i: nat)
    requires Whole(xs) && i < |xs|
    ensures Whole(xs[..i] + xs[i + 1..])
  {
    hide FitPrefix, Fits, Writable;
    var ys := xs[..i] + xs[i + 1..];
    forall j | 0 <= j < |ys| ensures ys[j] == xs[if j < i then j else j + 1] {
    }
    WholeIsRead(xs);
    FitPrefixAll(ys);
  }

  // ------------------------------------------------------------ one chunk, as a function

  /** What the canister knows of its files. */
  datatype State = State(
    files: map<Name, seq<byte>>,
    sessions: map<Name, Session>,
    index: map<Name, Info>
  )

  datatype ChunkResult = ChunkResult(state: State, reply: Result<Info>)

  /** Seek to offset and write: bytes beyond the end are preceded by zeros, the rest is kept. */
  function WriteAt(file: seq<byte>, offset: nat, v: seq<byte>): seq<byte> {
    Read(file, 0, offset) + v + if offset + |v| <= |file| then file[offset + |v|..] else []
  }

  /** Byte by byte: what is written, what was there around it, and zeros in a gap. */
  lemma WriteAtIs(file: seq<byte>, offset: nat, v: seq<byte>)
    ensures var r, end := WriteAt(file, offset, v), offset + |v|;
      && |r| == (if end < |file| then |file| else end)
      && (forall i :: 0 <= i < |v| ==> r[offset + i] == v[i])
      && (forall i :: 0 <= i < |file| && !(offset <= i < end) ==> r[i] == file[i])
      && (forall i :: |file| <= i < offset ==> r[i] == 0)
  {
  }

  /** The session a chunk finds: a fresh one at offset 0. */
  function SessionFor(st: State, name: Name, offset: nat): Session {
    if offset == 0 then Session(true, 0, [])
    else if name in st.sessions then st.sessions[name] else Session(false, 0, [])
  }

  /** The file opened for writing: emptied at offset 0, created if missing. */
  function Opened(st: State, name: Name, offset: nat): State {
    st.(sessions := st.sessions[name := SessionFor(st, name, offset)],
        files := st.files[name := if offset == 0 || name !in st.files then [] else st.files[name]])
  }

  /** The index once a record is written: one with a longer name is not read back. */
  function Indexed(index: map<Name, Info>, name: Name, info: Info): map<Name, Info> {
    if |name| <= MAX_FILENAME_SIZE then index[name := info] else index
  }

  /** Write a new chunk to an open file, and record its size and hash. */
  function Accept(digest: seq<byte> -> seq<byte>, st: State, s: Session,
                  name: Name, v: seq<byte>, offset: nat): ChunkResult
    requires name in st.files
  {
    var written := st.files[name := WriteAt(st.files[name], offset, v)];
    if offset + |v| >= MAX64 then
      ChunkResult(st.(files := written, sessions := st.sessions[name := Session(false, offset, s.hashed)]),
                  Err("integer overflow"))
    else
      var hashed := s.hashed + v;
      var info := Info(offset + |v|, digest(hashed));
      ChunkResult(
        st.(files := written, sessions := st.sessions[name := Session(false, offset, hashed)],
            index := Indexed(st.index, name, info)),
        Ok(info))
  }

  function PutChunk(digest: seq<byte> -> seq<byte>, st: State,
                    name: Name, v: seq<byte>, chunksize: nat, offset: nat): ChunkResult {
    if chunksize > MAX_CHUNK_SIZE then ChunkResult(st, Err("chunksize exceeds limit"))
    else
      var s := SessionFor(st, name, offset);
      if name == [] then ChunkResult(st.(sessions := st.sessions[name := s]), Err("failed to open"))
      else if !s.isFirstChunk && offset == s.previousOffset then
        ChunkResult(Opened(st, name, offset),
                    if name in st.index then Ok(st.index[name]) else Err("metadata not found"))
      else
        Accept(digest, Opened(st, name, offset), s, name, v, offset)
  }

  /** What a chunk leaves of its own file. */
  ghost predicate Leaves(st: State, name: Name, file: Option<seq<byte>>, session: Option<Session>) {
    && (if file.Some? then name in st.files && st.files[name] == file.value else name !in st.files)
    && (if session.Some? then name in st.sessions && st.sessions[name] == session.value else name !in st.sessions)
  }

  function FileAt(st: State, name: Name): Option<seq<byte>> {
    if name in st.files then Some(st.files[name]) else None
  }

  function SessionAt(st: State, name: Name): Option<Session> {
    if name in st.sessions then Some(st.sessions[name]) else None
  }

  /** A chunk that is refused before anything is written: too long, or for no name. */
  lemma RefusedChunk(digest: seq<byte> -> seq<byte>, st: State, name: Name, v: seq<byte>, chunksize: nat, offset: nat)
    requires chunksize > 2_097_152 || name == []
    ensures var r := PutChunk(digest, st, name, v, chunksize, offset);
      && r.reply.Err? && r.state.files == st.files && r.state.index == st.index
      && (chunksize > 2_097_152 ==> r.state == st)
      && (chunksize <= 2_097_152 && offset == 0 ==> SessionAt(r.state, []) == Some(Session(true, 0, [])))
      && (chunksize <= 2_097_152 && offset > 0 && [] !in st.sessions ==>
          SessionAt(r.state, []) == Some(Session(false, 0, [])))
  {
  }

  /** A chunk at offset 0 starts the file and its hash over. */
  lemma StartingChunk(digest: seq<byte> -> seq<byte>, st: State, name: Name, v: seq<byte>, chunksize: nat)
    requires chunksize <= 2_097_152 && name != []
    ensures var r := PutChunk(digest, st, name, v, chunksize, 0);
      if |v| >= 0x1_0000_0000_0000_0000 then
        r.reply.Err? && r.state.index == st.index && Leaves(r.state, name, Some(v), Some(Session(false, 0, [])))
      else
        && Leaves(r.state, name, Some(v), Some(Session(false, 0, v)))
        && r.reply == Ok(Info(|v|, digest(v)))
        && r.state.index == if |name| <= 4096 then st.index[name := Info(|v|, digest(v))] else st.index
  {
    assert WriteAt([], 0, v) == v;
    assert [] + v == v;
  }

  /** The same chunk again is not written: the answer is what the index says. */
  lemma RepeatedChunk(digest: seq<byte> -> seq<byte>, st: State, name: Name, v: seq<byte>, chunksize: nat, offset: nat)
    requires chunksize <= 2_097_152 && name != [] && offset > 0
    requires name in st.sessions && !st.sessions[name].isFirstChunk && st.sessions[name].previousOffset == offset
    ensures var r := PutChunk(digest, st, name, v, chunksize, offset);
      && Leaves(r.state, name, Some(FileAt(st, name).GetOr([])), SessionAt(st, name))
      && r.state.index == st.index
      && r.reply == if name in st.index then Ok(st.index[name]) else Err("metadata not found")
  {
  }

  /** Any other chunk is written where it says, and the hash goes on from what was added so far. */
  lemma WrittenChunk(digest: seq<byte> -> seq<byte>, st: State, name: Name, v: seq<byte>, chunksize: nat, offset: nat)
    requires chunksize <= 2_097_152 && name != [] && offset > 0
    requires name in st.sessions ==> st.sessions[name].isFirstChunk || st.sessions[name].previousOffset != offset
    ensures var r := PutChunk(digest, st, name, v, chunksize, offset);
      var hashed := if name in st.sessions then st.sessions[name].hashed else [];
      var file := WriteAt(FileAt(st, name).GetOr([]), offset, v);
      if offset + |v| >= 0x1_0000_0000_0000_0000 then
        && r.reply.Err? && r.state.index == st.index
        && Leaves(r.state, name, Some(file), Some(Session(false, offset, hashed)))
      else
        var info := Info(offset + |v|, digest(hashed + v));
        && r.reply == Ok(info) && r.state.index == (if |name| <= 4096 then st.index[name := info] else st.index)
        && Leaves(r.state, name, Some(file), Some(Session(false, offset, hashed + v)))
  {
    hide WriteAt;
  }

  // ------------------------------------------------------------ the store

  /** Replacing a record of a list that is read back whole sets one binding. */
  lemma Replaces(xs: seq<Entry>, i: nat, e: Entry)
    requires Whole(xs) && i < |xs| && xs[i].name == e.name && Writable(e) && |e.sha| <= MAX_SHA256_SIZE
    ensures Good(xs[i := e]) && ToMap(FitPrefix(xs[i := e])) == Indexed(ToMap(xs), e.name, Info(e.size, e.sha))
    ensures e.name in ToMap(xs)
  {
    assert Fits(xs[i]);
    ReplaceIsWhole(xs, i, e);
    WholeIsRead(xs);
    WholeIsRead(xs[i := e]);
    ToMapReplace(xs, i, e);
    ToMapAt(xs, i);
  }

  /** So does appending one, if it is read back. */
  lemma Appends(xs: seq<Entry>, e: Entry)
    requires Whole(xs) && |xs| + 1 < MAX64 && Writable(e) && |e.sha| <= MAX_SHA256_SIZE
    requires forall i :: 0 <= i < |xs| ==> xs[i].name != e.name
    ensures Good(xs + [e]) && ToMap(FitPrefix(xs + [e])) == Indexed(ToMap(xs), e.name, Info(e.size, e.sha))
    ensures e.name !in ToMap(xs)
  {
    hide FitPrefix, ToMap, Whole, Good, Writable;
    AppendIsGood(xs, e);
    ToMapAppend(xs, e);
    ToMapKeys(xs, e.name);
  }

  /** Erasing a record removes one binding. */
  lemma Erases(xs: seq<Entry>, i: nat)
    requires Whole(xs) && i < |xs|
    ensures var ys := xs[..i] + xs[i + 1..];
      Good(ys) && ToMap(FitPrefix(ys)) == ToMap(xs) - {xs[i].name} && xs[i].name in ToMap(xs)
  {
    EraseIsWhole(xs, i);
    WholeIsRead(xs);
    WholeIsRead(xs[..i] + xs[i + 1..]);
    ToMapErase(xs, i);
    ToMapAt(xs, i);
  }

  /** A record of a list that is read back whole is what the map says. */
  lemma Finds(xs: seq<Entry>, i: nat)
    requires Whole(xs) && i < |xs|
    ensures xs[i].name in ToMap(xs) && ToMap(xs)[xs[i].name] == Info(xs[i].size, xs[i].sha)
  {
    WholeIsRead(xs);
    ToMapAt(xs, i);
  }

  lemma NoEntries()
    ensures EncodeEntries([]) == []
  {
  }

  class Store {
    const digest: seq<byte> -> seq<byte>

    var disk: Option<seq<byte>>      // uploaded_files_metadata.dat
    var uploaded: seq<Entry>
    var files: map<Name, seq<byte>>
    var sessions: map<Name, Session>

    ghost var entries: seq<Entry>    // what disk encodes

    ghost predicate Valid()
      reads this
    {
      && (forall b :: 0 < |digest(b)| <= MAX_SHA256_SIZE)
      && Good(entries)
      && (disk == None ==> entries == [] && uploaded == [])
      && (disk.Some? ==> disk.value == Save(entries))
    }

    /** What a load finds. */
    ghost function Index(): map<Name, Info>
      reads this
    {
      ToMap(FitPrefix(entries))
    }

    ghost function Now(): State
      reads this
    {
      State(files, sessions, Index())
    }

    constructor (digest: seq<byte> -> seq<byte>)
      requires forall b :: 0 < |digest(b)| <= MAX_SHA256_SIZE
      ensures Valid() && Now() == State(map[], map[], map[]) && this.digest == digest
    {
      this.digest := digest;
      disk, uploaded, files, sessions, entries := None, [], map[], map[], [];
    }

    /** save_file_metadata. */
    method SaveMetadata()
      modifies this`disk
      ensures disk == Some(Save(uploaded))
    {
      hide Encode, EncodeEntry, EncodeEntries;
      NoEntries();
      var bytes := Encode(|uploaded|, 8);
      for i := 0 to |uploaded|
        invariant bytes == Encode(|uploaded|, 8) + EncodeEntries(uploaded[..i])
      {
        var e := uploaded[i];
        assert uploaded[..i + 1] == uploaded[..i] + [e];
        EncodeEntriesAppend(uploaded[..i], e);
        bytes := bytes + EncodeEntry(e);
      }
      assert uploaded[..|uploaded|] == uploaded;
      disk := Some(bytes);
    }

    /** Reads one record, field by field: where an encoded record starts, that one, unless it is oversized. */
    method ReadRecord(bytes: seq<byte>, pos: nat) returns (e: Option<Entry>)
      ensures forall x :: Writable(x) && pos <= |bytes| && EncodeEntry(x) <= bytes[pos..] ==>
        e == if Fits(x) then Some(x) else None
      ensures e.Some? ==> Fits(e.value)
      ensures e == TryEntry(bytes, pos)
    {
      hide Encode, Read, ReadNat, EncodeEntry, Writable;
      forall x | Writable(x) && pos <= |bytes| && EncodeEntry(x) <= bytes[pos..]
        ensures TryEntry(bytes, pos) == if Fits(x) then Some(x) else None
      {
        TryEntryAt(bytes, pos, x);
      }
      var nameSize := ReadNat(bytes, pos);
      if nameSize > MAX_FILENAME_SIZE {
        return None;
      }
      var name := Read(bytes, pos + 8, nameSize);
      var size := ReadNat(bytes, pos + 8 + nameSize);
      var shaSize := ReadNat(bytes, pos + 16 + nameSize);
      if shaSize > MAX_SHA256_SIZE {
        return None;
      }
      var sha := Read(bytes, pos + 24 + nameSize, shaSize);
      e := Some(Entry(name, size, sha));
    }

    /** load_file_metadata: reads until the count is reached or a size is out of bounds. */
    method LoadMetadata()
      modifies this`uploaded
      ensures uploaded == if disk.Some? then Load(disk.value) else old(uploaded)
    {
      hide TryEntry, Fits, Writable, EncodeEntry, FitPrefix;
      if disk == None {
        return;
      }
      var bytes := disk.value;
      uploaded := [];
      var count := ReadNat(bytes, 0);
      var pos: nat, i := 8, 0;
      while i < count
        invariant 0 <= i <= count
        invariant uploaded + LoadFrom(bytes, pos, count - i) == Load(bytes)
      {
        var e := ReadRecord(bytes, pos);
        if e == None {
          break;
        }
        ghost var rest := LoadFrom(bytes, pos + 24 + |e.value.name| + |e.value.sha|, count - i - 1);
        assert uploaded + ([e.value] + rest) == (uploaded + [e.value]) + rest;
        uploaded := uploaded + [e.value];
        pos := pos + 24 + |e.value.name| + |e.value.sha|;
        i := i + 1;
      }
    }

    /** update_file_metadata: the index gets exactly this one binding, unless its name is too long to be read back. */
    method UpdateMetadata(name: Name, size: nat, sha: seq<byte>)
      requires Valid() && Writable(Entry(name, size, sha)) && |sha| <= MAX_SHA256_SIZE && |entries| + 1 < MAX64
      modifies this`disk, this`uploaded, this`entries
      ensures Valid() && Index() == Indexed(old(Index()), name, Info(size, sha))
      ensures |entries| <= |old(entries)| + if name in old(Index()) then 0 else 1
    {
      hide UniqueNames, Writable, Fits, Save, Load, ToMap, Good, Whole, FitPrefix, Indexed;
      GoodLoads(entries);
      LoadMetadata();
      var e := Entry(name, size, sha);
      for i := 0 to |uploaded|
        invariant Valid() && uploaded == FitPrefix(entries) && entries == old(entries) && disk == old(disk)
        invariant forall k :: 0 <= k < i ==> uploaded[k].name != name
      {
        if uploaded[i].name == name {
          Replaces(uploaded, i, e);
          uploaded := uploaded[i := e];
          entries := uploaded;
          SaveMetadata();
          return;
        }
      }
      Appends(uploaded, e);
      uploaded := uploaded + [e];
      entries := uploaded;
      SaveMetadata();
    }

    /** get_file_metadata. */
    method GetMetadata(name: Name) returns (info: Option<Info>)
      requires Valid()
      modifies this`uploaded
      ensures Valid()
      ensures info == if name in Index() then Some(Index()[name]) else None
    {
      hide UniqueNames, Writable, Fits, Save, Load, ToMap, Good, FitPrefix;
      GoodLoads(entries);
      LoadMetadata();
      for i := 0 to |uploaded|
        invariant Valid() && uploaded == FitPrefix(entries)
        invariant forall k :: 0 <= k < i ==> uploaded[k].name != name
      {
        if uploaded[i].name == name {
          Finds(uploaded, i);
          return Some(Info(uploaded[i].size, uploaded[i].sha));
        }
      }
      ToMapKeys(uploaded, name);
      info := None;
    }

    /** delete_file_metadata. */
    method DeleteMetadata(name: Name) returns (found: bool)
      requires Valid()
      modifies this`disk, this`uploaded, this`entries
      ensures Valid() && found == (name in old(Index()))
      ensures Index() == old(Index()) - {name}
    {
      hide UniqueNames, Writable, Fits, Save, Load, ToMap, Good, Whole, FitPrefix;
      GoodLoads(entries);
      LoadMetadata();
      for i := 0 to |uploaded|
        invariant Valid() && uploaded == FitPrefix(entries) && entries == old(entries) && disk == old(disk)
        invariant forall k :: 0 <= k < i ==> uploaded[k].name != name
      {
        if uploaded[i].name == name {
          Erases(uploaded, i);
          uploaded := uploaded[..i] + uploaded[i + 1..];
          entries := uploaded;
          SaveMetadata();
          return true;
        }
      }
      ToMapKeys(uploaded, name);
      found := false;
    }

    /** Writes a chunk that has not been handled yet. */
    method AcceptChunk(session: Session, name: Name, v: seq<byte>, offset: nat) returns (reply: Result<Info>)
      requires Valid() && |name| < MAX64 && offset < MAX64 && |entries| + 1 < MAX64
      requires name in files
      modifies this
      ensures Valid() && |entries| <= |old(entries)| + if name in old(Index()) then 0 else 1
      ensures var r := Accept(digest, old(Now()), session, name, v, offset);
        Now() == r.state && reply == r.reply
    {
      hide WriteAt, ToMap, Good, Save, FitPrefix, Indexed, Fits;
      sessions := sessions[name := Session(false, offset, session.hashed)];
      files := files[name := WriteAt(files[name], offset, v)];
      if offset + |v| >= MAX64 {
        return Err("integer overflow");
      }
      var hashed := session.hashed + v;
      sessions := sessions[name := Session(false, offset, hashed)];
      UpdateMetadata(name, offset + |v|, digest(hashed));
      reply := Ok(Info(offset + |v|, digest(hashed)));
    }

    method AlreadyHandled(name: Name) returns (reply: Result<Info>)
      requires Valid()
      modifies this`uploaded
      ensures Valid()
      ensures reply == if name in Index() then Ok(Index()[name]) else Err("metadata not found")
    {
      var info := GetMetadata(name);
      reply := if info.Some? then Ok(info.value) else Err("metadata not found");
    }

    /** file_upload_chunk_. */
    method UploadChunk(name: Name, v: seq<byte>, chunksize: nat, offset: nat) returns (reply: Result<Info>)
      requires Valid() && |name| < MAX64 && offset < MAX64 && |entries| + 1 < MAX64
      modifies this
      ensures Valid() && |entries| <= |old(entries)| + if name in old(Index()) then 0 else 1
      ensures var r := PutChunk(digest, old(Now()), name, v, chunksize, offset);
        Now() == r.state && reply == r.reply
    {
      hide WriteAt, ToMap, Good, Save, FitPrefix, Accept;
      if chunksize > MAX_CHUNK_SIZE {
        return Err("chunksize exceeds limit");
      }
      var session := if name in sessions then sessions[name] else Session(false, 0, []);
      if offset == 0 {
        session := Session(true, 0, []);
      }
      sessions := sessions[name := session];
      if name == [] {
        return Err("failed to open");
      }
      if offset == 0 || name !in files {
        files := files[name := []];
      }
      assert Now() == Opened(old(Now()), name, offset);
      if !session.isFirstChunk && offset == session.previousOffset {
        reply := AlreadyHandled(name);
      } else {
        reply := AcceptChunk(session, name, v, offset);
      }
    }
  }

  // ------------------------------------------------------------ deliveries

  datatype Event = Event(name: Name, v: seq<byte>, chunksize: nat, offset: nat)

  function Put(digest: seq<byte> -> seq<byte>, st: State, e: Event): State {
    PutChunk(digest, st, e.name, e.v, e.chunksize, e.offset).state
  }

  function PutAll(digest: seq<byte> -> seq<byte>, st: State, es: seq<Event>): State
    decreases |es|
  {
    if es == [] then st else PutAll(digest, Put(digest, st, es[0]), es[1..])
  }

  function Flat(cs: seq<seq<byte>>): seq<byte> {
    if cs == [] then [] else Flat(cs[..|cs| - 1]) + cs[|cs| - 1]
  }

  /** Non-empty chunks of a file whose size fits 64 bits. */
  ghost predicate Chunks(cs: seq<seq<byte>>) {
    |Flat(cs)| < MAX64 && forall i :: 0 <= i < |cs| ==> cs[i] != []
  }

  /** Where chunk j starts. */
  function Start(cs: seq<seq<byte>>, j: nat): nat
    requires j <= |cs|
  {
    |Flat(cs[..j])|
  }

  /** The event sends chunk i of the file. */
  predicate Sends(e: Event, cs: seq<seq<byte>>, i: nat)
    requires i < |cs|
  {
    e.chunksize <= MAX_CHUNK_SIZE && e.offset == Start(cs, i) && e.v == cs[i]
  }

  /**
   How many chunks of file f have arrived after the events, if j had before:
   each event for f sends the next chunk, or the last one again; other files are free.
   */
  function Arrived(es: seq<Event>, f: Name, cs: seq<seq<byte>>, j: nat): Option<nat>
    requires j <= |cs|
    decreases |es|
  {
    if es == [] then Some(j)
    else if es[0].name != f then Arrived(es[1..], f, cs, j)
    else if j < |cs| && Sends(es[0], cs, j) then Arrived(es[1..], f, cs, j + 1)
    else if j > 0 && Sends(es[0], cs, j - 1) then Arrived(es[1..], f, cs, j)
    else None
  }

  /** The first j chunks are in the file, its hash state and its record. */
  ghost predicate Holding(digest: seq<byte> -> seq<byte>, st: State, f: Name, cs: seq<seq<byte>>, j: nat)
    requires j <= |cs|
  {
    j > 0 ==>
      && f in st.files && st.files[f] == Flat(cs[..j])
      && f in st.sessions && st.sessions[f] == Session(false, Start(cs, j - 1), Flat(cs[..j]))
      && (|f| <= MAX_FILENAME_SIZE ==>
          f in st.index && st.index[f] == Info(Start(cs, j), digest(Flat(cs[..j]))))
  }

  lemma FlatNext(cs: seq<seq<byte>>, j: nat)
    requires j < |cs|
    ensures Flat(cs[..j + 1]) == Flat(cs[..j]) + cs[j]
    ensures Start(cs, j + 1) == Start(cs, j) + |cs[j]|
  {
    assert cs[..j + 1][..j] == cs[..j];
  }

  lemma {:induction false} StartWithin(cs: seq<seq<byte>>, j: nat)
    requires j <= |cs|
    ensures Start(cs, j) <= |Flat(cs)|
    decreases |cs| - j
  {
    if j < |cs| {
      FlatNext(cs, j);
      StartWithin(cs, j + 1);
    } else {
      assert cs[..j] == cs;
    }
  }

  /** A chunk for one file leaves every other file as it was. */
  lemma OtherFilesUnaffected(digest: seq<byte> -> seq<byte>, st: State, e: Event, f: Name)
    requires e.name != f
    ensures var st' := Put(digest, st, e);
      && (f in st'.files <==> f in st.files) && (f in st.files ==> st'.files[f] == st.files[f])
      && (f in st'.sessions <==> f in st.sessions) && (f in st.sessions ==> st'.sessions[f] == st.sessions[f])
      && (f in st'.index <==> f in st.index) && (f in st.index ==> st'.index[f] == st.index[f])
  {
  }

  /** The first chunk starts the file afresh, whatever was there. */
  lemma FirstChunkHolds(digest: seq<byte> -> seq<byte>, st: State, e: Event, cs: seq<seq<byte>>)
    requires e.name != [] && Chunks(cs) && 0 < |cs| && Sends(e, cs, 0)
    ensures Holding(digest, Put(digest, st, e), e.name, cs, 1)
  {
    FlatNext(cs, 0);
    StartWithin(cs, 1);
    assert cs[..0] == [];
    assert WriteAt([], 0, e.v) == e.v;
    assert [] + e.v == e.v;
  }

  /** Any later chunk is appended. */
  lemma NextChunkHolds(digest: seq<byte> -> seq<byte>, st: State, e: Event, cs: seq<seq<byte>>, j: nat)
    requires e.name != [] && Chunks(cs) && 0 < j < |cs| && Sends(e, cs, j)
    requires Holding(digest, st, e.name, cs, j)
    ensures Holding(digest, Put(digest, st, e), e.name, cs, j + 1)
  {
    FlatNext(cs, j - 1);
    FlatNext(cs, j);
    StartWithin(cs, j + 1);
    var file := st.files[e.name];
    assert Read(file, 0, |file|) == file;
    assert WriteAt(file, |file|, e.v) == file + e.v;
  }

  /** The last chunk again changes nothing; the first one again starts over with the same result. */
  lemma RepeatedChunkHolds(digest: seq<byte> -> seq<byte>, st: State, e: Event, cs: seq<seq<byte>>, j: nat)
    requires e.name != [] && Chunks(cs) && 0 < j <= |cs| && Sends(e, cs, j - 1)
    requires Holding(digest, st, e.name, cs, j)
    ensures Holding(digest, Put(digest, st, e), e.name, cs, j)
  {
    if j == 1 {
      FirstChunkHolds(digest, st, e, cs);
    } else {
      FlatNext(cs, j - 2);
    }
  }

  /** At-least-once delivery, interleaved with any traffic for other files. */
  lemma {:induction false} AtLeastOnce(
    digest: seq<byte> -> seq<byte>, st: State, es: seq<Event>, f: Name, cs: seq<seq<byte>>, j: nat)
    requires f != [] && Chunks(cs) && j <= |cs| && Holding(digest, st, f, cs, j)
    requires Arrived(es, f, cs, j).Some?
    ensures var n := Arrived(es, f, cs, j).value;
      n <= |cs| && Holding(digest, PutAll(digest, st, es), f, cs, n)
    decreases |es|
  {
    if es != [] {
      var e, st' := es[0], Put(digest, st, es[0]);
      if e.name != f {
        OtherFilesUnaffected(digest, st, e, f);
        AtLeastOnce(digest, st', es[1..], f, cs, j);
      } else if j < |cs| && Sends(e, cs, j) {
        if j == 0 { FirstChunkHolds(digest, st, e, cs); } else { NextChunkHolds(digest, st, e, cs, j); }
        AtLeastOnce(digest, st', es[1..], f, cs, j + 1);
      } else {
        RepeatedChunkHolds(digest, st, e, cs, j);
        AtLeastOnce(digest, st', es[1..], f, cs, j);
      }
    }
  }

  /** A complete delivery leaves the file, its size and its hash as if it had been written at once. */
  lemma CompleteDelivery(
    digest: seq<byte> -> seq<byte>, st: State, es: seq<Event>, f: Name, cs: seq<seq<byte>>)
    requires f != [] && Chunks(cs) && cs != [] && Arrived(es, f, cs, 0) == Some(|cs|)
    ensures var st' := PutAll(digest, st, es);
      && f in st'.files && st'.files[f] == Flat(cs)
      && (|f| <= MAX_FILENAME_SIZE ==>
          f in st'.index && st'.index[f] == Info(|Flat(cs)|, digest(Flat(cs))))
  {
    AtLeastOnce(digest, st, es, f, cs, 0);
    assert cs[..|cs|] == cs;
  }
}
