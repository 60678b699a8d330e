/**
 Chunked download and the two command-line clients: the sender that retries
 every chunk, and the receiver that reassembles. Together they carry a file to
 the canister and back unchanged, whatever the two chunk sizes.
 */
module Transfer {
  import opened Arithmetic
  import opened Wrappers
  import opened LittleEndian
  import opened Metadata
  import opened Upload

  const MAX_RETRIES: nat := 10

  datatype Piece = Piece(chunk: seq<byte>, filesize: nat, offset: nat, done: bool)

  /** Up to n bytes of the file from offset on; none beyond its end. */
  function Slice(file: seq<byte>, offset: nat, n: nat): (chunk: seq<byte>)
    ensures |chunk| == if offset >= |file| then 0 else if n < |file| - offset then n else |file| - offset
    ensures forall k :: 0 <= k < |chunk| ==> chunk[k] == file[offset + k]
  {
    if offset >= |file| then []
    else if offset + n <= |file| then file[offset..offset + n]
    else file[offset..]
  }

  /** file_download_chunk_, in 64-bit arithmetic: done says exactly whether the chunk reaches the end. */
  method DownloadChunk(files: map<Name, seq<byte>>, name: Name, chunksize: nat, offset: nat)
    returns (reply: Result<Piece>)
    requires offset < MAX64 && chunksize < MAX64
    requires name in files ==> |files[name]| < MAX64
    ensures reply.Ok? <==> name in files && chunksize <= 2_097_152
    ensures reply.Ok? ==>
      && reply.value.chunk == Slice(files[name], offset, chunksize)
      && (offset + chunksize <= |files[name]| ==> reply.value.chunk == files[name][offset..offset + chunksize])
      && (offset <= |files[name]| < offset + chunksize ==> reply.value.chunk == files[name][offset..])
      && (offset > |files[name]| ==> reply.value.chunk == [])
      && reply.value.filesize == |files[name]| && reply.value.offset == offset
      && (reply.value.done <==> offset + chunksize >= |files[name]|)
  {
    if name !in files {
      return Err("failed to open ifstream");
    }
    var file := files[name];
    if chunksize > MAX_CHUNK_SIZE {
      return Err("chunksize exceeds limit");
    }
    var v := new byte[chunksize](_ => 0);
    var got := 0;
    while got < chunksize && offset + got < |file|
      invariant 0 <= got <= chunksize
      invariant got > 0 ==> offset + got <= |file|
      invariant forall k :: 0 <= k < got ==> v[k] == file[offset + k]
    {
      v[got] := file[offset + got];
      got := got + 1;
    }
    var done := offset > MAX64 - 1 - chunksize || (offset + chunksize) % MAX64 >= |file|;
    assert v[..got] == Slice(file, offset, chunksize);
    reply := Ok(Piece(v[..got], |file|, offset, done));
  }

  /** The receiving client: ask for the next piece until one says done. */
  method Receive(files: map<Name, seq<byte>>, name: Name, chunksize: nat) returns (data: Option<seq<byte>>)
    requires 0 < chunksize < MAX64
    requires name in files ==> |files[name]| < MAX64
    ensures data == if name in files && chunksize <= 2_097_152 then Some(files[name]) else None
  {
    var out: seq<byte> := [];
    var done, offset := false, 0;
    while !done
      invariant offset == |out| && offset < MAX64
      invariant name in files ==> out <= files[name]
      invariant offset > 0 || done ==> name in files && chunksize <= MAX_CHUNK_SIZE
      invariant done ==> out == files[name]
      decreases if done then 0 else 1, if name in files then |files[name]| - offset else 0
    {
      var reply := DownloadChunk(files, name, chunksize, offset);
      if reply.Err? {
        return None;
      }
      var r := reply.value;
      offset := offset + |r.chunk|;
      out := out + r.chunk;
      done := r.done;
    }
    data := Some(out);
  }

  // ------------------------------------------------------------ sending

  /** What becomes of one attempt to send a chunk. */
  datatype Fate = Answered | AnswerLost | NeverArrived

  lemma FlatAppend(cs: seq<seq<byte>>, c: seq<byte>)
    ensures Flat(cs + [c]) == Flat(cs) + c
  {
    assert (cs + [c])[..|cs|] == cs;
  }

  lemma ChunkCountIs(size: nat, chunksize: nat, n: nat)
    requires chunksize > 0 && size <= n * chunksize < size + chunksize
    ensures n == CeilDiv(size, chunksize)
  {
    CeilDivCovers(size, chunksize, n);
    if n > 0 {
      OneMoreTimes(n - 1, chunksize);
      CeilDivCovers(size, chunksize, n - 1);
    }
  }

  /** generate_chunks. */
  method GenerateChunks(data: seq<byte>, chunksize: nat) returns (cs: seq<seq<byte>>)
    requires chunksize > 0
    ensures Flat(cs) == data
    ensures forall i :: 0 <= i < |cs| ==> 0 < |cs[i]| <= chunksize
    ensures forall i :: 0 <= i < |cs| - 1 ==> |cs[i]| == chunksize
    ensures |cs| == CeilDiv(|data|, chunksize)
  {
    cs := [];
    var i := 0;
    while i < |data|
      invariant 0 <= i == |cs| * chunksize < |data| + chunksize
      invariant Flat(cs) == data[..if i <= |data| then i else |data|]
      invariant forall k :: 0 <= k < |cs| ==> 0 < |cs[k]| <= chunksize
      invariant forall k :: 0 <= k < |cs| && (k < |cs| - 1 || i <= |data|) ==> |cs[k]| == chunksize
    {
      hide Flat;
      var end := if i + chunksize <= |data| then i + chunksize else |data|;
      FlatAppend(cs, data[i..end]);
      assert data[..i] + data[i..end] == data[..end];
      OneMoreTimes(|cs|, chunksize);
      cs := cs + [data[i..end]];
      i := i + chunksize;
    }
    ChunkCountIs(|data|, chunksize, |cs|);
  }

  /** The event of sending chunk i. */
  function EventOf(name: Name, cs: seq<seq<byte>>, i: nat, chunksize: nat): Event
    requires i < |cs|
  {
    Event(name, cs[i], chunksize, Start(cs, i))
  }

  /** Room for one more record of this name. */
  ghost predicate Room(st: Store, name: Name, limit: nat)
    reads st
  {
    |st.entries| + (if name in st.Index() then 1 else 2) < limit
  }

  /** One of the ten attempts to send chunk i is answered. */
  ghost predicate GetsThrough(fate: (nat, nat) -> Fate, i: nat) {
    exists a: nat :: 1 <= a <= 10 && fate(i, a) == Answered
  }

  /** Chunk i, sent once or again, leaves chunks 0 .. i in place and answers with the record. */
  lemma DeliverHolds(digest: seq<byte> -> seq<byte>, st: State, e: Event, cs: seq<seq<byte>>, i: nat)
    requires e.name != [] && |e.name| <= MAX_FILENAME_SIZE && Chunks(cs) && i < |cs| && Sends(e, cs, i)
    requires Holding(digest, st, e.name, cs, i) || Holding(digest, st, e.name, cs, i + 1)
    ensures var r := PutChunk(digest, st, e.name, e.v, e.chunksize, e.offset);
      && Holding(digest, r.state, e.name, cs, i + 1)
      && e.name in r.state.index && r.reply == Ok(r.state.index[e.name])
  {
    FlatNext(cs, i);
    StartWithin(cs, i);
    StartWithin(cs, i + 1);
    if Holding(digest, st, e.name, cs, i + 1) {
      RepeatedChunkHolds(digest, st, e, cs, i + 1);
    } else if i == 0 {
      FirstChunkHolds(digest, st, e, cs);
    } else {
      NextChunkHolds(digest, st, e, cs, i);
      FlatNext(cs, i - 1);
    }
  }

  /** One attempt that reaches the canister. */
  method Deliver(st: Store, name: Name, cs: seq<seq<byte>>, i: nat, offset: nat, chunksize: nat)
    returns (info: Info)
    requires st.Valid() && name != [] && |name| <= MAX_FILENAME_SIZE && Room(st, name, MAX64)
    requires Chunks(cs) && i < |cs| && chunksize <= MAX_CHUNK_SIZE && offset == Start(cs, i)
    requires Holding(st.digest, st.Now(), name, cs, i) || Holding(st.digest, st.Now(), name, cs, i + 1)
    modifies st
    ensures st.Valid() && Room(st, name, MAX64)
    ensures Holding(st.digest, st.Now(), name, cs, i + 1)
    ensures name in st.Index() && info == st.Index()[name]
  {
    hide PutChunk, Holding, ToMap, Flat, FitPrefix, Good, Save, Start;
    StartWithin(cs, i);
    DeliverHolds(st.digest, st.Now(), EventOf(name, cs, i, chunksize), cs, i);
    var r := st.UploadChunk(name, cs[i], chunksize, offset);
    info := r.value;
  }

  /**
   Sends chunk i until an attempt is answered; attempts whose answer is lost have
   still been carried out. Only ten unanswered attempts make it give up.
   */
  method SendChunk(st: Store, name: Name, cs: seq<seq<byte>>, i: nat, offset: nat, chunksize: nat,
                   fate: (nat, nat) -> Fate)
    returns (reply: Option<Info>)
    requires st.Valid() && name != [] && |name| <= MAX_FILENAME_SIZE && Room(st, name, MAX64)
    requires Chunks(cs) && i < |cs| && chunksize <= MAX_CHUNK_SIZE && offset == Start(cs, i)
    requires Holding(st.digest, st.Now(), name, cs, i)
    modifies st
    ensures st.Valid() && Room(st, name, MAX64)
    ensures reply.Some? <==> GetsThrough(fate, i)
    ensures reply.Some? ==>
      && Holding(st.digest, st.Now(), name, cs, i + 1)
      && name in st.Index() && reply.value == st.Index()[name]
  {
    hide PutChunk, Holding, ToMap, Flat, FitPrefix, Good, Save, Start;
    reply := None;
    var attempt := 1;
    while attempt <= MAX_RETRIES
      invariant 1 <= attempt <= MAX_RETRIES + 1
      invariant st.Valid() && Room(st, name, MAX64)
      invariant reply == None && forall a: nat :: 1 <= a < attempt ==> fate(i, a) != Answered
      invariant Holding(st.digest, st.Now(), name, cs, i) || Holding(st.digest, st.Now(), name, cs, i + 1)
    {
      var f := fate(i, attempt);
      if f != NeverArrived {
        var info := Deliver(st, name, cs, i, offset, chunksize);
        if f == Answered {
          reply := Some(info);
          return;
        }
      }
      attempt := attempt + 1;
    }
  }

  /** Every chunk of the file gets an answer within its ten attempts. */
  ghost predicate AllAnswered(n: nat, fate: (nat, nat) -> Fate) {
    forall i :: 0 <= i < n ==> GetsThrough(fate, i)
  }

  lemma ChunksFit(cs: seq<seq<byte>>, data: seq<byte>)
    requires Flat(cs) == data && |data| < MAX64
    requires forall i :: 0 <= i < |cs| ==> 0 < |cs[i]|
    ensures Chunks(cs) && Start(cs, 0) == 0 && (cs == [] <==> data == [])
  {
    assert cs[..0] == [];
  }

  /**
   The sending client: the upload is reported good exactly when there are chunks to
   send and each was answered, and then it is. An empty file is never sent, so what
   the client expects of the canister does not match.
   */
  method Send(st: Store, name: Name, data: seq<byte>, chunksize: nat, fate: (nat, nat) -> Fate)
    returns (ok: bool)
    requires st.Valid() && name != [] && |name| <= MAX_FILENAME_SIZE && Room(st, name, MAX64)
    requires |data| < MAX64 && 0 < chunksize <= MAX_CHUNK_SIZE
    modifies st
    ensures st.Valid()
    ensures ok <==> data != [] && AllAnswered(CeilDiv(|data|, chunksize), fate)
    ensures ok ==>
      && name in st.files && st.files[name] == data
      && name in st.Index() && st.Index()[name] == Info(|data|, st.digest(data))
  {
    hide Flat, PutChunk, GetsThrough, ToMap, FitPrefix, Good, Save;
    var cs := GenerateChunks(data, chunksize);
    ChunksFit(cs, data);
    var offset := 0;
    var last := Info(0, []);
    for i := 0 to |cs|
      invariant st.Valid() && Room(st, name, MAX64)
      invariant Holding(st.digest, st.Now(), name, cs, i)
      invariant offset == Start(cs, i)
      invariant if i > 0 then name in st.Index() && last == st.Index()[name] else last == Info(0, [])
      invariant AllAnswered(i, fate)
    {
      var reply := SendChunk(st, name, cs, i, offset, chunksize, fate);
      if reply == None {
        return false;
      }
      last := reply.value;
      FlatNext(cs, i);
      offset := offset + |cs[i]|;
    }
    assert cs[..|cs|] == cs;
    ok := last.size == |data| && last.sha == st.digest(data);
  }

  /** Upload with one chunk size, download with another: the same bytes come back. */
  method RoundTrip(st: Store, name: Name, data: seq<byte>, up: nat, down: nat, fate: (nat, nat) -> Fate)
    returns (back: Option<seq<byte>>)
    requires st.Valid() && name != [] && |name| <= MAX_FILENAME_SIZE && Room(st, name, MAX64)
    requires |data| < MAX64 && 0 < up <= MAX_CHUNK_SIZE && 0 < down <= MAX_CHUNK_SIZE
    modifies st
    ensures st.Valid()
    ensures back == if data != [] && AllAnswered(CeilDiv(|data|, up), fate) then Some(data) else None
  {
    var ok := Send(st, name, data, up, fate);
    if !ok {
      return None;
    }
    back := Receive(st.files, name, down);
  }
}
