/**
 The index of uploaded files: a list of records in memory, and its byte
 encoding in uploaded_files_metadata.dat, which every operation reads back first.
 */
module Metadata {
  import opened Wrappers
  import opened LittleEndian

  type Name = seq<byte>

  const MAX64: nat := 0x1_0000_0000_0000_0000
  const MAX_FILENAME_SIZE: nat := 4096
  const MAX_SHA256_SIZE: nat := 64

  datatype Entry = Entry(name: Name, size: nat, sha: seq<byte>)

  datatype Info = Info(size: nat, sha: seq<byte>)

  // ------------------------------------------------------------ bytes

  /** A record whose sizes can be written in 64 bits. */
  predicate Writable(e: Entry) {
    |e.name| < MAX64 && e.size < MAX64 && |e.sha| < MAX64
  }

  /** A record the loader accepts. */
  predicate Fits(e: Entry) {
    |e.name| <= MAX_FILENAME_SIZE && |e.sha| <= MAX_SHA256_SIZE
  }

  function EncodeEntry(e: Entry): (bytes: seq<byte>)
    ensures |bytes| == 24 + |e.name| + |e.sha|
  {
    Encode(|e.name|, 8) + e.name + Encode(e.size, 8) + Encode(|e.sha|, 8) + e.sha
  }

  function EncodeEntries(xs: seq<Entry>): seq<byte> {
    if xs == [] then [] else EncodeEntry(xs[0]) + EncodeEntries(xs[1..])
  }

  /** The contents of the metadata file after save_file_metadata. */
  function Save(xs: seq<Entry>): seq<byte> {
    Encode(|xs|, 8) + EncodeEntries(xs)
  }

  /** istream::read into zeroed memory: what the file has at pos, zeros beyond its end. */
  function Read(bytes: seq<byte>, pos: nat, n: nat): (r: seq<byte>)
    ensures |r| == n
  {
    seq(n, i requires 0 <= i < n => if pos + i < |bytes| then bytes[pos + i] else 0)
  }

  function ReadNat(bytes: seq<byte>, pos: nat): nat {
    Value(Read(bytes, pos, 8))
  }

  /** The record at pos, unless one of its sizes is out of bounds. */
  function TryEntry(bytes: seq<byte>, pos: nat): Option<Entry> {
    var nameSize := ReadNat(bytes, pos);
    if nameSize > MAX_FILENAME_SIZE then None
    else
      var shaSize := ReadNat(bytes, pos + 16 + nameSize);
      if shaSize > MAX_SHA256_SIZE then None
      else
        Some(Entry(Read(bytes, pos + 8, nameSize),
                   ReadNat(bytes, pos + 8 + nameSize),
                   Read(bytes, pos + 24 + nameSize, shaSize)))
  }

  /** The records read from pos on, up to count of them or to the first oversized one. */
  function LoadFrom(bytes: seq<byte>, pos: nat, count: nat): seq<Entry>
    decreases count
  {
    if count == 0 then []
    else
      match TryEntry(bytes, pos)
      case None => []
      case Some(e) => [e] + LoadFrom(bytes, pos + 24 + |e.name| + |e.sha|, count - 1)
  }

  function Load(bytes: seq<byte>): seq<Entry> {
    LoadFrom(bytes, 8, ReadNat(bytes, 0))
  }

  /** The longest prefix whose records the loader accepts. */
  function FitPrefix(xs: seq<Entry>): (r: seq<Entry>)
    ensures r <= xs && forall e :: e in r ==> Fits(e)
    ensures |r| < |xs| ==> !Fits(xs[|r|])
  {
    if xs == [] || !Fits(xs[0]) then [] else [xs[0]] + FitPrefix(xs[1..])
  }

  /** On disk: the number of records in eight bytes; of each, name size, name, size, hash size, hash. */
  lemma RecordLayout(e: Entry)
    requires |e.name| < 256 && e.size < 256 && |e.sha| < 256
    ensures Save([e]) ==
      [1, 0, 0, 0, 0, 0, 0, 0]
      + [|e.name|, 0, 0, 0, 0, 0, 0, 0] + e.name
      + [e.size, 0, 0, 0, 0, 0, 0, 0]
      + [|e.sha|, 0, 0, 0, 0, 0, 0, 0] + e.sha
  {
    hide Encode;
    SmallEncode(1);
    SmallEncode(|e.name|);
    SmallEncode(e.size);
    SmallEncode(|e.sha|);
    assert EncodeEntries([e]) == EncodeEntry(e) + [];
  }

  lemma ReadAt(pre: seq<byte>, mid: seq<byte>, post: seq<byte>)
    ensures Read(pre + mid + post, |pre|, |mid|) == mid
  {
    forall i | 0 <= i < |mid| ensures Read(pre + mid + post, |pre|, |mid|)[i] == mid[i] {
    }
  }

  lemma ReadNatAt(pre: seq<byte>, n: nat, post: seq<byte>)
    requires n < MAX64
    ensures ReadNat(pre + Encode(n, 8) + post, |pre|) == n
  {
    Pow256Of8();
    ReadAt(pre, Encode(n, 8), post);
    ValueOfEncode(n, 8);
  }

  /** Where the fields of an encoded record are found. */
  lemma ReadEntry(pre: seq<byte>, e: Entry, post: seq<byte>)
    requires Writable(e)
    ensures var bytes, p, n := pre + EncodeEntry(e) + post, |pre|, |e.name|;
      && ReadNat(bytes, p) == n
      && Read(bytes, p + 8, n) == e.name
      && ReadNat(bytes, p + 8 + n) == e.size
      && ReadNat(bytes, p + 16 + n) == |e.sha|
      && Read(bytes, p + 24 + n, |e.sha|) == e.sha
  {
    hide Read, ReadNat, Encode;
    var bytes := pre + EncodeEntry(e) + post;
    var a, b, d := Encode(|e.name|, 8), Encode(e.size, 8), Encode(|e.sha|, 8);
    var p1, p2 := pre + a, pre + a + e.name;
    var p3 := p2 + b;
    var p4 := p3 + d;
    var r3 := e.sha + post;
    var r2 := d + r3;
    var r1 := b + r2;
    assert bytes == pre + a + (e.name + r1);
    ReadNatAt(pre, |e.name|, e.name + r1);
    assert bytes == p1 + e.name + r1;
    ReadAt(p1, e.name, r1);
    assert bytes == p2 + b + r2;
    ReadNatAt(p2, e.size, r2);
    assert bytes == p3 + d + r3;
    ReadNatAt(p3, |e.sha|, r3);
    assert bytes == p4 + e.sha + post;
    ReadAt(p4, e.sha, post);
  }

  /** One record off the front. */
  lemma LoadStep(pre: seq<byte>, e: Entry, post: seq<byte>, count: nat)
    requires Writable(e) && count > 0
    ensures var bytes := pre + EncodeEntry(e) + post;
      LoadFrom(bytes, |pre|, count)
      == if Fits(e) then [e] + LoadFrom(bytes, |pre + EncodeEntry(e)|, count - 1) else []
  {
    hide Read, ReadNat, EncodeEntry;
    ReadEntry(pre, e, post);
  }

  lemma LoadNone(bytes: seq<byte>, pos: nat)
    ensures LoadFrom(bytes, pos, 0) == FitPrefix([])
  {
  }

  /** A list of records is encoded, and read back, one at a time. */
  lemma OneEncoded(xs: seq<Entry>)
    requires xs != []
    ensures EncodeEntries(xs) == EncodeEntry(xs[0]) + EncodeEntries(xs[1..])
    ensures FitPrefix(xs) == if Fits(xs[0]) then [xs[0]] + FitPrefix(xs[1..]) else []
  {
    hide EncodeEntry, Fits;
  }

  lemma {:induction false} LoadFromEncoded(pre: seq<byte>, xs: seq<Entry>)
    requires forall e :: e in xs ==> Writable(e)
    ensures LoadFrom(pre + EncodeEntries(xs), |pre|, |xs|) == FitPrefix(xs)
    decreases |xs|
  {
    hide LoadFrom, EncodeEntries, EncodeEntry, Fits, Writable, FitPrefix;
    if xs == [] {
      LoadNone(pre + EncodeEntries(xs), |pre|);
    } else {
      var e, rest := xs[0], EncodeEntries(xs[1..]);
      assert Writable(e);
      OneEncoded(xs);
      assert pre + EncodeEntries(xs) == pre + EncodeEntry(e) + rest;
      LoadStep(pre, e, rest, |xs|);
      LoadFromEncoded(pre + EncodeEntry(e), xs[1..]);
    }
  }

  /** A saved list is its length, then its records. */
  lemma SavedParts(xs: seq<Entry>)
    requires |xs| < MAX64
    ensures Save(xs) == Encode(|xs|, 8) + EncodeEntries(xs) && ReadNat(Save(xs), 0) == |xs|
  {
    hide ReadNat, EncodeEntries, Encode;
    ReadNatAt([], |xs|, EncodeEntries(xs));
    assert [] + Encode(|xs|, 8) == Encode(|xs|, 8);
  }

  /** Reading back what was written gives the records up to the first oversized one. */
  lemma LoadOfSave(xs: seq<Entry>)
    requires |xs| < MAX64 && forall e :: e in xs ==> Writable(e)
    ensures Load(Save(xs)) == FitPrefix(xs)
  {
    hide Save, ReadNat, LoadFrom, EncodeEntries, FitPrefix, Encode, Writable;
    SavedParts(xs);
    LoadFromEncoded(Encode(|xs|, 8), xs);
  }

  lemma {:induction false} FitPrefixAll(xs: seq<Entry>)
    ensures (forall e :: e in xs ==> Fits(e)) <==> FitPrefix(xs) == xs
  {
    if xs != [] {
      FitPrefixAll(xs[1..]);
      assert forall e :: e in xs <==> e == xs[0] || e in xs[1..];
      if Fits(xs[0]) && FitPrefix(xs) == xs {
        assert FitPrefix(xs)[1..] == FitPrefix(xs[1..]);
      }
    }
  }

  /** The file is read back exactly when no record is oversized. */
  lemma LoadsBackIff(xs: seq<Entry>)
    requires |xs| < MAX64 && forall e :: e in xs ==> Writable(e)
    ensures Load(Save(xs)) == xs <==> forall e :: e in xs ==> |e.name| <= 4096 && |e.sha| <= 64
  {
    LoadOfSave(xs);
    FitPrefixAll(xs);
  }

  /** A further record is read back with the others if it fits, and lost if it does not. */
  lemma {:induction false} FitPrefixAppend(xs: seq<Entry>, e: Entry)
    requires forall x :: x in xs ==> Fits(x)
    ensures FitPrefix(xs + [e]) == if Fits(e) then xs + [e] else xs
  {
    if xs == [] {
      assert [] + [e] == [e];
      assert [e][1..] == [];
    } else {
      assert xs[0] in xs;
      FitPrefixAppend(xs[1..], e);
      assert (xs + [e])[1..] == xs[1..] + [e];
    }
  }

  /** Where an encoded record starts, that record is read, or refused if it is oversized. */
  lemma TryEntryAt(bytes: seq<byte>, pos: nat, e: Entry)
    requires Writable(e) && pos <= |bytes| && EncodeEntry(e) <= bytes[pos..]
    ensures TryEntry(bytes, pos) == if Fits(e) then Some(e) else None
  {
    hide Read, ReadNat, EncodeEntry;
    var pre, post := bytes[..pos], bytes[pos..][|EncodeEntry(e)|..];
    assert bytes == pre + EncodeEntry(e) + post;
    ReadEntry(pre, e, post);
  }

  lemma {:induction false} EncodeEntriesAppend(xs: seq<Entry>, e: Entry)
    ensures EncodeEntries(xs + [e]) == EncodeEntries(xs) + EncodeEntry(e)
  {
    hide EncodeEntry;
    if xs == [] {
      assert [e][1..] == [];
      assert [] + [e] == [e];
    } else {
      EncodeEntriesAppend(xs[1..], e);
      var a, b, d := EncodeEntry(xs[0]), EncodeEntries(xs[1..]), EncodeEntry(e);
      assert (xs + [e])[1..] == xs[1..] + [e];
      assert EncodeEntries(xs + [e]) == a + (b + d);
      assert a + (b + d) == (a + b) + d;
    }
  }

  // ------------------------------------------------------------ the index as a map

  ghost predicate UniqueNames(xs: seq<Entry>) {
    forall i, j :: 0 <= i < j < |xs| ==> xs[i].name != xs[j].name
  }

  /** The first record of each name. */
  function ToMap(xs: seq<Entry>): map<Name, Info> {
    if xs == [] then map[]
    else ToMap(xs[1..])[xs[0].name := Info(xs[0].size, xs[0].sha)]
  }

  lemma {:induction false} ToMapAt(xs: seq<Entry>, i: nat)
    requires UniqueNames(xs) && i < |xs|
    ensures xs[i].name in ToMap(xs) && ToMap(xs)[xs[i].name] == Info(xs[i].size, xs[i].sha)
  {
    if i > 0 {
      ToMapAt(xs[1..], i - 1);
    }
  }

  lemma {:induction false} ToMapKeys(xs: seq<Entry>, name: Name)
    ensures name in ToMap(xs) <==> exists i :: 0 <= i < |xs| && xs[i].name == name
  {
    if xs != [] {
      ToMapKeys(xs[1..], name);
      if i :| 0 <= i < |xs[1..]| && xs[1..][i].name == name {
        assert xs[i + 1].name == name;
      }
      if i :| 0 <= i < |xs| && xs[i].name == name {
        if i > 0 { assert xs[1..][i - 1].name == name; }
      }
    }
  }

  lemma {:induction false} ToMapReplace(xs: seq<Entry>, i: nat, e: Entry)
    requires UniqueNames(xs) && i < |xs| && xs[i].name == e.name
    ensures ToMap(xs[i := e]) == ToMap(xs)[e.name := Info(e.size, e.sha)]
  {
    if i == 0 {
      assert xs[0 := e][1..] == xs[1..];
    } else {
      ToMapReplace(xs[1..], i - 1, e);
      assert xs[i := e][1..] == xs[1..][i - 1 := e];
    }
  }

  lemma {:induction false} ToMapAppend(xs: seq<Entry>, e: Entry)
    requires forall i :: 0 <= i < |xs| ==> xs[i].name != e.name
    ensures ToMap(xs + [e]) == ToMap(xs)[e.name := Info(e.size, e.sha)]
  {
    if xs != [] {
      ToMapAppend(xs[1..], e);
      assert (xs + [e])[1..] == xs[1..] + [e];
    } else {
      assert ([] + [e])[1..] == [];
    }
  }

  lemma ToMapCons(e: Entry, xs: seq<Entry>)
    ensures ToMap([e] + xs) == ToMap(xs)[e.name := Info(e.size, e.sha)]
  {
    assert ([e] + xs)[1..] == xs;
  }

  lemma PutThenErase(m: map<Name, Info>, name: Name, info: Info, gone: Name)
    requires name != gone
    ensures (m - {gone})[name := info] == m[name := info] - {gone}
  {
  }

  lemma SkipCons(xs: seq<Entry>, i: nat)
    requires 0 < i < |xs|
    ensures xs[..i] + xs[i + 1..] == [xs[0]] + (xs[1..][..i - 1] + xs[1..][i..])
  {
    var a, b := xs[..i] + xs[i + 1..], xs[1..][..i - 1] + xs[1..][i..];
    forall k | 0 <= k < |b| ensures b[k] == a[k + 1] {
      assert b[k] == xs[1..][if k < i - 1 then k else k + 1];
    }
  }

  lemma {:induction false} ToMapErase(xs: seq<Entry>, i: nat)
    requires UniqueNames(xs) && i < |xs|
    ensures ToMap(xs[..i] + xs[i + 1..]) == ToMap(xs) - {xs[i].name}
  {
    hide ToMap;
    var e, rest := xs[0], xs[1..];
    assert xs == [e] + rest;
    assert forall j :: 0 <= j < |rest| ==> rest[j] == xs[j + 1];
    ToMapCons(e, rest);
    if i == 0 {
      assert xs[..0] + xs[1..] == rest;
      ToMapKeys(rest, e.name);
    } else {
      ToMapErase(rest, i - 1);
      var fewer := rest[..i - 1] + rest[i..];
      SkipCons(xs, i);
      ToMapCons(e, fewer);
      PutThenErase(ToMap(rest), e.name, Info(e.size, e.sha), xs[i].name);
    }
  }
}
