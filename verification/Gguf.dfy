/**
 Reading the key/value header of a GGUF file. A value says nothing about its own
 length, so finding the next key depends on consuming exactly each value's bytes.
 */
module Gguf {
  import opened Wrappers
  import LE = LittleEndian

  type byte = LE.byte

  // ------------------------------------------------------------ what a file holds

  const TEXT: nat := 8
  const ARRAY: nat := 9

  /** A value as the GGUF specification types it. Floats are kept as their bytes. */
  datatype Typed =
    | Number(t: nat, n: int)
    | Float(t: nat, raw: seq<byte>)
    | Boolean(b: bool)
    | Text(bytes: seq<byte>)
    | Array(elem: nat, items: seq<Typed>)
  {
    function Type(): nat {
      match this
      case Number(t, _) => t
      case Float(t, _) => t
      case Boolean(_) => 7
      case Text(_) => TEXT
      case Array(_, _) => ARRAY
    }
  }

  /** The bytes taken by the types of fixed size. */
  function Width(t: nat): (w: Option<nat>)
    ensures w.Some? ==> w.value in {1, 2, 4, 8} && t <= 12
    ensures w.None? <==> t in {TEXT, ARRAY} || t > 12
  {
    if t in {0, 1, 7} then Some(1)
    else if t in {2, 3} then Some(2)
    else if t in {4, 5, 6} then Some(4)
    else if t in {10, 11, 12} then Some(8)
    else None
  }

  predicate IsUnsigned(t: nat) { t in {0, 2, 4, 10} }

  predicate IsSigned(t: nat) { t in {1, 3, 5, 11} }

  predicate IsFloat(t: nat) { t in {6, 12} }

  const MAX32: nat := 0x1_0000_0000
  const MAX64: nat := 0x1_0000_0000_0000_0000
  const MAX_READ: nat := 0x8000_0000_0000_0000   // f.read takes a signed 64-bit size

  predicate Valid(v: Typed)
    decreases v
  {
    match v
    case Number(t, n) =>
      && (IsUnsigned(t) ==> 0 <= n < LE.Pow256(Width(t).value))
      && (IsSigned(t) ==> 0 <= 2 * n + LE.Pow256(Width(t).value) < 2 * LE.Pow256(Width(t).value))
      && (IsUnsigned(t) || IsSigned(t))
    case Float(t, raw) => IsFloat(t) && |raw| == Width(t).value
    case Boolean(_) => true
    case Text(bytes) => |bytes| < MAX_READ
    case Array(elem, items) =>
      && elem < MAX32 && |items| < MAX64
      && forall i :: 0 <= i < |items| ==> items[i].Type() == elem && Valid(items[i])
  }

  function Encode(v: Typed): (bytes: seq<byte>)
    requires Valid(v)
    ensures |bytes| > 0
    decreases v
  {
    match v
    case Number(t, n) =>
      var w := Width(t).value;
      LE.Encode(if n < 0 then n + LE.Pow256(w) else n, w)
    case Float(_, raw) => raw
    case Boolean(b) => [if b then 1 else 0]
    case Text(bytes) => LE.Encode(|bytes|, 8) + bytes
    case Array(elem, items) => LE.Encode(elem, 4) + LE.Encode(|items|, 8) + EncodeAll(items)
  }

  function EncodeAll(items: seq<Typed>): seq<byte>
    requires forall i :: 0 <= i < |items| ==> Valid(items[i])
    decreases items
  {
    if items == [] then [] else Encode(items[0]) + EncodeAll(items[1..])
  }

  // ------------------------------------------------------------ what the reader returns

  datatype Value =
    | Int(n: int)
    | Real(raw: seq<byte>)
    | Bool(b: bool)
    | Str(text: seq<byte>)
    | List(items: seq<Value>)

  function Meaning(v: Typed): Value
    decreases v
  {
    match v
    case Number(_, n) => Int(n)
    case Float(_, raw) => Real(raw)
    case Boolean(b) => Bool(b)
    case Text(bytes) => Str(bytes)
    case Array(_, items) => List(Meanings(items))
  }

  function Meanings(items: seq<Typed>): (r: seq<Value>)
    ensures |r| == |items|
    decreases items
  {
    if items == [] then [] else [Meaning(items[0])] + Meanings(items[1..])
  }

  // ------------------------------------------------------------ rd

  /** A value and what follows it in the file. */
  datatype Read<T> = Read(value: T, rest: seq<byte>)

  /** struct.unpack of one fixed-size value. */
  function Scalar(t: nat, raw: seq<byte>): Value
    requires Width(t) == Some(|raw|)
  {
    if IsFloat(t) then Real(raw)
    else if t == 7 then Bool(raw[0] != 0)
    else
      var n := LE.Value(raw);
      if IsSigned(t) && 2 * n >= LE.Pow256(|raw|) then Int(n - LE.Pow256(|raw|)) else Int(n)
  }

  /** f.read(n): fewer bytes when the file ends first. */
  function Upto(bytes: seq<byte>, n: nat): (k: nat)
    ensures k <= |bytes| && k <= n && (k == n || k == |bytes|)
  {
    if n <= |bytes| then n else |bytes|
  }

  function Rd(t: nat, bytes: seq<byte>): (r: Result<Read<Value>>)
    ensures r.Ok? ==> |r.value.rest| < |bytes|
    decreases |bytes|, 0
  {
    if t == TEXT then
      if |bytes| < 8 then Err("unpack requires a buffer")
      else if LE.Value(bytes[..8]) >= MAX_READ then Err("cannot fit 'int' into an index-sized integer")
      else
        var k := Upto(bytes[8..], LE.Value(bytes[..8]));
        Ok(Read(Str(bytes[8..8 + k]), bytes[8 + k..]))
    else if t == ARRAY then
      if |bytes| < 12 then Err("unpack requires a buffer")
      else
        match RdMany(LE.Value(bytes[..4]), LE.Value(bytes[4..12]), bytes[12..])
        case Err(e) => Err(e)
        case Ok(m) => Ok(Read(List(m.value), m.rest))
    else
      match Width(t)
      case None => Err("unknown gguf value type")
      case Some(w) =>
        if |bytes| < w then Err("unpack requires a buffer") else Ok(Read(Scalar(t, bytes[..w]), bytes[w..]))
  }

  /** [rd(et) for _ in range(n)] */
  function RdMany(et: nat, n: nat, bytes: seq<byte>): (r: Result<Read<seq<Value>>>)
    ensures r.Ok? ==> |r.value.rest| <= |bytes|
    decreases |bytes|, 1 + n
  {
    if n == 0 then Ok(Read([], bytes))
    else
      match Rd(et, bytes)
      case Err(e) => Err(e)
      case Ok(one) =>
        match RdMany(et, n - 1, one.rest)
        case Err(e) => Err(e)
        case Ok(more) => Ok(Read([one.value] + more.value, more.rest))
  }

  // ------------------------------------------------------------ the layouts, byte by byte

  lemma FrontAndRest(raw: seq<byte>, rest: seq<byte>)
    ensures (raw + rest)[..|raw|] == raw && (raw + rest)[|raw|..] == rest
  {
  }

  /** Types 0, 1 and 7 take one byte: unsigned, in two's complement, and a truth value. */
  lemma RdOneByte(a: byte, rest: seq<byte>)
    ensures Rd(0, [a] + rest) == Ok(Read(Int(a), rest))
    ensures Rd(1, [a] + rest) == Ok(Read(Int(if a < 128 then a else a - 256), rest))
    ensures Rd(7, [a] + rest) == Ok(Read(Bool(a != 0), rest))
  {
    hide LE.Value, LE.Pow256;
    FrontAndRest([a], rest);
    LE.Pow256Of8();
    LE.ValueOfBytes([a]);
  }

  /** Types 2 and 3 take two bytes, the low one first. */
  lemma RdTwoBytes(a: byte, b: byte, rest: seq<byte>)
    ensures var n: int := a + 256 * (b as int);
      && Rd(2, [a, b] + rest) == Ok(Read(Int(n), rest))
      && Rd(3, [a, b] + rest) == Ok(Read(Int(if b < 128 then n else n - 0x1_0000), rest))
  {
    hide LE.Value, LE.Pow256;
    FrontAndRest([a, b], rest);
    LE.Pow256Of8();
    LE.ValueOfBytes([a, b]);
  }

  /** Types 4, 5 and 6 take four: unsigned, in two's complement, and a float kept as it is. */
  lemma RdFourBytes(a: byte, b: byte, d: byte, e: byte, rest: seq<byte>)
    ensures var n := LE.Four(a, b, d, e);
      && Rd(4, [a, b, d, e] + rest) == Ok(Read(Int(n), rest))
      && Rd(5, [a, b, d, e] + rest) == Ok(Read(Int(if e < 128 then n else n - 0x1_0000_0000), rest))
      && Rd(6, [a, b, d, e] + rest) == Ok(Read(Real([a, b, d, e]), rest))
  {
    hide LE.Value, LE.Pow256;
    FrontAndRest([a, b, d, e], rest);
    LE.Pow256Of8();
    LE.ValueOfBytes([a, b, d, e]);
  }

  /** Types 10, 11 and 12 take eight: lo and hi stand for the two halves. */
  lemma RdEightBytes(raw: seq<byte>, rest: seq<byte>)
    requires |raw| == 8
    ensures var lo := LE.Four(raw[0], raw[1], raw[2], raw[3]);
      var hi := LE.Four(raw[4], raw[5], raw[6], raw[7]);
      var n := lo + 0x1_0000_0000 * hi;
      && Rd(10, raw + rest) == Ok(Read(Int(n), rest))
      && Rd(11, raw + rest) == Ok(Read(Int(if raw[7] < 128 then n else n - 0x1_0000_0000_0000_0000), rest))
      && Rd(12, raw + rest) == Ok(Read(Real(raw), rest))
  {
    hide LE.Value, LE.Pow256;
    FrontAndRest(raw, rest);
    LE.Pow256Of8();
    LE.ValueOfBytes(raw);
  }

  /** Eight bytes of which only the first is set. */
  lemma SmallNumber(n: byte, rest: seq<byte>)
    ensures LE.Value(([n, 0, 0, 0, 0, 0, 0, 0] + rest)[..8]) == n
  {
    hide LE.Value, LE.Pow256;
    var raw: seq<byte> := [n, 0, 0, 0, 0, 0, 0, 0];
    FrontAndRest(raw, rest);
    LE.ValueOfBytes(raw);
  }

  /** Type 8 is a text behind its length in eight bytes. */
  lemma RdShortText(text: seq<byte>, rest: seq<byte>)
    requires |text| < 256
    ensures Rd(8, [|text|, 0, 0, 0, 0, 0, 0, 0] + text + rest) == Ok(Read(Str(text), rest))
  {
    hide LE.Value;
    var size: seq<byte> := [|text|, 0, 0, 0, 0, 0, 0, 0];
    SmallNumber(|text|, text + rest);
    var bytes := size + text + rest;
    assert bytes == size + (text + rest);
    FrontAndRest(size, text + rest);
    assert bytes[8..8 + |text|] == text && bytes[8 + |text|..] == rest;
  }

  /** Type 9 is an array: the type of its elements in four bytes, how many in eight, then the elements. */
  lemma RdShortArray(et: byte, n: byte, rest: seq<byte>)
    ensures var bytes := [et, 0, 0, 0] + [n, 0, 0, 0, 0, 0, 0, 0] + rest;
      var items := RdMany(et, n, rest);
      && (items.Err? ==> Rd(9, bytes).Err?)
      && (items.Ok? ==> Rd(9, bytes) == Ok(Read(List(items.value.value), items.value.rest)))
  {
    hide LE.Value;
    var size: seq<byte> := [n, 0, 0, 0, 0, 0, 0, 0];
    var bytes := [et, 0, 0, 0] + size + rest;
    assert bytes[..4] == [et, 0, 0, 0] && bytes[4..] == size + rest && bytes[4..12] == size && bytes[12..] == rest;
    SmallNumber(n, rest);
    FrontAndRest(size, rest);
    LE.ValueOfBytes([et, 0, 0, 0]);
  }

  /** No other type is read. */
  lemma RdUnknown(t: nat, bytes: seq<byte>)
    requires t > 12
    ensures Rd(t, bytes).Err?
  {
  }

  // ------------------------------------------------------------ exact consumption

  lemma NumberBack(t: nat, n: int)
    requires Valid(Number(t, n))
    ensures Width(t) == Some(|Encode(Number(t, n))|)
    ensures Scalar(t, Encode(Number(t, n))) == Int(n)
  {
    var w := Width(t).value;
    LE.ValueOfEncode(if n < 0 then n + LE.Pow256(w) else n, w);
  }

  lemma TextParts(n: nat, tail: seq<byte>, bytes: seq<byte>)
    requires n < MAX64 && bytes == LE.Encode(n, 8) + tail
    ensures LE.Value(bytes[..8]) == n && bytes[8..] == tail
  {
    LE.Pow256Of8();
    LE.ValueOfEncode(n, 8);
    assert bytes[..8] == LE.Encode(n, 8);
  }

  lemma ArrayParts(elem: nat, n: nat, tail: seq<byte>, bytes: seq<byte>)
    requires elem < MAX32 && n < MAX64 && bytes == LE.Encode(elem, 4) + LE.Encode(n, 8) + tail
    ensures LE.Value(bytes[..4]) == elem && LE.Value(bytes[4..12]) == n && bytes[12..] == tail
  {
    LE.Pow256Of8();
    LE.ValueOfEncode(elem, 4);
    LE.ValueOfEncode(n, 8);
    assert bytes[..4] == LE.Encode(elem, 4);
    assert bytes[4..12] == LE.Encode(n, 8);
  }

  /** rd consumes exactly a value's encoding, whatever follows, and returns its meaning. */
  lemma {:induction false} RdOfEncode(v: Typed, rest: seq<byte>)
    requires Valid(v)
    ensures Rd(v.Type(), Encode(v) + rest) == Ok(Read(Meaning(v), rest))
    decreases v
  {
    hide LE.Encode, LE.Value;
    var bytes := Encode(v) + rest;
    match v
    case Number(t, n) =>
      NumberBack(t, n);
      assert bytes[..|Encode(v)|] == Encode(v) && bytes[|Encode(v)|..] == rest;
    case Float(t, raw) =>
      assert bytes[..|raw|] == raw && bytes[|raw|..] == rest;
    case Boolean(b) =>
      assert bytes[..1] == Encode(v) && bytes[1..] == rest;
    case Text(text) =>
      assert bytes == LE.Encode(|text|, 8) + (text + rest);
      TextParts(|text|, text + rest, bytes);
      assert bytes[8..8 + |text|] == text && bytes[8 + |text|..] == rest;
    case Array(elem, items) =>
      assert bytes == LE.Encode(elem, 4) + LE.Encode(|items|, 8) + (EncodeAll(items) + rest);
      ArrayParts(elem, |items|, EncodeAll(items) + rest, bytes);
      RdManyOfEncode(elem, items, rest);
  }

  lemma {:induction false} RdManyOfEncode(elem: nat, items: seq<Typed>, rest: seq<byte>)
    requires forall i :: 0 <= i < |items| ==> items[i].Type() == elem && Valid(items[i])
    ensures RdMany(elem, |items|, EncodeAll(items) + rest) == Ok(Read(Meanings(items), rest))
    decreases items
  {
    hide Rd, Encode, Meaning, Valid;
    if items == [] {
      assert EncodeAll(items) + rest == rest;
    } else {
      var more := EncodeAll(items[1..]) + rest;
      assert EncodeAll(items) + rest == Encode(items[0]) + more;
      RdOfEncode(items[0], more);
      RdManyOfEncode(elem, items[1..], rest);
    }
  }

  /**
   The other way round: whatever number or float is read from bytes that are all
   there is a value that can be written, and writes those bytes.
   */
  lemma EncodeOfScalar(t: nat, raw: seq<byte>)
    requires t in {0, 1, 2, 3, 4, 5, 6, 10, 11, 12} && Width(t) == Some(|raw|)
    ensures var v := if t in {6, 12} then Float(t, raw) else Number(t, Scalar(t, raw).n);
      Valid(v) && Meaning(v) == Scalar(t, raw) && Encode(v) == raw
  {
    LE.EncodeOfValue(raw);
  }

  /** A truth value is one byte, 1 or 0; a text can have any length that fits 63 bits. */
  lemma OtherScalars(b: bool, text: seq<byte>)
    ensures Valid(Boolean(b)) && Encode(Boolean(b)) == [if b then 1 else 0]
    ensures Valid(Text(text)) <==> |text| < 0x8000_0000_0000_0000
    ensures Valid(Text(text)) ==> Encode(Text(text)) == LE.Encode(|text|, 8) + text
  {
  }

  type Key = seq<byte>

  /** One round of the loop: a key, its value's type, and the value. */
  function ReadEntry(bytes: seq<byte>): (r: Result<Read<(Key, Value)>>)
    ensures r.Ok? ==> |r.value.rest| < |bytes|
  {
    if |bytes| < 8 then Err("unpack requires a buffer")
    else if LE.Value(bytes[..8]) >= MAX_READ then Err("cannot fit 'int' into an index-sized integer")
    else
      var k := Upto(bytes[8..], LE.Value(bytes[..8]));
      var key, after := bytes[8..8 + k], bytes[8 + k..];
      if |after| < 4 then Err("unpack requires a buffer")
      else
        match Rd(LE.Value(after[..4]), after[4..])
        case Err(e) => Err(e)
        case Ok(v) => Ok(Read((key, v.value), v.rest))
  }

  /** A text, or a key, whose length does not fit 63 bits is refused, and only such a one. */
  lemma TooLongIsRefused(bytes: seq<byte>)
    requires |bytes| >= 8
    ensures Rd(8, bytes).Err? <==> LE.Value(bytes[..8]) >= 0x8000_0000_0000_0000
    ensures LE.Value(bytes[..8]) >= 0x8000_0000_0000_0000 ==> ReadEntry(bytes).Err?
  {
  }

  // ------------------------------------------------------------ truncated files

  /** The text a value's encoding ends in, if it ends in one. */
  function FinalText(v: Typed): Option<nat>
    decreases v
  {
    match v
    case Text(bytes) => Some(|bytes|)
    case Array(_, items) => LastText(items)
    case _ => None
  }

  function LastText(items: seq<Typed>): Option<nat>
    decreases items
  {
    if items == [] then None
    else if |items| == 1 then FinalText(items[0])
    else LastText(items[1..])
  }

  lemma {:induction false} FinalTextFits(v: Typed)
    requires Valid(v) && FinalText(v).Some?
    ensures FinalText(v).value + 8 <= |Encode(v)|
    decreases v
  {
    if v.Array? { LastTextFits(v.items); }
  }

  lemma {:induction false} LastTextFits(items: seq<Typed>)
    requires forall i :: 0 <= i < |items| ==> Valid(items[i])
    requires LastText(items).Some?
    ensures LastText(items).value + 8 <= |EncodeAll(items)|
    decreases items
  {
    if |items| == 1 {
      FinalTextFits(items[0]);
    } else {
      LastTextFits(items[1..]);
    }
  }

  /** Cutting an encoding short goes unnoticed exactly when the cut falls inside a final text. */
  predicate Unnoticed(cut: nat, size: nat, text: Option<nat>) {
    text.Some? && cut >= size - text.value
  }

  lemma NothingToRead(t: nat, n: nat)
    requires n > 0
    ensures RdMany(t, n, []).Err?
  {
    assert Rd(t, []).Err?;
  }

  lemma {:induction false} RdOfCut(v: Typed, cut: nat)
    requires Valid(v) && cut < |Encode(v)|
    ensures Rd(v.Type(), Encode(v)[..cut]).Ok? <==> Unnoticed(cut, |Encode(v)|, FinalText(v))
    ensures Rd(v.Type(), Encode(v)[..cut]).Ok? ==> Rd(v.Type(), Encode(v)[..cut]).value.rest == []
    decreases v
  {
    hide LE.Encode, LE.Value;
    var bytes := Encode(v)[..cut];
    match v
    case Number(t, n) =>
      NumberBack(t, n);
    case Float(t, raw) =>
    case Boolean(b) =>
    case Text(text) =>
      if cut >= 8 {
        assert bytes == LE.Encode(|text|, 8) + text[..cut - 8];
        TextParts(|text|, text[..cut - 8], bytes);
      }
    case Array(elem, items) =>
      if LastText(items).Some? { LastTextFits(items); }
      if cut >= 12 {
        assert bytes == LE.Encode(elem, 4) + LE.Encode(|items|, 8) + EncodeAll(items)[..cut - 12];
        ArrayParts(elem, |items|, EncodeAll(items)[..cut - 12], bytes);
        RdManyOfCut(elem, items, cut - 12);
      }
  }

  lemma {:induction false} RdManyOfCut(elem: nat, items: seq<Typed>, cut: nat)
    requires forall i :: 0 <= i < |items| ==> items[i].Type() == elem && Valid(items[i])
    requires cut < |EncodeAll(items)|
    ensures var r := RdMany(elem, |items|, EncodeAll(items)[..cut]);
      && (r.Ok? <==> Unnoticed(cut, |EncodeAll(items)|, LastText(items)))
      && (r.Ok? ==> r.value.rest == [])
    decreases items
  {
    hide Rd, Encode, Valid, FinalText;
    var first, more := Encode(items[0]), EncodeAll(items[1..]);
    var bytes := EncodeAll(items)[..cut];
    if cut < |first| {
      assert bytes == first[..cut];
      RdOfCut(items[0], cut);
      if |items| > 1 {
        NothingToRead(elem, |items| - 1);
        if LastText(items).Some? { LastTextFits(items[1..]); }
      }
    } else {
      assert bytes == first + more[..cut - |first|];
      RdOfEncode(items[0], more[..cut - |first|]);
      RdManyOfCut(elem, items[1..], cut - |first|);
    }
  }

  // ------------------------------------------------------------ the header

  datatype Entry = Entry(key: Key, value: Typed)

  const MAGIC: seq<byte> := [0x47, 0x47, 0x55, 0x46]

  predicate Writable(e: Entry) {
    |e.key| < MAX_READ && Valid(e.value) && e.value.Type() < MAX32
  }

  function EncodeEntry(e: Entry): seq<byte>
    requires Writable(e)
  {
    LE.Encode(|e.key|, 8) + e.key + LE.Encode(e.value.Type(), 4) + Encode(e.value)
  }

  function EncodeEntries(es: seq<Entry>): seq<byte>
    requires forall i :: 0 <= i < |es| ==> Writable(es[i])
  {
    if es == [] then [] else EncodeEntry(es[0]) + EncodeEntries(es[1..])
  }

  /** A file's magic number, version, tensor count and key/value list. */
  function EncodeHeader(version: nat, tensors: nat, es: seq<Entry>): seq<byte>
    requires forall i :: 0 <= i < |es| ==> Writable(es[i])
  {
    MAGIC + LE.Encode(version, 4) + LE.Encode(tensors, 8) + LE.Encode(|es|, 8) + EncodeEntries(es)
  }

  /** n rounds of the loop, starting from what was found so far. */
  function ReadEntries(n: nat, bytes: seq<byte>, keys: seq<Key>, found: map<Key, Value>)
    : Result<Read<map<Key, Value>>>
    decreases n
  {
    if n == 0 then Ok(Read(found, bytes))
    else
      match ReadEntry(bytes)
      case Err(e) => Err(e)
      case Ok(one) =>
        var (key, value) := one.value;
        ReadEntries(n - 1, one.rest, keys, if key in keys then found[key := value] else found)
  }

  function ReadHeader(file: seq<byte>, keys: seq<Key>): Result<map<Key, Value>> {
    if file[..Upto(file, 4)] != MAGIC then Err("not a gguf file")
    else if |file| < 24 then Err("unpack requires a buffer")
    else
      match ReadEntries(LE.Value(file[16..24]), file[24..], keys, map[])
      case Err(e) => Err(e)
      case Ok(all) => Ok(all.value)
  }

  /** A file starts with the letters GGUF; a file that does not is refused. */
  lemma MagicIsChecked(file: seq<byte>, keys: seq<Key>)
    ensures ReadHeader(file, keys).Ok? ==>
      |file| >= 24 && file[0] == 'G' as int && file[1] == 'G' as int && file[2] == 'U' as int && file[3] == 'F' as int
  {
  }

  /** Behind the letters, four bytes of version and eight of tensor count, the number of keys, then the keys. */
  lemma HeaderLayout(version: seq<byte>, tensors: seq<byte>, n: byte, rest: seq<byte>, keys: seq<Key>)
    requires |version| == 4 && |tensors| == 8
    ensures var file := [0x47, 0x47, 0x55, 0x46] + version + tensors + [n, 0, 0, 0, 0, 0, 0, 0] + rest;
      var all := ReadEntries(n, rest, keys, map[]);
      && (all.Err? ==> ReadHeader(file, keys).Err?)
      && (all.Ok? ==> ReadHeader(file, keys) == Ok(all.value.value))
  {
    hide LE.Value, ReadEntries;
    var size: seq<byte> := [n, 0, 0, 0, 0, 0, 0, 0];
    var file := [0x47, 0x47, 0x55, 0x46] + version + tensors + size + rest;
    assert file[..4] == [0x47, 0x47, 0x55, 0x46] && file[16..24] == size && file[24..] == rest;
    SmallNumber(n, []);
    assert (size + [])[..8] == size;
  }

  /** A key stands behind its length in eight bytes; its type follows in four bytes, then its value. */
  lemma EntryLayout(key: Key, t: byte, rest: seq<byte>)
    requires |key| < 256
    ensures var bytes := [|key|, 0, 0, 0, 0, 0, 0, 0] + key + [t, 0, 0, 0] + rest;
      && (Rd(t, rest).Err? ==> ReadEntry(bytes).Err?)
      && (Rd(t, rest).Ok? ==>
          ReadEntry(bytes) == Ok(Read((key, Rd(t, rest).value.value), Rd(t, rest).value.rest)))
  {
    hide LE.Value, Rd;
    var size: seq<byte> := [|key|, 0, 0, 0, 0, 0, 0, 0];
    var after: seq<byte> := [t, 0, 0, 0] + rest;
    var bytes := size + key + [t, 0, 0, 0] + rest;
    assert bytes == size + (key + after);
    SmallNumber(|key|, key + after);
    FrontAndRest(size, key + after);
    assert bytes[8..8 + |key|] == key && bytes[8 + |key|..] == after;
    FrontAndRest([t, 0, 0, 0], rest);
    LE.ValueOfBytes([t, 0, 0, 0]);
  }

  method ReadKv(file: seq<byte>, keys: seq<Key>) returns (r: Result<map<Key, Value>>)
    ensures r == ReadHeader(file, keys)
  {
    hide Rd, ReadEntry, LE.Value;
    if file[..Upto(file, 4)] != MAGIC {
      return Err("not a gguf file");
    }
    if |file| < 24 {
      return Err("unpack requires a buffer");
    }
    var left, rest := LE.Value(file[16..24]), file[24..];
    var found: map<Key, Value> := map[];
    while left > 0
      invariant ReadEntries(left, rest, keys, found) == ReadEntries(LE.Value(file[16..24]), file[24..], keys, map[])
    {
      var one := ReadEntry(rest);
      if one.Err? {
        return Err(one.error);
      }
      var (key, value) := one.value.value;
      if key in keys {
        found := found[key := value];
      }
      left, rest := left - 1, one.value.rest;
    }
    return Ok(found);
  }

  // ------------------------------------------------------------ what the header yields

  /** The requested keys with their values, a later entry replacing an earlier one. */
  function Collected(es: seq<Entry>, keys: seq<Key>, found: map<Key, Value>): map<Key, Value> {
    if es == [] then found
    else
      var e := es[0];
      Collected(es[1..], keys, if e.key in keys then found[e.key := Meaning(e.value)] else found)
  }

  lemma Slices(a: seq<byte>, b: seq<byte>, c: seq<byte>, d: seq<byte>)
    ensures var whole, n, m := a + b + c + d, |a|, |a| + |b|;
      whole[..n] == a && whole[n..m] == b && whole[m..] == c + d
  {
    var whole, n, m := a + b + c + d, |a|, |a| + |b|;
    assert whole[..n] == a && whole[n..m] == b && whole[m..] == c + d;
  }

  lemma TypeParts(t: nat, tail: seq<byte>, bytes: seq<byte>)
    requires t < MAX32 && bytes == LE.Encode(t, 4) + tail
    ensures LE.Value(bytes[..4]) == t && bytes[4..] == tail
  {
    LE.Pow256Of8();
    LE.ValueOfEncode(t, 4);
    assert bytes[..4] == LE.Encode(t, 4);
  }

  lemma EntryParts(key: Key, t: nat, tail: seq<byte>, bytes: seq<byte>)
    requires |key| < MAX64 && t < MAX32
    requires bytes == LE.Encode(|key|, 8) + key + LE.Encode(t, 4) + tail
    ensures LE.Value(bytes[..8]) == |key| && bytes[8..8 + |key|] == key
    ensures var after := bytes[8 + |key|..]; LE.Value(after[..4]) == t && after[4..] == tail
  {
    hide LE.Encode, LE.Value;
    Slices(LE.Encode(|key|, 8), key, LE.Encode(t, 4), tail);
    LE.Pow256Of8();
    LE.ValueOfEncode(|key|, 8);
    TypeParts(t, tail, LE.Encode(t, 4) + tail);
  }

  lemma EntryBack(e: Entry, rest: seq<byte>)
    requires Writable(e)
    ensures ReadEntry(EncodeEntry(e) + rest) == Ok(Read((e.key, Meaning(e.value)), rest))
  {
    hide Rd, Encode, Meaning, LE.Encode, LE.Value;
    var t, body := e.value.Type(), Encode(e.value) + rest;
    assert EncodeEntry(e) + rest == LE.Encode(|e.key|, 8) + e.key + LE.Encode(t, 4) + body;
    EntryParts(e.key, t, body, EncodeEntry(e) + rest);
    RdOfEncode(e.value, rest);
  }

  lemma {:induction false} EntriesBack(es: seq<Entry>, rest: seq<byte>, keys: seq<Key>, found: map<Key, Value>)
    requires forall i :: 0 <= i < |es| ==> Writable(es[i])
    ensures ReadEntries(|es|, EncodeEntries(es) + rest, keys, found) == Ok(Read(Collected(es, keys, found), rest))
    decreases |es|
  {
    if es == [] {
      assert EncodeEntries(es) + rest == rest;
    } else {
      var e, more := es[0], EncodeEntries(es[1..]) + rest;
      assert EncodeEntries(es) + rest == EncodeEntry(e) + more;
      EntryBack(e, more);
      EntriesBack(es[1..], rest, keys, if e.key in keys then found[e.key := Meaning(e.value)] else found);
    }
  }

  /** What is returned: what was there, and the requested keys that occur. */
  lemma {:induction false} CollectedKeys(es: seq<Entry>, keys: seq<Key>, found: map<Key, Value>, key: Key)
    ensures key in Collected(es, keys, found) <==>
      key in found || (key in keys && exists i :: 0 <= i < |es| && es[i].key == key)
    decreases |es|
  {
    if es != [] {
      var e, rest := es[0], es[1..];
      CollectedKeys(rest, keys, if e.key in keys then found[e.key := Meaning(e.value)] else found, key);
      if i :| 0 <= i < |es| && es[i].key == key {
        assert i > 0 ==> rest[i - 1] == es[i];
      }
      if i :| 0 <= i < |rest| && rest[i].key == key {
        assert es[i + 1].key == key;
      }
    }
  }

  lemma {:induction false} Untouched(es: seq<Entry>, keys: seq<Key>, found: map<Key, Value>, key: Key)
    requires key in found && forall i :: 0 <= i < |es| ==> es[i].key != key
    ensures key in Collected(es, keys, found) && Collected(es, keys, found)[key] == found[key]
    decreases |es|
  {
    if es != [] {
      var e := es[0];
      Untouched(es[1..], keys, if e.key in keys then found[e.key := Meaning(e.value)] else found, key);
    }
  }

  predicate LastOfKey(es: seq<Entry>, i: nat)
    requires i < |es|
  {
    forall j :: i < j < |es| ==> es[j].key != es[i].key
  }

  /** The last entry of a requested key decides. */
  lemma {:induction false} CollectedIsLast(es: seq<Entry>, keys: seq<Key>, found: map<Key, Value>, i: nat)
    requires i < |es| && es[i].key in keys && LastOfKey(es, i)
    ensures es[i].key in Collected(es, keys, found)
    ensures Collected(es, keys, found)[es[i].key] == Meaning(es[i].value)
    decreases |es|
  {
    var e, rest := es[0], es[1..];
    var found' := if e.key in keys then found[e.key := Meaning(e.value)] else found;
    assert forall j :: 0 <= j < |rest| ==> rest[j] == es[j + 1];
    if i == 0 {
      Untouched(rest, keys, found', e.key);
    } else {
      CollectedIsLast(rest, keys, found', i - 1);
    }
  }

  /** Where the fixed part of a header and its entries are found. */
  lemma HeaderParts(version: nat, tensors: nat, es: seq<Entry>, file: seq<byte>, entries: seq<byte>)
    requires |es| < MAX64
    requires file == MAGIC + LE.Encode(version, 4) + LE.Encode(tensors, 8) + LE.Encode(|es|, 8) + entries
    ensures |file| >= 24 && file[..4] == MAGIC && LE.Value(file[16..24]) == |es| && file[24..] == entries
  {
    LE.Pow256Of8();
    LE.ValueOfEncode(|es|, 8);
    assert file[16..24] == LE.Encode(|es|, 8);
  }

  /**
   For every key/value list and whatever follows it in the file, the reader returns
   exactly the requested keys that occur, each with the value it was given last.
   */
  lemma HeaderBack(version: nat, tensors: nat, es: seq<Entry>, tail: seq<byte>, keys: seq<Key>)
    requires |es| < MAX64 && forall i :: 0 <= i < |es| ==> Writable(es[i])
    ensures var r := ReadHeader(EncodeHeader(version, tensors, es) + tail, keys);
      && r.Ok?
      && (forall key :: key in r.value <==> key in keys && exists i :: 0 <= i < |es| && es[i].key == key)
      && (forall i :: 0 <= i < |es| && es[i].key in keys && LastOfKey(es, i) ==>
          r.value[es[i].key] == Meaning(es[i].value))
  {
    var file := EncodeHeader(version, tensors, es) + tail;
    HeaderParts(version, tensors, es, file, EncodeEntries(es) + tail);
    EntriesBack(es, tail, keys, map[]);
    forall key ensures key in Collected(es, keys, map[]) <==>
        key in keys && exists i :: 0 <= i < |es| && es[i].key == key
    {
      CollectedKeys(es, keys, map[], key);
    }
    forall i | 0 <= i < |es| && es[i].key in keys && LastOfKey(es, i)
      ensures Collected(es, keys, map[])[es[i].key] == Meaning(es[i].value)
    {
      CollectedIsLast(es, keys, map[], i);
    }
  }

  // ------------------------------------------------------------ truncated headers

  lemma EntryOfCut(e: Entry, cut: nat)
    requires Writable(e) && cut < |EncodeEntry(e)|
    ensures var r := ReadEntry(EncodeEntry(e)[..cut]);
      && (r.Ok? <==> Unnoticed(cut, |EncodeEntry(e)|, FinalText(e.value)))
      && (r.Ok? ==> r.value.rest == [])
  {
    hide Rd, Encode, Valid, LE.Encode, LE.Value;
    var bytes, k, t := EncodeEntry(e)[..cut], |e.key|, e.value.Type();
    if FinalText(e.value).Some? { FinalTextFits(e.value); }
    if cut >= 12 + k {
      var body := Encode(e.value)[..cut - 12 - k];
      assert bytes == LE.Encode(k, 8) + e.key + LE.Encode(t, 4) + body;
      EntryParts(e.key, t, body, bytes);
      RdOfCut(e.value, cut - 12 - k);
    } else if cut >= 8 {
      var tail := (e.key + LE.Encode(t, 4) + Encode(e.value))[..cut - 8];
      assert bytes == LE.Encode(k, 8) + tail;
      TextParts(k, tail, bytes);
    }
  }

  lemma {:induction false} LastEntryFits(es: seq<Entry>)
    requires es != [] && forall i :: 0 <= i < |es| ==> Writable(es[i])
    ensures var text := FinalText(es[|es| - 1].value);
      text.Some? ==> text.value < |EncodeEntries(es)|
    decreases |es|
  {
    if |es| == 1 {
      if FinalText(es[0].value).Some? { FinalTextFits(es[0].value); }
    } else {
      LastEntryFits(es[1..]);
    }
  }

  lemma {:induction false} EntriesOfCut(es: seq<Entry>, cut: nat, keys: seq<Key>, found: map<Key, Value>)
    requires forall i :: 0 <= i < |es| ==> Writable(es[i])
    requires cut < |EncodeEntries(es)|
    ensures es != []
    ensures ReadEntries(|es|, EncodeEntries(es)[..cut], keys, found).Ok? <==>
      Unnoticed(cut, |EncodeEntries(es)|, FinalText(es[|es| - 1].value))
    decreases |es|
  {
    hide ReadEntry, EncodeEntry, FinalText, Meaning, Valid;
    var e, first, more := es[0], EncodeEntry(es[0]), EncodeEntries(es[1..]);
    var bytes := EncodeEntries(es)[..cut];
    if cut < |first| {
      assert bytes == first[..cut];
      EntryOfCut(e, cut);
      if |es| > 1 {
        LastEntryFits(es[1..]);
      }
    } else {
      assert bytes == first + more[..cut - |first|];
      EntryBack(e, more[..cut - |first|]);
      EntriesOfCut(es[1..], cut - |first|, keys, if e.key in keys then found[e.key := Meaning(e.value)] else found);
    }
  }

  lemma ShortIsRefused(file: seq<byte>, keys: seq<Key>)
    requires |file| < 24
    ensures ReadHeader(file, keys).Err?
  {
  }

  /**
   A file cut anywhere in its header is refused, except when the last value ends in a
   text and the cut falls inside it: then the text is returned shortened, without an error.
   */
  lemma HeaderOfCut(version: nat, tensors: nat, es: seq<Entry>, cut: nat, keys: seq<Key>)
    requires |es| < MAX64 && forall i :: 0 <= i < |es| ==> Writable(es[i])
    requires cut < |EncodeHeader(version, tensors, es)|
    ensures ReadHeader(EncodeHeader(version, tensors, es)[..cut], keys).Ok? <==>
      && es != []
      && Unnoticed(cut, |EncodeHeader(version, tensors, es)|, FinalText(es[|es| - 1].value))
  {
    hide LE.Encode, LE.Value, ReadEntries, EncodeEntries, EncodeEntry, FinalText, Encode, Valid;
    var whole := EncodeHeader(version, tensors, es);
    var file := whole[..cut];
    if cut < 24 {
      ShortIsRefused(file, keys);
      if es != [] { LastEntryFits(es); }
    } else {
      HeaderParts(version, tensors, es, file, EncodeEntries(es)[..cut - 24]);
      EntriesOfCut(es, cut - 24, keys, map[]);
      if es != [] { LastEntryFits(es); }
    }
  }
}
