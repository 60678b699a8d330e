/**
 The attention memory of one sequence, as the canister drives it through
 llama_decode and the llama_memory_seq_* calls: a list of cells in insertion
 order, each holding a token at a position.
 */
module KvMemory {
  type Token = int

  datatype Cell = Cell(pos: int, tok: Token)

  type Memory = seq<Cell>

  function Toks(mem: Memory): (ts: seq<Token>)
    ensures |ts| == |mem| && forall i :: 0 <= i < |mem| ==> ts[i] == mem[i].tok
  {
    seq(|mem|, i requires 0 <= i < |mem| => mem[i].tok)
  }

  /** One past the highest position in use: where llama_decode puts the next token. */
  function NextPos(mem: Memory): int {
    if mem == [] then 0
    else
      var before := NextPos(mem[..|mem| - 1]);
      var top := mem[|mem| - 1].pos + 1;
      if before > top then before else top
  }

  function CellsFrom(start: int, ts: seq<Token>): (cells: Memory)
    ensures |cells| == |ts|
  {
    seq(|ts|, i requires 0 <= i < |ts| => Cell(start + i, ts[i]))
  }

  /** llama_decode on a batch without explicit positions. */
  function Decode(mem: Memory, ts: seq<Token>): Memory {
    mem + CellsFrom(NextPos(mem), ts)
  }

  /** The position range of the llama_memory_seq_* calls; a negative end means "to the end". */
  predicate InRange(pos: int, p0: int, p1: int) {
    p0 <= pos && (p1 < 0 || pos < p1)
  }

  function SeqRm(mem: Memory, p0: int, p1: int): (r: Memory)
    ensures |r| <= |mem|
  {
    if mem == [] then []
    else
      var last := mem[|mem| - 1];
      SeqRm(mem[..|mem| - 1], p0, p1) + if InRange(last.pos, p0, p1) then [] else [last]
  }

  function SeqAdd(mem: Memory, p0: int, p1: int, delta: int): (r: Memory)
    ensures |r| == |mem|
  {
    seq(|mem|, i requires 0 <= i < |mem| =>
      if InRange(mem[i].pos, p0, p1) then mem[i].(pos := mem[i].pos + delta) else mem[i])
  }

  function SeqDiv(mem: Memory, p0: int, p1: int, d: int): (r: Memory)
    requires d > 0
    ensures |r| == |mem|
  {
    seq(|mem|, i requires 0 <= i < |mem| =>
      if InRange(mem[i].pos, p0, p1) then mem[i].(pos := mem[i].pos / d) else mem[i])
  }

  /** The memory holds exactly ts, in order, at positions 0, 1, 2, ... */
  ghost predicate Holds(mem: Memory, ts: seq<Token>) {
    |mem| == |ts| && forall i :: 0 <= i < |mem| ==> mem[i] == Cell(i, ts[i])
  }

  /** Positions are exactly 0 .. |mem| - 1, in insertion order. */
  ghost predicate Contiguous(mem: Memory) {
    forall i :: 0 <= i < |mem| ==> mem[i].pos == i
  }

  lemma {:induction false} NextPosContiguous(mem: Memory)
    requires Contiguous(mem)
    ensures NextPos(mem) == |mem|
  {
    if mem != [] {
      NextPosContiguous(mem[..|mem| - 1]);
    }
  }

  /** The next position is above every position in use. */
  lemma {:induction false} NextPosAbove(mem: Memory, i: nat)
    requires i < |mem|
    ensures NextPos(mem) > mem[i].pos
  {
    if i < |mem| - 1 {
      NextPosAbove(mem[..|mem| - 1], i);
    }
  }

  /** Decoding in one batch or in two leaves the same memory. */
  lemma {:induction false} NextPosAfterDecode(mem: Memory, ts: seq<Token>)
    ensures NextPos(Decode(mem, ts)) == NextPos(mem) + |ts|
  {
    if ts == [] {
      assert Decode(mem, ts) == mem;
    } else {
      var d := Decode(mem, ts);
      NextPosAfterDecode(mem, ts[..|ts| - 1]);
      assert d[..|d| - 1] == Decode(mem, ts[..|ts| - 1]);
    }
  }

  lemma DecodeInTwo(mem: Memory, a: seq<Token>, b: seq<Token>)
    ensures Decode(Decode(mem, a), b) == Decode(mem, a + b)
  {
    NextPosAfterDecode(mem, a);
  }

  lemma DecodeHolds(mem: Memory, ts: seq<Token>)
    requires Contiguous(mem)
    ensures Contiguous(Decode(mem, ts))
    ensures Toks(Decode(mem, ts)) == Toks(mem) + ts
  {
    NextPosContiguous(mem);
  }

  function Clip(p: nat, n: nat): nat { if p < n then p else n }

  /** What is left around a slice, once there is one cell more. */
  lemma AroundSlice(init: Memory, last: Cell, p0: nat, p1: nat)
    requires p0 <= p1
    ensures var mem, x := init + [last], init[..Clip(p0, |init|)] + init[Clip(p1, |init|)..];
      mem[..Clip(p0, |mem|)] + mem[Clip(p1, |mem|)..] == if p0 <= |init| < p1 then x else x + [last]
  {
    var mem := init + [last];
    if p1 <= |init| {
      assert mem[p1..] == init[p1..] + [last];
    } else if |init| < p0 {
      assert mem[..|mem|] == init[..|init|] + init[|init|..] + [last];
    }
  }

  /** Removing a position range from a contiguous memory cuts out that slice. */
  lemma {:induction false} SeqRmCutsSlice(mem: Memory, p0: nat, p1: nat)
    requires Contiguous(mem) && p0 <= p1
    ensures SeqRm(mem, p0, p1) == mem[..Clip(p0, |mem|)] + mem[Clip(p1, |mem|)..]
  {
    if mem != [] {
      var init, last := mem[..|mem| - 1], mem[|mem| - 1];
      assert init + [last] == mem;
      SeqRmCutsSlice(init, p0, p1);
      AroundSlice(init, last, p0, p1);
    }
  }

  /** An empty range removes nothing. */
  lemma {:induction false} SeqRmNothing(mem: Memory, p: nat)
    ensures SeqRm(mem, p, p) == mem
  {
    if mem != [] {
      SeqRmNothing(mem[..|mem| - 1], p);
    }
  }

  /** Moving by nothing moves nothing. */
  lemma SeqAddNothing(mem: Memory, p0: int, p1: int)
    ensures SeqAdd(mem, p0, p1, 0) == mem
  {
    forall i | 0 <= i < |mem| ensures SeqAdd(mem, p0, p1, 0)[i] == mem[i] {
      assert mem[i].(pos := mem[i].pos + 0) == mem[i];
    }
  }

  /** Cells at or above the end of a removed range stay. */
  lemma {:induction false} SeqRmKeepsAbove(mem: Memory, tail: Memory, p0: int, p1: nat)
    requires forall i :: 0 <= i < |tail| ==> tail[i].pos >= p1
    ensures SeqRm(mem + tail, p0, p1) == SeqRm(mem, p0, p1) + tail
  {
    if tail == [] {
      assert mem + tail == mem;
    } else {
      var all, init := mem + tail, tail[..|tail| - 1];
      assert all[..|all| - 1] == mem + init;
      assert init + [tail[|tail| - 1]] == tail;
      SeqRmKeepsAbove(mem, init, p0, p1);
    }
  }

  lemma CutBeforeTail(mem: Memory, h: nat, a: nat, b: nat)
    requires a <= b <= h <= |mem|
    ensures mem[..h][..a] + mem[..h][b..] + mem[h..] == mem[..a] + mem[b..]
  {
  }

  /** Removing a range below the cells that follow a contiguous head cuts a slice out of the head. */
  lemma SeqRmCutsHead(mem: Memory, h: nat, p0: nat, p1: nat)
    requires h <= |mem| && Contiguous(mem[..h]) && p0 <= p1
    requires forall i :: h <= i < |mem| ==> mem[i].pos >= p1
    ensures SeqRm(mem, p0, p1) == mem[..Clip(p0, h)] + mem[Clip(p1, h)..]
  {
    hide SeqRm;
    var head, tail := mem[..h], mem[h..];
    assert mem == head + tail;
    SeqRmKeepsAbove(head, tail, p0, p1);
    SeqRmCutsSlice(head, p0, p1);
    CutBeforeTail(mem, h, Clip(p0, h), Clip(p1, h));
  }

  /** Removing everything from a position on leaves the cells before it. */
  lemma {:induction false} SeqRmTail(mem: Memory, p0: nat)
    requires Contiguous(mem)
    ensures SeqRm(mem, p0, -1) == mem[..Clip(p0, |mem|)]
  {
    if mem != [] {
      var init, last := mem[..|mem| - 1], mem[|mem| - 1];
      assert init + [last] == mem;
      SeqRmTail(init, p0);
    }
  }

  /** Cutting a slice out and moving the later cells down closes the gap. */
  lemma CutAndClose(mem: Memory, p0: nat, d: int)
    requires Contiguous(mem) && 0 <= d && p0 + d <= |mem|
    ensures var r := SeqAdd(SeqRm(mem, p0, p0 + d), p0 + d, |mem|, -d);
      && Contiguous(r) && |r| == |mem| - d
      && Toks(r) == Toks(mem)[..p0] + Toks(mem)[p0 + d..]
  {
    SeqRmCutsSlice(mem, p0, p0 + d);
    var cut := mem[..p0] + mem[p0 + d..];
    assert SeqRm(mem, p0, p0 + d) == cut;
    hide SeqRm;
    var r := SeqAdd(cut, p0 + d, |mem|, -d);
    forall i | 0 <= i < |r|
      ensures r[i].pos == i && r[i].tok == cut[i].tok
    {
      assert cut[i] == if i < p0 then mem[i] else mem[i + d];
    }
    assert Toks(r) == Toks(cut);
    assert Toks(cut) == Toks(mem)[..p0] + Toks(mem)[p0 + d..];
  }
}
