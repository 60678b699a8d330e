/**
 Context extension via Self-Extend: before every decode the loop of main_ folds
 finished windows of ga_w tokens onto ga_w / ga_n positions.
 */
module SelfExtend {
  import opened Arithmetic
  import opened KvMemory

  /** Where token i sits after k windows have been folded. */
  function PosAt(n: int, w: int, k: nat, i: nat): int
    requires n > 0
  {
    if i < k * w then i / n else i - k * (w - w / n)
  }

  ghost predicate Folded(mem: Memory, n: int, w: int, k: nat)
    requires n > 0
  {
    forall i :: 0 <= i < |mem| ==> mem[i].pos == PosAt(n, w, k, i)
  }

  /** What the loop body does to the memory when k windows are folded. */
  function Fold(mem: Memory, n: int, w: int, gaI: int, nPast: int): (r: Memory)
    requires n > 0 && w > 0
    ensures |r| == |mem|
  {
    var ib := (n * gaI) / w;
    var bd := (w / n) * (n - 1);
    var dd := (w / n) - ib * bd - w;
    var a := SeqAdd(mem, gaI, nPast, ib * bd);
    var b := SeqDiv(a, gaI + ib * bd, gaI + ib * bd + w, n);
    SeqAdd(b, gaI + ib * bd + w, nPast + ib * bd, dd)
  }

  // ------------------------------------------------------------ arithmetic

  lemma Assoc(n: int, k: int, q: int)
    ensures n * (k * q) == k * (q * n) && (k * q) * n == k * (q * n)
  {
    assert n * (k * q) == (n * k) * q == (k * n) * q == k * (n * q);
  }

  lemma DivExact(k: nat, w: int)
    requires w > 0
    ensures (k * w) / w == k
  {
    var d := (k * w) / w;
    assert k * w == d * w + (k * w) % w;
    if d < k { MulMono(d + 1, k, w); }
    if d > k { MulMono(k + 1, d, w); }
  }

  /** The quantities of the loop body, in terms of q = w / n. */
  lemma WindowArithmetic(n: int, w: int, k: nat)
    requires n > 0 && w > 0 && w % n == 0
    ensures var q := w / n;
      && q > 0 && w == q * n && q * (n - 1) == w - q && 0 <= w - q
      && (n * (k * q)) / w == k
      && k * w == k * q + k * (w - q)
      && (k + 1) * w == k * w + w && (k + 1) * q == k * q + q
      && (k + 1) * (w - q) == k * (w - q) + (w - q)
      && (k * q) * n == k * w && 0 <= k * q <= k * w
  {
    var q := w / n;
    assert w == q * n;
    if q <= 0 { MulMono(q, 0, n); }
    assert q * (n - 1) == q * n - q;
    MulMono(1, n, q);
    assert n * (k * q) == k * (q * n) by { Assoc(n, k, q); }
    DivExact(k, w);
    assert k * w == k * (q + (w - q));
    assert (k * q) * n == k * (q * n) by { Assoc(n, k, q); }
    MulMono(0, w - q, k);
    MulMono(0, q, k);
  }

  /** Tokens of folded windows sit below the first position of the next window's fold. */
  lemma DivBelow(i: nat, n: int, x: nat)
    requires n > 0
    ensures i < x * n <==> i / n < x
    ensures 0 <= i / n <= i
  {
    var d := i / n;
    assert i == d * n + i % n;
    if d < x { MulMono(d + 1, x, n); } else { MulMono(x, d, n); }
    MulMono(1, n, d);
  }

  // ------------------------------------------------------------ one fold

  lemma CellStages(mem: Memory, n: int, w: int, q: int, kw: int, kq: int, kb: int, i: nat)
    requires n > 0 && i < |mem| && 0 < q <= w && 0 <= kq && 0 <= kb && kw == kq + kb && kw + w <= |mem|
    requires i < kw <==> i / n < kq
    requires i < kw + w <==> i / n < kq + q
    requires 0 <= i / n <= i
    requires mem[i].pos == if i < kw then i / n else i - kb
    ensures SeqAdd(SeqDiv(SeqAdd(mem, kq, |mem| - kb, kb), kw, kw + w, n), kw + w, |mem|, q - kb - w)[i]
         == Cell(if i < kw + w then i / n else i - kb - (w - q), mem[i].tok)
  {
    var a := SeqAdd(mem, kq, |mem| - kb, kb);
    var b := SeqDiv(a, kw, kw + w, n);
    assert a[i].pos == if i < kw then i / n else i;
    assert b[i].pos == if i < kw + w then i / n else i;
  }

  /** Where the windows end, in divided positions. */
  lemma WindowBounds(n: int, w: int, k: nat, i: nat)
    requires n > 0 && w > 0 && w % n == 0
    ensures var q := w / n;
      && (i < k * w <==> i / n < k * q) && (i < k * w + w <==> i / n < k * q + q) && 0 <= i / n <= i
  {
    WindowArithmetic(n, w, k);
    var q := w / n;
    DivBelow(i, n, k * q);
    DivBelow(i, n, k * q + q);
    assert (k * q + q) * n == k * w + w;
  }

  /** The loop body in terms of the windows folded so far. */
  lemma FoldIs(mem: Memory, n: int, w: int, k: nat)
    requires n > 0 && w > 0 && w % n == 0
    ensures var q := w / n;
      var kw, kq, kb := k * w, k * q, k * (w - q);
      Fold(mem, n, w, kq, |mem| - kb)
      == SeqAdd(SeqDiv(SeqAdd(mem, kq, |mem| - kb, kb), kw, kw + w, n), kw + w, |mem|, q - kb - w)
  {
    hide SeqAdd, SeqDiv;
    WindowArithmetic(n, w, k);
    var q := w / n;
    var kq, kb := k * q, k * (w - q);
    assert (n * kq) / w == k && k * (q * (n - 1)) == kb;
  }

  /** The three position updates of the loop body, on one cell. */
  lemma FoldStages(mem: Memory, n: int, w: int, k: nat, i: nat)
    requires n > 0 && w > 0 && w % n == 0
    requires (k + 1) * w <= |mem| && i < |mem|
    requires mem[i].pos == if i < k * w then i / n else i - k * (w - w / n)
    ensures var q := w / n;
      Fold(mem, n, w, k * q, |mem| - k * (w - q))[i]
      == Cell(if i < k * w + w then i / n else i - k * (w - q) - (w - q), mem[i].tok)
  {
    hide SeqAdd, SeqDiv;
    WindowArithmetic(n, w, k);
    var q := w / n;
    var kw, kq, kb := k * w, k * q, k * (w - q);
    WindowBounds(n, w, k, i);
    FoldIs(mem, n, w, k);
    CellStages(mem, n, w, q, kw, kq, kb, i);
  }

  lemma FoldCell(mem: Memory, n: int, w: int, k: nat, i: nat)
    requires n > 0 && w > 0 && w % n == 0
    requires Folded(mem, n, w, k) && (k + 1) * w <= |mem| && i < |mem|
    ensures Fold(mem, n, w, k * (w / n), |mem| - k * (w - w / n))[i] == Cell(PosAt(n, w, k + 1, i), mem[i].tok)
  {
    hide Fold;
    WindowArithmetic(n, w, k);
    FoldStages(mem, n, w, k, i);
  }

  /** Folding one more window takes every token from its k-fold position to its (k+1)-fold position. */
  lemma FoldOnce(mem: Memory, n: int, w: int, k: nat)
    requires n > 0 && w > 0 && w % n == 0
    requires Folded(mem, n, w, k) && (k + 1) * w <= |mem|
    ensures var q := w / n;
      var r := Fold(mem, n, w, k * q, |mem| - k * (w - q));
      Folded(r, n, w, k + 1) && Toks(r) == Toks(mem)
  {
    hide Fold, PosAt;
    var q := w / n;
    var r := Fold(mem, n, w, k * q, |mem| - k * (w - q));
    forall i | 0 <= i < |mem|
      ensures r[i] == Cell(PosAt(n, w, k + 1, i), mem[i].tok)
    {
      FoldCell(mem, n, w, k, i);
    }
  }

  /** In a memory with growing positions the last cell is the highest. */
  lemma {:induction false} NextPosGrowing(mem: Memory)
    requires mem != [] && mem[0].pos >= 0
    requires forall i :: 0 <= i < |mem| - 1 ==> mem[i].pos <= mem[i + 1].pos
    ensures NextPos(mem) == mem[|mem| - 1].pos + 1
    decreases |mem|
  {
    var init := mem[..|mem| - 1];
    if init == [] {
      assert NextPos(init) == 0;
    } else {
      NextPosGrowing(init);
      assert mem[|mem| - 2].pos <= mem[|mem| - 2 + 1].pos;
    }
  }

  /** One past the position of the last token is where n_past points. */
  lemma AfterLast(n: int, w: int, k: nat, t: nat)
    requires n > 0 && w > 0 && w % n == 0 && k * w <= t && t > 0
    ensures PosAt(n, w, k, t - 1) + 1 == t - k * (w - w / n)
  {
    WindowArithmetic(n, w, k);
    var q := w / n;
    if t == k * w {
      DivBelow(t - 1, n, k * q);
      if k * q > 0 {
        assert (k * q - 1) * n == k * w - n;
        DivBelow(t - 1, n, k * q - 1);
      }
    }
  }

  lemma PosGrows(n: int, w: int, k: nat, i: nat)
    requires n > 0 && w > 0 && w % n == 0
    ensures PosAt(n, w, k, i) <= PosAt(n, w, k, i + 1)
  {
    WindowArithmetic(n, w, k);
    DivBelow(i, n, k * (w / n));
    DivBelow(i + 1, n, k * (w / n));
    DivBelow(i + 1, n, i / n);
  }

  /** The next free position of a folded memory is n_past. */
  lemma NextPosFolded(mem: Memory, n: int, w: int, k: nat)
    requires n > 0 && w > 0 && w % n == 0 && Folded(mem, n, w, k) && k * w <= |mem|
    ensures NextPos(mem) == |mem| - k * (w - w / n)
  {
    WindowArithmetic(n, w, k);
    if mem != [] {
      forall i | 0 <= i < |mem| - 1 ensures mem[i].pos <= mem[i + 1].pos {
        PosGrows(n, w, k, i);
      }
      DivBelow(0, n, 0);
      NextPosGrowing(mem);
      AfterLast(n, w, k, |mem|);
    } else {
      MulMono(1, w, k);
    }
  }

  lemma WindowCount(t: nat, w: int, k: nat)
    requires w > 0 && k * w <= t < k * w + w
    ensures k == t / w
  {
    var d := t / w;
    assert t == d * w + t % w;
    OneMoreTimes(k, w);
    if d < k { MulMono(d + 1, k, w); }
    if d > k { MulMono(k + 1, d, w); }
  }

  // ------------------------------------------------------------ the loop

  class GroupAttention {
    const n: int   // ga_n
    const w: int   // ga_w

    var mem: Memory
    var nPast: int
    var gaI: int   // ga_i

    ghost var k: nat   // windows folded so far

    /** k windows are folded, and n_past and ga_i say so. */
    ghost predicate Valid()
      reads this
    {
      && n > 0 && w > 0 && w % n == 0
      && k * w <= |mem|
      && Folded(mem, n, w, k)
      && gaI == k * (w / n)
      && nPast == |mem| - k * (w - w / n)
    }

    constructor (n: int, w: int)
      requires n > 0 && w > 0 && w % n == 0
      ensures Valid() && this.n == n && this.w == w && mem == [] && k == 0
    {
      this.n, this.w := n, w;
      mem, nPast, gaI, k := [], 0, 0, 0;
    }

    /** The loop body: fold one more window. */
    method FoldWindow()
      requires Valid() && nPast >= gaI + w
      modifies this
      ensures Valid() && k == old(k) + 1 && Toks(mem) == old(Toks(mem))
      ensures nPast - gaI == old(nPast - gaI) - w
    {
      hide Folded, PosAt, SeqAdd, SeqDiv, Toks;
      WindowArithmetic(n, w, k);
      FoldOnce(mem, n, w, k);
      ghost var folded := Fold(mem, n, w, gaI, nPast);
      var ib := (n * gaI) / w;
      var bd := (w / n) * (n - 1);
      var dd := (w / n) - ib * bd - w;
      mem := SeqAdd(mem, gaI, nPast, ib * bd);
      mem := SeqDiv(mem, gaI + ib * bd, gaI + ib * bd + w, n);
      mem := SeqAdd(mem, gaI + ib * bd + w, nPast + ib * bd, dd);
      assert mem == folded;
      nPast := nPast - bd;
      gaI := gaI + w / n;
      k := k + 1;
    }

    /** The loop before a decode: every complete window is folded, and none other. */
    method Extend()
      requires Valid()
      modifies this
      ensures Valid() && k == |mem| / w
      ensures Toks(mem) == old(Toks(mem)) && k >= old(k)
      ensures nPast < gaI + w
      ensures nPast - gaI == old(nPast - gaI) - (k - old(k)) * w
    {
      while nPast >= gaI + w
        invariant Valid() && k >= old(k) && Toks(mem) == old(Toks(mem))
        invariant nPast - gaI == old(nPast - gaI) - (k - old(k)) * w
        decreases nPast - gaI
      {
        ghost var before := k;
        FoldWindow();
        OneMoreTimes(before - old(k), w);
      }
      WindowArithmetic(n, w, k);
      WindowCount(|mem|, w, k);
    }

    /** llama_decode on the next tokens: they land at n_past, n_past + 1, ... */
    method Decode(ts: seq<Token>)
      requires Valid()
      modifies this`mem, this`nPast
      ensures Valid()
      ensures mem == old(mem) + CellsFrom(old(nPast), ts)
    {
      WindowArithmetic(n, w, k);
      NextPosFolded(mem, n, w, k);
      mem := KvMemory.Decode(mem, ts);
      nPast := nPast + |ts|;
    }

    /** One pass of the main loop with group attention. */
    method Pass(ts: seq<Token>)
      requires Valid()
      modifies this
      ensures Valid() && k == |old(mem)| / w
      ensures Toks(mem) == old(Toks(mem)) + ts
      ensures forall i :: 0 <= i < |mem| ==> mem[i].pos == PosAt(n, w, |old(mem)| / w, i)
    {
      Extend();
      Decode(ts);
    }
  }
}
