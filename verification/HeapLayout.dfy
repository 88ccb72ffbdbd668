/**
 The kernel heap as a value: the blocks in address order, and the free blocks
 in the order of the linked free list.  The operations are the allocator's
 policy (first fit, splitting, growth, forward coalescing, shrinking) without
 pointers; `KernHeap` proves that the pointer code computes exactly these.
 */
module HeapLayout {
  const HEAP_BEGIN: nat := 0xffff_c000_0000_0000
  const PAGE_SIZE: nat := 4096
  const HDR: nat := 32
  // Every physical frame the frame allocator can ever hand out (32 GiB).
  const MAX_FRAMES: nat := 0x80_0000
  const TWO64: nat := 0x1_0000_0000_0000_0000

  datatype Block = Block(addr: nat, len: nat, free: bool) {
    function End(): nat { addr + HDR + len }
  }

  datatype Layout = Layout(blocks: seq<Block>, frees: seq<Block>) {
    function End(): nat
    {
      if blocks == [] then HEAP_BEGIN else blocks[|blocks| - 1].End()
    }
  }

  // ----- well-formed layouts

  /** Consecutive blocks touch, and so block i ends before any later block. */
  ghost predicate Chained(bs: seq<Block>) {
    forall i, j :: 0 <= i < j < |bs| ==>
      bs[i].End() <= bs[j].addr && (j == i + 1 ==> bs[i].End() == bs[j].addr)
  }

  ghost predicate Aligned(bs: seq<Block>) {
    forall i :: 0 <= i < |bs| ==> bs[i].addr % 16 == 0 && bs[i].len % 16 == 0
  }

  ghost predicate Distinct<T>(s: seq<T>) {
    forall i, j :: 0 <= i < j < |s| ==> s[i] != s[j]
  }

  /** The free list holds exactly the blocks marked free. */
  ghost predicate ListsFrees(bs: seq<Block>, fl: seq<Block>) {
    && (forall b :: b in fl ==> b.free && b in bs)
    && (forall b :: b in bs && b.free ==> b in fl)
  }

  /** The blocks tile [HEAP_BEGIN, End()) and the non-empty free list agrees with them. */
  ghost predicate WF(l: Layout) {
    && l.blocks != [] && l.blocks[0].addr == HEAP_BEGIN
    && Chained(l.blocks) && Aligned(l.blocks)
    && l.End() % PAGE_SIZE == 0
    && l.frees != [] && Distinct(l.frees)
    && ListsFrees(l.blocks, l.frees)
  }


  /** The blocks handed out and not yet released. */
  ghost function Taken(bs: seq<Block>): set<Block> {
    set b | b in bs && !b.free
  }

  /** Bytes in taken payloads. */
  function Used(bs: seq<Block>): nat {
    if bs == [] then 0
    else Used(bs[..|bs| - 1]) + if bs[|bs| - 1].free then 0 else bs[|bs| - 1].len
  }

  /** Bytes in headers and payloads together. */
  function Extent(bs: seq<Block>): nat {
    if bs == [] then 0 else Extent(bs[..|bs| - 1]) + HDR + bs[|bs| - 1].len
  }

  lemma {:induction false} UsedConcat(a: seq<Block>, b: seq<Block>)
    ensures Used(a + b) == Used(a) + Used(b)
  {
    if b == [] {
      assert a + b == a;
    } else {
      assert (a + b)[..|a + b| - 1] == a + b[..|b| - 1];
      UsedConcat(a, b[..|b| - 1]);
    }
  }

  lemma {:induction false} ExtentIsSpan(bs: seq<Block>)
    requires bs != [] && Chained(bs)
    ensures Extent(bs) == bs[|bs| - 1].End() - bs[0].addr
  {
    if |bs| > 1 {
      ExtentIsSpan(bs[..|bs| - 1]);
    }
  }

  /** The tiling in full: the blocks' extents sum to the heap's extent. */
  lemma TilesHeap(l: Layout)
    requires WF(l)
    ensures Extent(l.blocks) == l.End() - HEAP_BEGIN
  {
    ExtentIsSpan(l.blocks);
  }

  // ----- sequence helpers

  function IndexOf<T(==)>(s: seq<T>, x: T): (k: nat)
    requires x in s
    ensures k < |s| && s[k] == x
  {
    if s[0] == x then 0 else 1 + IndexOf(s[1..], x)
  }

  /** `s` with the `c` elements from index `k` on replaced by `mid`. */
  function Splice<T>(s: seq<T>, k: nat, c: nat, mid: seq<T>): seq<T>
    requires k + c <= |s|
  {
    s[..k] + mid + s[k + c..]
  }

  function Remove<T(==)>(s: seq<T>, x: T): seq<T>
    requires x in s
  {
    Splice(s, IndexOf(s, x), 1, [])
  }

  lemma SpliceMembers<T(!new)>(s: seq<T>, k: nat, c: nat, mid: seq<T>)
    requires k + c <= |s| && Distinct(s)
    ensures forall x :: x in Splice(s, k, c, mid) <==> x in mid || (x in s && x !in s[k..k + c])
  {
    forall x ensures x in Splice(s, k, c, mid) <==> x in mid || (x in s && x !in s[k..k + c]) {
      assert s == s[..k] + s[k..k + c] + s[k + c..];
    }
  }

  lemma SpliceDistinct<T>(s: seq<T>, k: nat, c: nat, mid: seq<T>)
    requires k + c <= |s| && Distinct(s) && Distinct(mid)
    requires forall x :: x in mid ==> x !in s
    ensures Distinct(Splice(s, k, c, mid))
  {
    var t := Splice(s, k, c, mid);
    forall i, j | 0 <= i < j < |t| ensures t[i] != t[j] {
      if k <= i < k + |mid| {
        assert t[i] in mid;
      }
      if k <= j < k + |mid| {
        assert t[j] in mid;
      }
    }
  }

  lemma SpliceUsed(s: seq<Block>, k: nat, c: nat, mid: seq<Block>)
    requires k + c <= |s|
    ensures Used(Splice(s, k, c, mid)) == Used(s) - Used(s[k..k + c]) + Used(mid)
  {
    UsedConcat(s[..k] + mid, s[k + c..]);
    UsedConcat(s[..k], mid);
    UsedConcat(s[..k] + s[k..k + c], s[k + c..]);
    UsedConcat(s[..k], s[k..k + c]);
    assert s == s[..k] + s[k..k + c] + s[k + c..];
  }

  lemma Single(b: Block)
    requires b.addr % 16 == 0 && b.len % 16 == 0
    ensures Chained([b]) && Aligned([b])
    ensures Used([b]) == if b.free then 0 else b.len
    ensures Taken([b]) == if b.free then {} else {b}
  {
    assert [b][..0] == [];
  }

  lemma Pair(b: Block, c: Block)
    requires b.addr % 16 == 0 && b.len % 16 == 0 && c.len % 16 == 0 && b.End() == c.addr
    ensures Chained([b, c]) && Aligned([b, c])
    ensures Used([b, c]) == Used([b]) + Used([c])
    ensures Taken([b, c]) == Taken([b]) + Taken([c])
    ensures forall x :: x in [b, c] <==> x == b || x == c
  {
    assert [b, c] == [b] + [c];
    UsedConcat([b], [c]);
  }

  lemma ChainedDistinct(bs: seq<Block>)
    requires Chained(bs)
    ensures Distinct(bs)
  {
  }

  /** Replacing blocks by others over the same bytes keeps the chain. */
  lemma SpliceChained(s: seq<Block>, k: nat, c: nat, mid: seq<Block>)
    requires Chained(s) && Chained(mid) && 0 < c && k + c <= |s| && mid != []
    requires mid[0].addr == s[k].addr && mid[|mid| - 1].End() == s[k + c - 1].End()
    ensures Chained(Splice(s, k, c, mid))
  {
    var t := Splice(s, k, c, mid);
    forall i, j | 0 <= i < j < |t|
      ensures t[i].End() <= t[j].addr && (j == i + 1 ==> t[i].End() == t[j].addr)
    {
      assert forall m :: 0 <= m < |mid| ==> mid[0].addr <= mid[m].addr && mid[m].End() <= mid[|mid| - 1].End();
    }
  }

  /** Membership after a splice of `gone` by `mid`, without the positions. */
  ghost predicate Swapped(bs: seq<Block>, gone: seq<Block>, mid: seq<Block>, bs': seq<Block>) {
    forall x :: x in bs' <==> x in mid || (x in bs && x !in gone)
  }

  lemma SwappedSplice(s: seq<Block>, k: nat, c: nat, mid: seq<Block>)
    requires k + c <= |s| && Distinct(s)
    ensures Swapped(s, s[k..k + c], mid, Splice(s, k, c, mid))
  {
    SpliceMembers(s, k, c, mid);
  }

  lemma SwappedFrees(bs: seq<Block>, gone: seq<Block>, mid: seq<Block>, bs': seq<Block>, fl: seq<Block>,
      fl': seq<Block>)
    requires Swapped(bs, gone, mid, bs') && ListsFrees(bs, fl)
    requires forall x :: x in fl' <==> (x in mid && x.free) || (x in fl && x !in gone)
    ensures ListsFrees(bs', fl')
  {
  }

  lemma SwappedTaken(bs: seq<Block>, gone: seq<Block>, mid: seq<Block>, bs': seq<Block>)
    requires Swapped(bs, gone, mid, bs')
    requires forall x :: x in gone ==> x.free
    ensures Taken(bs') == Taken(bs) + Taken(mid)
  {
  }

  /** The bytes covered do not change when blocks are replaced by others over the same bytes. */
  lemma SpliceSpan(s: seq<Block>, k: nat, c: nat, mid: seq<Block>)
    requires Chained(s) && Chained(mid) && 0 < c && k + c <= |s| && mid != []
    requires Aligned(s) && Aligned(mid)
    requires mid[0].addr == s[k].addr && mid[|mid| - 1].End() == s[k + c - 1].End()
    ensures var t := Splice(s, k, c, mid);
      && t != [] && t[0].addr == s[0].addr && t[|t| - 1].End() == s[|s| - 1].End()
      && Chained(t) && Aligned(t)
  {
    SpliceChained(s, k, c, mid);
  }

  /** A block-level splice over the same bytes, with the free list adjusted to match. */
  lemma SpliceKeeps(l: Layout, k: nat, c: nat, gone: seq<Block>, mid: seq<Block>, l': Layout)
    requires WF(l) && 0 < c && k + c <= |l.blocks| && gone == l.blocks[k..k + c]
    requires mid != [] && Chained(mid) && Aligned(mid)
    requires mid[0].addr == l.blocks[k].addr && mid[|mid| - 1].End() == l.blocks[k + c - 1].End()
    requires forall x :: x in gone ==> x.free
    requires l'.frees != [] && Distinct(l'.frees) && l'.blocks == Splice(l.blocks, k, c, mid)
    requires forall x :: x in l'.frees <==> (x in mid && x.free) || (x in l.frees && x !in gone)
    ensures WF(l') && l'.End() == l.End()
    ensures Used(l'.blocks) == Used(l.blocks) - Used(gone) + Used(mid)
    ensures Taken(l'.blocks) == Taken(l.blocks) + Taken(mid)
  {
    hide Chained, Aligned, Distinct, ListsFrees, Used, Taken, Swapped, Splice;
    ChainedDistinct(l.blocks);
    SwappedSplice(l.blocks, k, c, mid);
    SpliceSpan(l.blocks, k, c, mid);
    SpliceUsed(l.blocks, k, c, mid);
    SwappedFrees(l.blocks, gone, mid, l'.blocks, l.frees, l'.frees);
    SwappedTaken(l.blocks, gone, mid, l'.blocks);
  }

  // ----- allocation

  function Round16(n: nat): nat { (n + 15) / 16 * 16 }

  /** What the first-fit loop accepts: an exact length, or room for a header besides. */
  predicate Fits(b: Block, n: nat) { b.len == n || b.len > n + HDR }

  function FirstFit(fl: seq<Block>, n: nat): (j: nat)
    ensures j <= |fl|
    ensures forall i :: 0 <= i < j ==> !Fits(fl[i], n)
    ensures j < |fl| ==> Fits(fl[j], n)
  {
    if fl == [] || Fits(fl[0], n) then 0
    else
      var j := FirstFit(fl[1..], n);
      assert forall i :: 0 < i < |fl| ==> fl[i] == fl[1..][i - 1];
      1 + j
  }

  /** Pages asked for when nothing fits: the payload and two headers, rounded up. */
  function PagesNeeded(n: nat): nat { (n + 2 * HDR + PAGE_SIZE - 1) / PAGE_SIZE }

  /** A growth whose pages leave no room for the split-off block. */
  predicate Snug(n: nat) { (n + 2 * HDR) % PAGE_SIZE == 0 }

  /** Exactly when `kmalloc` of `n` bytes (rounded) halts, given the frames left. */
  predicate AllocHalts(l: Layout, n: nat, frames: nat) {
    var j := FirstFit(l.frees, n);
    if j == |l.frees| then frames < PagesNeeded(n) || Snug(n)
    else l.frees[j].len == n && |l.frees| == 1 && frames == 0
  }

  function FreshPage(l: Layout): Block { Block(l.End(), PAGE_SIZE - HDR, true) }

  function TakeExact(l: Layout, j: nat): Layout
    requires j < |l.frees| && l.frees[j] in l.blocks
  {
    var b := l.frees[j];
    var bs := Splice(l.blocks, IndexOf(l.blocks, b), 1, [b.(free := false)]);
    if |l.frees| == 1 then Layout(bs + [FreshPage(l)], [FreshPage(l)])
    else Layout(bs, Splice(l.frees, j, 1, []))
  }

  function Rest(b: Block, n: nat): Block
    requires b.len >= n + HDR
  {
    Block(b.addr + HDR + n, b.len - n - HDR, true)
  }

  function TakeSplit(l: Layout, j: nat, n: nat): Layout
    requires j < |l.frees| && l.frees[j] in l.blocks && l.frees[j].len > n + HDR
  {
    var b := l.frees[j];
    Layout(Splice(l.blocks, IndexOf(l.blocks, b), 1, [Block(b.addr, n, false), Rest(b, n)]),
           Splice(l.frees, j, 1, [Rest(b, n)]))
  }

  function GrownBlock(l: Layout, n: nat): Block {
    Block(l.End(), PagesNeeded(n) * PAGE_SIZE - HDR, true)
  }

  function Grow(l: Layout, n: nat): Layout {
    var b := GrownBlock(l, n);
    Layout(l.blocks + [Block(b.addr, n, false), Rest(b, n)], l.frees + [Rest(b, n)])
  }

  /** The block `kmalloc` hands out. */
  function Granted(l: Layout, n: nat): Block {
    var j := FirstFit(l.frees, n);
    Block(if j == |l.frees| then l.End() else l.frees[j].addr, n, false)
  }

  function Alloc(l: Layout, n: nat): Layout
    requires forall b :: b in l.frees ==> b in l.blocks
  {
    var j := FirstFit(l.frees, n);
    if j == |l.frees| then Grow(l, n)
    else if l.frees[j].len == n then TakeExact(l, j)
    else TakeSplit(l, j, n)
  }

  /** A block inside the bytes of block k, but different from it, is no block of the layout. */
  lemma Fresh(l: Layout, k: nat, b: Block)
    requires WF(l) && k < |l.blocks| && l.blocks[k].addr <= b.addr < l.blocks[k].End()
    requires b != l.blocks[k]
    ensures b !in l.blocks
  {
    forall i | 0 <= i < |l.blocks| ensures l.blocks[i] != b {
      if i < k {
        assert l.blocks[i].addr < l.blocks[i].End() <= l.blocks[k].addr;
      }
    }
  }

  lemma AppendChained(s: seq<Block>, more: seq<Block>)
    requires s != [] && Chained(s) && Chained(more) && more != []
    requires more[0].addr == s[|s| - 1].End()
    ensures Chained(s + more)
  {
    var t := s + more;
    forall i, j | 0 <= i < j < |t|
      ensures t[i].End() <= t[j].addr && (j == i + 1 ==> t[i].End() == t[j].addr)
    {
      assert i < |s| ==> t[i].End() <= s[|s| - 1].End();
      assert j >= |s| ==> more[0].addr <= t[j].addr;
    }
  }

  lemma AppendFrees(bs: seq<Block>, more: seq<Block>, fl: seq<Block>)
    requires forall x :: x in fl <==> x.free && (x in more || x in bs)
    ensures ListsFrees(bs + more, fl)
    ensures Taken(bs + more) == Taken(bs) + Taken(more)
  {
    assert forall x :: x in bs + more <==> x in bs || x in more;
  }

  /** Appending blocks from the heap's end on. */
  lemma AppendKeeps(bs: seq<Block>, more: seq<Block>, l': Layout)
    requires bs != [] && bs[0].addr == HEAP_BEGIN && Chained(bs) && Aligned(bs)
    requires more != [] && Chained(more) && Aligned(more) && more[0].addr == bs[|bs| - 1].End()
    requires more[|more| - 1].End() % PAGE_SIZE == 0
    requires l'.blocks == bs + more && l'.frees != [] && Distinct(l'.frees)
    requires forall x :: x in l'.frees <==> x.free && (x in more || x in bs)
    ensures WF(l') && l'.End() == more[|more| - 1].End()
    ensures Used(l'.blocks) == Used(bs) + Used(more)
    ensures Taken(l'.blocks) == Taken(bs) + Taken(more)
  {
    hide Chained, Distinct, ListsFrees, Used, Taken;
    UsedConcat(bs, more);
    AppendChained(bs, more);
    AppendFrees(bs, more, l'.frees);
  }

  /** One free block of the layout at its position, ready to be replaced. */
  lemma FreeAt(l: Layout, j: nat, k: nat)
    requires WF(l) && j < |l.frees| && l.frees[j] in l.blocks && k == IndexOf(l.blocks, l.frees[j])
    ensures var b := l.frees[j];
      && b.free && b.addr % 16 == 0 && b.len % 16 == 0
      && k < |l.blocks| && l.blocks[k] == b && l.blocks[k..k + 1] == [b]
  {
  }

  lemma {:induction false} IndexOfAppend<T>(s: seq<T>, t: seq<T>, x: T)
    requires x in s
    ensures x in s + t && IndexOf(s + t, x) == IndexOf(s, x)
  {
    assert (s + t)[0] == s[0];
    if s[0] != x {
      assert (s + t)[1..] == s[1..] + t;
      IndexOfAppend(s[1..], t, x);
    }
  }

  function AppendPage(l: Layout): Layout {
    Layout(l.blocks + [FreshPage(l)], l.frees + [FreshPage(l)])
  }

  lemma AppendPageKeeps(l: Layout)
    requires WF(l)
    ensures var l1 := AppendPage(l);
      && WF(l1) && l1.End() == l.End() + PAGE_SIZE
      && Taken(l1.blocks) == Taken(l.blocks) && Used(l1.blocks) == Used(l.blocks)
  {
    var page := FreshPage(l);
    GrowArithmetic(l.End(), 0);
    Single(page);
    GrowFrees(l, page, page);
    AppendKeeps(l.blocks, [page], AppendPage(l));
  }

  /** Taking the only free block is appending a page first and taking the block then. */
  lemma TakeLastAppended(l: Layout)
    requires |l.frees| == 1 && l.frees[0] in l.blocks
    ensures var l1 := AppendPage(l);
      && |l1.frees| == 2 && l1.frees[0] == l.frees[0] && l.frees[0] in l1.blocks
      && TakeExact(l1, 0) == TakeExact(l, 0)
  {
    var b, page := l.frees[0], FreshPage(l);
    IndexOfAppend(l.blocks, [page], b);
    var k := IndexOf(l.blocks, b);
    assert Splice(l.blocks + [page], k, 1, [b.(free := false)]) == Splice(l.blocks, k, 1, [b.(free := false)]) + [page];
    assert Splice(l.frees + [page], 0, 1, []) == [page];
  }

  lemma TakeLastKeeps(l: Layout)
    requires WF(l) && |l.frees| == 1
    ensures var l' := TakeExact(l, 0); var g := l.frees[0].(free := false);
      && WF(l') && l'.End() == l.End() + PAGE_SIZE
      && Taken(l'.blocks) == Taken(l.blocks) + {g}
      && Used(l'.blocks) == Used(l.blocks) + g.len
  {
    AppendPageKeeps(l);
    TakeLastAppended(l);
    TakeExactKeeps(AppendPage(l), 0);
  }

  lemma TakeExactKeeps(l: Layout, j: nat)
    requires WF(l) && j < |l.frees| && |l.frees| > 1
    ensures var l' := TakeExact(l, j); var g := l.frees[j].(free := false);
      && WF(l') && l'.End() == l.End()
      && Taken(l'.blocks) == Taken(l.blocks) + {g}
      && Used(l'.blocks) == Used(l.blocks) + g.len
  {
    var b := l.frees[j];
    var k := IndexOf(l.blocks, b);
    var g := b.(free := false);
    FreeAt(l, j, k);
    Single(b);
    Single(g);
    ReplaceFree(l.frees, j, []);
    SpliceKeeps(l, k, 1, [b], [g], TakeExact(l, j));
  }

  /** The free list with its element j replaced by at most new blocks. */
  lemma ReplaceFree(fl: seq<Block>, j: nat, mid: seq<Block>)
    requires j < |fl| && Distinct(fl) && Distinct(mid)
    requires forall x :: x in mid ==> x !in fl
    ensures var fl' := Splice(fl, j, 1, mid);
      Distinct(fl') && forall x :: x in fl' <==> x in mid || (x in fl && x !in [fl[j]])
  {
    assert fl[j..j + 1] == [fl[j]];
    SpliceMembers(fl, j, 1, mid);
    SpliceDistinct(fl, j, 1, mid);
  }

  lemma TakeSplitKeeps(l: Layout, j: nat, n: nat)
    requires WF(l) && j < |l.frees| && l.frees[j].len > n + HDR && n % 16 == 0
    ensures var l' := TakeSplit(l, j, n); var g := Block(l.frees[j].addr, n, false);
      && WF(l') && l'.End() == l.End()
      && Taken(l'.blocks) == Taken(l.blocks) + {g}
      && Used(l'.blocks) == Used(l.blocks) + n
  {
    hide Chained, Used, Taken;
    var b := l.frees[j];
    var k := IndexOf(l.blocks, b);
    var g, r := Block(b.addr, n, false), Rest(b, n);
    FreeAt(l, j, k);
    Fresh(l, k, r);
    Single(b);
    Single(g);
    Single(r);
    Pair(g, r);
    ReplaceFree(l.frees, j, [r]);
    SpliceKeeps(l, k, 1, [b], [g, r], TakeSplit(l, j, n));
  }

  /** The arithmetic of growth: whole pages, room for both headers, 16-byte alignment. */
  lemma GrowArithmetic(e: nat, n: nat)
    requires e % PAGE_SIZE == 0
    ensures PagesNeeded(n) > 0 && PagesNeeded(n) * PAGE_SIZE >= n + 2 * HDR
    ensures PagesNeeded(n) * PAGE_SIZE == n + 2 * HDR <==> Snug(n)
    ensures e % 16 == 0 && (e + PagesNeeded(n) * PAGE_SIZE) % PAGE_SIZE == 0
    ensures n % 16 == 0 ==> (PagesNeeded(n) * PAGE_SIZE - n - 2 * HDR) % 16 == 0
  {
    var p := PagesNeeded(n);
    PageBounds(n);
    PageMultiple(e / PAGE_SIZE, p);
    if n % 16 == 0 {
      var k := n / 16;
      assert p * PAGE_SIZE - n - 2 * HDR == 16 * (256 * p - k - 4);
      Times16(256 * p - k - 4);
    }
  }

  lemma PageBounds(n: nat)
    ensures PagesNeeded(n) > 0 && n + 2 * HDR <= PagesNeeded(n) * PAGE_SIZE < n + 2 * HDR + PAGE_SIZE
    ensures PagesNeeded(n) * PAGE_SIZE == n + 2 * HDR <==> Snug(n)
  {
  }

  lemma PageMultiple(a: nat, b: nat)
    ensures (a * PAGE_SIZE) % 16 == 0 && (a * PAGE_SIZE + b * PAGE_SIZE) % PAGE_SIZE == 0
  {
    Times16(256 * a);
  }

  lemma Times16(k: int)
    ensures (16 * k) % 16 == 0
  {
  }

  lemma GrowKeeps(l: Layout, n: nat)
    requires WF(l) && n % 16 == 0 && !Snug(n)
    ensures var l' := Grow(l, n); var g := Block(l.End(), n, false);
      && WF(l') && l'.End() == l.End() + PagesNeeded(n) * PAGE_SIZE
      && Taken(l'.blocks) == Taken(l.blocks) + {g}
      && Used(l'.blocks) == Used(l.blocks) + n
  {
    hide PagesNeeded, Snug, Distinct, Used, Taken;
    var b := GrownBlock(l, n);
    GrowArithmetic(l.End(), n);
    var g, r := Block(b.addr, n, false), Rest(b, n);
    Single(g);
    Single(r);
    Pair(g, r);
    GrowFrees(l, g, r);
    AppendKeeps(l.blocks, [g, r], Grow(l, n));
  }

  lemma GrowFrees(l: Layout, g: Block, r: Block)
    requires WF(l) && (!g.free || g == r) && r.free && l.End() <= r.addr
    ensures Distinct(l.frees + [r])
    ensures forall x :: x in l.frees + [r] <==> x.free && (x in [g, r] || x in l.blocks)
  {
    assert r !in l.frees by {
      assert forall i :: 0 <= i < |l.blocks| ==> l.blocks[i].addr < l.End();
    }
  }

  /** Allocation keeps the layout well formed and adds exactly one live block. */
  lemma AllocKeeps(l: Layout, n: nat, frames: nat)
    requires WF(l) && n % 16 == 0 && !AllocHalts(l, n, frames)
    ensures var l' := Alloc(l, n);
      && WF(l') && l.End() <= l'.End() <= l.End() + frames * PAGE_SIZE
      && Taken(l'.blocks) == Taken(l.blocks) + {Granted(l, n)}
      && Used(l'.blocks) == Used(l.blocks) + n
  {
    var j := FirstFit(l.frees, n);
    if j == |l.frees| {
      GrowKeeps(l, n);
    } else if l.frees[j].len == n {
      if |l.frees| == 1 {
        TakeLastKeeps(l);
      } else {
        TakeExactKeeps(l, j);
      }
    } else {
      TakeSplitKeeps(l, j, n);
    }
  }

  /** Two live blocks never share a byte, headers included. */
  lemma TakenDisjoint(l: Layout, a: Block, b: Block)
    requires WF(l) && a in Taken(l.blocks) && b in Taken(l.blocks) && a != b
    ensures a.End() <= b.addr || b.End() <= a.addr
    ensures HEAP_BEGIN <= a.addr && a.End() <= l.End()
  {
    var i, j := IndexOf(l.blocks, a), IndexOf(l.blocks, b);
    assert i < j || j < i;
  }

  // ----- release

  /** Block k becomes the free list's new head. */
  function Push(l: Layout, k: nat): Layout
    requires k < |l.blocks|
  {
    var b := l.blocks[k].(free := true);
    Layout(l.blocks[k := b], [b] + l.frees)
  }

  predicate CanMerge(l: Layout, k: nat) {
    k + 1 < |l.blocks| && l.blocks[k + 1].free
  }

  /** Block k, at the head of the free list, absorbs the free block behind it. */
  function MergeStep(l: Layout, k: nat): Layout
    requires CanMerge(l, k) && l.frees != [] && l.blocks[k + 1] in l.frees[1..]
  {
    var m := Block(l.blocks[k].addr, l.blocks[k].len + HDR + l.blocks[k + 1].len, true);
    Layout(Splice(l.blocks, k, 2, [m]),
           [m] + Remove(l.frees[1..], l.blocks[k + 1]))
  }

  /** While merging: the block being grown heads the free list. */
  ghost predicate Merging(l: Layout, k: nat) {
    && WF(l) && k < |l.blocks| && l.frees[0] == l.blocks[k] && l.blocks[k].free
  }

  lemma MergeStepDefined(l: Layout, k: nat)
    requires Merging(l, k) && CanMerge(l, k)
    ensures l.blocks[k + 1] in l.frees[1..]
  {
    var b := l.blocks[k + 1];
    assert b in l.frees;
    var i :| 0 <= i < |l.frees| && l.frees[i] == b;
    assert l.frees[1..][i - 1] == b;
  }

  lemma MergeStepKeeps(l: Layout, k: nat)
    requires Merging(l, k) && CanMerge(l, k)
    ensures l.blocks[k + 1] in l.frees[1..]
    ensures var l' := MergeStep(l, k);
      && Merging(l', k) && |l'.frees| == |l.frees| - 1 && |l'.blocks| == |l.blocks| - 1
      && Taken(l'.blocks) == Taken(l.blocks) && Used(l'.blocks) == Used(l.blocks) && l'.End() == l.End()
  {
    hide Distinct, ListsFrees, Taken, Used, Chained, Aligned, Remove;
    MergeStepDefined(l, k);
    var l' := MergeStep(l, k);
    var a, b, m := l.blocks[k], l.blocks[k + 1], l'.blocks[k];
    Fresh(l, k, m);
    NotListed(l, m);
    TwoFree(l, k);
    Single(a);
    Single(b);
    Pair(a, b);
    Single(m);
    assert l.blocks[k..k + 2] == [a, b];
    MergeFrees(l.frees, a, b, m);
    SpliceKeeps(l, k, 2, [a, b], [m], l');
  }

  lemma TwoFree(l: Layout, k: nat)
    requires Merging(l, k) && CanMerge(l, k)
    ensures var a, b := l.blocks[k], l.blocks[k + 1];
      && a.End() == b.addr && a.addr % 16 == 0 && a.len % 16 == 0 && b.addr % 16 == 0 && b.len % 16 == 0
  {
  }

  lemma NotListed(l: Layout, m: Block)
    requires WF(l) && m !in l.blocks
    ensures m !in l.frees
  {
  }

  lemma MergeFrees(fl: seq<Block>, a: Block, b: Block, m: Block)
    requires fl != [] && fl[0] == a && b in fl[1..] && Distinct(fl) && m !in fl
    ensures var fl' := [m] + Remove(fl[1..], b);
      |fl'| == |fl| - 1 && Distinct(fl') && forall x :: x in fl' <==> x == m || (x in fl && x != a && x != b)
  {
    var rest := fl[1..];
    var i := IndexOf(rest, b);
    assert rest[i..i + 1] == [b] && fl == [a] + rest;
    SpliceMembers(rest, i, 1, []);
    SpliceDistinct(rest, i, 1, []);
  }

  /** The whole merge loop. */
  ghost function Coalesce(l: Layout, k: nat): Layout
    requires Merging(l, k)
    decreases |l.blocks|
  {
    if CanMerge(l, k) then MergeStepKeeps(l, k); Coalesce(MergeStep(l, k), k) else l
  }

  /** The loop writes through the null next pointer of a merged block that is last in the list. */
  ghost predicate CoalesceHalts(l: Layout, k: nat)
    requires Merging(l, k)
    decreases |l.blocks|
  {
    CanMerge(l, k) && (MergeStepKeeps(l, k); |l.frees| == 2 || CoalesceHalts(MergeStep(l, k), k))
  }

  /** Number of consecutive free blocks from index i on. */
  function RunLength(bs: seq<Block>, i: nat): (m: nat)
    requires i <= |bs|
    ensures i + m <= |bs|
    ensures forall j :: i <= j < i + m ==> bs[j].free
    ensures i + m < |bs| ==> !bs[i + m].free
    decreases |bs| - i
  {
    if i < |bs| && bs[i].free then 1 + RunLength(bs, i + 1) else 0
  }

  lemma {:induction false} RunLengthShift(s: seq<Block>, t: seq<Block>, i: nat)
    requires 0 < i <= |s| && |t| == |s| - 1 && t[i - 1..] == s[i..]
    ensures RunLength(t, i - 1) == RunLength(s, i)
    decreases |s| - i
  {
    if i < |s| {
      assert t[i - 1] == t[i - 1..][0] == s[i..][0] == s[i];
      assert t[i..] == t[i - 1..][1..] == s[i..][1..] == s[i + 1..];
      RunLengthShift(s, t, i + 1);
    }
  }

  /** Blocks k to k + m as one free block. */
  function Absorb(bs: seq<Block>, k: nat, m: nat): seq<Block>
    requires k + m < |bs| && bs[k].addr + HDR <= bs[k + m].End()
  {
    Splice(bs, k, m + 1, [Block(bs[k].addr, bs[k + m].End() - bs[k].addr - HDR, true)])
  }

  lemma AbsorbStep(bs: seq<Block>, k: nat, m: nat, bs1: seq<Block>, b: Block)
    requires 0 < m && k + m < |bs| && bs[k].addr + HDR <= bs[k + m].End()
    requires bs1 == Splice(bs, k, 2, [b]) && b.addr == bs[k].addr && b.End() == bs[k + 1].End()
    ensures bs1[k] == b && bs1[k + m - 1].End() == bs[k + m].End()
    ensures Absorb(bs1, k, m - 1) == Absorb(bs, k, m)
  {
    assert bs1[k + m..] == bs[k + m + 1..];
  }

  lemma AbsorbNone(bs: seq<Block>, k: nat)
    requires k < |bs| && bs[k].free
    ensures Absorb(bs, k, 0) == bs
  {
  }

  /** Coalescing absorbs the whole run of free blocks behind block k and nothing else. */
  lemma {:induction false} CoalesceAbsorbsRun(l: Layout, k: nat)
    requires Merging(l, k)
    ensures var l' := Coalesce(l, k); var m := RunLength(l.blocks, k + 1);
      && l.blocks[k].addr + HDR <= l.blocks[k + m].End()
      && l'.blocks == Absorb(l.blocks, k, m)
    decreases |l.blocks|
  {
    if CanMerge(l, k) {
      MergeStepKeeps(l, k);
      var l1 := MergeStep(l, k);
      hide WF, Splice, Taken, Used;
      CoalesceAbsorbsRun(l1, k);
      MergeShift(l, k);
      AbsorbStep(l.blocks, k, RunLength(l.blocks, k + 1), l1.blocks, l1.blocks[k]);
    } else {
      AbsorbNone(l.blocks, k);
    }
  }

  /** The merge loop halts exactly when the run holds every other free block. */
  lemma {:induction false} CoalesceHaltsIff(l: Layout, k: nat)
    requires Merging(l, k)
    ensures RunLength(l.blocks, k + 1) <= |l.frees| - 1
    ensures CoalesceHalts(l, k) <==> 0 < RunLength(l.blocks, k + 1) == |l.frees| - 1
    decreases |l.blocks|
  {
    if CanMerge(l, k) {
      MergeStepKeeps(l, k);
      CoalesceHaltsIff(MergeStep(l, k), k);
      MergeShift(l, k);
    }
  }

  lemma MergeShift(l: Layout, k: nat)
    requires Merging(l, k) && CanMerge(l, k) && l.blocks[k + 1] in l.frees[1..]
    ensures var bs := MergeStep(l, k).blocks;
      && |bs| == |l.blocks| - 1
      && RunLength(l.blocks, k + 1) == 1 + RunLength(bs, k + 1)
      && bs[k].addr == l.blocks[k].addr && bs[k].End() == l.blocks[k + 1].End()
  {
    hide Remove, Distinct, ListsFrees, Aligned;
    RunLengthShift(l.blocks, MergeStep(l, k).blocks, k + 2);
  }

  lemma {:induction false} CoalesceKeeps(l: Layout, k: nat)
    requires Merging(l, k)
    ensures var l' := Coalesce(l, k);
      && Merging(l', k) && !CanMerge(l', k) && |l'.frees| == |l.frees| - RunLength(l.blocks, k + 1)
      && Taken(l'.blocks) == Taken(l.blocks) && Used(l'.blocks) == Used(l.blocks) && l'.End() == l.End()
    decreases |l.blocks|
  {
    if CanMerge(l, k) {
      MergeStepKeeps(l, k);
      CoalesceKeeps(MergeStep(l, k), k);
      MergeShift(l, k);
    }
  }

  /** Payload length of the padding block that makes the next header page aligned. */
  function Padding(addr: nat): nat
    requires addr % 16 == 0
  {
    var diff := PAGE_SIZE - addr % PAGE_SIZE;
    if diff <= HDR then diff + PAGE_SIZE - HDR else diff - HDR
  }

  predicate Shrinks(l: Layout, k: nat)
    requires k < |l.blocks|
  {
    k + 1 == |l.blocks| && l.blocks[k].len + HDR >= 3 * PAGE_SIZE
  }

  /** Gives the trailing whole pages of a last block of three pages or more back. */
  function Shrink(l: Layout, k: nat): Layout
    requires k < |l.blocks| && l.frees != [] && l.blocks[k].addr % 16 == 0
  {
    var b := l.blocks[k];
    if !Shrinks(l, k) then l
    else if b.addr % PAGE_SIZE == 0 then Layout(l.blocks[..k], l.frees[1..])
    else
      var pad := Block(b.addr, Padding(b.addr), true);
      Layout(l.blocks[..k] + [pad], [pad] + l.frees[1..])
  }

  /** Dropping the last block from both structures. */
  lemma DropLast(l: Layout)
    requires WF(l) && |l.blocks| > 1 && |l.frees| > 1
    requires l.blocks[|l.blocks| - 1] == l.frees[0] && l.frees[0].addr % PAGE_SIZE == 0
    ensures var l' := Layout(l.blocks[..|l.blocks| - 1], l.frees[1..]);
      && WF(l') && l'.End() == l.frees[0].addr
      && Taken(l'.blocks) == Taken(l.blocks) && Used(l'.blocks) == Used(l.blocks)
  {
    hide Distinct, ListsFrees, Taken, Chained, Aligned, Used;
    var b, bs, fl := l.frees[0], l.blocks[..|l.blocks| - 1], l.frees[1..];
    assert l.blocks == bs + [b] && l.frees == [b] + fl;
    HeadFree(l);
    DropMembers(bs, b, fl);
    DistinctFront(b, fl);
    FrontChained(bs, b);
    Single(b);
    UsedConcat(bs, [b]);
  }

  lemma HeadFree(l: Layout)
    requires WF(l)
    ensures l.frees[0].free
  {
  }

  lemma FrontChained(bs: seq<Block>, b: Block)
    requires bs != [] && Chained(bs + [b]) && Aligned(bs + [b])
    ensures Chained(bs) && Aligned(bs) && bs[|bs| - 1].End() == b.addr && b.addr % 16 == 0 && b.len % 16 == 0
  {
    var t := bs + [b];
    assert t[|bs|] == b && t[|bs| - 1] == bs[|bs| - 1];
    assert forall i :: 0 <= i < |bs| ==> bs[i] == t[i];
  }

  /** The last block may be exchanged for another one starting at the same byte. */
  lemma LastChained(bs: seq<Block>, b: Block, pad: Block)
    requires Chained(bs + [b]) && Aligned(bs + [b]) && pad.addr == b.addr && pad.len % 16 == 0
    ensures Chained(bs + [pad]) && Aligned(bs + [pad])
    ensures b.addr % 16 == 0 && b.len % 16 == 0
  {
    var t := bs + [b];
    assert t[|bs|] == b;
    assert forall i :: 0 <= i < |bs| ==> bs[i] == t[i] == (bs + [pad])[i];
  }

  lemma DistinctEnds(s: seq<Block>, x: Block)
    requires Distinct(s + [x])
    ensures x !in s && forall y :: y in s + [x] <==> y in s || y == x
  {
    assert (s + [x])[|s|] == x;
    assert forall i :: 0 <= i < |s| ==> s[i] == (s + [x])[i];
  }

  lemma DistinctFront(x: Block, s: seq<Block>)
    requires Distinct([x] + s)
    ensures x !in s && Distinct(s) && forall y :: y in [x] + s <==> y in s || y == x
  {
    assert ([x] + s)[0] == x;
    assert forall i :: 0 <= i < |s| ==> s[i] == ([x] + s)[i + 1];
  }

  lemma DropMembers(bs: seq<Block>, b: Block, fl: seq<Block>)
    requires b.free && Chained(bs + [b]) && Distinct([b] + fl) && ListsFrees(bs + [b], [b] + fl)
    ensures ListsFrees(bs, fl) && Taken(bs) == Taken(bs + [b])
  {
    ChainedDistinct(bs + [b]);
    DistinctEnds(bs, b);
    DistinctFront(b, fl);
    hide Chained, Distinct;
  }

  lemma PaddingArithmetic(b: Block)
    requires b.addr % 16 == 0 && b.addr % PAGE_SIZE != 0 && b.len + HDR >= 3 * PAGE_SIZE
    ensures Padding(b.addr) % 16 == 0 && Padding(b.addr) + HDR < b.len
    ensures (b.addr + HDR + Padding(b.addr)) % PAGE_SIZE == 0
  {
  }

  /** The block at the head of the list shortened to its padding. */
  lemma ShortenLast(l: Layout, pad: Block)
    requires WF(l) && |l.frees| > 1 && l.blocks[|l.blocks| - 1] == l.frees[0]
    requires pad.free && pad.addr == l.frees[0].addr && pad.len < l.frees[0].len
    requires pad.len % 16 == 0 && pad.End() % PAGE_SIZE == 0
    ensures var l' := Layout(l.blocks[..|l.blocks| - 1] + [pad], [pad] + l.frees[1..]);
      && WF(l') && l'.End() == pad.End()
      && Taken(l'.blocks) == Taken(l.blocks) && Used(l'.blocks) == Used(l.blocks)
  {
    hide Distinct, ListsFrees, Taken, Chained, Aligned, Used;
    var b, bs, fl := l.frees[0], l.blocks[..|l.blocks| - 1], l.frees[1..];
    assert l.blocks == bs + [b] && l.frees == [b] + fl;
    Fresh(l, |bs|, pad);
    HeadFree(l);
    DropMembers(bs, b, fl);
    DistinctFront(b, fl);
    LastChained(bs, b, pad);
    Single(pad);
    Single(b);
    UsedConcat(bs, [b]);
    UsedConcat(bs, [pad]);
    AppendMember(bs, b, pad, fl);
    assert bs != [] ==> (bs + [pad])[0] == bs[0] == l.blocks[0];
  }

  lemma AppendMember(bs: seq<Block>, b: Block, pad: Block, fl: seq<Block>)
    requires ListsFrees(bs, fl) && pad.free && pad !in bs + [b] && Distinct(fl)
    ensures ListsFrees(bs + [pad], [pad] + fl) && Distinct([pad] + fl)
    ensures Taken(bs + [pad]) == Taken(bs)
  {
    assert forall x :: x in bs ==> x in bs + [b];
    forall x ensures x in bs + [pad] <==> x in bs || x == pad {}
    forall x ensures x in [pad] + fl <==> x in fl || x == pad {}
  }

  lemma TwoBlocks(l: Layout)
    requires WF(l) && |l.frees| > 1
    ensures |l.blocks| > 1
  {
    assert l.frees[0] in l.blocks && l.frees[1] in l.blocks;
    assert l.frees[0] != l.frees[1];
  }

  /** The heap ends with block k, which spans three pages or more. */
  predicate GivesBack(l: Layout, k: nat)
    requires k < |l.blocks|
  {
    l.blocks[k].End() == l.End() && l.blocks[k].addr + 0x3000 <= l.End()
  }

  /** The first page boundary that leaves no block, or one with a header and more. */
  predicate PageEnd(addr: nat, end: nat) {
    end % 0x1000 == 0 && if addr % 0x1000 == 0 then end == addr else addr + HDR < end <= addr + HDR + 0x1000
  }

  /** Shrinking gives back whole trailing pages of the one free block, and nothing else. */
  lemma ShrinkKeeps(l: Layout, k: nat)
    requires Merging(l, k) && |l.frees| > 1
    ensures var l' := Shrink(l, k);
      && WF(l') && Taken(l'.blocks) == Taken(l.blocks) && Used(l'.blocks) == Used(l.blocks)
      && l.blocks[k].addr <= l'.End() <= l.End()
      && (l'.End() < l.End() <==> GivesBack(l, k))
      && (GivesBack(l, k) ==> PageEnd(l.blocks[k].addr, l'.End()))
  {
    var b := l.blocks[k];
    if Shrinks(l, k) {
      if b.addr % PAGE_SIZE == 0 {
        TwoBlocks(l);
        DropLast(l);
      } else {
        PaddingArithmetic(b);
        ShortenLast(l, Block(b.addr, Padding(b.addr), true));
      }
    }
  }

  lemma {:induction false} RunLengthSame(s: seq<Block>, t: seq<Block>, i: nat)
    requires i <= |s| == |t| && s[i..] == t[i..]
    ensures RunLength(s, i) == RunLength(t, i)
    decreases |s| - i
  {
    if i < |s| {
      assert s[i] == s[i..][0] && t[i] == t[i..][0];
      assert s[i + 1..] == s[i..][1..] && t[i + 1..] == t[i..][1..];
      RunLengthSame(s, t, i + 1);
    }
  }

  lemma PushMembers(bs: seq<Block>, bs': seq<Block>, fl: seq<Block>, b: Block, f: Block)
    requires Swapped(bs, [b], [f], bs') && ListsFrees(bs, fl) && Distinct(fl)
    requires !b.free && f.free && f !in bs && b in bs
    ensures ListsFrees(bs', [f] + fl) && Distinct([f] + fl)
    ensures Taken(bs') == Taken(bs) - {b}
  {
    forall x ensures x in [f] + fl <==> x in fl || x == f {}
  }

  lemma PushIsSplice(bs: seq<Block>, k: nat, f: Block)
    requires k < |bs|
    ensures bs[k := f] == Splice(bs, k, 1, [f]) && bs[k..k + 1] == [bs[k]]
  {
  }

  lemma PushKeeps(l: Layout, k: nat)
    requires WF(l) && k < |l.blocks| && !l.blocks[k].free
    ensures var l' := Push(l, k);
      && Merging(l', k) && l'.End() == l.End() && |l'.frees| == |l.frees| + 1
      && Taken(l'.blocks) == Taken(l.blocks) - {l.blocks[k]}
      && Used(l'.blocks) == Used(l.blocks) - l.blocks[k].len
  {
    hide Chained, Distinct, ListsFrees, Used, Taken, Swapped, Splice;
    var b, l' := l.blocks[k], Push(l, k);
    var f := b.(free := true);
    PushIsSplice(l.blocks, k, f);
    Single(b);
    Single(f);
    Fresh(l, k, f);
    ChainedDistinct(l.blocks);
    SwappedSplice(l.blocks, k, 1, [f]);
    SpliceSpan(l.blocks, k, 1, [f]);
    SpliceUsed(l.blocks, k, 1, [f]);
    PushMembers(l.blocks, l'.blocks, l.frees, b, f);
  }

  lemma PushRun(l: Layout, k: nat)
    requires k < |l.blocks|
    ensures RunLength(Push(l, k).blocks, k + 1) == RunLength(l.blocks, k + 1)
  {
    RunLengthSame(l.blocks, Push(l, k).blocks, k + 1);
  }

  ghost predicate FreeHalts(l: Layout, k: nat)
    requires WF(l) && k < |l.blocks| && !l.blocks[k].free
  {
    PushKeeps(l, k);
    CoalesceHalts(Push(l, k), k)
  }

  /** What `kfree` of block k leaves. */
  ghost function Free(l: Layout, k: nat): Layout
    requires WF(l) && k < |l.blocks| && !l.blocks[k].free
  {
    PushKeeps(l, k);
    CoalesceKeeps(Push(l, k), k);
    Shrink(Coalesce(Push(l, k), k), k)
  }

  /** The free blocks right behind block k. */
  function Run(bs: seq<Block>, k: nat): seq<Block>
    requires k < |bs|
  {
    bs[k + 1..k + 1 + RunLength(bs, k + 1)]
  }

  lemma {:induction false} DistinctSubset<T>(s: seq<T>, t: seq<T>)
    requires Distinct(s) && Distinct(t) && forall x :: x in s ==> x in t
    ensures |s| <= |t|
    ensures |s| == |t| <==> forall x :: x in t ==> x in s
  {
    var a, b := set x | x in s, set x | x in t;
    DistinctCount(s);
    DistinctCount(t);
    assert a <= b;
    SubsetCount(a, b);
    assert forall x :: (x in a <==> x in s) && (x in b <==> x in t);
  }

  lemma {:induction false} DistinctCount<T>(s: seq<T>)
    requires Distinct(s)
    ensures |set x | x in s| == |s|
  {
    if s == [] {
      assert (set x | x in s) == {};
    } else {
      var r := s[..|s| - 1];
      DistinctCount(r);
      assert s == r + [s[|s| - 1]];
      assert (set x | x in s) == (set x | x in r) + {s[|s| - 1]};
    }
  }

  lemma SubsetCount<T>(a: set<T>, b: set<T>)
    requires a <= b
    ensures |a| <= |b| && (|a| == |b| <==> a == b)
  {
    assert b == a + (b - a);
    assert |b| == |a| + |b - a|;
  }

  /** `kfree` halts exactly when no free block lies outside the run behind the released block. */
  lemma FreeHaltsIff(l: Layout, k: nat)
    requires WF(l) && k < |l.blocks| && !l.blocks[k].free
    ensures FreeHalts(l, k) <==> forall b :: b in l.frees ==> b in Run(l.blocks, k)
  {
    PushKeeps(l, k);
    PushRun(l, k);
    CoalesceHaltsIff(Push(l, k), k);
    ChainedDistinct(l.blocks);
    CountRun(l.blocks, l.frees, k);
  }

  lemma RunListed(bs: seq<Block>, fl: seq<Block>, i: nat, m: nat)
    requires i + m <= |bs| && (forall j :: i <= j < i + m ==> bs[j].free) && ListsFrees(bs, fl)
    ensures forall x :: x in bs[i..i + m] ==> x in fl
  {
  }

  lemma CountRun(bs: seq<Block>, fl: seq<Block>, k: nat)
    requires k < |bs| && ListsFrees(bs, fl) && Distinct(bs) && Distinct(fl)
    ensures RunLength(bs, k + 1) == |fl| <==> forall b :: b in fl ==> b in Run(bs, k)
  {
    var m := RunLength(bs, k + 1);
    RunListed(bs, fl, k + 1, m);
    SliceDistinct(bs, k + 1, m);
    DistinctSubset(Run(bs, k), fl);
  }

  lemma SliceDistinct<T>(s: seq<T>, i: nat, m: nat)
    requires i + m <= |s| && Distinct(s)
    ensures Distinct(s[i..i + m])
  {
  }

  /** Releasing a block keeps the layout well formed and takes exactly that block out. */
  lemma FreeKeeps(l: Layout, k: nat)
    requires WF(l) && k < |l.blocks| && !l.blocks[k].free && !FreeHalts(l, k)
    ensures var l' := Free(l, k);
      && WF(l') && l'.End() <= l.End()
      && Taken(l'.blocks) == Taken(l.blocks) - {l.blocks[k]}
      && Used(l'.blocks) == Used(l.blocks) - l.blocks[k].len
  {
    var p := Push(l, k);
    PushKeeps(l, k);
    CoalesceHaltsIff(p, k);
    CoalesceKeeps(p, k);
    ShrinkKeeps(Coalesce(p, k), k);
  }
}
