/**
 The allocator's stores, grouped as the code performs them, as functions on
 the whole machine state, and what each does to the layout it represents.
 */
module HeapSteps {
  import opened HeapLayout
  import opened HeapMemory

  /** KERN_HeapBegin, KERN_HeapEnd, the two counters, and the heap's bytes. */
  datatype Mem = Mem(hdr: Headers, data: Bytes, begin: nat, end: nat, heapBytes: nat, usedBytes: nat)

  ghost predicate Counted(m: Mem, l: Layout) {
    && l.frees != [] && m.begin == l.frees[0].addr && m.end == l.End()
    && m.heapBytes == m.end - HEAP_BEGIN <= MAX_FRAMES * PAGE_SIZE
  }

  /** The machine state and the layout agree. */
  ghost predicate Sound(m: Mem, l: Layout) {
    && WF(l) && Represents(m.hdr, l) && PayloadsOk(m.data, l.blocks)
    && Counted(m, l) && m.usedBytes == Used(l.blocks)
  }

  /** The same while block `g`, marked taken, is not yet filled and counted. */
  ghost predicate Pending(m: Mem, l: Layout, g: Block) {
    && WF(l) && Represents(m.hdr, l) && g in l.blocks && !g.free
    && (forall c :: c in l.blocks && c != g ==> PayloadOk(m.data, c))
    && Counted(m, l) && m.usedBytes + g.len == Used(l.blocks)
  }

  /** The payloads of the blocks in `keep` are the same in both states. */
  ghost predicate Untouched(d: Bytes, d': Bytes, keep: set<Block>) {
    forall c :: c in keep ==> SamePayload(d, d', c)
  }

  // ----- where pointers lead

  /** A list pointer is null or leads to a header clear of block `b`. */
  ghost predicate Away(h: Headers, l: Layout, b: Block, a: nat) {
    a != NULL ==> a in h && a != b.addr && a + HDR <= l.End() && (a + HDR <= b.addr || b.End() <= a)
  }

  lemma OtherEntry(h: Headers, l: Layout, b: Block, i: nat)
    requires WF(l) && Represents(h, l) && i < |l.frees| && b in l.blocks && l.frees[i] != b
    ensures Away(h, l, b, l.frees[i].addr) && l.frees[i].addr != NULL
  {
    assert HeaderOk(h, l.frees[i]);
    BlocksApart(l, b, l.frees[i]);
    InHeap(l, l.frees[i]);
  }

  /** What the list pointers of free block j point at. */
  lemma EntryAt(h: Headers, l: Layout, j: nat)
    requires WF(l) && Represents(h, l) && j < |l.frees|
    ensures LinkOk(h, l.frees, j) && HeaderOk(h, l.frees[j]) && l.frees[j].free && l.frees[j] in l.blocks
    ensures HEAP_BEGIN <= l.frees[j].addr && l.frees[j].End() <= l.End()
    ensures Away(h, l, l.frees[j], PrevOf(l.frees, j)) && Away(h, l, l.frees[j], NextOf(l.frees, j))
    ensures PrevOf(l.frees, j) != NULL ==> PrevOf(l.frees, j) != NextOf(l.frees, j)
    ensures PrevOf(l.frees, j) == NULL <==> j == 0
    ensures NextOf(l.frees, j) == NULL <==> j + 1 == |l.frees|
  {
    var b := l.frees[j];
    FreesDistinctAddrs(l);
    InHeap(l, b);
    if 0 < j {
      OtherEntry(h, l, b, j - 1);
    }
    if j + 1 < |l.frees| {
      OtherEntry(h, l, b, j + 1);
    }
  }

  // ----- payloads

  lemma SamePayloads(d: Bytes, l: Layout)
    requires PayloadsOk(d, l.blocks)
    ensures Untouched(d, d, Taken(l.blocks))
  {
    forall c | c in Taken(l.blocks) ensures SamePayload(d, d, c) {
      assert PayloadOk(d, c);
    }
  }

  /** Stores inside block `b` touch no other taken payload. */
  lemma InsidePayloads(d: Bytes, d': Bytes, l: Layout, b: Block, lo: nat, hi: nat)
    requires WF(l) && PayloadsOk(d, l.blocks) && b in l.blocks && b.addr <= lo && hi <= b.End()
    requires SameOutside(d, d', lo, hi)
    ensures Untouched(d, d', Taken(l.blocks) - {b})
  {
    BytesInside(d, d', l, b, lo, hi);
  }

  /** Stores past the end touch no payload. */
  lemma BeyondPayloads(d: Bytes, d': Bytes, l: Layout, lo: nat, hi: nat)
    requires WF(l) && PayloadsOk(d, l.blocks) && l.End() <= lo && SameOutside(d, d', lo, hi)
    ensures Untouched(d, d', Taken(l.blocks))
  {
    forall c | c in Taken(l.blocks) ensures SamePayload(d, d', c) {
      InHeap(l, c);
      assert PayloadOk(d, c);
    }
  }

  /** `g` is the only block that may have been taken since. */
  lemma TakenPayloads(d: Bytes, d': Bytes, l: Layout, l': Layout, g: Block)
    requires PayloadsOk(d, l.blocks) && Taken(l'.blocks) <= Taken(l.blocks) + {g}
    requires Untouched(d, d', Taken(l.blocks) - {g})
    ensures forall c :: c in l'.blocks && c != g ==> PayloadOk(d', c)
  {
    forall c | c in l'.blocks && c != g ensures PayloadOk(d', c) {
      if !c.free {
        assert c in Taken(l'.blocks);
        assert PayloadOk(d, c) && SamePayload(d, d', c);
      }
    }
  }

  // ----- taking an entry of exactly the right length

  function TakenHeader(n: nat): Header { Header(MAGIC_TAKEN, NULL, NULL, n) }

  function PageHeader(): Header { Header(MAGIC_FREE, NULL, NULL, PAGE_SIZE - HDR) }

  /** The only entry goes; a fresh page becomes the list. */
  function TakeLone(m: Mem, entry: nat): Mem
    requires entry in m.hdr
  {
    m.(hdr := StoreHeader(m.hdr, m.end, PageHeader())[entry := TakenHeader(m.hdr[entry].len)],
       data := ScrubBytes(m.data, m.end, m.end + HDR),
       begin := m.end, end := m.end + PAGE_SIZE, heapBytes := m.heapBytes + PAGE_SIZE)
  }

  /** One entry of several goes. */
  function TakeOne(m: Mem, entry: nat, p: nat): Mem
    requires entry in m.hdr && (p != NULL ==> p in m.hdr)
    requires m.hdr[entry].next != NULL ==> m.hdr[entry].next in m.hdr
  {
    var v := m.hdr[entry];
    m.(hdr := Unlink(m.hdr, p, v.next)[entry := TakenHeader(v.len)],
       begin := if p == NULL then v.next else m.begin)
  }

  lemma TakeLoneHeaders(h: Headers, h': Headers, l: Layout)
    requires WF(l) && Represents(h, l) && |l.frees| == 1 && l.frees[0].addr in h
    requires h' == StoreHeader(h, l.End(), PageHeader())[l.frees[0].addr := TakenHeader(l.frees[0].len)]
    ensures Represents(h', TakeExact(l, 0))
  {
    InHeap(l, l.frees[0]);
    AdjustedBeyond(h, h', l, [l.frees[0]], NULL, NULL, NULL, NULL);
    LastRepresents(h, h', l);
  }

  lemma TakeLoneSound(m: Mem, l: Layout)
    requires Sound(m, l) && |l.frees| == 1 && m.heapBytes + PAGE_SIZE <= MAX_FRAMES * PAGE_SIZE
    ensures var b := l.frees[0];
      && b.addr in m.hdr
      && Pending(TakeLone(m, b.addr), TakeExact(l, 0), b.(free := false))
      && Untouched(m.data, TakeLone(m, b.addr).data, Taken(l.blocks))
  {
    var b := l.frees[0];
    EntryAt(m.hdr, l, 0);
    var m', l' := TakeLone(m, b.addr), TakeExact(l, 0);
    TakeLoneHeaders(m.hdr, m'.hdr, l);
    TakeLastKeeps(l);
    BeyondPayloads(m.data, m'.data, l, m.end, m.end + HDR);
    TakenPayloads(m.data, m'.data, l, l', b.(free := false));
    assert b.(free := false) in Taken(l'.blocks);
  }

  lemma TakeOneHeaders(h: Headers, h': Headers, l: Layout, j: nat)
    requires WF(l) && Represents(h, l) && |l.frees| > 1 && j < |l.frees|
    requires var b, p, q := l.frees[j], PrevOf(l.frees, j), NextOf(l.frees, j);
      && (p != NULL ==> p in h) && (q != NULL ==> q in h)
      && h' == Unlink(h, p, q)[b.addr := TakenHeader(b.len)]
    ensures Represents(h', TakeExact(l, j))
  {
    var b, p, q := l.frees[j], PrevOf(l.frees, j), NextOf(l.frees, j);
    UnlinkAdjusts(h, p, q);
    AdjustedBeyond(h, h', l, [b], p, q, q, p);
    ExactRepresents(h, h', l, j);
  }

  lemma TakeOneSound(m: Mem, l: Layout, j: nat)
    requires Sound(m, l) && |l.frees| > 1 && j < |l.frees|
    ensures var b, p := l.frees[j], PrevOf(l.frees, j);
      && b.addr in m.hdr && (p != NULL ==> p in m.hdr)
      && (m.hdr[b.addr].next != NULL ==> m.hdr[b.addr].next in m.hdr)
      && Pending(TakeOne(m, b.addr, p), TakeExact(l, j), b.(free := false))
      && Untouched(m.data, TakeOne(m, b.addr, p).data, Taken(l.blocks))
  {
    var b, p := l.frees[j], PrevOf(l.frees, j);
    EntryAt(m.hdr, l, j);
    var m', l' := TakeOne(m, b.addr, p), TakeExact(l, j);
    TakeOneHeaders(m.hdr, m'.hdr, l, j);
    TakeExactKeeps(l, j);
    SamePayloads(m.data, l);
    TakenPayloads(m.data, m'.data, l, l', b.(free := false));
    assert b.(free := false) in Taken(l'.blocks);
  }

  // ----- taking the front of a longer entry

  ghost predicate Cuttable(h: Headers, what: nat, n: nat, p: nat) {
    && what in h && h[what].len > n + HDR
    && (var q := h[what].next; q != NULL ==> q in h && q != what && Apart(q, what + HDR + n) && q != p)
    && (p != NULL ==> p in h && p != what && Apart(p, what + HDR + n))
  }

  ghost function TakeFront(m: Mem, entry: nat, n: nat, p: nat): Mem
    requires Cuttable(m.hdr, entry, n, p)
  {
    var a := entry + HDR + n;
    m.(hdr := CutAndTake(m.hdr, entry, n, p), data := ScrubBytes(m.data, a, a + HDR),
       begin := if p == NULL then a else m.begin)
  }

  lemma TakeFrontHeaders(h: Headers, l: Layout, j: nat, n: nat)
    requires WF(l) && Represents(h, l) && j < |l.frees| && l.frees[j].len > n + HDR
    ensures var b, p := l.frees[j], PrevOf(l.frees, j);
      Cuttable(h, b.addr, n, p) && Represents(CutAndTake(h, b.addr, n, p), TakeSplit(l, j, n))
  {
    hide WF, LinksOk, CutAndTake, TakeSplit;
    var b, p, q, a := l.frees[j], PrevOf(l.frees, j), NextOf(l.frees, j), l.frees[j].addr + HDR + n;
    EntryAt(h, l, j);
    CutAndTakeAdjusts(h, b.addr, n, p);
    var h' := CutAndTake(h, b.addr, n, p);
    AdjustedInside(h, h', l, b, a, p, a, q, a);
    SplitRepresents(h, h', l, j, n);
  }

  lemma FrontHead(l: Layout, j: nat, n: nat)
    requires j < |l.frees| && l.frees[j] in l.blocks && l.frees[j].len > n + HDR
    ensures var l' := TakeSplit(l, j, n);
      l'.frees != [] && l'.frees[0].addr == if j == 0 then l.frees[0].addr + HDR + n else l.frees[0].addr
  {
  }

  lemma TakeFrontSound(m: Mem, l: Layout, j: nat, n: nat)
    requires Sound(m, l) && j < |l.frees| && l.frees[j].len > n + HDR && n % 16 == 0
    ensures var b, p := l.frees[j], PrevOf(l.frees, j);
      && Cuttable(m.hdr, b.addr, n, p)
      && Pending(TakeFront(m, b.addr, n, p), TakeSplit(l, j, n), Block(b.addr, n, false))
      && Untouched(m.data, TakeFront(m, b.addr, n, p).data, Taken(l.blocks))
  {
    hide WF, Represents, PayloadsOk, PayloadOk, SamePayload, Used, CutAndTake, TakeSplit, Cuttable, Away, LinkOk;
    var b, p, a := l.frees[j], PrevOf(l.frees, j), l.frees[j].addr + HDR + n;
    EntryAt(m.hdr, l, j);
    TakeFrontHeaders(m.hdr, l, j, n);
    FrontHead(l, j, n);
    var m', l' := TakeFront(m, b.addr, n, p), TakeSplit(l, j, n);
    TakeSplitKeeps(l, j, n);
    InsidePayloads(m.data, m'.data, l, b, a, a + HDR);
    TakenPayloads(m.data, m'.data, l, l', Block(b.addr, n, false));
    assert Block(b.addr, n, false) in Taken(l'.blocks);
  }

  // ----- growing

  /** The header of the pages just mapped at `end`, linked to the list's last entry. */
  function MapEntry(m: Mem, pages: nat, last: nat): Mem
    requires pages > 0
  {
    m.(hdr := StoreHeader(m.hdr, m.end, Header(MAGIC_FREE, NULL, last, pages * PAGE_SIZE - HDR)),
       data := ScrubBytes(m.data, m.end, m.end + HDR),
       end := m.end + pages * PAGE_SIZE, heapBytes := m.heapBytes + pages * PAGE_SIZE)
  }

  lemma StoredHeader(h: Headers, a: nat, v: Header, x: nat)
    requires x in h && x + HDR <= a
    ensures var h' := StoreHeader(h, a, v);
      a in h' && h'[a] == v && x in h' && h'[x] == h[x]
  {
  }

  lemma GrowHeaders(h: Headers, h1: Headers, l: Layout, n: nat)
    requires WF(l) && Represents(h, l) && !Snug(n)
    requires var last, len := l.frees[|l.frees| - 1].addr, PagesNeeded(n) * PAGE_SIZE - HDR;
      && h1 == StoreHeader(h, l.End(), Header(MAGIC_FREE, NULL, last, len))
    ensures var last := l.frees[|l.frees| - 1].addr;
      Cuttable(h1, l.End(), n, last) && Represents(CutAndTake(h1, l.End(), n, last), Grow(l, n))
  {
    hide Chained, Aligned, Distinct, ListsFrees, HeadersOk, LinksOk, StoreHeader, CutAndTake, Grow, PagesNeeded;
    var last, len, e := l.frees[|l.frees| - 1].addr, PagesNeeded(n) * PAGE_SIZE - HDR, l.End();
    var a := e + HDR + n;
    EntryAt(h, l, |l.frees| - 1);
    GrowArithmetic(e, n);
    StoredHeader(h, e, Header(MAGIC_FREE, NULL, last, len), last);
    CutAndTakeAdjusts(h1, e, n, last);
    var h' := CutAndTake(h1, e, n, last);
    forall x | x in h && x != NULL && x + HDR <= e ensures Adjusted(h, h', x, last, a, NULL, NULL) {
      StoredHeader(h, e, Header(MAGIC_FREE, NULL, last, len), x);
      assert Adjusted(h1, h', x, last, a, NULL, a);
    }
    AdjustedBeyond(h, h', l, [], last, a, NULL, NULL);
    GrowRepresents(h, h', l, n);
  }

  lemma GrowSound(m: Mem, l: Layout, n: nat)
    requires Sound(m, l) && n % 16 == 0 && !Snug(n)
    requires m.heapBytes + PagesNeeded(n) * PAGE_SIZE <= MAX_FRAMES * PAGE_SIZE
    ensures PagesNeeded(n) > 0
    ensures var last := l.frees[|l.frees| - 1].addr;
      var m1 := MapEntry(m, PagesNeeded(n), last);
      && last != NULL && Cuttable(m1.hdr, m.end, n, last)
      && Pending(TakeFront(m1, m.end, n, last), Grow(l, n), Block(m.end, n, false))
      && Untouched(m.data, TakeFront(m1, m.end, n, last).data, Taken(l.blocks))
  {
    hide Represents, PayloadsOk, PayloadOk, SamePayload, Used, CutAndTake, PagesNeeded, Chained, Aligned, Distinct,
      ListsFrees, Cuttable, Away;
    var last := l.frees[|l.frees| - 1].addr;
    EntryAt(m.hdr, l, |l.frees| - 1);
    GrowArithmetic(m.end, n);
    var m1 := MapEntry(m, PagesNeeded(n), last);
    GrowHeaders(m.hdr, m1.hdr, l, n);
    var m', l' := TakeFront(m1, m.end, n, last), Grow(l, n);
    GrowKeeps(l, n);
    BeyondPayloads(m.data, m'.data, l, m.end, m.end + HDR + n + HDR);
    TakenPayloads(m.data, m'.data, l, l', Block(m.end, n, false));
    assert Block(m.end, n, false) in Taken(l'.blocks);
  }

  // ----- filling and counting the block taken

  lemma FillSound(m: Mem, m': Mem, l: Layout, g: Block)
    requires Pending(m, l, g)
    requires m'.hdr == ScrubHeaders(m.hdr, g.addr + HDR, g.End())
    requires SameOutside(m.data, m'.data, g.addr + HDR, g.End())
    requires forall x :: g.addr + HDR <= x < g.End() ==> x in m'.data
    requires m' == m.(hdr := m'.hdr, data := m'.data, usedBytes := m.usedBytes + g.len)
    ensures Sound(m', l) && Untouched(m.data, m'.data, Taken(l.blocks) - {g})
  {
    ScrubInside(m.hdr, l, g, g.addr + HDR, g.End());
    forall c | c in l.blocks ensures PayloadOk(m'.data, c) && (!c.free && c != g ==> SamePayload(m.data, m'.data, c)) {
      if c != g {
        assert PayloadOk(m.data, c);
        BlocksApart(l, g, c);
      }
    }
  }

  // ----- releasing

  /** The entry at `a` is marked free and becomes the list's head. */
  function PushEntry(m: Mem, a: nat): Mem
    requires a in m.hdr && m.begin in m.hdr && m.hdr[a].len <= m.usedBytes
  {
    var h := m.hdr[a := m.hdr[a].(next := m.begin)];
    var h' := h[m.begin := h[m.begin].(prev := a)];
    m.(hdr := h'[a := h'[a].(magic := MAGIC_FREE)], begin := a, usedBytes := m.usedBytes - m.hdr[a].len)
  }

  lemma PushHeaders(h: Headers, h': Headers, l: Layout, k: nat)
    requires WF(l) && Represents(h, l) && k < |l.blocks| && !l.blocks[k].free
    requires var a, head := l.blocks[k].addr, l.frees[0].addr;
      && a in h && head in h
      && h' == h[a := Header(MAGIC_FREE, head, NULL, h[a].len)][head := h[head].(prev := a)]
    ensures Represents(h', Push(l, k))
  {
    var b, head := l.blocks[k], l.frees[0].addr;
    assert HeaderOk(h, b);
    OtherEntry(h, l, b, 0);
    AdjustedBeyond(h, h', l, [b], NULL, NULL, head, b.addr);
    PushRepresents(h, h', l, k);
  }

  lemma TakenAt(h: Headers, l: Layout, k: nat)
    requires WF(l) && Represents(h, l) && k < |l.blocks|
    ensures HeaderOk(h, l.blocks[k]) && l.blocks[k].addr != NULL && l.blocks[k].End() <= l.End()
    ensures l.frees[0].addr in h && LinkOk(h, l.frees, 0)
    ensures !l.blocks[k].free ==> l.frees[0].addr != l.blocks[k].addr
    ensures !l.blocks[k].free ==> l.blocks[k] in Taken(l.blocks)
  {
    InHeap(l, l.blocks[k]);
    if !l.blocks[k].free {
      OtherEntry(h, l, l.blocks[k], 0);
    }
  }

  lemma UsedAtLeast(bs: seq<Block>, k: nat)
    requires k < |bs| && !bs[k].free
    ensures bs[k].len <= Used(bs)
  {
    PushIsSplice(bs, k, bs[k].(free := true));
    SpliceUsed(bs, k, 1, []);
    assert [bs[k]][..0] == [];
  }

  lemma PushSound(m: Mem, l: Layout, k: nat)
    requires Sound(m, l) && k < |l.blocks| && !l.blocks[k].free
    ensures var a := l.blocks[k].addr;
      && a in m.hdr && m.begin in m.hdr && a != m.begin && m.hdr[a].len <= m.usedBytes
      && Sound(PushEntry(m, a), Push(l, k))
  {
    hide WF, Represents, PayloadsOk, Used, Taken, PayloadOk, SamePayload;
    var b := l.blocks[k];
    TakenAt(m.hdr, l, k);
    UsedAtLeast(l.blocks, k);
    var m', l' := PushEntry(m, b.addr), Push(l, k);
    PushHeaders(m.hdr, m'.hdr, l, k);
    PushKeeps(l, k);
    SamePayloads(m.data, l);
    KeptPayloads(m.data, m.data, l, l');
  }

  /** Payloads of blocks that stay taken are still there. */
  lemma KeptPayloads(d: Bytes, d': Bytes, l: Layout, l': Layout)
    requires PayloadsOk(d, l.blocks) && Taken(l'.blocks) <= Taken(l.blocks)
    requires Untouched(d, d', Taken(l.blocks))
    ensures PayloadsOk(d', l'.blocks)
  {
    forall c | c in l'.blocks ensures PayloadOk(d', c) {
      if !c.free {
        assert c in Taken(l'.blocks);
        assert PayloadOk(d, c) && SamePayload(d, d', c);
      }
    }
  }

  // ----- merging forward

  /** The free entry `b` behind the head `a` is unlinked and its bytes are absorbed. */
  function MergeEntry(m: Mem, a: nat, b: nat): Mem
    requires a in m.hdr && b in m.hdr
    requires m.hdr[b].prev != NULL ==> m.hdr[b].prev in m.hdr
    requires m.hdr[b].next != NULL ==> m.hdr[b].next in m.hdr
  {
    var h := Unlink(m.hdr, m.hdr[b].prev, m.hdr[b].next);
    m.(hdr := h[a := h[a].(len := h[a].len + HDR + m.hdr[b].len)])
  }

  /** The entry behind the head, as the merge loop sees it. */
  lemma NextEntry(h: Headers, l: Layout, k: nat)
    requires Merging(l, k) && Represents(h, l)
    ensures HeaderOk(h, l.blocks[k]) && h[l.blocks[k].addr].prev == NULL
    ensures l.blocks[k].End() < l.End() <==> k + 1 < |l.blocks|
    ensures k + 1 < |l.blocks| ==> l.blocks[k + 1].addr == l.blocks[k].End() && HeaderOk(h, l.blocks[k + 1])
  {
    assert LinkOk(h, l.frees, 0);
    if k + 1 < |l.blocks| {
      InHeap(l, l.blocks[k + 1]);
    }
  }

  /** The list neighbours of the entry behind the head. */
  lemma MergeNeighbours(h: Headers, l: Layout, k: nat)
    requires Merging(l, k) && CanMerge(l, k) && Represents(h, l)
    ensures var a, b := l.blocks[k].addr, l.blocks[k + 1].addr;
      && a in h && b in h && b != a && h[b].prev != NULL && h[b].prev in h && h[b].prev != b
      && (h[b].next != NULL ==> h[b].next in h && h[b].next != b && h[b].next != a && h[b].next != h[b].prev)
      && (h[a].next == b <==> h[b].prev == a)
      && (|l.frees| == 2 <==> h[a].next == b && h[b].next == NULL)
  {
    var j := MergeIndex(l, k);
    EntryAt(h, l, j);
    EntryAt(h, l, 0);
    FreesDistinctAddrs(l);
    if j + 1 < |l.frees| {
      OtherEntry(h, l, l.frees[0], j + 1);
    }
  }

  lemma MergeIndex(l: Layout, k: nat) returns (j: nat)
    requires Merging(l, k) && CanMerge(l, k)
    ensures l.blocks[k + 1] in l.frees[1..]
    ensures 0 < j < |l.frees| && l.frees[j] == l.blocks[k + 1]
    ensures j == 1 + IndexOf(l.frees[1..], l.blocks[k + 1])
  {
    MergeStepDefined(l, k);
    j := 1 + IndexOf(l.frees[1..], l.blocks[k + 1]);
  }

  lemma MergeEntryHeaders(h: Headers, h': Headers, l: Layout, k: nat)
    requires Merging(l, k) && CanMerge(l, k) && Represents(h, l) && l.blocks[k + 1] in l.frees[1..]
    requires var a, b := l.blocks[k], l.blocks[k + 1];
      && b.addr in h && a.addr in h && h[b.addr].prev in h && (h[b.addr].next != NULL ==> h[b.addr].next in h)
      && var h0 := Unlink(h, h[b.addr].prev, h[b.addr].next);
      h' == h0[a.addr := h0[a.addr].(len := a.len + HDR + b.len)]
    ensures Represents(h', MergeStep(l, k))
  {
    var a, b := l.blocks[k], l.blocks[k + 1];
    var j := MergeIndex(l, k);
    EntryAt(h, l, j);
    var p, q := h[b.addr].prev, h[b.addr].next;
    var h0 := Unlink(h, p, q);
    UnlinkAdjusts(h, p, q);
    AdjustedBeyond(h, h0, l, [b], p, q, q, p);
    MergeRepresents(h, h0, h', l, k, j);
  }

  lemma MergeSound(m: Mem, l: Layout, k: nat)
    requires Sound(m, l) && Merging(l, k) && CanMerge(l, k)
    ensures l.blocks[k + 1] in l.frees[1..]
    ensures var a, b := l.blocks[k].addr, l.blocks[k + 1].addr;
      && a in m.hdr && b in m.hdr
      && m.hdr[b].prev in m.hdr && (m.hdr[b].next != NULL ==> m.hdr[b].next in m.hdr)
      && Sound(MergeEntry(m, a, b), MergeStep(l, k))
  {
    hide WF, Represents, PayloadsOk, PayloadOk, SamePayload, Used, Taken, MergeStep, Unlink;
    var a, b := l.blocks[k].addr, l.blocks[k + 1].addr;
    NextEntry(m.hdr, l, k);
    MergeNeighbours(m.hdr, l, k);
    MergeStepKeeps(l, k);
    UnlinkLen(m.hdr, m.hdr[b].prev, m.hdr[b].next, a);
    var m', l' := MergeEntry(m, a, b), MergeStep(l, k);
    MergeEntryHeaders(m.hdr, m'.hdr, l, k);
    MergeHead(l, k);
    SamePayloads(m.data, l);
    KeptPayloads(m.data, m.data, l, l');
  }

  lemma UnlinkLen(h: Headers, p: nat, q: nat, a: nat)
    requires (p != NULL ==> p in h) && (q != NULL ==> q in h) && a in h
    ensures a in Unlink(h, p, q) && Unlink(h, p, q)[a].len == h[a].len
  {
  }

  lemma MergeHead(l: Layout, k: nat)
    requires CanMerge(l, k) && l.frees != [] && l.blocks[k + 1] in l.frees[1..]
    ensures MergeStep(l, k).frees != [] && MergeStep(l, k).frees[0].addr == l.blocks[k].addr
  {
  }

  // ----- shrinking

  /** The pages from `lo` on are unmapped and given back. */
  function Unmap(m: Mem, lo: nat): Mem
    requires lo <= m.end && m.end - lo <= m.heapBytes
  {
    m.(hdr := ScrubHeaders(m.hdr, lo, m.end), data := ScrubBytes(m.data, lo, m.end),
       end := lo, heapBytes := m.heapBytes - (m.end - lo))
  }

  /** Whatever is represented below `lo` survives the unmapping. */
  lemma UnmapSound(m: Mem, m0: Mem, l: Layout, l': Layout)
    requires Sound(m, l) && WF(l') && Represents(m0.hdr, l')
    requires m0 == m.(hdr := m0.hdr, data := m0.data, begin := l'.frees[0].addr)
    requires l'.End() <= m.end && SameOutside(m.data, m0.data, l'.End(), m.end)
    requires Taken(l'.blocks) == Taken(l.blocks) && Used(l'.blocks) == Used(l.blocks)
    ensures HEAP_BEGIN <= l'.End() && m.end - l'.End() <= m.heapBytes && Sound(Unmap(m0, l'.End()), l')
    ensures Untouched(m.data, Unmap(m0, l'.End()).data, Taken(l.blocks))
  {
    hide Represents, PayloadsOk, PayloadOk, SamePayload, Used, Chained, Aligned, Distinct, ListsFrees;
    var lo := l'.End();
    InHeap(l', l'.blocks[0]);
    var m' := Unmap(m0, lo);
    ScrubBeyond(m0.hdr, l', lo, m.end);
    TakenBelow(l', lo);
    BelowPayloads(m.data, m'.data, l, lo, m.end);
    KeptPayloads(m.data, m'.data, l, l');
  }

  lemma TakenBelow(l: Layout, lo: nat)
    requires WF(l) && l.End() <= lo
    ensures forall c :: c in Taken(l.blocks) ==> c.End() <= lo
  {
    forall c | c in Taken(l.blocks) ensures c.End() <= lo {
      InHeap(l, c);
    }
  }

  lemma BelowPayloads(d: Bytes, d': Bytes, l: Layout, lo: nat, hi: nat)
    requires PayloadsOk(d, l.blocks) && SameOutside(d, d', lo, hi)
    requires forall c :: c in Taken(l.blocks) ==> c.End() <= lo
    ensures Untouched(d, d', Taken(l.blocks))
  {
    forall c | c in Taken(l.blocks) ensures SamePayload(d, d', c) {
      assert PayloadOk(d, c);
    }
  }

  /** The aligned case: the head itself is given back. */
  function DropHead(m: Mem, a: nat): Mem
    requires a in m.hdr && m.hdr[a].next in m.hdr
  {
    var q := m.hdr[a].next;
    m.(hdr := m.hdr[q := m.hdr[q].(prev := NULL)], begin := q)
  }

  lemma DropHeaders(h: Headers, h': Headers, l: Layout)
    requires WF(l) && Represents(h, l) && |l.frees| > 1 && |l.blocks| > 1
    requires l.blocks[|l.blocks| - 1] == l.frees[0]
    requires l.frees[1].addr in h && h' == h[l.frees[1].addr := h[l.frees[1].addr].(prev := NULL)]
    ensures Represents(h', Layout(l.blocks[..|l.blocks| - 1], l.frees[1..]))
  {
    NotNull(l);
    forall c | c in l.blocks ensures Adjusted(h, h', c.addr, NULL, NULL, l.frees[1].addr, NULL) {
      assert HeaderOk(h, c);
    }
    DropRepresents(h, h', l);
  }

  lemma DropSound(m: Mem, l: Layout, k: nat)
    requires Sound(m, l) && Merging(l, k) && |l.frees| > 1 && Shrinks(l, k) && l.blocks[k].addr % PAGE_SIZE == 0
    ensures var a := l.blocks[k].addr;
      && a in m.hdr && m.hdr[a].next != NULL && m.hdr[a].next in m.hdr && a <= m.end && m.end - a <= m.heapBytes
      && Sound(Unmap(DropHead(m, a), a), Shrink(l, k))
      && Untouched(m.data, Unmap(DropHead(m, a), a).data, Taken(l.blocks))
  {
    hide Represents, PayloadsOk, PayloadOk, SamePayload, Used, Chained, Aligned, Distinct, ListsFrees, Taken;
    EntryAt(m.hdr, l, 0);
    EntryAt(m.hdr, l, 1);
    TwoBlocks(l);
    DropLast(l);
    var m0 := DropHead(m, l.blocks[k].addr);
    DropHeaders(m.hdr, m0.hdr, l);
    UnmapSound(m, m0, l, Shrink(l, k));
  }

  /** The unaligned case: the head keeps its padding, the split-off rest is given back. */
  function PadHead(m: Mem, a: nat, n: nat): Mem
    requires a in m.hdr && m.hdr[a].len >= n + HDR
    requires var q := m.hdr[a].next; q in m.hdr && q != NULL && q != a && Apart(q, a + HDR + n)
  {
    var q, h := m.hdr[a].next, Cut(m.hdr, a, n);
    var h' := h[a := h[a].(next := q)];
    m.(hdr := h'[q := h'[q].(prev := a)], data := ScrubBytes(m.data, a + HDR + n, a + HDR + n + HDR))
  }

  lemma PadHeaders(h: Headers, h': Headers, l: Layout, pad: Block)
    requires WF(l) && Represents(h, l) && |l.frees| > 1 && l.blocks[|l.blocks| - 1] == l.frees[0]
    requires pad.free && pad.addr == l.frees[0].addr && pad.len + HDR <= l.frees[0].len
    requires var a, q := pad.addr, l.frees[1].addr;
      && a in h && h[a].next == q && q in h && q != NULL && q != a && Apart(q, pad.End()) && h[a].len >= pad.len + HDR
      && h[q].prev == a
      && var c := Cut(h, a, pad.len);
      h' == c[a := c[a].(next := q)][q := c[q].(prev := a)]
    ensures Represents(h', Layout(l.blocks[..|l.blocks| - 1] + [pad], [pad] + l.frees[1..]))
  {
    var a, q, b := pad.addr, l.frees[1].addr, l.frees[0];
    CutAdjusts(h, a, pad.len);
    forall x | x in h && x != b.addr && x != NULL &&
      Apart(x, pad.End()) ensures Adjusted(h, h', x, NULL, NULL, NULL, NULL) {
      assert Adjusted(h, Cut(h, a, pad.len), x, NULL, NULL, q, pad.End());
    }
    AdjustedInside(h, h', l, b, pad.End(), NULL, NULL, NULL, NULL);
    PadRepresents(h, h', l, pad);
  }

  lemma PadSound(m: Mem, l: Layout, k: nat)
    requires Sound(m, l) && Merging(l, k) && |l.frees| > 1 && Shrinks(l, k) && l.blocks[k].addr % PAGE_SIZE != 0
    ensures var a, n := l.blocks[k].addr, Padding(l.blocks[k].addr);
      && a in m.hdr && m.hdr[a].len > n + HDR && a + HDR + n <= m.end && m.end - (a + HDR + n) <= m.heapBytes
      && (var q := m.hdr[a].next; q in m.hdr && q != NULL && q != a && Apart(q, a + HDR + n))
      && Sound(Unmap(PadHead(m, a, n), a + HDR + n), Shrink(l, k))
      && Untouched(m.data, Unmap(PadHead(m, a, n), a + HDR + n).data, Taken(l.blocks))
  {
    hide Represents, PayloadsOk, PayloadOk, SamePayload, Used, Chained, Distinct, ListsFrees, Taken;
    var b := l.blocks[k];
    var pad := Block(b.addr, Padding(b.addr), true);
    EntryAt(m.hdr, l, 0);
    EntryAt(m.hdr, l, 1);
    PaddingArithmetic(b);
    ShortenLast(l, pad);
    var m0 := PadHead(m, b.addr, pad.len);
    PadHeaders(m.hdr, m0.hdr, l, pad);
    UnmapSound(m, m0, l, Shrink(l, k));
  }
}
