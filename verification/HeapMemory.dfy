/**
 The bytes behind the heap layout: 32-byte headers holding the marks, lengths
 and list pointers, and payload bytes.  A store destroys whatever it overlaps,
 so that two structures over the same bytes agree only if that is proved.
 */
module HeapMemory {
  import opened HeapLayout

  const MAGIC_FREE: nat := 0xDEDE_DEDE_DEDE_DEDE
  const MAGIC_TAKEN: nat := 0xADAD_ADAD_ADAD_ADAD
  const NULL: nat := 0

  datatype Header = Header(magic: nat, next: nat, prev: nat, len: nat)

  type Headers = map<nat, Header>
  type Bytes = map<nat, nat>

  // ----- stores

  /** What is left of the headers when [lo, hi) is overwritten. */
  function ScrubHeaders(h: Headers, lo: nat, hi: nat): Headers {
    map a | a in h && (hi <= lo || a + HDR <= lo || hi <= a) :: h[a]
  }

  function ScrubBytes(d: Bytes, lo: nat, hi: nat): Bytes {
    map x | x in d && (x < lo || hi <= x) :: d[x]
  }

  /** A header written where there need not have been one. */
  function StoreHeader(h: Headers, a: nat, v: Header): Headers {
    ScrubHeaders(h, a, a + HDR)[a := v]
  }

  lemma ScrubTwice(h: Headers, d: Bytes, lo: nat, mid: nat, hi: nat)
    requires lo <= mid <= hi
    ensures ScrubHeaders(ScrubHeaders(h, lo, mid), mid, hi) == ScrubHeaders(h, lo, hi)
    ensures ScrubBytes(ScrubBytes(d, lo, mid), mid, hi) == ScrubBytes(d, lo, hi)
  {
  }

  /** Bytes outside [lo, hi) are the same in both memories. */
  ghost predicate SameOutside(d: Bytes, d': Bytes, lo: nat, hi: nat) {
    forall x :: x < lo || hi <= x ==> (x in d <==> x in d') && (x in d ==> d'[x] == d[x])
  }

  /** The `n` bytes at `src` in `d` stand at `dst` in `d'`. */
  ghost predicate Copied(d: Bytes, src: nat, d': Bytes, dst: nat, n: nat) {
    forall x :: dst <= x < dst + n ==> x in d' && x - dst + src in d && d'[x] == d[x - dst + src]
  }

  /** Every byte of [lo, hi) is as an allocation leaves it. */
  ghost predicate Scrubbed(d: Bytes, lo: nat, hi: nat) {
    forall x :: lo <= x < hi ==> x in d && d[x] == 0xFE
  }

  // ----- headers against the layout

  function Magic(free: bool): nat { if free then MAGIC_FREE else MAGIC_TAKEN }

  ghost predicate HeaderOk(h: Headers, b: Block) {
    && b.addr in h && h[b.addr].len == b.len && h[b.addr].magic == Magic(b.free)
    && (!b.free ==> h[b.addr].next == NULL && h[b.addr].prev == NULL)
  }

  ghost predicate HeadersOk(h: Headers, bs: seq<Block>) {
    forall b :: b in bs ==> HeaderOk(h, b)
  }

  function NextOf(fl: seq<Block>, i: nat): nat {
    if i + 1 < |fl| then fl[i + 1].addr else NULL
  }

  function PrevOf(fl: seq<Block>, i: nat): nat
    requires i <= |fl|
  {
    if 0 < i then fl[i - 1].addr else NULL
  }

  ghost predicate LinkOk(h: Headers, fl: seq<Block>, i: nat)
    requires i < |fl|
  {
    && fl[i].addr in h
    && h[fl[i].addr].next == NextOf(fl, i) && h[fl[i].addr].prev == PrevOf(fl, i)
  }

  /** The pointers, followed from the head, spell out the free list in both directions. */
  ghost predicate LinksOk(h: Headers, fl: seq<Block>) {
    forall i :: 0 <= i < |fl| ==> LinkOk(h, fl, i)
  }

  ghost predicate Represents(h: Headers, l: Layout) {
    HeadersOk(h, l.blocks) && LinksOk(h, l.frees)
  }

  /** Every byte of a taken payload is there to be read. */
  ghost predicate PayloadOk(d: Bytes, b: Block) {
    !b.free ==> forall x :: b.addr + HDR <= x < b.End() ==> x in d
  }

  ghost predicate PayloadsOk(d: Bytes, bs: seq<Block>) {
    forall b :: b in bs ==> PayloadOk(d, b)
  }

  /** Payload of `b` is the same in both memories. */
  ghost predicate SamePayload(d: Bytes, d': Bytes, b: Block) {
    forall x :: b.addr + HDR <= x < b.End() ==> x in d && x in d' && d'[x] == d[x]
  }

  // ----- relinking: all headers as before, but for one next and one prev pointer

  function Adjust(v: Header, a: nat, p: nat, pn: nat, q: nat, qp: nat): Header {
    v.(next := if a == p then pn else v.next, prev := if a == q then qp else v.prev)
  }

  ghost predicate Adjusted(h: Headers, h': Headers, a: nat, p: nat, pn: nat, q: nat, qp: nat) {
    a in h && a in h' && h'[a] == Adjust(h[a], a, p, pn, q, qp)
  }

  ghost predicate AllAdjusted(h: Headers, h': Headers, bs: seq<Block>, gone: seq<Block>, p: nat, pn: nat, q: nat,
      qp: nat) {
    forall c :: c in bs && c !in gone ==> Adjusted(h, h', c.addr, p, pn, q, qp)
  }

  ghost predicate DistinctAddrs(fl: seq<Block>) {
    && (forall i :: 0 <= i < |fl| ==> fl[i].addr != NULL)
    && (forall i, j :: 0 <= i < j < |fl| ==> fl[i].addr != fl[j].addr)
  }

  lemma AddrUnique(l: Layout, b: Block, c: Block)
    requires WF(l) && b in l.blocks && c in l.blocks && b.addr == c.addr
    ensures b == c
  {
    var i, j := IndexOf(l.blocks, b), IndexOf(l.blocks, c);
    assert !(i < j) && !(j < i);
  }

  lemma InHeap(l: Layout, b: Block)
    requires WF(l) && b in l.blocks
    ensures HEAP_BEGIN <= b.addr && b.End() <= l.End()
  {
    var i := IndexOf(l.blocks, b);
  }

  lemma FreesDistinctAddrs(l: Layout)
    requires WF(l)
    ensures DistinctAddrs(l.frees)
  {
    forall i | 0 <= i < |l.frees| ensures l.frees[i].addr != NULL {
      InHeap(l, l.frees[i]);
    }
    forall i, j | 0 <= i < j < |l.frees| ensures l.frees[i].addr != l.frees[j].addr {
      if l.frees[i].addr == l.frees[j].addr {
        AddrUnique(l, l.frees[i], l.frees[j]);
      }
    }
  }

  lemma LinksReplace(h: Headers, h': Headers, fl: seq<Block>, j: nat, r: Block)
    requires LinksOk(h, fl) && DistinctAddrs(fl) && j < |fl|
    requires forall i :: 0 <= i < |fl| && i != j ==>
      Adjusted(h, h', fl[i].addr, PrevOf(fl, j), r.addr, NextOf(fl, j), r.addr)
    requires r.addr in h' && h'[r.addr].next == NextOf(fl, j) && h'[r.addr].prev == PrevOf(fl, j)
    ensures LinksOk(h', Splice(fl, j, 1, [r]))
  {
    var fl' := Splice(fl, j, 1, [r]);
    forall i | 0 <= i < |fl'| ensures LinkOk(h', fl', i) {
      assert LinkOk(h, fl, i);
    }
  }

  lemma LinksRemove(h: Headers, h': Headers, fl: seq<Block>, j: nat)
    requires LinksOk(h, fl) && DistinctAddrs(fl) && j < |fl|
    requires forall i :: 0 <= i < |fl| && i != j ==>
      Adjusted(h, h', fl[i].addr, PrevOf(fl, j), NextOf(fl, j), NextOf(fl, j), PrevOf(fl, j))
    ensures LinksOk(h', Splice(fl, j, 1, []))
  {
    var fl' := Splice(fl, j, 1, []);
    forall i | 0 <= i < |fl'| ensures LinkOk(h', fl', i) {
      var o := if i < j then i else i + 1;
      assert LinkOk(h, fl, o) && fl'[i] == fl[o];
    }
  }

  lemma LinksAppend(h: Headers, h': Headers, fl: seq<Block>, r: Block)
    requires LinksOk(h, fl) && DistinctAddrs(fl) && fl != []
    requires forall i :: 0 <= i < |fl| ==>
      Adjusted(h, h', fl[i].addr, fl[|fl| - 1].addr, r.addr, NULL, NULL)
    requires r.addr in h' && h'[r.addr].next == NULL && h'[r.addr].prev == fl[|fl| - 1].addr
    ensures LinksOk(h', fl + [r])
  {
    var fl' := fl + [r];
    forall i | 0 <= i < |fl'| ensures LinkOk(h', fl', i) {
      assert i < |fl| ==> LinkOk(h, fl, i);
    }
  }

  lemma LinksPush(h: Headers, h': Headers, fl: seq<Block>, f: Block)
    requires LinksOk(h, fl) && DistinctAddrs(fl) && fl != []
    requires forall i :: 0 <= i < |fl| ==>
      Adjusted(h, h', fl[i].addr, NULL, NULL, fl[0].addr, f.addr)
    requires f.addr in h' && h'[f.addr].next == fl[0].addr && h'[f.addr].prev == NULL
    ensures LinksOk(h', [f] + fl)
  {
    var fl' := [f] + fl;
    forall i | 0 <= i < |fl'| ensures LinkOk(h', fl', i) {
      assert i > 0 ==> LinkOk(h, fl, i - 1) && fl'[i] == fl[i - 1];
    }
  }

  /** Links speak of addresses only: lengths do not matter to them. */
  lemma LinksSameAddrs(h: Headers, fl: seq<Block>, fl': seq<Block>)
    requires LinksOk(h, fl) && |fl| == |fl'|
    requires forall i :: 0 <= i < |fl| ==> fl[i].addr == fl'[i].addr
    ensures LinksOk(h, fl')
  {
    forall i | 0 <= i < |fl'| ensures LinkOk(h, fl', i) {
      assert LinkOk(h, fl, i);
    }
  }

  /** Block bodies survive relinking of free blocks; `mid` stands for what replaces `gone`. */
  lemma RelinkedHeaders(h: Headers, h': Headers, l: Layout, gone: seq<Block>, mid: seq<Block>, bs': seq<Block>,
                        p: nat, pn: nat, q: nat, qp: nat)
    requires WF(l) && HeadersOk(h, l.blocks) && Swapped(l.blocks, gone, mid, bs') && HeadersOk(h', mid)
    requires AllAdjusted(h, h', l.blocks, gone, p, pn, q, qp)
    requires forall c :: c in l.blocks && (c.addr == p || c.addr == q) ==> c.free
    ensures HeadersOk(h', bs')
  {
    forall c | c in bs' ensures HeaderOk(h', c) {
      if c in l.blocks && c !in gone {
        assert HeaderOk(h, c) && Adjusted(h, h', c.addr, p, pn, q, qp);
      } else {
        assert c in mid;
      }
    }
  }

  // ----- stores inside a block leave all other blocks alone

  /** Headers at [a, a + 32) and [b, b + 32) do not overlap. */
  predicate Apart(a: nat, b: nat) { a + HDR <= b || b + HDR <= a }

  lemma BlocksApart(l: Layout, b: Block, c: Block)
    requires WF(l) && b in l.blocks && c in l.blocks && b != c
    ensures b.End() <= c.addr || c.End() <= b.addr
  {
    var i, j := IndexOf(l.blocks, b), IndexOf(l.blocks, c);
    assert i < j || j < i;
  }

  /** Overwriting part of a block's payload keeps every header. */
  lemma ScrubInside(h: Headers, l: Layout, b: Block, lo: nat, hi: nat)
    requires WF(l) && Represents(h, l) && b in l.blocks && b.addr + HDR <= lo && hi <= b.End()
    ensures Represents(ScrubHeaders(h, lo, hi), l)
  {
    var h' := ScrubHeaders(h, lo, hi);
    forall c | c in l.blocks ensures HeaderOk(h', c) {
      assert HeaderOk(h, c);
      if c != b {
        BlocksApart(l, b, c);
      }
    }
    forall i | 0 <= i < |l.frees| ensures LinkOk(h', l.frees, i) {
      assert LinkOk(h, l.frees, i) && HeaderOk(h', l.frees[i]);
    }
  }

  /** Overwriting bytes of one block, header included, keeps every other payload. */
  lemma BytesInside(d: Bytes, d': Bytes, l: Layout, b: Block, lo: nat, hi: nat)
    requires WF(l) && b in l.blocks && b.addr <= lo && hi <= b.End() && SameOutside(d, d', lo, hi)
    requires PayloadsOk(d, l.blocks)
    ensures forall c :: c in l.blocks && !c.free && c != b ==> PayloadOk(d', c) && SamePayload(d, d', c)
  {
    forall c | c in l.blocks && !c.free && c != b ensures PayloadOk(d', c) && SamePayload(d, d', c) {
      BlocksApart(l, b, c);
      assert PayloadOk(d, c);
    }
  }

  /** A header stored inside the payload of a free block, the rest relinked. */
  lemma AdjustedInside(h: Headers, h': Headers, l: Layout, b: Block, a: nat, p: nat, pn: nat, q: nat, qp: nat)
    requires WF(l) && HeadersOk(h, l.blocks) && b in l.blocks && b.addr + HDR <= a && a + HDR <= b.End()
    requires forall x :: x in h && x != b.addr && x != NULL && Apart(x, a) ==> Adjusted(h, h', x, p, pn, q, qp)
    ensures AllAdjusted(h, h', l.blocks, [b], p, pn, q, qp)
  {
    forall c | c in l.blocks && c !in [b] ensures Adjusted(h, h', c.addr, p, pn, q, qp) {
      assert HeaderOk(h, c);
      BlocksApart(l, b, c);
    }
  }

  lemma FreeAddr(l: Layout, j: nat)
    requires WF(l) && j < |l.frees|
    ensures forall c :: c in l.blocks && c.addr == l.frees[j].addr ==> c.free
  {
    forall c | c in l.blocks && c.addr == l.frees[j].addr ensures c.free {
      AddrUnique(l, l.frees[j], c);
    }
  }

  lemma NotNull(l: Layout)
    requires WF(l)
    ensures forall c :: c in l.blocks ==> c.addr != NULL
  {
    forall c | c in l.blocks ensures c.addr != NULL {
      InHeap(l, c);
    }
  }

  /** The list neighbours of free block j are free. */
  lemma Neighbours(l: Layout, j: nat)
    requires WF(l) && j < |l.frees|
    ensures forall c :: c in l.blocks && (c.addr == PrevOf(l.frees, j) || c.addr == NextOf(l.frees, j)) ==> c.free
  {
    NotNull(l);
    if 0 < j {
      FreeAddr(l, j - 1);
    }
    if j + 1 < |l.frees| {
      FreeAddr(l, j + 1);
    }
  }

  /** First fit with a split: the pointer surgery represents `TakeSplit`. */
  lemma SplitRepresents(h: Headers, h': Headers, l: Layout, j: nat, n: nat)
    requires WF(l) && Represents(h, l) && j < |l.frees| && l.frees[j].len > n + HDR
    requires var b, r := l.frees[j], Rest(l.frees[j], n);
      && b.addr in h' && h'[b.addr] == Header(MAGIC_TAKEN, NULL, NULL, n)
      && r.addr in h' && h'[r.addr] == Header(MAGIC_FREE, NextOf(l.frees, j), PrevOf(l.frees, j), r.len)
      && AllAdjusted(h, h', l.blocks, [b], PrevOf(l.frees, j), r.addr, NextOf(l.frees, j), r.addr)
    ensures Represents(h', TakeSplit(l, j, n))
  {
    var b, r := l.frees[j], Rest(l.frees[j], n);
    var g := Block(b.addr, n, false);
    var k := IndexOf(l.blocks, b);
    var l' := TakeSplit(l, j, n);
    FreeAt(l, j, k);
    ChainedDistinct(l.blocks);
    SwappedSplice(l.blocks, k, 1, [g, r]);
    Neighbours(l, j);
    RelinkedHeaders(h, h', l, [b], [g, r], l'.blocks, PrevOf(l.frees, j), r.addr, NextOf(l.frees, j), r.addr);
    FreesDistinctAddrs(l);
    FreesAdjusted(h, h', l, j, PrevOf(l.frees, j), r.addr, NextOf(l.frees, j), r.addr);
    LinksReplace(h, h', l.frees, j, r);
  }

  lemma FreesAdjusted(h: Headers, h': Headers, l: Layout, j: nat, p: nat, pn: nat, q: nat, qp: nat)
    requires WF(l) && j < |l.frees| && AllAdjusted(h, h', l.blocks, [l.frees[j]], p, pn, q, qp)
    ensures forall i :: 0 <= i < |l.frees| && i != j ==> Adjusted(h, h', l.frees[i].addr, p, pn, q, qp)
  {
    forall i | 0 <= i < |l.frees| && i != j ensures Adjusted(h, h', l.frees[i].addr, p, pn, q, qp) {
      assert l.frees[i] in l.blocks && l.frees[i] != l.frees[j];
    }
  }

  /** First fit with an exact length, another free block remaining. */
  lemma ExactRepresents(h: Headers, h': Headers, l: Layout, j: nat)
    requires WF(l) && Represents(h, l) && j < |l.frees| && |l.frees| > 1
    requires var b := l.frees[j];
      && b.addr in h' && h'[b.addr] == Header(MAGIC_TAKEN, NULL, NULL, b.len)
      && AllAdjusted(h, h', l.blocks, [b], PrevOf(l.frees, j), NextOf(l.frees, j), NextOf(l.frees, j),
        PrevOf(l.frees, j))
    ensures Represents(h', TakeExact(l, j))
  {
    var b, p, q := l.frees[j], PrevOf(l.frees, j), NextOf(l.frees, j);
    var g := b.(free := false);
    var k := IndexOf(l.blocks, b);
    FreeAt(l, j, k);
    ChainedDistinct(l.blocks);
    SwappedSplice(l.blocks, k, 1, [g]);
    Neighbours(l, j);
    RelinkedHeaders(h, h', l, [b], [g], TakeExact(l, j).blocks, p, q, q, p);
    FreesDistinctAddrs(l);
    FreesAdjusted(h, h', l, j, p, q, q, p);
    LinksRemove(h, h', l.frees, j);
  }

  /** Headers stored from the heap's end on touch no block. */
  lemma AdjustedBeyond(h: Headers, h': Headers, l: Layout, gone: seq<Block>, p: nat, pn: nat, q: nat, qp: nat)
    requires WF(l) && HeadersOk(h, l.blocks)
    requires forall x ::
      x in h && x != NULL && x + HDR <= l.End() && (forall b :: b in gone ==> x != b.addr) ==>
      Adjusted(h, h', x, p, pn, q, qp)
    requires forall b :: b in gone ==> b in l.blocks
    ensures AllAdjusted(h, h', l.blocks, gone, p, pn, q, qp)
  {
    forall c | c in l.blocks && c !in gone ensures Adjusted(h, h', c.addr, p, pn, q, qp) {
      assert HeaderOk(h, c);
      InHeap(l, c);
      forall b | b in gone ensures c.addr != b.addr {
        if c.addr == b.addr {
          AddrUnique(l, b, c);
        }
      }
    }
  }

  // ----- the pointer surgery itself

  /** The entry between `p` and `q` leaves the list. */
  function Unlink(h: Headers, p: nat, q: nat): Headers
    requires p != NULL ==> p in h
    requires q != NULL ==> q in h
  {
    var h1 := if p == NULL then h else h[p := h[p].(next := q)];
    if q == NULL then h1 else h1[q := h1[q].(prev := p)]
  }

  lemma UnlinkAdjusts(h: Headers, p: nat, q: nat)
    requires p != NULL ==> p in h
    requires q != NULL ==> q in h
    ensures forall x :: x in h && x != NULL ==> Adjusted(h, Unlink(h, p, q), x, p, q, q, p)
  {
  }

  /** The entry at `what` cut to `n` bytes, the rest linked in behind it. */
  function Cut(h: Headers, what: nat, n: nat): Headers
    requires what in h && h[what].len >= n + HDR
    requires var q := h[what].next; q != NULL ==> q in h && Apart(q, what + HDR + n) && q != what
  {
    var v, a := h[what], what + HDR + n;
    var h1 := StoreHeader(h, a, Header(MAGIC_FREE, v.next, what, v.len - n - HDR))[what := v.(len := n, next := a)];
    if v.next == NULL then h1 else h1[v.next := h1[v.next].(prev := a)]
  }

  lemma CutAdjusts(h: Headers, what: nat, n: nat)
    requires what in h && h[what].len >= n + HDR
    requires var q := h[what].next; q != NULL ==> q in h && Apart(q, what + HDR + n) && q != what
    ensures var h', a, q := Cut(h, what, n), what + HDR + n, h[what].next;
      && what in h' && h'[what] == h[what].(len := n, next := a)
      && a in h' && h'[a] == Header(MAGIC_FREE, q, what, h[what].len - n - HDR)
      && forall x :: x in h && x != what && x != NULL && Apart(x, a) ==> Adjusted(h, h', x, NULL, NULL, q, a)
  {
  }

  /** A split whose front part is taken, between list neighbours `p` and `q`. */
  function CutAndTake(h: Headers, what: nat, n: nat, p: nat): Headers
    requires what in h && h[what].len >= n + HDR
    requires var q := h[what].next; q != NULL ==> q in h && Apart(q, what + HDR + n) && q != what
    requires p != NULL ==> p in h && p != what && Apart(p, what + HDR + n)
  {
    var a, h1 := what + HDR + n, Cut(h, what, n);
    var h2 := if p == NULL then h1 else h1[p := h1[p].(next := a)];
    h2[a := h2[a].(prev := p)][what := Header(MAGIC_TAKEN, NULL, NULL, n)]
  }

  lemma CutAndTakeAdjusts(h: Headers, what: nat, n: nat, p: nat)
    requires what in h && h[what].len >= n + HDR
    requires var q := h[what].next; q != NULL ==> q in h && Apart(q, what + HDR + n) && q != what && q != p
    requires p != NULL ==> p in h && p != what && Apart(p, what + HDR + n)
    ensures var h', a, q := CutAndTake(h, what, n, p), what + HDR + n, h[what].next;
      && what in h' && h'[what] == Header(MAGIC_TAKEN, NULL, NULL, n)
      && a in h' && h'[a] == Header(MAGIC_FREE, q, p, h[what].len - n - HDR)
      && forall x :: x in h && x != what && x != NULL && Apart(x, a) ==> Adjusted(h, h', x, p, a, q, a)
  {
    CutAdjusts(h, what, n);
  }

  /** First fit with an exact length on the only free block: a fresh page replaces it. */
  lemma LastRepresents(h: Headers, h': Headers, l: Layout)
    requires WF(l) && Represents(h, l) && |l.frees| == 1
    requires var b, page := l.frees[0], FreshPage(l);
      && b.addr in h' && h'[b.addr] == Header(MAGIC_TAKEN, NULL, NULL, b.len)
      && page.addr in h' && h'[page.addr] == Header(MAGIC_FREE, NULL, NULL, page.len)
      && AllAdjusted(h, h', l.blocks, [b], NULL, NULL, NULL, NULL)
    ensures Represents(h', TakeExact(l, 0))
  {
    var b, page := l.frees[0], FreshPage(l);
    var g := b.(free := false);
    var k := IndexOf(l.blocks, b);
    FreeAt(l, 0, k);
    ChainedDistinct(l.blocks);
    SwappedSplice(l.blocks, k, 1, [g]);
    NotNull(l);
    RelinkedHeaders(h, h', l, [b], [g], Splice(l.blocks, k, 1, [g]), NULL, NULL, NULL, NULL);
    AppendHeaders(h', Splice(l.blocks, k, 1, [g]), [page]);
    assert LinkOk(h', [page], 0);
  }

  lemma AppendHeaders(h: Headers, bs: seq<Block>, more: seq<Block>)
    requires HeadersOk(h, bs) && HeadersOk(h, more)
    ensures HeadersOk(h, bs + more)
  {
  }

  /** Growth: the new pages are cut in two and the rest is linked in as the last free block. */
  lemma GrowRepresents(h: Headers, h': Headers, l: Layout, n: nat)
    requires WF(l) && Represents(h, l)
    requires var b, r, last := GrownBlock(l, n), Rest(GrownBlock(l, n), n), l.frees[|l.frees| - 1].addr;
      && b.addr in h' && h'[b.addr] == Header(MAGIC_TAKEN, NULL, NULL, n)
      && r.addr in h' && h'[r.addr] == Header(MAGIC_FREE, NULL, last, r.len)
      && AllAdjusted(h, h', l.blocks, [], last, r.addr, NULL, NULL)
    ensures Represents(h', Grow(l, n))
  {
    var b, r, last := GrownBlock(l, n), Rest(GrownBlock(l, n), n), l.frees[|l.frees| - 1];
    FreeAddr(l, |l.frees| - 1);
    NotNull(l);
    assert Swapped(l.blocks, [], [], l.blocks);
    RelinkedHeaders(h, h', l, [], [], l.blocks, last.addr, r.addr, NULL, NULL);
    AppendHeaders(h', l.blocks, [Block(b.addr, n, false), r]);
    FreesDistinctAddrs(l);
    forall i | 0 <= i < |l.frees| ensures Adjusted(h, h', l.frees[i].addr, last.addr, r.addr, NULL, NULL) {
      assert l.frees[i] in l.blocks;
    }
    LinksAppend(h, h', l.frees, r);
  }

  /** Release: the block is marked free and pushed in front of the list. */
  lemma PushRepresents(h: Headers, h': Headers, l: Layout, k: nat)
    requires WF(l) && Represents(h, l) && k < |l.blocks| && !l.blocks[k].free
    requires var b, head := l.blocks[k], l.frees[0].addr;
      && b.addr in h' && h'[b.addr] == Header(MAGIC_FREE, head, NULL, b.len)
      && AllAdjusted(h, h', l.blocks, [b], NULL, NULL, head, b.addr)
    ensures Represents(h', Push(l, k))
  {
    hide Chained, Swapped, Splice, LinksOk;
    var b, head := l.blocks[k], l.frees[0];
    var f := b.(free := true);
    PushIsSplice(l.blocks, k, f);
    ChainedDistinct(l.blocks);
    SwappedSplice(l.blocks, k, 1, [f]);
    FreeAddr(l, 0);
    NotNull(l);
    RelinkedHeaders(h, h', l, [b], [f], Push(l, k).blocks, NULL, NULL, head.addr, b.addr);
    FreesDistinctAddrs(l);
    forall i | 0 <= i < |l.frees| ensures Adjusted(h, h', l.frees[i].addr, NULL, NULL, head.addr, b.addr) {
      assert l.frees[i] in l.blocks && l.frees[i] != b;
    }
    LinksPush(h, h', l.frees, f);
  }

  /** One merge: the absorbed block is unlinked (`h0`), then the head's length grows. */
  lemma MergeRepresents(h: Headers, h0: Headers, h': Headers, l: Layout, k: nat, j: nat)
    requires Merging(l, k) && CanMerge(l, k) && Represents(h, l)
    requires 0 < j < |l.frees| && l.frees[j] == l.blocks[k + 1] && l.frees[j] in l.frees[1..]
    requires j == 1 + IndexOf(l.frees[1..], l.frees[j])
    requires var a, b, p, q := l.blocks[k], l.blocks[k + 1], PrevOf(l.frees, j), NextOf(l.frees, j);
      && AllAdjusted(h, h0, l.blocks, [b], p, q, q, p) && a.addr in h0
      && h' == h0[a.addr := h0[a.addr].(len := a.len + HDR + b.len)]
    ensures Represents(h', MergeStep(l, k))
  {
    var m := Block(l.blocks[k].addr, l.blocks[k].len + HDR + l.blocks[k + 1].len, true);
    hide WF, HeadersOk, LinksOk, Splice, Remove;
    MergeHeaders(h, h0, h', l, k, j, m);
    FreesDistinctAddrs(l);
    FreesAdjusted(h, h0, l, j, PrevOf(l.frees, j), NextOf(l.frees, j), NextOf(l.frees, j), PrevOf(l.frees, j));
    LinksRemove(h, h0, l.frees, j);
    MergeLinks(h0, h', l.frees, j, m);
  }

  lemma MergeHeaders(h: Headers, h0: Headers, h': Headers, l: Layout, k: nat, j: nat, m: Block)
    requires Merging(l, k) && CanMerge(l, k) && HeadersOk(h, l.blocks)
    requires 0 < j < |l.frees| && l.frees[j] == l.blocks[k + 1]
    requires m == Block(l.blocks[k].addr, l.blocks[k].len + HDR + l.blocks[k + 1].len, true)
    requires var a, b, p, q := l.blocks[k], l.blocks[k + 1], PrevOf(l.frees, j), NextOf(l.frees, j);
      && AllAdjusted(h, h0, l.blocks, [b], p, q, q, p) && a.addr in h0
      && h' == h0[a.addr := h0[a.addr].(len := m.len)]
    ensures HeadersOk(h', Splice(l.blocks, k, 2, [m]))
  {
    var a, b, p, q := l.blocks[k], l.blocks[k + 1], PrevOf(l.frees, j), NextOf(l.frees, j);
    ChainedDistinct(l.blocks);
    assert l.blocks[k..k + 2] == [a, b];
    SwappedSplice(l.blocks, k, 2, [m]);
    Neighbours(l, j);
    GrownHeader(h, h0, h', l, a, b, m, p, q);
    RelinkedHeaders(h, h', l, [a, b], [m], Splice(l.blocks, k, 2, [m]), p, q, q, p);
  }

  lemma GrownHeader(h: Headers, h0: Headers, h': Headers, l: Layout, a: Block, b: Block, m: Block, p: nat, q: nat)
    requires WF(l) && HeadersOk(h, l.blocks) && a in l.blocks && a.free && a != b
    requires AllAdjusted(h, h0, l.blocks, [b], p, q, q, p) && a.addr in h0
    requires h' == h0[a.addr := h0[a.addr].(len := m.len)] && m.addr == a.addr && m.free
    ensures AllAdjusted(h, h', l.blocks, [a, b], p, q, q, p) && HeadersOk(h', [m])
  {
    assert HeaderOk(h, a) && Adjusted(h, h0, a.addr, p, q, q, p);
    forall c | c in l.blocks && c !in [a, b] ensures Adjusted(h, h', c.addr, p, q, q, p) {
      assert Adjusted(h, h0, c.addr, p, q, q, p);
      if c.addr == a.addr {
        AddrUnique(l, a, c);
      }
    }
  }

  lemma MergeLinks(h: Headers, h': Headers, fl: seq<Block>, j: nat, m: Block)
    requires 0 < j < |fl| && LinksOk(h, Splice(fl, j, 1, [])) && m.addr == fl[0].addr
    requires fl[j] in fl[1..] && j == 1 + IndexOf(fl[1..], fl[j])
    requires forall x :: x in h ==> x in h' && h'[x].next == h[x].next && h'[x].prev == h[x].prev
    ensures LinksOk(h', [m] + Remove(fl[1..], fl[j]))
  {
    var t, t' := Splice(fl, j, 1, []), [m] + Remove(fl[1..], fl[j]);
    assert t == [fl[0]] + Remove(fl[1..], fl[j]);
    forall i | 0 <= i < |t'| ensures LinkOk(h', t', i) {
      assert LinkOk(h, t, i);
    }
  }

  /** Overwriting or unmapping what lies past the heap's end. */
  lemma ScrubBeyond(h: Headers, l: Layout, lo: nat, hi: nat)
    requires WF(l) && Represents(h, l) && l.End() <= lo
    ensures Represents(ScrubHeaders(h, lo, hi), l)
  {
    var h' := ScrubHeaders(h, lo, hi);
    forall c | c in l.blocks ensures HeaderOk(h', c) {
      assert HeaderOk(h, c);
      InHeap(l, c);
    }
    forall i | 0 <= i < |l.frees| ensures LinkOk(h', l.frees, i) {
      assert LinkOk(h, l.frees, i) && HeaderOk(h', l.frees[i]);
    }
  }

  /** The aligned shrink: the head, the heap's last block, leaves both structures. */
  lemma DropRepresents(h: Headers, h': Headers, l: Layout)
    requires WF(l) && Represents(h, l) && |l.frees| > 1 && |l.blocks| > 1
    requires l.blocks[|l.blocks| - 1] == l.frees[0]
    requires forall c :: c in l.blocks ==> Adjusted(h, h', c.addr, NULL, NULL, l.frees[1].addr, NULL)
    ensures Represents(h', Layout(l.blocks[..|l.blocks| - 1], l.frees[1..]))
  {
    var q := l.frees[1];
    assert Swapped(l.blocks, [], [], l.blocks);
    FreeAddr(l, 1);
    NotNull(l);
    RelinkedHeaders(h, h', l, [], [], l.blocks, NULL, NULL, q.addr, NULL);
    FreesDistinctAddrs(l);
    forall i | 0 <= i < |l.frees| && i != 0 ensures Adjusted(h, h', l.frees[i].addr, NULL, q.addr, q.addr, NULL) {
      assert l.frees[i] in l.blocks;
      assert Adjusted(h, h', l.frees[i].addr, NULL, NULL, q.addr, NULL);
    }
    LinksRemove(h, h', l.frees, 0);
    assert Splice(l.frees, 0, 1, []) == l.frees[1..];
  }

  /** The unaligned shrink: the head, the heap's last block, keeps only its padding. */
  lemma PadRepresents(h: Headers, h': Headers, l: Layout, pad: Block)
    requires WF(l) && Represents(h, l) && l.blocks[|l.blocks| - 1] == l.frees[0]
    requires pad.free && pad.addr == l.frees[0].addr
    requires pad.addr in h && pad.addr in h' && h'[pad.addr] == h[pad.addr].(len := pad.len)
    requires AllAdjusted(h, h', l.blocks, [l.frees[0]], NULL, NULL, NULL, NULL)
    ensures Represents(h', Layout(l.blocks[..|l.blocks| - 1] + [pad], [pad] + l.frees[1..]))
  {
    var b, k := l.frees[0], |l.blocks| - 1;
    assert HeaderOk(h, b);
    assert l.blocks[k..k + 1] == [b];
    assert Splice(l.blocks, k, 1, [pad]) == l.blocks[..k] + [pad];
    ChainedDistinct(l.blocks);
    SwappedSplice(l.blocks, k, 1, [pad]);
    NotNull(l);
    RelinkedHeaders(h, h', l, [b], [pad], l.blocks[..k] + [pad], NULL, NULL, NULL, NULL);
    PadLinks(h, h', l, pad);
  }

  lemma PadLinks(h: Headers, h': Headers, l: Layout, pad: Block)
    requires WF(l) && LinksOk(h, l.frees) && pad.addr == l.frees[0].addr
    requires pad.addr in h && pad.addr in h' && h'[pad.addr] == h[pad.addr].(len := pad.len)
    requires AllAdjusted(h, h', l.blocks, [l.frees[0]], NULL, NULL, NULL, NULL)
    ensures LinksOk(h', [pad] + l.frees[1..])
  {
    forall i | 0 <= i < |l.frees| ensures LinkOk(h', l.frees, i) {
      assert LinkOk(h, l.frees, i) && l.frees[i] in l.blocks;
      if i > 0 {
        assert Adjusted(h, h', l.frees[i].addr, NULL, NULL, NULL, NULL);
        InHeap(l, l.frees[i]);
      }
    }
    LinksSameAddrs(h', l.frees, [pad] + l.frees[1..]);
  }
}
