/**
 Whole runs of the allocator, seen from its callers. A simple account of a run
 says which blocks the callers hold and which bytes they find in them; the
 pointer code is proved to agree with it, call by call, down to the bytes.
 */
module HeapRuns {
  import opened HeapLayout
  import opened HeapMemory
  import opened HeapSteps
  import opened KernHeap
  import opened Wrappers

  const FIRST_PAGE := Block(HEAP_BEGIN, PAGE_SIZE - HDR, true)
  const FIRST_LAYOUT := Layout([FIRST_PAGE], [FIRST_PAGE])

  type Size = n: nat | n < TWO64

  /** One call, with the physical frames then left, or a caller's store to byte `at` of a block it holds. */
  datatype Call =
    | Kmalloc(n: Size, frames: nat)
    | Kfree(b: Block)
    | Krealloc(b: Block, n: Size, frames: nat)
    | Store(b: Block, at: nat, v: nat)

  /** The heap, and the callers' own record: the blocks they hold and what they last found or put there. */
  datatype World = World(heap: Layout, mine: map<Block, seq<nat>>)

  const BOOT := World(FIRST_LAYOUT, map[])

  ghost predicate Consistent(w: World) {
    WF(w.heap) && w.mine.Keys == Taken(w.heap.blocks) && forall b :: b in w.mine ==> |w.mine[b]| == b.len
  }

  function Fill(n: nat): seq<nat> { seq(n, _ => 0xFE) }

  function Put(s: seq<nat>, at: nat, v: nat): (t: seq<nat>)
    requires at < |s|
  {
    s[at := v]
  }

  // ----- the calls

  /** The frames are there to be had. */
  ghost predicate Supply(l: Layout, frames: nat) { l.End() - HEAP_BEGIN + frames * PAGE_SIZE <= MAX_FRAMES * PAGE_SIZE }

  ghost predicate AllocReturns(w: World, n: nat, frames: nat) {
    Supply(w.heap, frames) && !AllocHalts(w.heap, Round16(n), frames)
  }

  ghost function Given(w: World, n: nat): World
    requires Consistent(w)
  {
    World(Alloc(w.heap, Round16(n)), w.mine[Granted(w.heap, Round16(n)) := Fill(Round16(n))])
  }

  lemma GivenConsistent(w: World, n: nat, frames: nat)
    requires Consistent(w) && AllocReturns(w, n, frames)
    ensures Consistent(Given(w, n)) && Granted(w.heap, Round16(n)) !in w.mine
  {
    hide WF, AllocHalts, Alloc, Granted, Round16, Taken;
    Rounded(n);
    GrantedLength(w.heap, Round16(n));
    AllocKeeps(w.heap, Round16(n), frames);
    NotLive(w.heap, Round16(n), frames);
  }

  lemma Rounded(n: nat)
    ensures Round16(n) % 16 == 0 && n <= Round16(n)
  {
  }

  ghost predicate FreeReturns(w: World, b: Block)
    requires Consistent(w)
  {
    b in w.mine && !FreeHalts(w.heap, IndexOf(w.heap.blocks, b))
  }

  ghost function Returned(w: World, b: Block): World
    requires Consistent(w) && b in w.mine
  {
    World(Free(w.heap, IndexOf(w.heap.blocks, b)), w.mine - {b})
  }

  lemma ReturnedConsistent(w: World, b: Block)
    requires Consistent(w) && FreeReturns(w, b)
    ensures Consistent(Returned(w, b))
  {
    FreeKeeps(w.heap, IndexOf(w.heap.blocks, b));
  }

  ghost predicate MoveReturns(w: World, b: Block, n: nat, frames: nat)
    requires Consistent(w)
  {
    b in w.mine && AllocReturns(w, n, frames) && !MoveHalts(w.heap, Round16(n), frames, b)
  }

  /** The first bytes go along, as many as both blocks have; the rest is as an allocation leaves it. */
  ghost function Resized(w: World, b: Block, n: nat, frames: nat): World
    requires Consistent(w) && MoveReturns(w, b, n, frames)
  {
    var count := Min(n, b.len);
    World(Moved(w.heap, Round16(n), frames, b),
          (w.mine - {b})[Granted(w.heap, Round16(n)) := w.mine[b][..count] + Fill(Round16(n) - count)])
  }

  lemma ResizedConsistent(w: World, b: Block, n: nat, frames: nat)
    requires Consistent(w) && MoveReturns(w, b, n, frames)
    ensures Consistent(Resized(w, b, n, frames))
  {
    hide AllocHalts, Alloc, FreeHalts, Free, Granted, Round16, Chained, Aligned, Distinct;
    Rounded(n);
    var l1 := Alloc(w.heap, Round16(n));
    AllocKeeps(w.heap, Round16(n), frames);
    NotLive(w.heap, Round16(n), frames);
    FreeKeeps(l1, IndexOf(l1.blocks, b));
    GrantedLength(w.heap, Round16(n));
  }

  ghost predicate Returns(w: World, c: Call)
    requires Consistent(w)
  {
    match c
    case Kmalloc(n, frames) => AllocReturns(w, n, frames)
    case Kfree(b) => FreeReturns(w, b)
    case Krealloc(b, n, frames) => MoveReturns(w, b, n, frames)
    case Store(b, at, _) => b in w.mine && at < b.len
  }

  ghost function After(w: World, c: Call): World
    requires Consistent(w) && Returns(w, c)
  {
    match c
    case Kmalloc(n, frames) => Given(w, n)
    case Kfree(b) => Returned(w, b)
    case Krealloc(b, n, frames) => Resized(w, b, n, frames)
    case Store(b, at, v) => w.(mine := w.mine[b := Put(w.mine[b], at, v)])
  }

  lemma AfterConsistent(w: World, c: Call)
    requires Consistent(w) && Returns(w, c)
    ensures Consistent(After(w, c))
  {
    match c
    case Kmalloc(n, frames) => GivenConsistent(w, n, frames);
    case Kfree(b) => ReturnedConsistent(w, b);
    case Krealloc(b, n, frames) => ResizedConsistent(w, b, n, frames);
    case Store(b, at, v) =>
      assert After(w, c).mine.Keys == w.mine.Keys;
  }

  // ----- whole runs

  /** Where a run of calls leads, if they all return. */
  ghost function Outcome(calls: seq<Call>): (o: Option<World>)
    ensures o.Some? ==> Consistent(o.value)
  {
    if calls == [] then BootConsistent(); Some(BOOT)
    else
      var n := |calls| - 1;
      var o := Outcome(calls[..n]);
      if o.None? || !Returns(o.value, calls[n]) then None
      else AfterConsistent(o.value, calls[n]); Some(After(o.value, calls[n]))
  }

  lemma BootConsistent()
    ensures Consistent(BOOT)
  {
    Single(FIRST_PAGE);
  }

  lemma OutcomeNext(calls: seq<Call>, i: nat)
    requires i < |calls|
    ensures var o := Outcome(calls[..i]);
      Outcome(calls[..i + 1]) == if o.None? || !Returns(o.value, calls[i]) then None else Some(After(o.value, calls[i]))
  {
    assert calls[..i + 1][..i] == calls[..i];
  }

  lemma {:induction false} OutcomeStops(calls: seq<Call>, i: nat)
    requires i <= |calls| && Outcome(calls[..i]).None?
    ensures Outcome(calls).None?
    decreases |calls| - i
  {
    if i == |calls| {
      assert calls[..i] == calls;
    } else {
      OutcomeNext(calls, i);
      OutcomeStops(calls, i + 1);
    }
  }

  /** After any run from boot: the tiling, the free list, and blocks held never overlapping. */
  lemma BootRuns(calls: seq<Call>)
    requires Outcome(calls).Some?
    ensures var w := Outcome(calls).value;
      && WF(w.heap) && w.mine.Keys == Taken(w.heap.blocks)
      && Extent(w.heap.blocks) == w.heap.End() - HEAP_BEGIN
      && forall a, b :: a in w.mine && b in w.mine && a != b ==> a.End() <= b.addr || b.End() <= a.addr
  {
    var w := Outcome(calls).value;
    TilesHeap(w.heap);
    forall a, b | a in w.mine && b in w.mine && a != b ensures a.End() <= b.addr || b.End() <= a.addr {
      TakenDisjoint(w.heap, a, b);
    }
  }

  // ----- the pointer code

  /** A caller that looks into its block finds these bytes. */
  ghost predicate Finds(d: Bytes, b: Block, s: seq<nat>) {
    |s| == b.len && forall j :: 0 <= j < b.len ==> ByteIs(d, b, j, s[j])
  }

  ghost predicate ByteIs(d: Bytes, b: Block, j: nat, v: nat) { b.addr + HDR + j in d && d[b.addr + HDR + j] == v }

  ghost predicate Agree(d: Bytes, mine: map<Block, seq<nat>>) {
    forall b :: b in mine ==> Finds(d, b, mine[b])
  }

  /** Blocks whose payload stays are found as before. */
  lemma FindsStill(d: Bytes, d': Bytes, b: Block, s: seq<nat>)
    requires Finds(d, b, s) && SamePayload(d, d', b)
    ensures Finds(d', b, s)
  {
  }

  lemma AgreeStill(d: Bytes, d': Bytes, mine: map<Block, seq<nat>>, keep: set<Block>)
    requires Agree(d, mine) && Untouched(d, d', keep)
    ensures forall b :: b in mine && b in keep ==> Finds(d', b, mine[b])
  {
    forall b | b in mine && b in keep ensures Finds(d', b, mine[b]) {
      assert SamePayload(d, d', b);
      FindsStill(d, d', b, mine[b]);
    }
  }

  lemma FindsFill(d: Bytes, b: Block)
    requires Scrubbed(d, b.addr + HDR, b.End())
    ensures Finds(d, b, Fill(b.len))
  {
  }

  lemma FindsMoved(d: Bytes, d': Bytes, b: Block, s: seq<nat>, g: Block, count: nat)
    requires Finds(d, b, s) && count <= b.len && count <= g.len
    requires Copied(d, b.addr + HDR, d', g.addr + HDR, count) && Scrubbed(d', g.addr + HDR + count, g.End())
    ensures Finds(d', g, s[..count] + Fill(g.len - count))
  {
    var s' := s[..count] + Fill(g.len - count);
    forall j | 0 <= j < g.len ensures ByteIs(d', g, j, s'[j]) {
      if j < count {
        assert ByteIs(d, b, j, s[j]);
        assert g.addr + HDR + j - (g.addr + HDR) + (b.addr + HDR) == b.addr + HDR + j;
      }
    }
  }

  method PerformAlloc(h: Heap, n: Size, frames: nat, mine: map<Block, seq<nat>>)
    returns (ok: bool, mine': map<Block, seq<nat>>)
    requires h.Valid() && Consistent(World(h.layout, mine)) && Agree(h.data, mine)
    modifies h
    ensures ok <==> AllocReturns(World(old(h.layout), mine), n, frames)
    ensures ok ==> h.Valid() && World(h.layout, mine') == Given(World(old(h.layout), mine), n) && Agree(h.data, mine')
  {
    hide WF, Represents, PayloadsOk, Used, Alloc, AllocHalts, Finds, Scrubbed, Untouched, Taken;
    if h.heapBytes + frames * PAGE_SIZE > MAX_FRAMES * PAGE_SIZE {
      return false, mine;
    }
    ghost var l, d := h.layout, h.data;
    var r := h.Kmalloc(n, frames);
    if r.None? {
      return false, mine;
    }
    var g := Block(r.value - HDR, Round16(n), false);
    GrantedIs(l, Round16(n));
    FindsFill(h.data, g);
    AgreeStill(d, h.data, mine, Taken(l.blocks));
    return true, mine[g := Fill(Round16(n))];
  }

  lemma GrantedIs(l: Layout, n: nat)
    ensures Granted(l, n) == Block(Granted(l, n).addr, n, false)
  {
  }

  method PerformFree(h: Heap, b: Block, mine: map<Block, seq<nat>>) returns (ok: bool, mine': map<Block, seq<nat>>)
    requires h.Valid() && Consistent(World(h.layout, mine)) && Agree(h.data, mine)
    modifies h
    ensures ok <==> FreeReturns(World(old(h.layout), mine), b)
    ensures ok ==> h.Valid() && World(h.layout, mine') == Returned(World(old(h.layout), mine), b) && Agree(h.data,
      mine')
  {
    hide WF, Represents, PayloadsOk, Used, Free, FreeHalts, Finds, Untouched;
    if b !in mine {
      return false, mine;
    }
    ghost var l, d := h.layout, h.data;
    ghost var k := IndexOf(l.blocks, b);
    ok := h.Kfree(b.addr + HDR, k);
    if !ok {
      return false, mine;
    }
    FreeKeeps(l, k);
    AgreeStill(d, h.data, mine, Taken(h.layout.blocks));
    return true, mine - {b};
  }

  method PerformMove(h: Heap, b: Block, n: Size, frames: nat, mine: map<Block, seq<nat>>)
    returns (ok: bool, mine': map<Block, seq<nat>>)
    requires h.Valid() && Consistent(World(h.layout, mine)) && Agree(h.data, mine)
    modifies h
    ensures ok <==> MoveReturns(World(old(h.layout), mine), b, n, frames)
    ensures ok ==> h.Valid() && Agree(h.data, mine')
    ensures ok ==> World(h.layout, mine') == Resized(World(old(h.layout), mine), b, n, frames)
  {
    hide WF, Represents, PayloadsOk, Used, AllocHalts, MoveHalts, Moved, Finds, Scrubbed, Copied, Untouched;
    if b !in mine || h.heapBytes + frames * PAGE_SIZE > MAX_FRAMES * PAGE_SIZE {
      return false, mine;
    }
    ghost var l, d := h.layout, h.data;
    HeldIsLive(h.hdr, l, b);
    var r := h.Krealloc(b.addr + HDR, n, frames, IndexOf(l.blocks, b));
    if r.None? {
      return false, mine;
    }
    var g, count := Block(r.value - HDR, Round16(n), false), Min(n, b.len);
    GrantedIs(l, Round16(n));
    FindsMoved(d, h.data, b, mine[b], g, count);
    AgreeStill(d, h.data, mine, Taken(l.blocks) - {b});
    return true, (mine - {b})[g := mine[b][..count] + Fill(Round16(n) - count)];
  }

  lemma HeldIsLive(h: Headers, l: Layout, b: Block)
    requires WF(l) && Represents(h, l) && b in Taken(l.blocks)
    ensures b.addr + HDR != NULL && b in l.blocks && !b.free
  {
  }

  method PerformStore(h: Heap, b: Block, at: nat, v: nat, mine: map<Block, seq<nat>>)
    returns (ok: bool, mine': map<Block, seq<nat>>)
    requires h.Valid() && Consistent(World(h.layout, mine)) && Agree(h.data, mine)
    modifies h
    ensures ok <==> b in mine && at < b.len
    ensures ok ==> h.Valid() && h.layout == old(h.layout) && mine' == mine[b := Put(mine[b], at, v)] && Agree(h.data,
      mine')
  {
    hide WF, Represents, PayloadsOk, Used, Finds;
    if b !in mine || at >= b.len {
      return false, mine;
    }
    ghost var d := h.data;
    h.Write(b.addr + HDR + at, v, IndexOf(h.layout.blocks, b));
    forall c | c in mine ensures Finds(h.data, c, if c == b then Put(mine[b], at, v) else mine[c]) {
      FindsWritten(d, h.layout, b, at, v, c, mine[c]);
    }
    return true, mine[b := Put(mine[b], at, v)];
  }

  /** A store to one block shows in that block only. */
  lemma FindsWritten(d: Bytes, l: Layout, b: Block, at: nat, v: nat, c: Block, s: seq<nat>)
    requires WF(l) && b in Taken(l.blocks) && c in Taken(l.blocks) && at < b.len && Finds(d, c, s)
    ensures Finds(d[b.addr + HDR + at := v], c, if c == b then Put(s, at, v) else s)
  {
    hide WF, Taken;
    var d', s' := d[b.addr + HDR + at := v], if c == b then Put(s, at, v) else s;
    if c != b {
      TakenDisjoint(l, b, c);
    }
    forall j | 0 <= j < c.len ensures ByteIs(d', c, j, s'[j]) {
      assert ByteIs(d, c, j, s[j]);
    }
  }

  /** One call on the heap itself. */
  method Perform(h: Heap, c: Call, mine: map<Block, seq<nat>>) returns (ok: bool, mine': map<Block, seq<nat>>)
    requires h.Valid() && Consistent(World(h.layout, mine)) && Agree(h.data, mine)
    modifies h
    ensures ok <==> Returns(World(old(h.layout), mine), c)
    ensures ok ==> h.Valid() && World(h.layout, mine') == After(World(old(h.layout), mine), c) && Agree(h.data, mine')
  {
    hide Consistent, Agree, AllocReturns, Given, FreeReturns, Returned, MoveReturns, Resized, Represents;
    match c
    case Kmalloc(n, frames) => ok, mine' := PerformAlloc(h, n, frames, mine);
    case Kfree(b) => ok, mine' := PerformFree(h, b, mine);
    case Krealloc(b, n, frames) => ok, mine' := PerformMove(h, b, n, frames, mine);
    case Store(b, at, v) => ok, mine' := PerformStore(h, b, at, v, mine);
  }

  /**
   Any run of calls on the pointer code: it gets through exactly when the
   simple account does, the blocks and bytes the callers find are those of the
   account, and list pointers, lengths, marks and both counters are right.
   */
  method Drive(h: Heap, calls: seq<Call>) returns (done: bool, mine: map<Block, seq<nat>>)
    requires h.Valid() && h.layout == FIRST_LAYOUT
    modifies h
    ensures done <==> Outcome(calls).Some?
    ensures done ==> Outcome(calls) == Some(World(h.layout, mine)) && Agree(h.data, mine)
    ensures done ==> Sound(h.Now(), h.layout)
    ensures done ==> h.heapBytes == Extent(h.layout.blocks) && h.usedBytes == Used(h.layout.blocks)
  {
    hide Consistent, Agree, Returns, After, Represents;
    mine := map[];
    AgreeNone(h.data);
    var i := 0;
    while i < |calls|
      invariant i <= |calls| && Outcome(calls[..i]) == Some(World(h.layout, mine)) && h.Valid() && Agree(h.data, mine)
    {
      OutcomeNext(calls, i);
      var ok;
      ok, mine := Perform(h, calls[i], mine);
      if !ok {
        OutcomeStops(calls, i + 1);
        return false, mine;
      }
      i := i + 1;
    }
    assert calls[..i] == calls;
    TilesHeap(h.layout);
    done := true;
  }

  lemma AgreeNone(d: Bytes)
    ensures Agree(d, map[])
  {
  }

  // ----- two calls that halt at boot

  lemma FirstCut(n: nat)
    requires n + 2 * HDR < PAGE_SIZE && n % 16 == 0
    ensures Round16(n) == n && !AllocHalts(FIRST_LAYOUT, n, 0)
    ensures var g, r := Block(HEAP_BEGIN, n, false), Rest(FIRST_PAGE, n);
      Granted(FIRST_LAYOUT, n) == g && Alloc(FIRST_LAYOUT, n) == Layout([g, r], [r])
  {
    assert FirstFit(FIRST_LAYOUT.frees, n) == 0;
    assert IndexOf(FIRST_LAYOUT.blocks, FIRST_PAGE) == 0;
  }

  lemma LoneRunHalts(l: Layout)
    requires WF(l) && |l.blocks| == 2 && !l.blocks[0].free && l.blocks[1].free
    ensures FreeHalts(l, 0)
  {
    assert RunLength(l.blocks, 1) == 1 + RunLength(l.blocks, 2);
    assert l.blocks[1..2] == [l.blocks[1]];
    FreeHaltsIff(l, 0);
  }

  /** From boot, one allocation that cuts the first page and its release: `kfree` halts. */
  lemma FirstReleaseHalts(n: Size)
    requires n + 2 * HDR < PAGE_SIZE && n % 16 == 0
    ensures Outcome([Kmalloc(n, 0)]).Some? && Outcome([Kmalloc(n, 0), Kfree(Block(HEAP_BEGIN, n, false))]).None?
  {
    hide Alloc, AllocHalts, FreeHalts, WF, Taken, Round16;
    var c0, b := Kmalloc(n, 0), Block(HEAP_BEGIN, n, false);
    FirstCut(n);
    assert [c0][..0] == [] && [c0, Kfree(b)][..1] == [c0];
    BootConsistent();
    BootSupply();
    assert Returns(BOOT, c0);
    GivenConsistent(BOOT, n, 0);
    CutReleaseHalts(n, b);
  }

  lemma BootSupply()
    ensures Supply(FIRST_LAYOUT, 0)
  {
  }

  lemma CutReleaseHalts(n: nat, b: Block)
    requires n + HDR <= FIRST_PAGE.len && b == Block(HEAP_BEGIN, n, false) && Consistent(BOOT)
    requires Consistent(Given(BOOT, n))
    requires Granted(FIRST_LAYOUT, Round16(n)) == b
    requires Alloc(FIRST_LAYOUT, Round16(n)) == Layout([b, Rest(FIRST_PAGE, n)], [Rest(FIRST_PAGE, n)])
    ensures !FreeReturns(Given(BOOT, n), b)
  {
    hide Alloc, FreeHalts, Granted, Round16;
    var l := Given(BOOT, n).heap;
    LoneRunHalts(l);
    assert IndexOf(l.blocks, b) == 0;
  }

  /**
   From boot, a first allocation whose length and two headers fill whole pages halts, however many
   frames there are.
   */
  lemma SnugCallHalts(n: Size, frames: nat)
    requires Snug(Round16(n))
    ensures Outcome([Kmalloc(n, frames)]).None?
  {
    assert [Kmalloc(n, frames)][..0] == [];
    assert FirstFit(FIRST_LAYOUT.frees, Round16(n)) == 1;
  }

  /** The shortest such request. */
  lemma ShortestSnug(n: nat)
    ensures Snug(Round16(4032)) && (Snug(Round16(n)) ==> n > 4016)
  {
    assert Round16(4032) == 4032;
  }
}
