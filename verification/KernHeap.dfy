/**
 The kernel heap allocator as the pointer code it is: headers rewritten in
 place, the free list relinked, pages added and given back at the end.
 A failed result stands for a halt: a failed assertion or a page fault.
 */
module KernHeap {
  import opened HeapLayout
  import opened HeapMemory
  import opened HeapSteps
  import opened Wrappers

  function Add64(a: nat, b: nat): nat { (a + b) % TWO64 }

  function Min(a: nat, b: nat): nat { if a < b then a else b }

  class Heap {
    var hdr: Headers
    var data: Bytes
    var begin: nat      // KERN_HeapBegin, the free list's head
    var end: nat        // KERN_HeapEnd, past the end
    var heapBytes: nat  // the `allocated` counter
    var usedBytes: nat  // the `used` counter
    ghost var layout: Layout

    ghost function Now(): Mem
      reads this
    {
      Mem(hdr, data, begin, end, heapBytes, usedBytes)
    }

    ghost predicate Valid()
      reads this
    {
      Sound(Now(), layout)
    }

    constructor ()
      ensures Valid()
      ensures var b := Block(HEAP_BEGIN, PAGE_SIZE - HDR, true); layout == Layout([b], [b])
    {
      begin, end, heapBytes, usedBytes := HEAP_BEGIN, HEAP_BEGIN + PAGE_SIZE, PAGE_SIZE, 0;
      hdr, data := map[HEAP_BEGIN := PageHeader()], map[];
      var b := Block(HEAP_BEGIN, PAGE_SIZE - HDR, true);
      layout := Layout([b], [b]);
      Single(b);
    }

    /** Maps `pages` more pages at the end; fails when `frames` run out. */
    method ExtendHeap(pages: nat, frames: nat) returns (ok: bool)
      modifies this`end, this`heapBytes
      ensures ok <==> pages <= frames
      ensures ok ==> end == old(end) + pages * PAGE_SIZE && heapBytes == old(heapBytes) + pages * PAGE_SIZE
    {
      var i := 0;
      while i < pages
        invariant i <= pages && i <= frames && end == old(end) + i * PAGE_SIZE && heapBytes == old(heapBytes)
      {
        if i == frames {
          return false;
        }
        end := end + PAGE_SIZE;
        i := i + 1;
      }
      heapBytes := heapBytes + pages * PAGE_SIZE;
      return true;
    }

    /** Cuts the entry at `what` down to `n` bytes and links the rest in behind it. */
    method SplitEntry(what: nat, n: nat) returns (r: Option<nat>)
      requires what in hdr && HEAP_BEGIN <= what && what + HDR + hdr[what].len <= end < TWO64
      requires var q := hdr[what].next; q != NULL ==> q in hdr && (q + HDR <= what || what + HDR + hdr[what].len <= q)
      requires n < TWO64 && hdr[what].len <= heapBytes < TWO64 - 2 * HDR
      modifies this`hdr, this`data
      ensures r.Some? <==> old(hdr)[what].len > n + HDR
      ensures r.Some? ==> r.value == what + HDR + n && hdr == Cut(old(hdr), what, n)
      ensures r.Some? ==> data == ScrubBytes(old(data), r.value, r.value + HDR)
    {
      var v := hdr[what];
      if !(v.len > Add64(n, HDR)) { return None; }
      if !(n <= heapBytes) { return None; }
      var a := what + HDR + n;
      assert HEAP_BEGIN <= a < end;
      hdr := StoreHeader(hdr, a, Header(MAGIC_FREE, v.next, what, v.len - n - HDR));
      data := ScrubBytes(data, a, a + HDR);
      hdr := hdr[what := hdr[what].(len := n)];
      if v.next != NULL {
        hdr := hdr[v.next := hdr[v.next].(prev := a)];
      }
      hdr := hdr[what := hdr[what].(next := a)];
      return Some(a);
    }

    // ----- kmalloc

    /** Walks the list to the first entry the loop accepts; `entry` is null if there is none. */
    method FindEntry(n: nat) returns (entry: nat, prev: nat, ghost j: nat)
      requires Valid() && n < TWO64
      ensures j <= |layout.frees| && prev == PrevOf(layout.frees, j)
      ensures j < |layout.frees| ==> entry == layout.frees[j].addr != NULL
      ensures j == |layout.frees| ==> entry == NULL
      ensures forall i :: 0 <= i < j ==> !(layout.frees[i].len == n || layout.frees[i].len > Add64(n, HDR))
      ensures j < |layout.frees| ==> layout.frees[j].len == n || layout.frees[j].len > Add64(n, HDR)
    {
      hide WF, Represents, PayloadsOk, Used;
      entry, prev, j := begin, NULL, 0;
      EntryAt(hdr, layout, 0);
      while entry != NULL
        invariant j <= |layout.frees| && prev == PrevOf(layout.frees, j)
        invariant j < |layout.frees| ==> entry == layout.frees[j].addr != NULL
        invariant j == |layout.frees| ==> entry == NULL
        invariant forall i :: 0 <= i < j ==> !(layout.frees[i].len == n || layout.frees[i].len > Add64(n, HDR))
        decreases |layout.frees| - j
      {
        EntryAt(hdr, layout, j);
        assert hdr[entry].magic == MAGIC_FREE;
        assert prev != NULL ==> hdr[entry].prev == prev;
        if hdr[entry].len == n || hdr[entry].len > Add64(n, HDR) {
          return;
        }
        if j + 1 < |layout.frees| {
          EntryAt(hdr, layout, j + 1);
        }
        prev, entry, j := entry, hdr[entry].next, j + 1;
      }
    }

    /** An entry of exactly the length asked for leaves the list; a lone one is replaced by a fresh page. */
    method TakeWhole(entry: nat, prev: nat, frames: nat) returns (ok: bool)
      requires entry in hdr && (prev != NULL ==> prev in hdr && prev != entry)
      requires var q := hdr[entry].next; q != NULL ==> q in hdr && q != entry
      requires entry + HDR <= end
      modifies this`hdr, this`data, this`begin, this`end, this`heapBytes
      ensures ok <==> !(prev == NULL == old(hdr)[entry].next && frames == 0)
      ensures ok ==> Now() == if prev == NULL == old(hdr)[entry].next then TakeLone(old(Now()), entry)
                              else TakeOne(old(Now()), entry, prev)
    {
      var next := hdr[entry].next;
      if prev != NULL {
        hdr := hdr[prev := hdr[prev].(next := next)];
        if next != NULL {
          hdr := hdr[next := hdr[next].(prev := prev)];
        }
      } else if next != NULL {
        begin := next;
        hdr := hdr[next := hdr[next].(prev := NULL)];
      } else {
        begin := end;
        ok := ExtendHeap(1, frames);
        if !ok {
          return;
        }
        hdr := StoreHeader(hdr, begin, PageHeader());
        data := ScrubBytes(data, begin, begin + HDR);
      }
      hdr := hdr[entry := TakenHeader(hdr[entry].len)];
      return true;
    }

    /** A longer entry is split and its front part taken. */
    method TakeFirstPart(entry: nat, prev: nat, n: nat) returns (ok: bool)
      requires entry in hdr && HEAP_BEGIN <= entry && entry + HDR + hdr[entry].len <= end < TWO64
      requires var q := hdr[entry].next;
        q != NULL ==> q in hdr && q != prev && (q + HDR <= entry || entry + HDR + hdr[entry].len <= q)
      requires prev != NULL ==> prev in hdr && (prev + HDR <= entry || entry + HDR + hdr[entry].len <= prev)
      requires n < TWO64 && hdr[entry].len <= heapBytes < TWO64 - 2 * HDR
      modifies this`hdr, this`data, this`begin
      ensures ok <==> old(hdr)[entry].len > n + HDR
      ensures ok ==> Cuttable(old(hdr), entry, n, prev) && Now() == TakeFront(old(Now()), entry, n, prev)
    {
      var split := SplitEntry(entry, n);
      if split.None? {
        return false;
      }
      CutAdjusts(old(hdr), entry, n);
      var a := split.value;
      if prev != NULL {
        hdr := hdr[prev := hdr[prev].(next := a)];
        hdr := hdr[a := hdr[a].(prev := prev)];
      } else {
        begin := a;
        hdr := hdr[a := hdr[a].(prev := NULL)];
      }
      hdr := hdr[entry := TakenHeader(hdr[entry].len)];
      return true;
    }

    /** Nothing fits: pages are added, and the new entry is split behind the list's last entry. */
    method GrowAndTake(last: nat, n: nat, frames: nat) returns (r: Option<nat>)
      requires last in hdr && last != NULL && last + HDR <= end && n < TWO64
      requires HEAP_BEGIN <= end && heapBytes == end - HEAP_BEGIN
      requires heapBytes + frames * PAGE_SIZE <= MAX_FRAMES * PAGE_SIZE
      modifies this`hdr, this`data, this`begin, this`end, this`heapBytes
      ensures r.Some? <==> PagesNeeded(n) <= frames && !Snug(n)
      ensures r.Some? ==> PagesNeeded(n) > 0 && r.value == old(end)
      ensures r.Some? ==>
        var m := MapEntry(old(Now()), PagesNeeded(n), last);
        Cuttable(m.hdr, old(end), n, last) && Now() == TakeFront(m, old(end), n, last)
    {
      hide StoreHeader, ScrubHeaders, ScrubBytes, CutAndTake;
      var need := Add64(n, 2 * HDR);
      var pages := if need % PAGE_SIZE == 0 then need / PAGE_SIZE
                   else Add64(need / PAGE_SIZE * PAGE_SIZE, PAGE_SIZE) / PAGE_SIZE;
      PagesWrap(n, frames, need, pages);
      GrowArithmetic(0, n);
      var e := end;
      var ok := ExtendHeap(pages, frames);
      if !ok || pages == 0 {  // out of frames, or a header stored to an unmapped page
        return None;
      }
      StoredHeader(hdr, e, Header(MAGIC_FREE, NULL, last, pages * PAGE_SIZE - HDR), last);
      hdr := StoreHeader(hdr, e, Header(MAGIC_FREE, NULL, last, pages * PAGE_SIZE - HDR));
      data := ScrubBytes(data, e, e + HDR);
      if !(hdr[e].len >= n) {
        return None;
      }
      if hdr[e].len > n {
        ok := TakeFirstPart(e, last, n);
        if !ok {
          return None;
        }
      } else {
        assert false;
      }
      return Some(e);
    }

    /** Every payload byte is set, one store at a time. */
    method FillPayload(p: nat, n: nat)
      modifies this`hdr, this`data
      ensures hdr == ScrubHeaders(old(hdr), p, p + n)
      ensures SameOutside(old(data), data, p, p + n)
      ensures Scrubbed(data, p, p + n)
    {
      var i := 0;
      while i < n
        invariant i <= n && hdr == ScrubHeaders(old(hdr), p, p + i)
        invariant SameOutside(old(data), data, p, p + i)
        invariant forall x :: p <= x < p + i ==> x in data && data[x] == 0xFE
      {
        ScrubTwice(old(hdr), map[], p, p + i, p + i + 1);
        data := data[p + i := 0xFE];
        hdr := ScrubHeaders(hdr, p + i, p + i + 1);
        i := i + 1;
      }
    }

    /** The list surgery of an allocation, up to the block being marked taken. */
    method TakeBlock(n: nat, frames: nat) returns (r: Option<nat>)
      requires Valid() && n < TWO64 && n % 16 == 0
      requires heapBytes + frames * PAGE_SIZE <= MAX_FRAMES * PAGE_SIZE
      modifies this
      ensures r.None? <==> AllocHalts(old(layout), n, frames)
      ensures r.Some? ==> r.value == Granted(old(layout), n).addr && layout == Alloc(old(layout), n)
      ensures r.Some? ==> Pending(Now(), layout, Granted(old(layout), n))
      ensures r.Some? ==> Untouched(old(data), data, Taken(old(layout).blocks))
    {
      hide WF, Represents, PayloadsOk, PayloadOk, SamePayload, Used, Taken, Pending, TakeExact, TakeSplit, Grow,
        TakeLone, TakeOne, TakeFront, MapEntry, Cuttable;
      ghost var m, l := Now(), layout;
      var entry, prev, j := FindEntry(n);
      BlocksBounded(m, l, n, j);
      if entry == NULL {
        EntryAt(hdr, layout, j - 1);
        r := GrowAndTake(prev, n, frames);
        if r.Some? {
          GrowSound(m, l, n);
          layout := Grow(l, n);
        }
      } else {
        EntryAt(hdr, layout, j);
        if hdr[entry].len == n {
          var ok := TakeWhole(entry, prev, frames);
          if !ok {
            return None;
          }
          if |l.frees| == 1 {
            TakeLoneSound(m, l);
          } else {
            TakeOneSound(m, l, j);
          }
          layout := TakeExact(l, j);
          r := Some(entry);
        } else {
          var ok := TakeFirstPart(entry, prev, n);
          if !ok {
            return None;
          }
          TakeFrontSound(m, l, j, n);
          layout := TakeSplit(l, j, n);
          r := Some(entry);
        }
      }
    }

    /** Allocates `n0` bytes, rounded up to 16, with `frames` physical frames left to grow by. */
    method Kmalloc(n0: nat, frames: nat) returns (r: Option<nat>)
      requires Valid() && n0 < TWO64
      requires heapBytes + frames * PAGE_SIZE <= MAX_FRAMES * PAGE_SIZE
      modifies this
      ensures r.None? <==> AllocHalts(old(layout), Round16(n0), frames)
      ensures r.Some? ==> Valid() && layout == Alloc(old(layout), Round16(n0))
      ensures r.Some? ==> r.value == Granted(old(layout), Round16(n0)).addr + HDR
      ensures r.Some? ==> Scrubbed(data, r.value, r.value + Round16(n0))
      ensures r.Some? ==> Untouched(old(data), data, Taken(old(layout).blocks))
      ensures r.Some? ==> heapBytes <= old(heapBytes) + frames * PAGE_SIZE
      ensures r.Some? ==> Grants(Taken(old(layout).blocks), Taken(layout.blocks), r.value, n0)
    {
      hide WF, Represents, PayloadsOk, PayloadOk, SamePayload, Used, Taken, Alloc, Grants, AllocHalts, Granted;
      ghost var l := layout;
      var n := n0;
      if n % 16 != 0 {
        n := Add64(n, 15) / 16 * 16;
        if !(n > n0) {
          HugeHalts(Now(), l, Round16(n0), frames);
          return None;
        }
      }
      assert n == Round16(n0);
      ghost var g := Granted(l, n);
      GrantedLength(l, n);
      var res := TakeBlock(n, frames);
      if res.None? {
        return None;
      }
      ghost var m := Now();
      FillPayload(res.value + HDR, n);
      usedBytes := usedBytes + n;
      r := Some(res.value + HDR);
      FillSound(m, Now(), layout, g);
      AllocKeeps(l, n, frames);
      NotLive(l, n, frames);
      GrantsOne(l, layout, n0, frames);
      UntouchedTwice(old(data), m.data, data, Taken(l.blocks), Taken(layout.blocks) - {g});
    }

    // ----- kfree

    /** Absorbs the free entries behind the list's head; a merge that would follow a null pointer fails. */
    method TryMergeFwd(entry: nat, ghost k: nat) returns (ok: bool)
      requires Valid() && Merging(layout, k) && entry == layout.blocks[k].addr
      modifies this`hdr, this`layout
      ensures ok <==> !CoalesceHalts(old(layout), k)
      ensures ok ==> Valid() && layout == Coalesce(old(layout), k)
    {
      hide WF, Represents, PayloadsOk, Used, MergeStep, MergeEntry;
      NextEntry(hdr, layout, k);
      var next := entry + HDR + hdr[entry].len;
      while next < end && hdr[next].magic == MAGIC_FREE
        invariant Valid() && Merging(layout, k) && entry == layout.blocks[k].addr
        invariant entry in hdr && next == entry + HDR + hdr[entry].len
        invariant next < end ==> next in hdr
        invariant next < end && hdr[next].magic == MAGIC_FREE <==> CanMerge(layout, k)
        invariant CoalesceHalts(layout, k) == CoalesceHalts(old(layout), k)
        invariant Coalesce(layout, k) == Coalesce(old(layout), k)
        decreases |layout.blocks|
      {
        MergeNeighbours(hdr, layout, k);
        MergeSound(Now(), layout, k);
        MergeStepKeeps(layout, k);
        NextEntry(hdr, layout, k);
        ok := MergeOne(entry, next);
        if !ok {
          return;
        }
        layout := MergeStep(layout, k);
        NextEntry(hdr, layout, k);
        next := entry + HDR + hdr[entry].len;
      }
      ok := true;
    }

    /** One round of the merge loop. */
    method MergeOne(entry: nat, next: nat) returns (ok: bool)
      requires entry in hdr && next in hdr && next != entry
      requires var p := hdr[next].prev; p != NULL && p in hdr && p != next
      requires var q := hdr[next].next; q != NULL ==> q in hdr && q != next && q != entry && q != hdr[next].prev
      requires next == hdr[entry].next <==> hdr[next].prev == entry
      modifies this`hdr
      ensures ok <==> !(old(hdr)[entry].next == next && old(hdr)[next].next == NULL)
      ensures ok ==> Now() == MergeEntry(old(Now()), entry, next)
    {
      var q := hdr[next].next;
      if next == hdr[entry].next {
        if q == NULL {  // a store through the null pointer
          return false;
        }
        hdr := hdr[q := hdr[q].(prev := entry)];
        hdr := hdr[entry := hdr[entry].(next := q)];
      } else {
        var p := hdr[next].prev;
        if q != NULL {
          hdr := hdr[q := hdr[q].(prev := p)];
          hdr := hdr[p := hdr[p].(next := q)];
        } else {
          hdr := hdr[p := hdr[p].(next := NULL)];
        }
      }
      hdr := hdr[entry := hdr[entry].(len := hdr[entry].len + HDR + hdr[next].len)];
      return true;
    }

    /** Gives back all pages from `lo` on, one at a time. */
    method UnmapFrom(lo: nat)
      requires lo <= end && lo % PAGE_SIZE == 0 == end % PAGE_SIZE && end - lo <= heapBytes
      modifies this`hdr, this`data, this`end, this`heapBytes
      ensures Now() == Unmap(old(Now()), lo)
    {
      WholePages(lo, end);
      var pages := (end - lo) / PAGE_SIZE;
      end := lo;
      var i := 0;
      while i < pages
        invariant i <= pages && heapBytes == old(heapBytes) - i * PAGE_SIZE && end == lo
        invariant hdr == ScrubHeaders(old(hdr), lo, lo + i * PAGE_SIZE)
        invariant data == ScrubBytes(old(data), lo, lo + i * PAGE_SIZE)
      {
        ScrubTwice(old(hdr), old(data), lo, lo + i * PAGE_SIZE, lo + i * PAGE_SIZE + PAGE_SIZE);
        heapBytes := heapBytes - PAGE_SIZE;
        hdr := ScrubHeaders(hdr, lo + i * PAGE_SIZE, lo + i * PAGE_SIZE + PAGE_SIZE);
        data := ScrubBytes(data, lo + i * PAGE_SIZE, lo + i * PAGE_SIZE + PAGE_SIZE);
        i := i + 1;
      }
    }

    /** How long the entry has to be for the next one to start on a page. */
    method PadTo(entry: nat) returns (diff: nat)
      requires entry % 16 == 0
      ensures diff == Padding(entry) + HDR
    {
      diff := PAGE_SIZE - entry % PAGE_SIZE;
      if diff <= HDR {
        diff := diff + PAGE_SIZE;
      }
    }

    /** Splits the head so that the rest starts on a page, and takes the rest off the list again. */
    method CutAtPage(entry: nat) returns (rest: nat)
      requires entry % 16 == 0 && entry % PAGE_SIZE != 0
      requires entry in hdr && HEAP_BEGIN <= entry && entry + HDR + hdr[entry].len <= end < TWO64
      requires hdr[entry].len > Padding(entry) + HDR && hdr[entry].len <= heapBytes < TWO64 - 2 * HDR
      requires var q := hdr[entry].next;
        q in hdr && q != NULL && (q + HDR <= entry || entry + HDR + hdr[entry].len <= q)
      modifies this`hdr, this`data
      ensures rest == entry + HDR + Padding(entry) && Now() == PadHead(old(Now()), entry, Padding(entry))
    {
      hide Padding, Cut, ScrubBytes;
      var diff := PadTo(entry);
      CutAdjusts(hdr, entry, diff - HDR);
      var split := SplitEntry(entry, diff - HDR);
      rest := split.value;
      var ret, q := hdr[rest].prev, hdr[rest].next;
      hdr := hdr[ret := hdr[ret].(next := q)];
      if q != NULL {
        hdr := hdr[q := hdr[q].(prev := ret)];
      }
    }

    /** Shrinks a heap that ends in three free pages or more; returns the list's new head. */
    method TryShrinkHeap(entry: nat, ghost k: nat) returns (ret: nat)
      requires Valid() && Merging(layout, k) && entry == layout.blocks[k].addr && |layout.frees| > 1
      modifies this`hdr, this`data, this`end, this`heapBytes, this`layout
      ensures Sound(Now().(begin := ret), layout) && layout == Shrink(old(layout), k)
      ensures Untouched(old(data), data, Taken(old(layout).blocks))
    {
      hide WF, Represents, PayloadsOk, Used, PayloadOk, SamePayload, Taken, Shrink, Cut, Padding, PadHead, Untouched;
      ghost var m, l := Now(), layout;
      NextEntry(hdr, l, k);
      EntryAt(hdr, l, 0);
      ShrinkPages(l, k);
      SamePayloads(data, l);
      if entry + HDR + hdr[entry].len != end || hdr[entry].len + HDR < PAGE_SIZE * 3 {
        return entry;
      }
      if entry % PAGE_SIZE != 0 {
        PadSound(m, l, k);
        PaddingArithmetic(l.blocks[k]);
        var rest := CutAtPage(entry);
        ret := entry;
        UnmapFrom(rest);
      } else {
        DropSound(m, l, k);
        ret := hdr[entry].next;
        hdr := hdr[ret := hdr[ret].(prev := NULL)];
        UnmapFrom(entry);
      }
      layout := Shrink(l, k);
    }

    /** Releases the block whose payload is at `addr`. */
    method Kfree(addr: nat, ghost k: nat) returns (ok: bool)
      requires Valid() && k < |layout.blocks| && addr == layout.blocks[k].addr + HDR
      modifies this
      ensures ok <==> !old(layout).blocks[k].free && !FreeHalts(old(layout), k)
      ensures ok ==> Valid() && layout == Free(old(layout), k)
      ensures ok ==> Untouched(old(data), data, Taken(layout.blocks)) && heapBytes <= old(heapBytes)
      ensures ok ==> Taken(layout.blocks) == Taken(old(layout).blocks) - {old(layout).blocks[k]}
    {
      hide WF, Represents, PayloadsOk, Used, PayloadOk, SamePayload, Taken, Shrink, Coalesce, CoalesceHalts, Push,
        PushEntry;
      ghost var m, l := Now(), layout;
      var freed := addr - HDR;
      TakenAt(hdr, layout, k);
      EntryAt(hdr, layout, 0);
      if hdr[freed].magic != MAGIC_TAKEN {
        return false;
      }
      assert hdr[freed].next == NULL == hdr[freed].prev;
      assert hdr[begin].magic == MAGIC_FREE && hdr[begin].prev == NULL;
      PushSound(m, l, k);
      PushKeeps(l, k);
      PushRelease(freed);
      layout := Push(l, k);
      PushedAt(l, k);
      ghost var p := layout;
      ok := TryMergeFwd(freed, k);
      if !ok {
        return;
      }
      CoalesceKeeps(p, k);
      CoalesceHaltsIff(p, k);
      CoalescedAt(p, k);
      begin := TryShrinkHeap(freed, k);
      FreeKeeps(l, k);
      UntouchedLess(old(data), data, Taken(p.blocks), Taken(layout.blocks));
    }

    /** The stores that mark the block free and make it the list's head. */
    method PushRelease(freed: nat)
      requires freed in hdr && begin in hdr && freed != begin && hdr[freed].len <= usedBytes
      modifies this`hdr, this`begin, this`usedBytes
      ensures Now() == PushEntry(old(Now()), freed)
    {
      usedBytes := usedBytes - hdr[freed].len;
      hdr := hdr[freed := hdr[freed].(next := begin)];
      hdr := hdr[begin := hdr[begin].(prev := freed)];
      begin := freed;
      hdr := hdr[freed := hdr[freed].(magic := MAGIC_FREE)];
    }

    // ----- krealloc

    /** Copies payload bytes one at a time. */
    method CopyPayload(dst: nat, src: nat, n: nat)
      requires forall x :: src <= x < src + n ==> x in data
      requires src + n <= dst || dst + n <= src
      modifies this`hdr, this`data
      ensures hdr == ScrubHeaders(old(hdr), dst, dst + n) && SameOutside(old(data), data, dst, dst + n)
      ensures Copied(old(data), src, data, dst, n)
    {
      var i := 0;
      while i < n
        invariant i <= n && hdr == ScrubHeaders(old(hdr), dst, dst + i)
        invariant SameOutside(old(data), data, dst, dst + i)
        invariant forall x :: src <= x < src + n ==> x in data && data[x] == old(data)[x]
        invariant Copied(old(data), src, data, dst, i)
      {
        ScrubTwice(old(hdr), map[], dst, dst + i, dst + i + 1);
        data := data[dst + i := data[src + i]];
        hdr := ScrubHeaders(hdr, dst + i, dst + i + 1);
        i := i + 1;
      }
    }

    /** Moves the block at `addr` to a new one of `newsize` bytes. */
    method MoveBlock(addr: nat, newsize: nat, frames: nat, ghost k: nat) returns (r: Option<nat>)
      requires Valid() && newsize < TWO64
      requires heapBytes + frames * PAGE_SIZE <= MAX_FRAMES * PAGE_SIZE
      requires k < |layout.blocks| && addr == layout.blocks[k].addr + HDR && !layout.blocks[k].free
      modifies this
      ensures var l, n, b := old(layout), Round16(newsize), old(layout).blocks[k];
        && (r.Some? <==> !AllocHalts(l, n, frames) && !MoveHalts(l, n, frames, b))
        && (r.Some? ==> r.value == Granted(l, n).addr + HDR)
        && (r.Some? ==> Valid() && layout == Moved(l, n, frames, b))
        && (r.Some? ==> Copied(old(data), addr, data, r.value, Min(newsize, b.len)))
        && (r.Some? ==> Scrubbed(data, r.value + Min(newsize, b.len), r.value + n))
        && (r.Some? ==> Untouched(old(data), data, Taken(l.blocks) - {b}))
        && (r.Some? ==> Grants(Taken(l.blocks) - {b}, Taken(layout.blocks), r.value, newsize))
    {
      hide WF, Represents, PayloadsOk, Grants, Counted, SamePayload, Untouched, Copied, Scrubbed, Used, Taken, Alloc,
        AllocHalts, Free, FreeHalts, Granted, ScrubHeaders;
      ghost var l, n := layout, Round16(newsize);
      ghost var b, g := l.blocks[k], Granted(l, n);
      TakenAt(hdr, layout, k);
      assert hdr[addr - HDR].magic == MAGIC_TAKEN;
      r := Kmalloc(newsize, frames);
      if r.None? {
        return;
      }
      ghost var m1, l1 := Now(), layout;
      AllocKeeps(l, n, frames);
      NotLive(l, n, frames);
      Relocation(l, l1, b, g);
      ghost var k1 := IndexOf(l1.blocks, b);
      TakenAt(hdr, l1, k1);
      GrantedLength(l, n);
      var len := hdr[addr - HDR].len;
      var count := if newsize > len then len else newsize;
      PayloadThere(data, l1, b);
      CopyPayload(r.value, addr, count);
      ghost var m2 := Now();
      CopiedThere(m1.data, addr, m2.data, r.value, count);
      CopySound(m1, m2, l1, g, r.value, count);
      var ok := Kfree(addr, k1);
      if !ok {
        return None;
      }
      FreeKeeps(l1, k1);
      GrantsOther(l, l1, newsize, b, Taken(layout.blocks));
      SetAway(Taken(l.blocks), Taken(l1.blocks), g);
      MovedBytes(old(data), m1.data, m2.data, data, Taken(l.blocks), b, g, count);
      MovedRest(m1.data, m2.data, data, Taken(l.blocks), b, g, count);
    }

    /** Resizes the block at `addr`; a null `addr` only allocates. */
    method Krealloc(addr: nat, newsize: nat, frames: nat, ghost k: nat) returns (r: Option<nat>)
      requires Valid() && newsize < TWO64
      requires heapBytes + frames * PAGE_SIZE <= MAX_FRAMES * PAGE_SIZE
      requires addr != NULL ==> k < |layout.blocks| && addr == layout.blocks[k].addr + HDR
      modifies this
      ensures r.Some? ==> Valid() && r.value == Granted(old(layout), Round16(newsize)).addr + HDR
      ensures addr == NULL ==> (r.None? <==> AllocHalts(old(layout), Round16(newsize), frames))
      ensures addr == NULL && r.Some? ==> layout == Alloc(old(layout), Round16(newsize))
      ensures addr == NULL && r.Some? ==> Scrubbed(data, r.value, r.value + Round16(newsize))
      ensures addr == NULL && r.Some? ==> Untouched(old(data), data, Taken(old(layout).blocks))
      ensures addr == NULL && r.Some? ==> Grants(Taken(old(layout).blocks), Taken(layout.blocks), r.value, newsize)
      ensures addr != NULL && old(layout).blocks[k].free ==> r.None?
      ensures addr != NULL && !old(layout).blocks[k].free ==>
        var l, n, b := old(layout), Round16(newsize), old(layout).blocks[k];
        && (r.Some? <==> !AllocHalts(l, n, frames) && !MoveHalts(l, n, frames, b))
        && (r.Some? ==> layout == Moved(l, n, frames, b))
        && (r.Some? ==> Copied(old(data), addr, data, r.value, Min(newsize, b.len)))
        && (r.Some? ==> Scrubbed(data, r.value + Min(newsize, b.len), r.value + n))
        && (r.Some? ==> Untouched(old(data), data, Taken(l.blocks) - {b}))
        && (r.Some? ==> Grants(Taken(l.blocks) - {b}, Taken(layout.blocks), r.value, newsize))
    {
      hide WF, Represents, PayloadsOk, Grants, SamePayload, Untouched, Copied, Scrubbed, Used, Taken, Alloc, AllocHalts,
        Granted, MoveHalts, Moved;
      if addr == NULL {
        r := Kmalloc(newsize, frames);
        return;
      }
      TakenAt(hdr, layout, k);
      if hdr[addr - HDR].magic != MAGIC_TAKEN {
        return None;
      }
      r := MoveBlock(addr, newsize, frames, k);
    }

    // ----- the callers' own stores

    /** A caller writes a byte of a block it holds. */
    method Write(at: nat, v: nat, ghost k: nat)
      requires Valid() && k < |layout.blocks| && !layout.blocks[k].free
      requires layout.blocks[k].addr + HDR <= at < layout.blocks[k].End()
      modifies this`hdr, this`data
      ensures Valid() && data == old(data)[at := v]
    {
      hide WF, Represents, PayloadsOk, Used, ScrubHeaders;
      ghost var m := Now();
      data := data[at := v];
      hdr := ScrubHeaders(hdr, at, at + 1);
      WriteSound(m, Now(), layout, layout.blocks[k], at, v);
    }
  }

  /** 64-bit wrap-around never makes an oversized request look satisfiable. */
  lemma PagesWrap(n: nat, frames: nat, need: nat, pages: nat)
    requires n < TWO64 && frames <= MAX_FRAMES && need == Add64(n, 2 * HDR)
    requires pages == if need % PAGE_SIZE == 0 then need / PAGE_SIZE
                      else Add64(need / PAGE_SIZE * PAGE_SIZE, PAGE_SIZE) / PAGE_SIZE
    ensures n < TWO64 - 2 * PAGE_SIZE ==> pages == PagesNeeded(n)
    ensures n >= TWO64 - 2 * PAGE_SIZE ==> frames < PagesNeeded(n)
    ensures n >= TWO64 - 2 * PAGE_SIZE && 0 < pages <= frames ==> pages * PAGE_SIZE < n
  {
  }

  /** The wrapped test picks the same entry as `FirstFit`, or one the split will refuse. */
  lemma BlocksBounded(m: Mem, l: Layout, n: nat, j: nat)
    requires Sound(m, l) && n < TWO64 && j <= |l.frees|
    requires forall i :: 0 <= i < j ==> !(l.frees[i].len == n || l.frees[i].len > Add64(n, HDR))
    requires j < |l.frees| ==> l.frees[j].len == n || l.frees[j].len > Add64(n, HDR)
    ensures l.frees != []
    ensures n + HDR < TWO64 ==> FirstFit(l.frees, n) == j
    ensures n + HDR >= TWO64 ==> FirstFit(l.frees, n) == |l.frees|
    ensures j < |l.frees| ==> l.frees[j].len + HDR <= m.heapBytes
  {
    forall i | 0 <= i < |l.frees| ensures l.frees[i].len + HDR <= m.heapBytes {
      InHeap(l, l.frees[i]);
    }
  }

  /** A request beyond all memory halts. */
  lemma HugeHalts(m: Mem, l: Layout, n: nat, frames: nat)
    requires Sound(m, l) && n >= MAX_FRAMES * PAGE_SIZE && frames <= MAX_FRAMES
    ensures AllocHalts(l, n, frames)
  {
    forall i | 0 <= i < |l.frees| ensures !Fits(l.frees[i], n) {
      InHeap(l, l.frees[i]);
    }
  }

  /** The block granted was not live before. */
  lemma NotLive(l: Layout, n: nat, frames: nat)
    requires WF(l) && n % 16 == 0 && !AllocHalts(l, n, frames)
    ensures Granted(l, n) !in Taken(l.blocks)
  {
    var g, j := Granted(l, n), FirstFit(l.frees, n);
    if g in Taken(l.blocks) {
      InHeap(l, g);
      if j < |l.frees| {
        AddrUnique(l, g, l.frees[j]);
      }
    }
  }

  lemma UntouchedTwice(d: Bytes, d1: Bytes, d2: Bytes, a: set<Block>, b: set<Block>)
    requires Untouched(d, d1, a) && Untouched(d1, d2, b) && a <= b
    ensures Untouched(d, d2, a)
  {
    forall c | c in a ensures SamePayload(d, d2, c) {
      assert SamePayload(d, d1, c) && SamePayload(d1, d2, c);
    }
  }

  lemma ShrinkPages(l: Layout, k: nat)
    requires Merging(l, k)
    ensures Shrinks(l, k) <==> l.blocks[k].End() == l.End() && l.blocks[k].len + HDR >= PAGE_SIZE * 3
    ensures l.End() % PAGE_SIZE == 0 && l.blocks[k].addr % 16 == 0
    ensures !Shrinks(l, k) ==> Shrink(l, k) == l
  {
    InHeap(l, l.blocks[k]);
    if k + 1 < |l.blocks| {
      InHeap(l, l.blocks[k + 1]);
    }
  }

  lemma WholePages(lo: nat, hi: nat)
    requires lo <= hi && lo % PAGE_SIZE == 0 == hi % PAGE_SIZE
    ensures (hi - lo) / PAGE_SIZE * PAGE_SIZE == hi - lo
  {
  }

  lemma PushedAt(l: Layout, k: nat)
    requires k < |l.blocks|
    ensures k < |Push(l, k).blocks| && Push(l, k).blocks[k].addr == l.blocks[k].addr
  {
  }

  lemma {:induction false} CoalescedAt(l: Layout, k: nat)
    requires Merging(l, k)
    ensures k < |Coalesce(l, k).blocks| && Coalesce(l, k).blocks[k].addr == l.blocks[k].addr
  {
    CoalesceAbsorbsRun(l, k);
  }

  lemma UntouchedLess(d: Bytes, d': Bytes, a: set<Block>, b: set<Block>)
    requires Untouched(d, d', a) && b <= a
    ensures Untouched(d, d', b)
  {
  }

  /** Of the live blocks one is new: at that address, aligned, and as long as asked for, rounded up to 16. */
  ghost predicate Grants(was: set<Block>, now: set<Block>, addr: nat, n: nat) {
    exists b :: b in now && b !in was && now == was + {b} && b.addr + HDR == addr && addr % 16 == 0 &&
      n <= b.len < n + 16
  }

  lemma GrantsOne(l: Layout, l': Layout, n0: nat, frames: nat)
    requires WF(l) && WF(l') && !AllocHalts(l, Round16(n0), frames) && Granted(l, Round16(n0)) !in Taken(l.blocks)
    requires Taken(l'.blocks) == Taken(l.blocks) + {Granted(l, Round16(n0))}
    ensures Grants(Taken(l.blocks), Taken(l'.blocks), Granted(l, Round16(n0)).addr + HDR, n0)
  {
    hide Granted, AllocHalts;
    var g := Granted(l, Round16(n0));
    GrantedLength(l, Round16(n0));
    AlignedBlock(l', g);
  }

  lemma AlignedBlock(l: Layout, b: Block)
    requires WF(l) && b in Taken(l.blocks)
    ensures (b.addr + HDR) % 16 == 0
  {
    hide Distinct, ListsFrees, Chained;
    var i := IndexOf(l.blocks, b);
  }

  lemma GrantsOther(l: Layout, l1: Layout, n0: nat, b: Block, now: set<Block>)
    requires WF(l1) && b in Taken(l.blocks) && Granted(l, Round16(n0)) !in Taken(l.blocks)
    requires Taken(l1.blocks) == Taken(l.blocks) + {Granted(l, Round16(n0))} && now == Taken(l1.blocks) - {b}
    ensures Grants(Taken(l.blocks) - {b}, now, Granted(l, Round16(n0)).addr + HDR, n0)
  {
    hide Granted, WF, Taken;
    var g := Granted(l, Round16(n0));
    GrantedLength(l, Round16(n0));
    AlignedBlock(l1, g);
    assert now == Taken(l.blocks) - {b} + {g};
  }

  /** Where `krealloc`'s release halts: on the heap its allocation left. */
  ghost predicate MoveHalts(l: Layout, n: nat, frames: nat, b: Block)
    requires WF(l) && n % 16 == 0 && !AllocHalts(l, n, frames) && b in Taken(l.blocks)
  {
    AllocKeeps(l, n, frames);
    FreeHalts(Alloc(l, n), IndexOf(Alloc(l, n).blocks, b))
  }

  ghost function Moved(l: Layout, n: nat, frames: nat, b: Block): Layout
    requires WF(l) && n % 16 == 0 && !AllocHalts(l, n, frames) && b in Taken(l.blocks)
  {
    AllocKeeps(l, n, frames);
    Free(Alloc(l, n), IndexOf(Alloc(l, n).blocks, b))
  }

  lemma Relocation(l: Layout, l1: Layout, b: Block, g: Block)
    requires WF(l1) && Taken(l1.blocks) == Taken(l.blocks) + {g} && b in Taken(l.blocks) && g !in Taken(l.blocks)
    ensures b in l1.blocks && b in Taken(l1.blocks) && g in Taken(l1.blocks) && b != g
    ensures b.End() <= g.addr || g.End() <= b.addr
  {
    TakenDisjoint(l1, b, g);
  }

  lemma PayloadThere(d: Bytes, l: Layout, b: Block)
    requires PayloadsOk(d, l.blocks) && b in Taken(l.blocks)
    ensures forall x :: b.addr + HDR <= x < b.End() ==> x in d
  {
    assert PayloadOk(d, b);
  }

  /** Stores into a live payload leave the heap sound and every other payload alone. */
  lemma CopySound(m: Mem, m': Mem, l: Layout, g: Block, dst: nat, n: nat)
    requires Sound(m, l) && g in Taken(l.blocks) && dst == g.addr + HDR && n <= g.len
    requires m'.hdr == ScrubHeaders(m.hdr, dst, dst + n) && SameOutside(m.data, m'.data, dst, dst + n)
    requires forall x :: dst <= x < dst + n ==> x in m'.data
    requires m' == m.(hdr := m'.hdr, data := m'.data)
    ensures Sound(m', l) && Untouched(m.data, m'.data, Taken(l.blocks) - {g})
  {
    hide Represents, Used, Chained, Aligned, ListsFrees, Distinct;
    ScrubInside(m.hdr, l, g, dst, dst + n);
    InsidePayloads(m.data, m'.data, l, g, dst, dst + n);
    CopyPayloads(m.data, m'.data, l, g, dst, n);
  }

  lemma CopyPayloads(d: Bytes, d': Bytes, l: Layout, g: Block, dst: nat, n: nat)
    requires PayloadsOk(d, l.blocks) && g in Taken(l.blocks) && Untouched(d, d', Taken(l.blocks) - {g})
    requires dst == g.addr + HDR && n <= g.len && SameOutside(d, d', dst, dst + n)
    requires forall x :: dst <= x < dst + n ==> x in d'
    ensures PayloadsOk(d', l.blocks)
  {
    forall c | c in l.blocks ensures PayloadOk(d', c) {
      assert PayloadOk(d, c);
      if c != g && !c.free {
        assert SamePayload(d, d', c);
      }
    }
  }

  /** Through allocation, copy and release: the copied bytes arrive, all other payloads stay. */
  lemma MovedBytes(d0: Bytes, d1: Bytes, d2: Bytes, d3: Bytes, live: set<Block>, b: Block, g: Block, n: nat)
    requires Untouched(d0, d1, live) && Untouched(d1, d2, live) && Untouched(d2, d3, live + {g} - {b})
    requires b in live && g !in live && n <= g.len && n <= b.len
    requires Copied(d1, b.addr + HDR, d2, g.addr + HDR, n)
    ensures Untouched(d0, d3, live - {b}) && Copied(d0, b.addr + HDR, d3, g.addr + HDR, n)
  {
    assert SamePayload(d0, d1, b) && SamePayload(d2, d3, g);
    forall c | c in live - {b} ensures SamePayload(d0, d3, c) {
      assert SamePayload(d0, d1, c) && SamePayload(d1, d2, c) && SamePayload(d2, d3, c);
    }
  }

  lemma MovedRest(d1: Bytes, d2: Bytes, d3: Bytes, live: set<Block>, b: Block, g: Block, n: nat)
    requires Scrubbed(d1, g.addr + HDR, g.End()) && SameOutside(d1, d2, g.addr + HDR, g.addr + HDR + n)
    requires Untouched(d2, d3, live + {g} - {b}) && b in live && g !in live
    ensures Scrubbed(d3, g.addr + HDR + n, g.End())
  {
    assert SamePayload(d2, d3, g);
  }

  lemma WriteSound(m: Mem, m': Mem, l: Layout, b: Block, at: nat, v: nat)
    requires Sound(m, l) && b in l.blocks && !b.free && b.addr + HDR <= at < b.End()
    requires m' == m.(hdr := ScrubHeaders(m.hdr, at, at + 1), data := m.data[at := v])
    ensures Sound(m', l)
  {
    hide Represents, Used, Chained, Aligned, ListsFrees, Distinct, ScrubHeaders;
    ScrubInside(m.hdr, l, b, at, at + 1);
  }

  lemma GrantedLength(l: Layout, n: nat)
    ensures Granted(l, n).len == n
  {
  }

  lemma CopiedThere(d: Bytes, src: nat, d': Bytes, dst: nat, n: nat)
    requires Copied(d, src, d', dst, n)
    ensures forall x :: dst <= x < dst + n ==> x in d'
  {
  }

  lemma SetAway(a: set<Block>, b: set<Block>, g: Block)
    requires b == a + {g} && g !in a
    ensures b - {g} == a
  {
  }
}
