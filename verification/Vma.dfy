/**
 The virtual memory areas of a task: the region map kept in a skip list.
 */
module Vma {
  import opened SkipListShape
  import opened SkipList
  import opened RegionMap
  import opened Wrappers

  const RANGE_BEGIN: nat := 0x1000
  const RANGE_END: nat := 0x1000 + 0xFFF8_0000_0000_0000 - 0x20000

  /** The region `upper_bound` and one step back lead to. */
  ghost predicate HintAt(es: Regions, hint: nat, i: nat) {
    && i < |es|
    && if es[0].0 <= hint then es[i].0 <= hint && (i + 1 < |es| ==> es[i + 1].0 > hint) else i == |es| - 1
  }

  const FIRST := Region(RANGE_BEGIN, RANGE_END - RANGE_BEGIN, FREE, 2)

  class VMA {
    const regions: SkipListMap<Region>
    ghost var limit: nat // where the last region ends

    ghost predicate Valid()
      reads this, regions
    {
      regions.Valid() && Partition(regions.Contents(), RANGE_BEGIN, limit)
    }

    constructor ()
      ensures Valid() && fresh(regions) && limit == RANGE_END
      ensures regions.Contents() == [(RANGE_BEGIN, FIRST)]
      ensures forall x: nat, v :: Shows(regions.Contents(), x, v) <==> RANGE_BEGIN <= x < RANGE_END && v == Free
    {
      regions := new SkipListMap();
      limit := RANGE_END;
      new;
      var it, isNew, at := regions.Emplace(RANGE_BEGIN, FIRST);
      assert regions.Contents() == [(RANGE_BEGIN, FIRST)];
      ChainOne(FIRST);
      forall x: nat, v ensures Shows(regions.Contents(), x, v) <==> RANGE_BEGIN <= x < RANGE_END && v == Free {
        ShowsOne((RANGE_BEGIN, FIRST), x, v);
      }
    }

    /** The region found for a hint: the one at or before it, or, by `upper_bound`'s quirk, the last. */
    method AtHint(hint: nat) returns (it: Ptr, ghost i: nat)
      requires Valid()
      ensures HintAt(regions.Contents(), hint, i) && i + 2 < |regions.shape.order| && it == regions.shape.order[i + 1]
    {
      hide Represents, Chain, Solid;
      var ub, at := regions.UpperBound(hint);
      ghost var p := if at == 1 then |regions.shape.order| - 1 else at;
      it := regions.Prev(ub, p);
      i := p - 2;
    }

    /** The first usable region, or the end. */
    method FirstUsable(length: nat) returns (it: Ptr, ghost i: nat)
      requires Valid()
      ensures i + 1 < |regions.shape.order| && it == regions.shape.order[i + 1] && i <= |regions.Contents()|
      ensures i < |regions.Contents()| ==>
        regions.Contents()[i].1.kind.FREE? && length <= regions.Contents()[i].1.length
      ensures forall j :: 0 <= j < i && regions.Contents()[j].1.kind.FREE? ==> regions.Contents()[j].1.length < length
      ensures it == regions.endnode <==> i == |regions.Contents()|
    {
      hide Represents, Chain, Solid;
      it := regions.Next(regions.root, 0);
      i := 0;
      while it != regions.endnode
        invariant i <= |regions.Contents()| && i + 1 < |regions.shape.order| && it == regions.shape.order[i + 1]
        invariant forall j ::
          0 <= j < i && regions.Contents()[j].1.kind.FREE? ==> regions.Contents()[j].1.length < length
        decreases |regions.Contents()| - i
      {
        EndLast(regions, i + 1);
        var r := regions.Get(it, i + 1);
        if r.kind.FREE? && r.length >= length {
          return;
        }
        it := regions.Next(it, i + 1);
        i := i + 1;
      }
      EndLast(regions, i + 1);
    }

    /** Takes the chosen region out of the map and puts its parts back. */
    method Carve(r: Region, hint: nat, length: nat, ghost i: nat) returns (found: Ptr)
      requires Valid() && i < |regions.Contents()| && r == regions.Contents()[i].1 && Usable(r, length)
      modifies this, regions
      ensures regions.Valid() && regions.Contents() == Carved(old(regions.Contents()), i, hint, length,
        Handed(r, hint, length))
      ensures i + |Front(r, hint, length)| + 2 < |regions.shape.order|
      ensures found == regions.shape.order[i + |Front(r, hint, length)| + 1]
      ensures limit == EndAfter(old(regions.Contents()), i, hint, length, old(limit))
    {
      hide Represents, Chain, Solid, AsMap, SortedEntries, Gap, Behind, Front, CutPoint, Cuts, EndAfter, Entries;
      ghost var es := regions.Contents();
      TakeOut(r, i);
      NotEmpty(es, RANGE_BEGIN, limit, i);
      var begin;
      ghost var left;
      begin, left := PutFront(r, hint, length, i, es);
      found := PutParts(begin, r.length, length, left, es[i + 1..], r.End());
      BehindIs(r, hint, length, es[i + 1..], i + 1 == |es|);
      limit := EndAfter(es, i, hint, length, limit);
    }

    /** Region i leaves the map. */
    method TakeOut(r: Region, ghost i: nat)
      requires Valid() && i < |regions.Contents()| && r == regions.Contents()[i].1
      modifies regions
      ensures regions.Valid() && regions.Contents() == old(regions.Contents())[..i] + old(regions.Contents())[i + 1..]
    {
      hide Represents, Chain, Solid, AsMap, SortedEntries, Entries;
      ghost var es := regions.Contents();
      KeyOf(es, RANGE_BEGIN, limit, i);
      var after, ok, at := regions.EraseKey(r.begin);
      ErasedIndex(es, RANGE_BEGIN, limit, i, at - 1, ok);
    }

    /** What lies in front of the hint goes back, if the hint cuts the region. */
    method PutFront(r: Region, hint: nat, length: nat, ghost i: nat, ghost es: Regions)
      returns (begin: nat, ghost left: Regions)
      requires Partition(es, RANGE_BEGIN, limit) && i < |es| && es[i].1 == r && length <= r.length
      requires regions.Valid() && regions.Contents() == es[..i] + es[i + 1..]
      modifies regions
      ensures begin == CutPoint(r, hint, length) && left == es[..i] + Front(r, hint, length)
      ensures regions.Valid() && regions.Contents() == left + es[i + 1..]
      ensures begin + length <= r.End() && (es[i + 1..] != [] ==> begin < r.End())
      ensures Gap(left, es[i + 1..], RANGE_BEGIN, begin, r.End(), limit)
    {
      hide Represents, Chain, Solid, Gap, Entries, Insert;
      ghost var right := es[i + 1..];
      OpenGap(es, RANGE_BEGIN, limit, i);
      NotEmpty(es, RANGE_BEGIN, limit, i);
      begin, left := r.begin, es[..i];
      if Cuts(r, hint, length) {
        var front := Region(r.begin, hint - r.begin, FREE, 0);
        var it := PutNew(front, left, right, r.begin, r.End());
        GapFillLeft(left, right, RANGE_BEGIN, r.begin, r.End(), limit, front);
        left := left + [(r.begin, front)];
        begin := hint;
      } else {
        assert left + [] == left;
      }
    }

    /** The rest goes back first, then the part handed out; where the rest begins there already, it is handed out. */
    method PutParts(begin: nat, total: nat, length: nat, ghost left: Regions, ghost right: Regions, ghost stop: nat)
      returns (found: Ptr)
      requires regions.Valid() && regions.Contents() == left + right
      requires Gap(left, right, RANGE_BEGIN, begin, stop, limit)
      requires length <= total && begin + length <= stop && (right != [] ==> begin < stop)
      modifies regions
      ensures var b := begin + length;
        var given := if length == 0 then Region(begin, total, FREE, 0) else Region(begin, length, ANON, 0);
        var behind := if length == 0 || (b == stop &&
          right != []) then [] else [(b, Region(b, total - length, FREE, 0))];
        regions.Valid() && regions.Contents() == left + ([(begin, given)] + behind + right)
      ensures |left| + 2 < |regions.shape.order| && found == regions.shape.order[|left| + 1]
    {
      hide Represents, Chain, Solid, AsMap, SortedEntries, Gap;
      var rest := Region(begin + length, total - length, FREE, 0);
      ghost var right' := PutRest(rest, left, right, begin, stop);
      GapSplits(left, right, RANGE_BEGIN, begin, stop, limit, begin);
      if length > 0 {
        BeforeRest(left, right, right', begin, rest);
        var it := PutAt(Region(begin, length, ANON, 0), left, right');
        InsertBetween(left, right', (begin, Region(begin, length, ANON, 0)));
        found := it;
        assert [(begin, Region(begin, length, ANON, 0))] + right'
            == [(begin, Region(begin, length, ANON, 0))]
             + (if begin + length == stop && right != [] then [] else [(rest.begin, rest)]) + right;
      } else {
        found := Again(Region(begin, 0, ANON, 0), left, right');
        assert [(begin, rest)] + [] + right == right';
      }
    }

    /** A region is added where its key belongs. */
    method PutAt(r: Region, ghost left: Regions, ghost right: Regions) returns (it: Ptr)
      requires regions.Valid() && regions.Contents() == left + right
      requires SplitsAt(left + right, |left|, r.begin) && !HasKey(left + right, r.begin)
      modifies regions
      ensures regions.Valid() && regions.Contents() == Insert(left + right, |left|, (r.begin, r))
      ensures |left| + 2 < |regions.shape.order| && it == regions.shape.order[|left| + 1]
    {
      hide Represents, AsMap, SortedEntries;
      AsMapInContents(regions.nodes, regions.shape, regions.curL, r.begin);
      var isNew;
      ghost var at;
      it, isNew, at := regions.Emplace(r.begin, r);
      SplitsUnique(left + right, at - 1, |left|, r.begin);
    }

    /** A region whose key lies inside the gap is added there. */
    method PutNew(r: Region, ghost left: Regions, ghost right: Regions, ghost cur: nat, ghost stop: nat)
      returns (it: Ptr)
      requires regions.Valid() && regions.Contents() == left + right && Gap(left, right, RANGE_BEGIN, cur, stop, limit)
      requires cur <= r.begin < stop
      modifies regions
      ensures regions.Valid() && regions.Contents() == Insert(left + right, |left|, (r.begin, r))
      ensures |left| + 2 < |regions.shape.order| && it == regions.shape.order[|left| + 1]
    {
      hide Represents, Chain, Solid, Gap;
      GapSplits(left, right, RANGE_BEGIN, cur, stop, limit, r.begin);
      it := PutAt(r, left, right);
    }

    /** A region whose key is taken is not added; what has the key is found. */
    method Again(r: Region, ghost left: Regions, ghost right: Regions) returns (it: Ptr)
      requires regions.Valid() && regions.Contents() == left + right && right != [] && right[0].0 == r.begin
      modifies regions
      ensures regions.Valid() && regions.Contents() == left + right
      ensures |left| + 2 < |regions.shape.order| && it == regions.shape.order[|left| + 1]
    {
      hide Represents, AsMap;
      ghost var es := regions.Contents();
      assert es[|left|] == right[0];
      AsMapInContents(regions.nodes, regions.shape, regions.curL, r.begin);
      EntriesSorted(regions.nodes, regions.shape, regions.curL);
      var isNew;
      ghost var at;
      it, isNew, at := regions.Emplace(r.begin, r);
      SameKey(es, at - 1, |left|);
    }

    /** The free rest goes back, unless a region already begins where it would. */
    method PutRest(rest: Region, ghost left: Regions, ghost right: Regions, ghost cur: nat, ghost stop: nat)
      returns (ghost right': Regions)
      requires regions.Valid() && regions.Contents() == left + right && Gap(left, right, RANGE_BEGIN, cur, stop, limit)
      requires cur <= rest.begin <= stop
      modifies regions
      ensures right' == (if rest.begin == stop && right != [] then [] else [(rest.begin, rest)]) + right
      ensures regions.Valid() && regions.Contents() == left + right'
    {
      hide Represents, Chain, Solid, AsMap, SortedEntries, Gap;
      GapSplits(left, right, RANGE_BEGIN, cur, stop, limit, rest.begin);
      AsMapInContents(regions.nodes, regions.shape, regions.curL, rest.begin);
      var it, isNew, at := regions.Emplace(rest.begin, rest);
      if isNew {
        SplitsUnique(left + right, at - 1, |left|, rest.begin);
        InsertBetween(left, right, (rest.begin, rest));
        right' := [(rest.begin, rest)] + right;
      } else {
        right' := right;
        assert [] + right == right;
      }
    }

    /** Looks for a region for `length` bytes: the one at the hint if that is usable, or else the first usable one. */
    method Choose(hint: nat, length: nat) returns (r: Option<Region>, ghost i: nat)
      requires Valid()
      ensures r.None? <==> TooShort(regions.Contents(), length)
      ensures r.Some? ==> Chosen(regions.Contents(), hint, length, i) && r.value == regions.Contents()[i].1
    {
      hide Represents, Chain, Solid, Chosen, HintAt, TooShort;
      ghost var es := regions.Contents();
      var it;
      if hint != 0 {
        it, i := AtHint(hint);
        EndLast(regions, i + 1);
        var at := regions.Get(it, i + 1);
        if at.kind.FREE? && at.length >= length {
          ChosenHint(es, hint, length, i);
          return Some(at), i;
        }
        EntriesSorted(regions.nodes, regions.shape, regions.curL);
        ChosenNoHint(es, hint, length, i);
      }
      it, i := FirstUsable(length);
      if it == regions.endnode {
        AllShort(es, length);
        return None, i;
      }
      EndLast(regions, i + 1);
      ChosenFirst(es, hint, length, i);
      var first := regions.Get(it, i + 1);
      return Some(first), i;
    }

    /** Finds a region for `length` bytes and carves it. */
    method GetEntry(hint: nat, length: nat) returns (found: Option<Ptr>, ghost i: nat)
      requires Valid()
      modifies this, regions
      ensures regions.Valid()
      ensures found.None? <==> TooShort(old(regions.Contents()), length)
      ensures found.None? ==> Valid() && regions.Contents() == old(regions.Contents()) && limit == old(limit)
      ensures found.Some? ==> Chosen(old(regions.Contents()), hint, length, i)
      ensures found.Some? ==>
        var es := old(regions.Contents());
        var k := i + |Front(es[i].1, hint, length)|;
        && regions.Contents() == Carved(es, i, hint, length, Handed(es[i].1, hint, length))
        && k + 2 < |regions.shape.order| && found.value == regions.shape.order[k + 1]
        && limit == EndAfter(es, i, hint, length, old(limit))
        && if StaysWhole(es, i, hint, length) then Valid() else NoPartition(regions.Contents())
    {
      hide Represents, Carved, Cuts, Partition, Handed, EndAfter, Front, NoPartition, StaysWhole, Chosen;
      ghost var es := regions.Contents();
      ghost var hi := limit;
      var r;
      r, i := Choose(hint, length);
      if r.None? {
        return None, i;
      }
      ChosenUsable(es, hint, length, i);
      var it := Carve(r.value, hint, length, i);
      CarvedWhole(es, RANGE_BEGIN, hi, i, hint, length, Handed(r.value, hint, length));
      found := Some(it);
    }

    /** mmap_mem, as far as the regions go: the range handed out begins at the result. */
    method MmapMem(hint: nat, length: nat, flags: int) returns (begin: Option<nat>, ghost i: nat)
      requires Valid() && length % PAGE_SIZE == 0
      modifies this, regions
      ensures begin.None? <==> TooShort(old(regions.Contents()), length)
      ensures begin.None? ==> Valid() && regions.Contents() == old(regions.Contents()) && limit == old(limit)
      ensures begin.Some? ==> Chosen(old(regions.Contents()), hint, length, i)
      ensures begin.Some? ==>
        var es := old(regions.Contents());
        var given := Handed(es[i].1, hint, length).(kind := ANON, flags := flags);
        && begin.value == given.begin && regions.Valid() && regions.Contents() == Carved(es, i, hint, length, given)
        && limit == EndAfter(es, i, hint, length, old(limit))
        && if StaysWhole(es, i, hint, length) then Valid() && Gives(es, regions.Contents(), given, old(limit), limit)
           else NoPartition(regions.Contents())
      ensures begin.Some? && hint == 0 ==> LowestFit(old(regions.Contents()), length, begin.value)
      ensures begin.Some? ==> HintTaken(old(regions.Contents()), hint, length, begin.value)
      ensures begin.Some? ==>
        Hands(old(regions.Contents()), regions.Contents(), begin.value, begin.value + length, Mapped(ANON, flags))
    {
      hide Represents, Chain, Solid, Carved, Cuts, Shows, Chosen, Partition, Handed, EndAfter, Front, TooShort,
        LowestFit,
        HintTaken, Hands;
      ghost var es := regions.Contents();
      ghost var hi := limit;
      var found;
      found, i := GetEntry(hint, length);
      if found.None? {
        return None, i;
      }
      ChosenUsable(es, hint, length, i);
      ChosenPlace(es, hi, hint, length, i);
      ghost var k := i + |Front(es[i].1, hint, length)|;
      ghost var handed := Handed(es[i].1, hint, length);
      ghost var given := handed.(flags := flags, kind := ANON);
      CarvedGiven(es, i, hint, length, handed, given);
      EndLast(regions, k + 1);
      var r := regions.Get(found.value, k + 1);
      regions.Put(found.value, r.(flags := flags, kind := ANON), k + 1);
      CarvedWhole(es, RANGE_BEGIN, hi, i, hint, length, given);
      CarvedGives(es, RANGE_BEGIN, hi, i, hint, length, given);
      CarvedHands(es, i, hint, length, given);
      return Some(r.begin), i;
    }

    // ----- munmap

    /**
     Free regions right of the gap join it, from the node `upper_bound` gave on.
     The code's length n0 exceeds the gap by `over`; then the region right of it is not free.
     */
    method JoinRight(start: Ptr, cur: nat, n0: nat, ghost over: nat, ghost left: Regions, ghost right0: Regions,
                     ghost es: Regions, ghost p: nat, ghost q: nat)
      returns (n: nat, ghost right: Regions)
      requires over <= n0 && (over > 0 ==> right0 != [] && !right0[0].1.kind.FREE?)
      requires regions.Valid() && regions.Contents() == left + right0
      requires Gap(left, right0, RANGE_BEGIN, cur, cur + n0 - over, limit)
      requires |left| + 1 < |regions.shape.order|
      requires start == if left == [] then regions.endnode else regions.shape.order[|left| + 1]
      requires Kept(es, left + right0, cur, cur + n0 - over) && FreeAround(es, cur, cur + n0 - over, p, q)
      requires cur <= p <= q <= cur + n0 - over
      modifies regions
      ensures n0 <= n && |right| <= |right0| && right == right0[|right0| - |right|..]
      ensures regions.Valid() && regions.Contents() == left + right
      ensures Gap(left, right, RANGE_BEGIN, cur, cur + n - over, limit)
      ensures Kept(es, left + right, cur, cur + n - over) && FreeAround(es, cur, cur + n - over, p, q)
      ensures left == [] || over > 0 ==> n == n0 && right == right0
      ensures left != [] && right != [] ==> !right[0].1.kind.FREE?
    {
      hide Represents, Chain, Solid, Gap, Kept, FreeAround, Remove, Entries, Stored, Sorted, Full, Pooled;
      n, right := n0, right0;
      var it := start;
      ghost var at := |left| + 1;
      EndLast(regions, at);
      while it != regions.endnode
        invariant regions.Valid() && regions.Contents() == left + right && at + 1 <= |regions.shape.order|
        invariant it == (if left == [] then regions.endnode else regions.shape.order[at])
        invariant n0 <= n && Gap(left, right, RANGE_BEGIN, cur, cur + n - over, limit)
        invariant Kept(es, left + right, cur, cur + n - over) && FreeAround(es, cur, cur + n - over, p, q)
        invariant left == [] || over > 0 ==> right == right0 && n == n0
        invariant |right| <= |right0| && right == right0[|right0| - |right|..]
        decreases |right|
      {
        EndLast(regions, at);
        var r := regions.Get(it, at);
        GapGrowRight(left, right, RANGE_BEGIN, cur, cur + n - over, limit);
        assert r == right[0].1;
        if !(r.begin == cur + n && r.kind.FREE?) {
          return;
        }
        KeptGrowRight(es, left, right, cur, cur + n - over, p, q);
        it := DropAhead(it, at);
        n := n + r.length;
        SuffixNext(right0, right);
        right := right[1..];
      }
      EndLast(regions, at);
    }

    /** The iterator moves on before its node is erased. */
    method DropAhead(gone: Ptr, ghost at: nat) returns (it: Ptr)
      requires regions.Valid() && Inner(regions.shape, at) && gone == regions.shape.order[at]
      modifies regions
      ensures regions.Valid() && |regions.shape.order| == |old(regions.shape.order)| - 1
      ensures at < |regions.shape.order| && it == regions.shape.order[at]
      ensures at - 1 < |old(regions.Contents())| && regions.Contents() == Remove(old(regions.Contents()), at - 1)
    {
      hide Represents, Entries;
      it := regions.Next(gone, at);
      RemoveIndex(regions.shape.order, at, at);
      var after := regions.EraseIter(gone, at);
    }

    /** Free regions left of the gap join it, from the node before `upper_bound` on. */
    method JoinLeft(start: Ptr, cur0: nat, n0: nat, ghost over: nat, ghost left0: Regions, ghost right: Regions,
                    ghost es: Regions, ghost p: nat, ghost q: nat)
      returns (cur: nat, n: nat, ghost left: Regions)
      requires over < n0
      requires regions.Valid() && regions.Contents() == left0 + right
      requires Gap(left0, right, RANGE_BEGIN, cur0, cur0 + n0 - over, limit)
      requires start == regions.shape.order[if left0 == [] then |regions.shape.order| - 2 else |left0|]
      requires Kept(es, left0 + right, cur0, cur0 + n0 - over) && FreeAround(es, cur0, cur0 + n0 - over, p, q)
      requires cur0 <= p <= q <= cur0 + n0 - over
      modifies regions
      ensures regions.Valid() && regions.Contents() == left + right && cur + n == cur0 + n0 && cur <= cur0
      ensures Gap(left, right, RANGE_BEGIN, cur, cur + n - over, limit)
      ensures Kept(es, left + right, cur, cur + n - over) && FreeAround(es, cur, cur + n - over, p, q)
      ensures left0 == [] ==> left == [] && cur == cur0
      ensures left != [] ==> !left[|left| - 1].1.kind.FREE?
    {
      hide Represents, Chain, Solid, Gap, Kept, FreeAround, Remove;
      cur, n, left := cur0, n0, left0;
      var it := start;
      ghost var at := if left0 == [] then |regions.shape.order| - 2 else |left0|;
      EndLast(regions, at);
      var done := regions.IsEnd(it, at);
      while !done
        invariant regions.Valid() && regions.Contents() == left + right && at + 1 < |regions.shape.order|
        invariant at == (if left0 == [] then |regions.shape.order| - 2 else |left|)
        invariant left0 == [] ==> left == [] && cur == cur0
        invariant it == regions.shape.order[at] && (done <==> at == 0)
        invariant cur + n == cur0 + n0 && cur <= cur0 && Gap(left, right, RANGE_BEGIN, cur, cur + n - over, limit)
        invariant Kept(es, left + right, cur, cur + n - over) && FreeAround(es, cur, cur + n - over, p, q)
        decreases |left|
      {
        EndLast(regions, at);
        var r := regions.Get(it, at);
        BeforeGap(left, right, RANGE_BEGIN, cur, cur + n - over, limit, at - 1);
        if !(r.begin + r.length == cur && r.kind.FREE?) {
          return;
        }
        KeptGrowLeft(es, left, right, cur, cur + n - over, p, q);
        var gone := it;
        it := regions.Prev(it, at);
        cur, n := r.begin, n + r.length;
        RemoveIndex(regions.shape.order, at, at - 1);
        var after := regions.EraseIter(gone, at);
        left := left[..at - 1];
        at := at - 1;
        EndLast(regions, at);
        done := regions.IsEnd(it, at);
      }
    }

    /**
     The node `upper_bound` gives for the beginning of a gap: the first one right of it, or the end
     if nothing is left of it.
     */
    method UpperOf(addr: nat, ghost stop: nat, ghost left: Regions, ghost right: Regions) returns (ub: Ptr)
      requires regions.Valid() && regions.Contents() == left + right
      requires addr < stop && Gap(left, right, RANGE_BEGIN, addr, stop, limit)
      ensures |left| + 1 < |regions.shape.order|
      ensures ub == if left == [] then regions.endnode else regions.shape.order[|left| + 1]
    {
      hide *;
      ghost var at;
      ub, at := regions.UpperBound(addr);
      UpperAt(left, right, addr, stop, limit, at - 1);
    }

    /** The node before that one: the last one left of the gap, or the last of all. */
    method BeforeUpper(addr: nat, ghost stop: nat, ghost left: Regions, ghost right: Regions) returns (before: Ptr)
      requires regions.Valid() && regions.Contents() == left + right
      requires addr < stop && Gap(left, right, RANGE_BEGIN, addr, stop, limit)
      ensures |left| + 1 < |regions.shape.order|
      ensures before == regions.shape.order[if left == [] then |regions.shape.order| - 2 else |left|]
    {
      hide *;
      var ub := UpperOf(addr, stop, left, right);
      ghost var p := if left == [] then |regions.shape.order| - 1 else |left| + 1;
      EndLast(regions, p);
      before := regions.Prev(ub, p);
    }

    /** The free regions on both sides of the gap join it. */
    method JoinBoth(addr: nat, n0: nat, ghost over: nat, ghost left0: Regions, ghost right0: Regions, ghost es: Regions)
      returns (cur: nat, n: nat, ghost left: Regions, ghost right: Regions)
      requires regions.Valid() && regions.Contents() == left0 + right0 && over < n0
      requires over > 0 ==> right0 != [] && !right0[0].1.kind.FREE?
      requires Gap(left0, right0, RANGE_BEGIN, addr, addr + n0 - over, limit)
      requires Kept(es, left0 + right0, addr, addr + n0 - over)
      modifies regions
      ensures regions.Valid() && regions.Contents() == left + right && cur <= addr && cur + n >= addr + n0
      ensures Gap(left, right, RANGE_BEGIN, cur, cur + n - over, limit)
      ensures Kept(es, left + right, cur, cur + n - over) && FreeAround(es, cur, cur + n - over, addr, addr + n0 - over)
      ensures |right| <= |right0| && right == right0[|right0| - |right|..] && (over > 0 ==> right == right0)
      ensures addr == RANGE_BEGIN ==> cur == addr && n == n0
      ensures addr != RANGE_BEGIN ==>
        (left != [] ==> !left[|left| - 1].1.kind.FREE?) && (right != [] ==> !right[0].1.kind.FREE?)
    {
      hide *;
      LeftEmpty(left0, right0, RANGE_BEGIN, addr, addr + n0 - over, limit);
      FreeAroundNone(es, addr, addr + n0 - over);
      var ub := UpperOf(addr, addr + n0 - over, left0, right0);
      n, right := JoinRight(ub, addr, n0, over, left0, right0, es, addr, addr + n0 - over);
      var before := BeforeUpper(addr, addr + n - over, left0, right);
      cur, n, left := JoinLeft(before, addr, n, over, left0, right, es, addr, addr + n0 - over);
    }

    /** The unmapped range and the free regions around it become one free region, at index f. */
    method MergeFree(addr: nat, n0: nat, flags: int, ghost over: nat, ghost left0: Regions, ghost right0: Regions,
        ghost es: Regions)
      returns (cur: nat, ghost f: nat)
      requires regions.Valid() && regions.Contents() == left0 + right0 && over < n0 && Partition(es, RANGE_BEGIN, limit)
      requires over > 0 ==> right0 != [] && !right0[0].1.kind.FREE?
      requires Gap(left0, right0, RANGE_BEGIN, addr, addr + n0 - over, limit)
      requires Kept(es, left0 + right0, addr, addr + n0 - over)
      modifies regions
      ensures regions.Valid() && cur >= addr + n0
      ensures over > 0 ==> NoPartition(regions.Contents())
      ensures over == 0 ==>
        Valid() && Freed(es, regions.Contents(), addr, addr + n0) && Ends(right0, regions.Contents(), f + 1)
      ensures over == 0 ==> f < |regions.Contents()| && JoinedAt(regions.Contents(), f, addr, addr + n0)
      ensures over == 0 ==> regions.Contents()[f].1.End() == cur
    {
      hide Represents, Chain, Solid, Gap, Kept, FreeAround, Freed, JoinedAt, Partition, Ends, NoPartition, Insert;
      var n;
      ghost var left, right;
      cur, n, left, right := JoinBoth(addr, n0, over, left0, right0, es);
      var it := PutNew(Region(cur, n, FREE, flags), left, right, cur, cur + n - over);
      InsertBetween(left, right, (cur, Region(cur, n, FREE, flags)));
      f := |left|;
      if over == 0 {
        CloseUp(es, left, right, cur, n, limit, addr, addr + n0, flags);
        EndsAfter(left, (cur, Region(cur, n, FREE, flags)), right, right0);
      } else {
        RunsInto(left, right, RANGE_BEGIN, cur, cur + n - over, limit, Region(cur, n, FREE, flags));
      }
      cur := cur + n;
    }

    /** One round of munmap, at an address inside region i. */
    method UnmapIn(cur0: nat, stop: nat, length: nat, ghost i: nat) returns (cur: nat, ghost f: nat)
      requires Valid() && cur0 < stop <= cur0 + length
      requires i < |regions.Contents()| && Within(regions.Contents()[i].1, cur0)
      modifies regions
      ensures regions.Valid()
      ensures var es := old(regions.Contents());
        var r := es[i].1;
        var e := Least(r.End(), stop);
        if r.kind.FREE? then regions.Contents() == es && cur == cur0 + r.length
        else if stop < r.End() && stop < cur0 + length then NoPartition(regions.Contents()) && cur >= stop
        else Merged(es, regions.Contents(), limit, i, cur0, e, cur, f)
    {
      hide Represents, Chain, Solid, Gap, Kept, Freed, JoinedAt, Shows, NoPartition, Ends;
      ghost var es := regions.Contents();
      var found, j := AtHint(cur0);
      HintIs(es, RANGE_BEGIN, limit, cur0, cur0 + 1, i, j);
      EndLast(regions, i + 1);
      var r := regions.Get(found, i + 1);
      if r.kind.FREE? {
        return cur0 + r.length, 0;
      }
      var after := regions.EraseIter(found, i + 1);
      ghost var left, right;
      left, right := PutBack(r, cur0, stop, i, es);
      var rest := r.length - (cur0 - r.begin);
      var freed := if length < rest then length else rest;
      cur, f := MergeFree(cur0, freed, r.flags, cur0 + freed - Least(r.End(), stop), left, right,
        es);
    }

    /** What lies in front of and behind the unmapped part of a region goes back in. */
    method PutBack(r: Region, addr: nat, stop: nat, ghost i: nat, ghost es: Regions)
      returns (ghost left: Regions, ghost right: Regions)
      requires Partition(es, RANGE_BEGIN, limit) && i < |es| && es[i].1 == r && Within(r, addr) && addr < stop
      requires !r.kind.FREE?
      requires regions.Valid() && regions.Contents() == Remove(es, i)
      modifies regions
      ensures regions.Valid() && regions.Contents() == left + right
      ensures var e := Least(r.End(), stop);
        Gap(left, right, RANGE_BEGIN, addr, e, limit) && Kept(es, left + right, addr, e)
      ensures if r.End() <= stop then right == es[i + 1..] else right != [] && !right[0].1.kind.FREE?
    {
      hide Represents, Chain, Solid, Gap, Kept, Shows, Remove;
      OpenGap(es, RANGE_BEGIN, limit, i);
      KeptOpen(es, i);
      left, right := es[..i], es[i + 1..];
      if r.begin < addr {
        var front := r.(length := addr - r.begin);
        var it := PutNew(front, left, right, r.begin, r.End());
        KeptFillLeft(es, RANGE_BEGIN, limit, i, left, right, r.begin, r.End(), (r.begin, front));
        GapFillLeft(left, right, RANGE_BEGIN, r.begin, r.End(), limit, front);
        left := left + [(r.begin, front)];
      }
      if r.End() > stop {
        var tail := Region(stop, r.End() - stop, r.kind, r.flags);
        var it := PutNew(tail, left, right, addr, r.End());
        KeptFillRight(es, RANGE_BEGIN, limit, i, left, right, addr, r.End(), (stop, tail));
        GapFillRight(left, right, RANGE_BEGIN, addr, r.End(), limit, tail);
        right := [(stop, tail)] + right;
      }
    }

    /**
     munmap of any range inside the regions, exactly: what Outcome says. It
     frees that range and no more and keeps the partition if and only if all
     it skips is free anyway and no mapped region that begins in the range
     sticks out of it. Where no free region has a free one right behind it,
     that is: unless the range begins inside a free region and leaves it, or
     ends inside a mapped region that begins in it.
     */
    method Munmap(addr: nat, length: nat)
      requires Valid() && addr % PAGE_SIZE == 0 && length % PAGE_SIZE == 0
      requires length > 0 ==> RANGE_BEGIN <= addr && addr + length <= limit
      modifies regions
      ensures regions.Valid()
      ensures Outcome(old(regions.Contents()), regions.Contents(), limit, addr, addr + length)
      ensures Valid() && Freed(old(regions.Contents()), regions.Contents(), addr, addr + length) <==>
        && SkipsFree(old(regions.Contents()), addr, addr + length)
        && !SticksOut(old(regions.Contents()), addr, addr + length)
      ensures FreeApart(old(regions.Contents())) ==>
        (Valid() && Freed(old(regions.Contents()), regions.Contents(), addr, addr + length) <==>
        && !SkipsAhead(old(regions.Contents()), addr, addr + length)
        && !SticksOut(old(regions.Contents()), addr, addr + length))
      ensures forall i ::
        0 <= i < |old(regions.Contents())| && Skips(old(regions.Contents())[i].1, addr, addr + length) ==>
        NoPartition(regions.Contents())
        || (Valid() && Kept(old(regions.Contents()), regions.Contents(), addr + old(regions.Contents())[i].1.length,
          addr + length))
      ensures forall i ::
        0 <= i < |old(regions.Contents())| && length > 0 && Holds(old(regions.Contents())[i].1, addr, addr + length) ==>
        if old(regions.Contents())[i].1.kind.FREE? then regions.Contents() == old(regions.Contents())
        else Joined(regions.Contents(), addr, addr + length)
    {
      hide Represents, Shows, Joined, Freed, Kept, Partition, NoPartition, SticksOut, Ends, Merged, Skips, Here, SkipTo,
        SkipsAhead, SkipsFree, FreeApart, Straddles, Outcome;
      var cur, stop := addr, addr + length;
      ghost var es := regions.Contents();
      ghost var k: nat, base := 0, addr;
      if length > 0 {
        k := RegionAt(es, RANGE_BEGIN, limit, addr);
        HereFirst(es, addr, stop, k);
      }
      while cur < stop
        invariant addr <= base <= cur && regions.Valid()
        invariant (if length > 0 then cur < stop || addr < stop <= cur else cur == addr && regions.Contents() == es)
        invariant cur < stop ==> Valid() && k < |regions.Contents()| && Within(regions.Contents()[k].1, cur)
        invariant cur < stop ==> Here(es, regions.Contents(), base, cur, stop, k) && Passed(es, addr, stop, base, cur)
        invariant length > 0 && cur >= stop ==> Outcome(es, regions.Contents(), limit, addr, stop)
        invariant length > 0 && cur >= stop ==> HeldOutcome(es, regions.Contents(), addr, stop)
        decreases stop - cur
      {
        ghost var now := regions.Contents();
        var next;
        ghost var f;
        next, f := UnmapIn(cur, stop, length, k);
        base, k := Advance(es, now, regions.Contents(), limit, addr, stop, base, cur, next, k, f);
        cur := next;
      }
      MunmapExact(es, regions.Contents(), limit, addr, stop);
    }
  }

  /** Every free region is shorter than that. */
  ghost predicate TooShort(es: Regions, length: nat) {
    forall j :: 0 <= j < |es| && es[j].1.kind.FREE? ==> es[j].1.length < length
  }

  /** The lowest address at which a free region begins that is long enough. */
  ghost predicate LowestFit(es: Regions, length: nat, begin: nat) {
    && (exists j :: 0 <= j < |es| && es[j].1.kind.FREE? && length <= es[j].1.length && es[j].1.begin == begin)
    && (forall j :: 0 <= j < |es| && es[j].1.kind.FREE? && length <= es[j].1.length ==> begin <= es[j].1.begin)
  }

  /**
   A hint inside a free region that is long enough is met if there is room to spare behind it, else
   it gets the beginning of that region; inside any other region it counts for nothing.
   */
  ghost predicate HintTaken(es: Regions, hint: nat, length: nat, begin: nat) {
    forall j :: 0 <= j < |es| && es[j].1.begin <= hint < es[j].1.begin + es[j].1.length ==>
      if es[j].1.kind.FREE? && length <= es[j].1.length then
        begin == if hint + length < es[j].1.begin + es[j].1.length then hint else es[j].1.begin
      else LowestFit(es, length, begin)
  }

  lemma ChosenPlace(es: Regions, hi: nat, hint: nat, length: nat, i: nat)
    requires Partition(es, RANGE_BEGIN, hi) && Chosen(es, hint, length, i)
    ensures hint == 0 ==> LowestFit(es, length, Handed(es[i].1, hint, length).begin)
    ensures HintTaken(es, hint, length, Handed(es[i].1, hint, length).begin)
  {
    hide Solid, LowestFit;
    var begin := Handed(es[i].1, hint, length).begin;
    if forall j :: 0 <= j < i ==> !Usable(es[j].1, length) {
      FirstLowest(es, hi, length, i);
    }
    forall j | 0 <= j < |es| && es[j].1.begin <= hint < es[j].1.begin + es[j].1.length
      ensures if es[j].1.kind.FREE? && length <= es[j].1.length then
          begin == if hint + length < es[j].1.begin + es[j].1.length then hint else es[j].1.begin
        else LowestFit(es, length, begin)
    {
      HintWithin(es, hi, hint, j);
      if !(es[j].1.kind.FREE? && length <= es[j].1.length) {
        NotCutHere(es, hi, hint, length, i, j);
      }
    }
  }

  /** The region around a hint is the one the hint leads to, and no other. */
  lemma HintWithin(es: Regions, hi: nat, hint: nat, j: nat)
    requires Partition(es, RANGE_BEGIN, hi) && j < |es| && Within(es[j].1, hint)
    ensures hint != 0 && HintAt(es, hint, j) && forall i: nat :: HintAt(es, hint, i) ==> i == j
  {
    hide Solid;
    assert j > 0 ==> es[0].1.End() <= es[j].1.begin;
    forall i: nat | HintAt(es, hint, i) ensures i == j {
      assert !(j < i);
    }
  }

  /** A region that does not hold the hint is not cut at it, or lies before it. */
  lemma NotCutHere(es: Regions, hi: nat, hint: nat, length: nat, i: nat, j: nat)
    requires Partition(es, RANGE_BEGIN, hi) && i < |es| && j < |es| && i != j && Within(es[j].1, hint)
    ensures !Cuts(es[i].1, hint, length)
  {
  }

  lemma FirstLowest(es: Regions, hi: nat, length: nat, i: nat)
    requires Partition(es, RANGE_BEGIN, hi) && i < |es| && Usable(es[i].1, length)
    requires forall j :: 0 <= j < i ==> !Usable(es[j].1, length)
    ensures LowestFit(es, length, es[i].1.begin)
  {
    forall j | 0 <= j < |es| && es[j].1.kind.FREE? && length <= es[j].1.length ensures es[i].1.begin <= es[j].1.begin {
      assert j >= i;
      assert i < j ==> es[i].1.End() <= es[j].1.begin;
    }
  }

  /** The usable region the hint leads to, or else the first usable one. */
  ghost predicate Chosen(es: Regions, hint: nat, length: nat, i: nat) {
    && i < |es| && Usable(es[i].1, length)
    && if hint != 0 && exists j: nat :: HintAt(es, hint, j) && Usable(es[j].1, length) then HintAt(es, hint, i)
       else forall j :: 0 <= j < i ==> !Usable(es[j].1, length)
  }

  lemma ChosenHint(es: Regions, hint: nat, length: nat, i: nat)
    requires hint != 0 && HintAt(es, hint, i) && es[i].1.kind.FREE? && length <= es[i].1.length
    ensures Chosen(es, hint, length, i) && !TooShort(es, length)
  {
  }

  lemma ChosenFirst(es: Regions, hint: nat, length: nat, i: nat)
    requires i < |es| && es[i].1.kind.FREE? && length <= es[i].1.length
    requires forall j :: 0 <= j < i && es[j].1.kind.FREE? ==> es[j].1.length < length
    requires hint != 0 ==> forall j: nat :: HintAt(es, hint, j) ==> !Usable(es[j].1, length)
    ensures Chosen(es, hint, length, i) && !TooShort(es, length)
  {
  }

  lemma AllShort(es: Regions, length: nat)
    requires forall j :: 0 <= j < |es| && es[j].1.kind.FREE? ==> es[j].1.length < length
    ensures TooShort(es, length)
  {
  }

  lemma ChosenNoHint(es: Regions, hint: nat, length: nat, i: nat)
    requires SortedEntries(es) && HintAt(es, hint, i) && !(es[i].1.kind.FREE? && length <= es[i].1.length)
    ensures forall j: nat :: HintAt(es, hint, j) ==> !Usable(es[j].1, length)
  {
    forall j: nat | HintAt(es, hint, j) ensures j == i {
    }
  }

  lemma ChosenUsable(es: Regions, hint: nat, length: nat, i: nat)
    requires Chosen(es, hint, length, i)
    ensures i < |es| && Usable(es[i].1, length)
  {
  }

  /** The region is not cut, or it is the last. */
  ghost predicate StaysWhole(es: Regions, i: nat, hint: nat, length: nat)
    requires i < |es|
  {
    Cuts(es[i].1, hint, length) ==> i + 1 == |es|
  }

  ghost predicate NoPartition(es: Regions) { forall lo: nat, hi: nat :: !Partition(es, lo, hi) }

  /** The regions partition a range again if and only if the region carved was not cut or was the last. */
  lemma CarvedWhole(es: Regions, lo: nat, hi: nat, i: nat, hint: nat, length: nat, given: Region)
    requires Partition(es, lo, hi) && i < |es| && length <= es[i].1.length
    requires SameRange(given, Handed(es[i].1, hint, length))
    ensures var c := Carved(es, i, hint, length, given);
      if StaysWhole(es, i, hint, length) then Partition(c, lo, EndAfter(es, i, hint, length, hi)) else NoPartition(c)
  {
    hide Partition, Carved, Handed, EndAfter, Cuts;
    if StaysWhole(es, i, hint, length) {
      CarvedPartition(es, lo, hi, i, hint, length, given);
    } else {
      forall lo': nat, hi': nat ensures !Partition(Carved(es, i, hint, length, given), lo', hi') {
        CutBreaks(es, lo, hi, i, hint, length, given, lo', hi');
      }
    }
  }

  /** The range given shows its kind and flags, what the end moved by is free, and every other address is as it was. */
  ghost predicate Gives(es: Regions, es': Regions, given: Region, hi: nat, hi': nat) {
    forall x: nat, v :: Shows(es', x, v) <==>
      if Within(given, x) then v == ViewOf(given) else if hi <= x < hi' then v == Free else Shows(es, x, v)
  }

  /** All of [a, b) was free and now shows v. */
  ghost predicate Hands(es: Regions, es': Regions, a: nat, b: nat, v: View) {
    forall x: nat :: a <= x < b ==> Shows(es, x, Free) && Shows(es', x, v)
  }

  lemma CarvedHands(es: Regions, i: nat, hint: nat, length: nat, given: Region)
    requires i < |es| && Usable(es[i].1, length) && SameRange(given, Handed(es[i].1, hint, length))
    ensures Hands(es, Carved(es, i, hint, length, given), given.begin, given.begin + length, ViewOf(given))
  {
    var c := Carved(es, i, hint, length, given);
    var k := i + |Front(es[i].1, hint, length)|;
    assert c[k] == (given.begin, given);
    forall x: nat | given.begin <= x < given.begin + length ensures Shows(es, x, Free) && Shows(c, x, ViewOf(given)) {
      assert Within(es[i].1, x) && Within(c[k].1, x);
    }
  }

  lemma CarvedGives(es: Regions, lo: nat, hi: nat, i: nat, hint: nat, length: nat, given: Region)
    requires Partition(es, lo, hi) && i < |es| && Usable(es[i].1, length)
    requires SameRange(given, Handed(es[i].1, hint, length))
    ensures StaysWhole(es, i, hint, length) ==>
      Gives(es, Carved(es, i, hint, length, given), given, hi, EndAfter(es, i, hint, length, hi))
  {
    hide Shows, Partition, Carved, Handed, EndAfter, Cuts, Within;
    if StaysWhole(es, i, hint, length) {
      forall x: nat, v ensures Shows(Carved(es, i, hint, length, given), x, v) <==>
        if Within(given, x) then v == ViewOf(given)
        else if hi <= x < EndAfter(es, i, hint, length, hi) then v == Free
        else Shows(es, x, v)
      {
        CarvedShows(es, lo, hi, i, hint, length, given, x, v);
      }
    }
  }

  lemma BehindIs(r: Region, hint: nat, length: nat, right: Regions, last: bool)
    requires length <= r.length && (right == [] <==> last)
    ensures var b := CutPoint(r, hint, length) + length;
      Behind(r, hint, length, last) ==
        if length == 0 || (b == r.End() && right != []) then [] else [(b, Region(b, r.length - length, FREE, 0))]
  {
  }

  /** Once the rest is back, the part handed out still belongs right before it. */
  lemma BeforeRest(left: Regions, right: Regions, right': Regions, k: int, rest: Region)
    requires SplitsAt(left + right, |left|, k) && !HasKey(left + right, k) && k < rest.begin
    requires right' == right || right' == [(rest.begin as int, rest)] + right
    ensures SplitsAt(left + right', |left|, k) && !HasKey(left + right', k)
  {
    var es, es' := left + right, left + right';
    forall j | 0 <= j < |es'| ensures es'[j].0 != k && (j < |left| ==> es'[j].0 < k) &&
      (j >= |left| ==> es'[j].0 >= k) {
      if j < |left| {
        assert es'[j] == es[j];
      } else if right' != right && j > |left| {
        assert es'[j] == es[j - 1];
      } else if right' == right {
        assert es'[j] == es[j];
      }
    }
  }

  lemma SameKey(es: Regions, i: nat, j: nat)
    requires SortedEntries(es) && i < |es| && j < |es| && es[i].0 == es[j].0
    ensures i == j
  {
  }

  // ----- the calls the kernel makes

  const TASK_POINTER: nat := 0x10000
  const TASK_SS: nat := 65536

  /** The regions of a task after the page for TASK_POINTER was mapped. */
  function WithPointer(flags: int): Regions {
    [(RANGE_BEGIN, Region(RANGE_BEGIN, TASK_POINTER - RANGE_BEGIN, FREE, 0)),
     (TASK_POINTER, Region(TASK_POINTER, PAGE_SIZE, ANON, flags)),
     (TASK_POINTER + PAGE_SIZE, Region(TASK_POINTER + PAGE_SIZE, RANGE_END - RANGE_BEGIN - PAGE_SIZE, FREE, 0))]
  }

  /**
   The first call on every task's regions cuts the only one: the page is where it was asked for, and
   the end moves.
   */
  lemma PointerCall(flags: int)
    ensures var es := [(RANGE_BEGIN, FIRST)]; var h := TASK_POINTER;
      && Partition(es, RANGE_BEGIN, RANGE_END) && Chosen(es, h, PAGE_SIZE, 0) && Cuts(FIRST, h, PAGE_SIZE)
      && Handed(FIRST, h, PAGE_SIZE).begin == TASK_POINTER
      && Carved(es, 0, h, PAGE_SIZE, Region(h, PAGE_SIZE, ANON, flags)) == WithPointer(flags)
      && Partition(WithPointer(flags), RANGE_BEGIN, RANGE_END + (TASK_POINTER - RANGE_BEGIN))
  {
    var es := [(RANGE_BEGIN as int, FIRST)];
    ChainOne(FIRST);
    assert HintAt(es, TASK_POINTER, 0);
    CarvedPartition(es, RANGE_BEGIN, RANGE_END, 0, TASK_POINTER, PAGE_SIZE,
      Region(TASK_POINTER, PAGE_SIZE, ANON, flags));
  }

  /** A request as long as the free region in front of that page gets all of it. */
  lemma ExactCall(flags: int, begin: nat)
    requires LowestFit(WithPointer(flags), TASK_POINTER - RANGE_BEGIN, begin)
    ensures begin == RANGE_BEGIN
  {
    var es := WithPointer(flags);
    assert es[0].1.kind.FREE? && es[0].1.length == 0xF000 && es[0].1.begin == RANGE_BEGIN;
    PointerCall(flags);
  }

  /** The stack does not fit in front of that page, so the regions in front stay as they are. */
  lemma StackCall(flags: int)
    ensures var es := WithPointer(flags);
      Chosen(es, 0, TASK_SS, 2) && !Cuts(es[2].1, 0, TASK_SS) && forall g ::
        Carved(es, 2, 0, TASK_SS, g)[..2] == es[..2]
  {
    var es := WithPointer(flags);
    assert !Usable(es[0].1, TASK_SS) && !Usable(es[1].1, TASK_SS);
    forall g ensures Carved(es, 2, 0, TASK_SS, g)[..2] == es[..2] {
    }
  }

  /**
   As long as the free region in front of TASK_POINTER is there, the page
   asked for at 0x5000 cuts it, and the regions are no partition any more.
   */
  lemma TrampolineCall(es: Regions, hi: nat, given: Region, flags: int)
    requires Partition(es, RANGE_BEGIN, hi) && |es| > 1 && es[..2] == WithPointer(flags)[..2]
    requires SameRange(given, Handed(es[0].1, 0x5000, PAGE_SIZE))
    ensures Chosen(es, 0x5000, PAGE_SIZE, 0) && Cuts(es[0].1, 0x5000, PAGE_SIZE)
    ensures NoPartition(Carved(es, 0, 0x5000, PAGE_SIZE, given))
  {
    assert es[0] == es[..2][0] && es[1] == es[..2][1];
    assert HintAt(es, 0x5000, 0);
    CarvedWhole(es, RANGE_BEGIN, hi, 0, 0x5000, PAGE_SIZE, given);
  }

  /** After that call the next 0xB000 bytes asked for anywhere cover the page at TASK_POINTER, which stays mapped. */
  lemma OverlapCall(es: Regions, given: Region, flags: int)
    requires |es| > 1 && es[..2] == WithPointer(flags)[..2] && !given.kind.FREE?
    ensures var c := Carved(es, 0, 0x5000, PAGE_SIZE, given);
      && Chosen(c, 0, 0xB000, 2) && Within(Handed(c[2].1, 0, 0xB000), TASK_POINTER)
      && Shows(c, TASK_POINTER, Mapped(ANON, flags))
  {
    assert es[0] == es[..2][0] && es[1] == es[..2][1];
    var c := Carved(es, 0, 0x5000, PAGE_SIZE, given);
    assert c[0].1.length == 0x4000 && c[1].1 == given && c[2].1 == Region(0x6000, 0xE000, FREE, 0);
    assert c[3] == es[1] && Within(c[3].1, TASK_POINTER);
  }

  /** munmap from inside the free region in front of the page at TASK_POINTER passes that page over. */
  lemma SkipCall(flags: int, es': Regions)
    requires Outcome(WithPointer(flags), es', RANGE_END + (TASK_POINTER - RANGE_BEGIN), 0x8000, 0x8000 + 0x9000)
    ensures es' == WithPointer(flags) && Shows(es', TASK_POINTER, Mapped(ANON, flags))
  {
    var es := WithPointer(flags);
    PointerCall(flags);
    SkipOnce(es, RANGE_END + (TASK_POINTER - RANGE_BEGIN), 0x8000, 0x11000, 0);
    assert es[1].1 == Region(TASK_POINTER, PAGE_SIZE, ANON, flags) && Within(es[1].1, TASK_POINTER);
  }

  /** munmap of that page and the first one of the stack behind it leaves regions that overlap. */
  lemma StickCall(flags: int, g: Region, es': Regions, hi: nat)
    requires SameRange(g, Handed(WithPointer(flags)[2].1, 0, TASK_SS)) && !g.kind.FREE?
    requires Outcome(Carved(WithPointer(flags), 2, 0, TASK_SS, g), es', hi, TASK_POINTER, TASK_POINTER + 0x2000)
    ensures NoPartition(es')
  {
    var w := WithPointer(flags);
    var es := Carved(w, 2, 0, TASK_SS, g);
    PointerCall(flags);
    assert es[0] == w[0] && es[1] == w[1] && es[2].1 == g;
    assert SticksOut(es, TASK_POINTER, TASK_POINTER + 0x2000);
    forall i | 0 <= i < |es| ensures !Skips(es[i].1, TASK_POINTER, TASK_POINTER + 0x2000) {
    }
  }

  lemma KeyOf(es: Regions, lo: nat, hi: nat, i: nat)
    requires Partition(es, lo, hi) && i < |es|
    ensures es[i].0 == es[i].1.begin
  {
  }

  /** The key of region i is found, and found there. */
  lemma ErasedIndex(es: Regions, lo: nat, hi: nat, i: nat, j: int, ok: bool)
    requires Partition(es, lo, hi) && i < |es|
    requires !ok ==> forall m :: 0 <= m < |es| ==> es[m].0 != es[i].0
    requires ok ==> 0 <= j < |es| && es[j].0 == es[i].0
    ensures ok && j == i
  {
    assert es[i].0 == es[i].1.begin;
    var t := es[..|es| - 1];
    assert i < |es| - 1 ==> t[i] == es[i];
    assert 0 <= j < |es| - 1 ==> t[j] == es[j];
  }

  lemma EndLast(m: SkipListMap<Region>, p: nat)
    requires m.Valid() && p < |m.shape.order|
    ensures m.shape.order[p] == m.endnode <==> p == |m.shape.order| - 1
    ensures |m.Contents()| == |m.shape.order| - 2
    ensures 0 < p < |m.shape.order| - 1 ==> Inner(m.shape, p)
  {
    LastIsEnd(m.nodes, m.shape, m.curL, p);
  }

  ghost predicate Holds(r: Region, addr: nat, stop: nat) { r.begin <= addr && stop <= r.End() }

  /** The region now free around [addr, stop): both neighbours joined, unless nothing begins before it. */
  ghost predicate Joined(es: Regions, addr: nat, stop: nat) {
    exists f :: 0 <= f < |es| && JoinedAt(es, f, addr, stop)
  }

  ghost predicate JoinedAt(es: Regions, f: nat, addr: nat, stop: nat)
    requires f < |es|
  {
    && es[f].1.kind.FREE? && Holds(es[f].1, addr, stop)
    && (addr == RANGE_BEGIN ==> es[f].1.begin == addr && es[f].1.End() == stop)
    && (addr != RANGE_BEGIN ==> (f > 0 ==> !es[f - 1].1.kind.FREE?) && (f + 1 < |es| ==> !es[f + 1].1.kind.FREE?))
  }

  /** The hint search finds the region that holds the range. */
  lemma HintIs(es: Regions, lo: nat, hi: nat, addr: nat, stop: nat, i: nat, j: nat)
    requires Partition(es, lo, hi) && i < |es| && Holds(es[i].1, addr, stop) && addr < stop && HintAt(es, addr, j)
    ensures i == j
  {
    ChainBounds(es, lo, hi, i);
    assert es[0].0 == lo && es[i].0 == es[i].1.begin && es[j].0 == es[j].1.begin;
    assert j + 1 < |es| ==> es[j + 1].0 == es[j + 1].1.begin;
  }

  // ----- munmap, round by round

  /** Exactly [a, b) has become free. */
  ghost predicate Freed(es: Regions, es': Regions, a: nat, b: nat) {
    forall x: nat, v :: Shows(es', x, v) <==> if a <= x < b then v == Free else Shows(es, x, v)
  }

  /** From index k on the regions are the last ones of `es`. */
  ghost predicate Ends(es: Regions, es': Regions, k: nat) {
    k <= |es'| && |es'| - k <= |es| && es'[k..] == es[|es| - (|es'| - k)..]
  }

  /** The range begins inside a free region and leaves it: the next round is as far on as that region is long. */
  ghost predicate SkipsAhead(es: Regions, addr: nat, stop: nat) {
    exists i :: 0 <= i < |es| && Skips(es[i].1, addr, stop)
  }

  ghost predicate Skips(r: Region, addr: nat, stop: nat) { r.kind.FREE? && r.begin < addr < r.End() < stop }

  /** Where the first round lies that does not skip; it may lie behind the range. */
  ghost function SkipTo(es: Regions, cur: nat, stop: nat): (c: nat)
    ensures cur <= c
    decreases stop - cur
  {
    if SkipsAhead(es, cur, stop) then
      var i :| 0 <= i < |es| && Skips(es[i].1, cur, stop);
      SkipTo(es, cur + es[i].1.length, stop)
    else cur
  }

  /** All of [a, b) shows free memory. */
  ghost predicate Clear(es: Regions, a: nat, b: nat) {
    forall x: nat :: a <= x < b ==> Shows(es, x, Free)
  }

  function Least(a: nat, b: nat): nat { if a < b then a else b }

  /** What the skips pass is free anyway. */
  ghost predicate SkipsFree(es: Regions, addr: nat, stop: nat) {
    Clear(es, addr, Least(SkipTo(es, addr, stop), stop))
  }

  /** No free region has a free one right behind it. */
  ghost predicate FreeApart(es: Regions) {
    forall i :: 0 <= i < |es| - 1 && es[i].1.kind.FREE? ==> !es[i + 1].1.kind.FREE?
  }

  /** A mapped region goes on from `a` to behind `stop`. */
  ghost predicate Straddles(es: Regions, a: nat, stop: nat) {
    exists i :: 0 <= i < |es| && !es[i].1.kind.FREE? && Within(es[i].1, a) && stop < es[i].1.End()
  }

  /** What munmap makes of the regions. */
  ghost predicate Outcome(es: Regions, es': Regions, hi: nat, addr: nat, stop: nat) {
    var c := SkipTo(es, addr, stop);
    if c >= stop then es' == es
    else if SticksOut(es, c, stop) || (addr < c && Straddles(es, c, stop)) then NoPartition(es')
    else Partition(es', RANGE_BEGIN, hi) && Freed(es, es', c, stop)
  }

  /** And of a region that holds the whole range. */
  ghost predicate HeldOutcome(es: Regions, es': Regions, addr: nat, stop: nat) {
    forall i :: 0 <= i < |es| && Holds(es[i].1, addr, stop) ==>
      if es[i].1.kind.FREE? then es' == es else Joined(es', addr, stop)
  }

  /** One skip: only the region `cur` lies in can be skipped on from. */
  lemma SkipOnce(es: Regions, hi: nat, cur: nat, stop: nat, k: nat)
    requires Partition(es, RANGE_BEGIN, hi) && k < |es| && Within(es[k].1, cur)
    ensures SkipsAhead(es, cur, stop) <==> Skips(es[k].1, cur, stop)
    ensures SkipTo(es, cur, stop) ==
      if Skips(es[k].1, cur, stop) then SkipTo(es, cur + es[k].1.length, stop) else cur
  {
    forall i | 0 <= i < |es| && Skips(es[i].1, cur, stop) ensures i == k {
      HeldBy(es, RANGE_BEGIN, hi, i, k, cur);
    }
  }

  lemma SkipPast(es: Regions, cur: nat, stop: nat)
    requires cur >= stop
    ensures SkipTo(es, cur, stop) == cur
  {
  }

  /** Where free regions lie apart, what a skip passes first is mapped. */
  lemma SkipsFreeIff(es: Regions, hi: nat, addr: nat, stop: nat)
    requires Partition(es, RANGE_BEGIN, hi) && FreeApart(es) && stop <= hi
    ensures SkipsFree(es, addr, stop) <==> !SkipsAhead(es, addr, stop)
  {
    hide Shows, Chain, Solid;
    if SkipsAhead(es, addr, stop) {
      var i :| 0 <= i < |es| && Skips(es[i].1, addr, stop);
      SkipOnce(es, hi, addr, stop, i);
      NextAfter(es, hi, i, stop);
      OwnView(es, RANGE_BEGIN, hi, i + 1, es[i].1.End(), Free);
    }
  }

  /** The outcome frees the range and no more if and only if nothing mapped is skipped and nothing sticks out. */
  lemma OutcomeIff(es: Regions, es': Regions, hi: nat, addr: nat, stop: nat)
    requires Partition(es, RANGE_BEGIN, hi) && RANGE_BEGIN <= addr < stop <= hi && Outcome(es, es', hi, addr, stop)
    ensures Partition(es', RANGE_BEGIN, hi) && Freed(es, es', addr, stop) <==>
      SkipsFree(es, addr, stop) && !SticksOut(es, addr, stop)
  {
    hide Partition, Freed, Shows, Clear, NoPartition, SticksOut, Straddles;
    var c := SkipTo(es, addr, stop);
    if c >= stop {
      FreedIff(es, es, hi, addr, stop, stop);
      if Clear(es, addr, stop) {
        ClearNoneOut(es, hi, addr, stop, stop);
      }
    } else if c == addr {
      NoneClear(es, addr);
      OutcomeHere(es, es', hi, addr, stop);
    } else if SticksOut(es, c, stop) || Straddles(es, c, stop) {
      OutcomeBroken(es, es', hi, addr, c, stop);
    } else {
      FreedIff(es, es', hi, addr, c, stop);
      if Clear(es, addr, c) {
        ClearNoneOut(es, hi, addr, c, stop);
      }
    }
  }

  lemma NoneClear(es: Regions, a: nat)
    ensures Clear(es, a, a)
  {
  }

  lemma OutcomeHere(es: Regions, es': Regions, hi: nat, addr: nat, stop: nat)
    requires if SticksOut(es, addr, stop) then NoPartition(es')
      else Partition(es', RANGE_BEGIN, hi) && Freed(es, es', addr, stop)
    ensures Partition(es', RANGE_BEGIN, hi) && Freed(es, es', addr, stop) <==> !SticksOut(es, addr, stop)
  {
    hide Partition, Freed, SticksOut;
  }

  /** From a stretch already free to the end of the range. */
  lemma FreedIff(es: Regions, es': Regions, hi: nat, addr: nat, c: nat, stop: nat)
    requires Partition(es, RANGE_BEGIN, hi) && addr <= c <= stop
    requires Freed(es, es', c, stop) || (c == stop && es' == es)
    ensures Freed(es, es', addr, stop) <==> Clear(es, addr, c)
  {
    hide Shows, Chain, Solid;
    if Clear(es, addr, c) {
      forall x: nat, v ensures Shows(es', x, v) <==> if addr <= x < stop then v == Free else Shows(es, x, v) {
        if addr <= x < c && Shows(es, x, v) {
          ShowsUnique(es, RANGE_BEGIN, hi, x, v, Free);
        }
      }
    }
  }

  /** Nothing mapped begins in a clear stretch. */
  lemma ClearNoneOut(es: Regions, hi: nat, addr: nat, c: nat, stop: nat)
    requires Partition(es, RANGE_BEGIN, hi) && RANGE_BEGIN <= addr <= c <= stop <= hi && Clear(es, addr, c)
    requires c < stop ==> !SticksOut(es, c, stop) && !Straddles(es, c, stop)
    ensures !SticksOut(es, addr, stop)
  {
    hide Shows, Chain, Solid;
    forall i | 0 <= i < |es| && addr < es[i].1.begin < stop < es[i].1.End() ensures es[i].1.kind.FREE? {
      if es[i].1.begin < c {
        OwnView(es, RANGE_BEGIN, hi, i, es[i].1.begin, Free);
      }
    }
  }

  lemma OutcomeBroken(es: Regions, es': Regions, hi: nat, addr: nat, c: nat, stop: nat)
    requires Partition(es, RANGE_BEGIN, hi) && addr < c < stop && NoPartition(es')
    requires SticksOut(es, c, stop) || Straddles(es, c, stop)
    ensures !Partition(es', RANGE_BEGIN, hi) && !(Clear(es, addr, c) && !SticksOut(es, addr, stop))
  {
    hide Shows, Chain, Solid;
    if !SticksOut(es, c, stop) {
      var i :| 0 <= i < |es| && !es[i].1.kind.FREE? && Within(es[i].1, c) && stop < es[i].1.End();
      if es[i].1.begin < c {
        OwnView(es, RANGE_BEGIN, hi, i, c - 1, Free);
      }
    }
  }

  /** Between the skips and the range's end nothing else changes. */
  lemma OutcomeKept(es: Regions, es': Regions, hi: nat, addr: nat, stop: nat, i: nat)
    requires Partition(es, RANGE_BEGIN, hi) && Outcome(es, es', hi, addr, stop)
    requires i < |es| && Skips(es[i].1, addr, stop)
    ensures NoPartition(es') ||
      (Partition(es', RANGE_BEGIN, hi) && Kept(es, es', addr + es[i].1.length, stop))
  {
    hide Partition, NoPartition, Freed, Shows, SticksOut, Straddles, Kept;
    SkipOnce(es, hi, addr, stop, i);
    var from := addr + es[i].1.length;
    KeptSame(es, from, stop);
    var c := SkipTo(es, addr, stop);
    if c < stop && Freed(es, es', c, stop) {
      FreedKept(es, es, es', from, stop, c, stop);
    }
  }

  /** All that munmap promises, from the outcome. */
  lemma MunmapExact(es: Regions, es': Regions, hi: nat, addr: nat, stop: nat)
    requires Partition(es, RANGE_BEGIN, hi) && addr <= stop
    requires addr < stop ==> RANGE_BEGIN <= addr && stop <= hi && Outcome(es, es', hi, addr, stop)
    requires addr == stop ==> es' == es
    ensures Outcome(es, es', hi, addr, stop)
    ensures Partition(es', RANGE_BEGIN, hi) && Freed(es, es', addr, stop) <==>
      SkipsFree(es, addr, stop) && !SticksOut(es, addr, stop)
    ensures FreeApart(es) ==> (SkipsFree(es, addr, stop) <==> !SkipsAhead(es, addr, stop))
    ensures forall i :: 0 <= i < |es| && Skips(es[i].1, addr, stop) ==>
      NoPartition(es') || (Partition(es', RANGE_BEGIN, hi) && Kept(es, es', addr + es[i].1.length, stop))
  {
    hide Partition, NoPartition, Freed, Kept, SkipsFree, SticksOut, SkipsAhead, FreeApart, Outcome;
    if addr == stop {
      NothingFreed(es, hi, addr);
    } else {
      OutcomeIff(es, es', hi, addr, stop);
      if FreeApart(es) {
        SkipsFreeIff(es, hi, addr, stop);
      }
      forall i | 0 <= i < |es| && Skips(es[i].1, addr, stop)
        ensures NoPartition(es') || (Partition(es', RANGE_BEGIN, hi) && Kept(es, es', addr + es[i].1.length, stop))
      {
        OutcomeKept(es, es', hi, addr, stop, i);
      }
    }
  }

  lemma KeptSame(es: Regions, a: nat, b: nat)
    ensures Kept(es, es, a, b)
  {
  }

  lemma FreedKept(es: Regions, now: Regions, es': Regions, from: nat, stop: nat, a: nat, b: nat)
    requires Kept(es, now, from, stop) && Freed(now, es', a, b) && from <= a && b <= stop
    ensures Kept(es, es', from, stop)
  {
    hide Shows;
  }

  /** The range ends inside a mapped region that begins in it: the code then frees too much of that. */
  ghost predicate SticksOut(es: Regions, addr: nat, stop: nat) {
    exists i :: 0 <= i < |es| && !es[i].1.kind.FREE? && addr < es[i].1.begin < stop < es[i].1.End()
  }

  /** What a round leaves: [a, e) free, as part of the free region f, which ends at `next`. */
  ghost predicate Merged(es: Regions, es': Regions, hi: nat, i: nat, a: nat, e: nat, next: nat, f: nat)
    requires i < |es|
  {
    && Partition(es', RANGE_BEGIN, hi) && Freed(es, es', a, e) && next >= e
    && f < |es'| && JoinedAt(es', f, a, e) && es'[f].1.End() == next
    && (es[i].1.End() <= e ==> Ends(es[i + 1..], es', f + 1))
  }

  /** What a round at `cur`, in region k, makes of the regions. */
  ghost predicate Round(now: Regions, es': Regions, hi: nat, addr: nat, stop: nat, cur: nat, next: nat, k: nat, f: nat)
    requires k < |now|
  {
    var r := now[k].1;
    if r.kind.FREE? then es' == now && next == cur + r.length
    else if stop < r.End() && addr < cur then NoPartition(es') && next >= stop
    else Merged(now, es', hi, k, cur, Least(r.End(), stop), next, f)
  }

  /** The skips from addr on led to `base`; the rounds since did not skip. */
  ghost predicate Passed(es: Regions, addr: nat, stop: nat, base: nat, cur: nat) {
    && SkipTo(es, addr, stop) == SkipTo(es, base, stop)
    && (addr < base ==> SkipsAhead(es, addr, stop))
    && (base < cur ==> SkipTo(es, base, stop) == base && (addr < base ==> !Straddles(es, base, stop)))
  }

  /**
   Before a round at `cur`: all from addr on is free, and region k, where `cur` lies, and those
   behind it are as they were.
   */
  ghost predicate Here(es: Regions, now: Regions, addr: nat, cur: nat, stop: nat, k: nat) {
    && k < |now| && Within(now[k].1, cur) && Freed(es, now, addr, cur) && Ends(es, now, k)
    && (cur == addr ==> now == es)
    && (addr < cur ==> now[k].1.begin == cur && forall i :: 0 <= i < |es| ==> !Holds(es[i].1, addr, stop))
  }

  ghost predicate Finished(es: Regions, es': Regions, addr: nat, stop: nat, hi: nat) {
    && (if SticksOut(es, addr, stop) then NoPartition(es') else Partition(es', RANGE_BEGIN, hi) && Freed(es, es', addr,
      stop))
    && HeldOutcome(es, es', addr, stop)
  }

  lemma NothingFreed(es: Regions, hi: nat, a: nat)
    ensures Freed(es, es, a, a) && !SticksOut(es, a, a) && SkipsFree(es, a, a) && !SkipsAhead(es, a, a)
    ensures Outcome(es, es, hi, a, a) && forall i :: 0 <= i < |es| ==> !Skips(es[i].1, a, a)
  {
  }

  lemma HereFirst(es: Regions, addr: nat, stop: nat, k: nat)
    requires k < |es| && Within(es[k].1, addr)
    ensures Here(es, es, addr, addr, stop, k) && Passed(es, addr, stop, addr, addr)
  {
    EndsSelf(es, k);
  }

  lemma EndsSelf(es: Regions, k: nat)
    requires k <= |es|
    ensures Ends(es, es, k)
  {
  }

  lemma RegionAt(es: Regions, lo: nat, hi: nat, x: nat) returns (i: nat)
    requires Partition(es, lo, hi) && lo <= x < hi
    ensures i < |es| && Within(es[i].1, x)
  {
    i := 0;
    while es[i].1.End() <= x
      invariant i < |es| && es[i].1.begin <= x
      decreases |es| - i
    {
      assert i + 1 < |es|;
      assert es[i].1.End() == es[i + 1].1.begin;
      i := i + 1;
    }
  }

  lemma HeldBy(es: Regions, lo: nat, hi: nat, i: nat, j: nat, x: nat)
    requires Chain(es, lo, hi) && i < |es| && j < |es| && Within(es[i].1, x) && Within(es[j].1, x)
    ensures i == j
  {
    assert !(i < j) && !(j < i);
  }

  /** The region a round works on, as it stands in the first map. */
  lemma Original(es: Regions, now: Regions, k: nat) returns (j: nat)
    requires Ends(es, now, k) && k < |now|
    ensures j < |es| && es[j] == now[k] && es[j + 1..] == now[k + 1..] && (now == es ==> j == k)
  {
    j := |es| - (|now| - k);
    assert now[k] == now[k..][0] && es[j] == es[j..][0];
    assert now[k + 1..] == now[k..][1..] && es[j + 1..] == es[j..][1..];
  }

  lemma FreedTwice(es: Regions, es1: Regions, es2: Regions, a: nat, b: nat, c: nat)
    requires Freed(es, es1, a, b) && Freed(es1, es2, b, c) && a <= b <= c
    ensures Freed(es, es2, a, c)
  {
    hide Shows;
  }

  /** What lies in a free region is free already. */
  lemma FreedMore(es: Regions, es': Regions, hi: nat, f: nat, a: nat, b: nat, c: nat)
    requires Freed(es, es', a, b) && Partition(es', RANGE_BEGIN, hi) && f < |es'| && es'[f].1.kind.FREE?
    requires a <= b <= c && es'[f].1.begin <= b && c <= es'[f].1.End()
    ensures Freed(es, es', a, c)
  {
    hide Shows, Chain, Solid;
    forall x: nat, v ensures Shows(es', x, v) <==> if a <= x < c then v == Free else Shows(es, x, v) {
      if b <= x < c {
        OwnView(es', RANGE_BEGIN, hi, f, x, v);
      }
    }
  }

  lemma NextAfter(es: Regions, hi: nat, f: nat, stop: nat)
    requires Partition(es, RANGE_BEGIN, hi) && f < |es| && es[f].1.End() < stop <= hi
    ensures f + 1 < |es| && es[f + 1].1.begin == es[f].1.End() && Within(es[f + 1].1, es[f].1.End())
  {
    if f + 2 < |es| {
      assert es[..|es| - 1][f + 1] == es[f + 1];
    }
  }

  /** Regions before index j end before it begins, those behind it begin where it ends or later. */
  lemma Around(es: Regions, hi: nat, i: nat, j: nat)
    requires Partition(es, RANGE_BEGIN, hi) && i < |es| && j < |es|
    ensures i < j ==> es[i].1.End() <= es[j].1.begin
    ensures j < i ==> es[j].1.End() <= es[i].1.begin
  {
  }

  lemma EndsFrom(es: Regions, mid: Regions, es': Regions, k: nat, f: nat)
    requires Ends(es, mid, k) && k < |mid| && Ends(mid[k + 1..], es', f)
    ensures Ends(es, es', f)
  {
    var j := Original(es, mid, k);
    var rest := es[j + 1..];
    var d := |rest| - (|es'| - f);
    assert rest[d..] == es[j + 1 + d..];
  }

  lemma SuffixNext(s: Regions, t: Regions)
    requires 0 < |t| <= |s| && t == s[|s| - |t|..]
    ensures t[1..] == s[|s| - |t[1..]|..]
  {
  }

  lemma EndsAfter(left: Regions, e: (int, Region), right: Regions, right0: Regions)
    requires |right| <= |right0| && right == right0[|right0| - |right|..]
    ensures Ends(right0, left + ([e] + right), |left| + 1)
  {
    assert (left + ([e] + right))[|left| + 1..] == right;
  }

  /** A free region too long for its gap runs into the next one. */
  lemma RunsInto(left: Regions, right: Regions, lo: nat, cur: nat, stop: nat, hi: nat, r: Region)
    requires Gap(left, right, lo, cur, stop, hi) && right != [] && r.begin == cur && r.End() > stop
    ensures NoPartition(left + ([(cur, r)] + right))
  {
    var es := left + ([(cur as int, r)] + right);
    assert es[|left|].1 == r && es[|left| + 1] == right[0] && right[0].1.begin == stop;
  }

  /** One round on: the state before the next, or the outcome. */
  lemma Advance(es: Regions, now: Regions, es': Regions, hi: nat, addr: nat, stop: nat, base: nat, cur: nat, next: nat,
      k: nat, f: nat)
    returns (base': nat, k': nat)
    requires Partition(es, RANGE_BEGIN, hi) && Partition(now, RANGE_BEGIN, hi)
    requires RANGE_BEGIN <= addr <= base <= cur < stop <= hi
    requires Here(es, now, base, cur, stop, k) && Passed(es, addr, stop, base, cur)
    requires Round(now, es', hi, addr, stop, cur, next, k, f)
    ensures cur < next && base' <= next && addr <= base'
    ensures next < stop ==> Partition(es', RANGE_BEGIN, hi) && k' < |es'| && Within(es'[k'].1, next)
    ensures next < stop ==> Here(es, es', base', next, stop, k') && Passed(es, addr, stop, base', next)
    ensures next >= stop ==> Outcome(es, es', hi, addr, stop) && HeldOutcome(es, es', addr, stop)
  {
    hide Partition, NoPartition, SticksOut, Straddles, Freed, Ends, Merged, Joined, JoinedAt, SkipTo, SkipsAhead, Holds;
    var r := now[k].1;
    var j := Original(es, now, k);
    SkipOnce(es, hi, cur, stop, j);
    base', k' := base, 0;
    if Skips(r, cur, stop) {
      assert now == es && cur == base;
      base' := next;
      SkipHeld(es, hi, addr, cur, stop, k);
      if next < stop {
        k' := RegionAt(es, RANGE_BEGIN, hi, next);
        HereFirst(es, next, stop, k');
      } else {
        SkipPast(es, next, stop);
      }
    } else if cur == base && addr < base && !r.kind.FREE? && stop < r.End() {
      assert Straddles(es, base, stop) by { StraddlesHere(es, base, stop, j); }
      SkipsUnheld(es, hi, addr, stop);
    } else {
      k' := Work(es, now, es', hi, base, stop, cur, next, k, f);
      if cur == base && addr < base {
        NoStraddle(es, hi, base, stop, j);
      }
      if next >= stop && addr < base {
        SkipsUnheld(es, hi, addr, stop);
      }
    }
  }

  lemma StraddlesHere(es: Regions, a: nat, stop: nat, j: nat)
    requires j < |es| && !es[j].1.kind.FREE? && Within(es[j].1, a) && stop < es[j].1.End()
    ensures Straddles(es, a, stop)
  {
  }

  lemma NoStraddle(es: Regions, hi: nat, a: nat, stop: nat, j: nat)
    requires Partition(es, RANGE_BEGIN, hi) && j < |es| && Within(es[j].1, a)
    requires es[j].1.kind.FREE? || es[j].1.End() <= stop
    ensures !Straddles(es, a, stop)
  {
    forall i | 0 <= i < |es| && Within(es[i].1, a) ensures i == j {
      HeldBy(es, RANGE_BEGIN, hi, i, j, a);
    }
  }

  lemma SkipHeld(es: Regions, hi: nat, addr: nat, cur: nat, stop: nat, k: nat)
    requires Partition(es, RANGE_BEGIN, hi) && addr <= cur && k < |es| && Skips(es[k].1, cur, stop)
    requires addr < cur ==> SkipsAhead(es, addr, stop)
    ensures SkipsAhead(es, addr, stop) && forall i :: 0 <= i < |es| ==> !Holds(es[i].1, addr, stop)
  {
    assert cur == addr ==> SkipsAhead(es, addr, stop);
    SkipsUnheld(es, hi, addr, stop);
  }

  /** A range that skips is held by no region. */
  lemma SkipsUnheld(es: Regions, hi: nat, addr: nat, stop: nat)
    requires Partition(es, RANGE_BEGIN, hi) && SkipsAhead(es, addr, stop)
    ensures forall i :: 0 <= i < |es| ==> !Holds(es[i].1, addr, stop)
  {
    var j :| 0 <= j < |es| && Skips(es[j].1, addr, stop);
    forall i | 0 <= i < |es| && Within(es[i].1, addr) ensures i == j {
      HeldBy(es, RANGE_BEGIN, hi, i, j, addr);
    }
  }

  /** A round that does not skip, of those from `addr` on. */
  lemma Work(es: Regions, now: Regions, es': Regions, hi: nat, addr: nat, stop: nat, cur: nat, next: nat, k: nat,
      f: nat) returns (k': nat)
    requires Partition(es, RANGE_BEGIN, hi) && Partition(now, RANGE_BEGIN, hi) && addr <= cur < stop <= hi
    requires Here(es, now, addr, cur, stop, k) && !Skips(now[k].1, cur, stop)
    requires Round(now, es', hi, addr, stop, cur, next, k, f)
    ensures next > cur
    ensures next < stop ==> Partition(es', RANGE_BEGIN, hi) && Here(es, es', addr, next, stop, k')
    ensures next >= stop ==> Finished(es, es', addr, stop, hi)
  {
    hide Partition, NoPartition, SticksOut, Freed, Ends, Merged, Joined, JoinedAt, Finished;
    var r := now[k].1;
    var j := Original(es, now, k);
    if r.kind.FREE? {
      k' := AdvanceFree(es, now, hi, addr, stop, cur, next, k, j);
    } else if stop < r.End() && addr < cur {
      k' := 0;
      AdvanceBroken(es, es', addr, stop, hi, j);
    } else {
      k' := AdvanceMerged(es, now, es', hi, addr, stop, cur, next, k, f, j);
    }
  }

  lemma AdvanceBroken(es: Regions, es': Regions, addr: nat, stop: nat, hi: nat, j: nat)
    requires j < |es| && !es[j].1.kind.FREE? && addr < es[j].1.begin < stop < es[j].1.End() && NoPartition(es')
    requires forall i :: 0 <= i < |es| ==> !Holds(es[i].1, addr, stop)
    ensures Finished(es, es', addr, stop, hi)
  {
    hide NoPartition;
    assert SticksOut(es, addr, stop);
  }

  lemma AdvanceFree(es: Regions, now: Regions, hi: nat, addr: nat, stop: nat, cur: nat, next: nat, k: nat, j: nat)
    returns (k': nat)
    requires Partition(es, RANGE_BEGIN, hi) && Partition(now, RANGE_BEGIN, hi) && addr <= cur < stop <= hi
    requires Here(es, now, addr, cur, stop, k) && !Skips(now[k].1, cur, stop) && now[k].1.kind.FREE?
    requires next == cur + now[k].1.length
    requires j < |es| && es[j] == now[k] && es[j + 1..] == now[k + 1..] && (now == es ==> j == k)
    ensures next > cur
    ensures next < stop ==> Here(es, now, addr, next, stop, k')
    ensures next >= stop ==> Finished(es, now, addr, stop, hi)
  {
    hide Partition, NoPartition, SticksOut, Freed, Ends, Joined, Finished;
    var r := now[k].1;
    k' := k + 1;
    var e := Least(r.End(), stop);
    FreedMore(es, now, hi, k, addr, cur, e);
    assert r.begin < cur ==> cur == addr && r.End() >= stop;
    if next < stop {
      NextAfter(now, hi, k, stop);
      EndsNext(es, now, k);
      NoHolder(es, hi, addr, stop, cur, j);
    } else {
      forall i | j < i < |es| ensures es[i].1.begin >= stop {
        Around(es, hi, i, j);
      }
      NoneOut(es, hi, addr, stop, cur, r.End(), j);
      FinishedFree(es, now, hi, addr, stop, cur, j);
    }
  }

  lemma EndsNext(es: Regions, now: Regions, k: nat)
    requires Ends(es, now, k) && k < |now|
    ensures Ends(es, now, k + 1)
  {
    assert now[k + 1..] == now[k..][1..];
  }

  /** Once a round ends before the range does, no region holds the range. */
  lemma NoHolder(es: Regions, hi: nat, addr: nat, stop: nat, cur: nat, j: nat)
    requires Partition(es, RANGE_BEGIN, hi) && j < |es| && addr <= cur < stop && Within(es[j].1, cur)
    requires es[j].1.End() < stop
    requires addr < cur ==> forall i :: 0 <= i < |es| ==> !Holds(es[i].1, addr, stop)
    ensures forall i :: 0 <= i < |es| ==> !Holds(es[i].1, addr, stop)
  {
    forall i | 0 <= i < |es| ensures !Holds(es[i].1, addr, stop) {
      if cur == addr && Within(es[i].1, addr) {
        HeldBy(es, RANGE_BEGIN, hi, i, j, addr);
      }
    }
  }

  /**
   Nothing sticks out when the last region met ends with the range or does not begin in it, and what
   is joined is free.
   */
  lemma NoneOut(es: Regions, hi: nat, addr: nat, stop: nat, cur: nat, e: nat, j: nat)
    requires Partition(es, RANGE_BEGIN, hi) && j < |es| && addr <= cur < stop && Within(es[j].1, cur)
    requires e == es[j].1.End()
    requires es[j].1.begin <= addr || es[j].1.kind.FREE? || e <= stop
    requires es[j].1.begin < cur ==> cur == addr
    requires forall i :: j < i < |es| && es[i].1.begin < stop ==> es[i].1.kind.FREE?
    ensures !SticksOut(es, addr, stop)
  {
    forall i | 0 <= i < |es| && !es[i].1.kind.FREE? ensures !(addr < es[i].1.begin < stop < es[i].1.End()) {
      Around(es, hi, i, j);
    }
  }

  lemma FinishedFree(es: Regions, now: Regions, hi: nat, addr: nat, stop: nat, cur: nat, j: nat)
    requires Partition(es, RANGE_BEGIN, hi) && Partition(now, RANGE_BEGIN, hi) && j < |es| && addr <= cur < stop
    requires Within(es[j].1, cur)
    requires es[j].1.kind.FREE? && (cur == addr ==> now == es) && Freed(es, now, addr, stop)
    requires !SticksOut(es, addr, stop)
    requires addr < cur ==> forall i :: 0 <= i < |es| ==> !Holds(es[i].1, addr, stop)
    ensures Finished(es, now, addr, stop, hi)
  {
    hide Freed, SticksOut, Joined;
    forall i | 0 <= i < |es| && Holds(es[i].1, addr, stop) ensures es[i].1.kind.FREE? && now == es {
      HeldBy(es, RANGE_BEGIN, hi, i, j, addr);
    }
  }

  lemma AdvanceMerged(es: Regions, now: Regions, es': Regions, hi: nat, addr: nat, stop: nat, cur: nat, next: nat,
      k: nat, f: nat, j: nat) returns (k': nat)
    requires Partition(es, RANGE_BEGIN, hi) && Partition(now, RANGE_BEGIN, hi) && addr <= cur < stop <= hi
    requires Here(es, now, addr, cur, stop, k) && !now[k].1.kind.FREE? && (stop < now[k].1.End() ==> cur == addr)
    requires Merged(now, es', hi, k, cur, Least(now[k].1.End(), stop), next, f)
    requires j < |es| && es[j] == now[k] && es[j + 1..] == now[k + 1..] && (now == es ==> j == k)
    ensures next > cur
    ensures next < stop ==> Partition(es', RANGE_BEGIN, hi) && Here(es, es', addr, next, stop, k')
    ensures next >= stop ==> Finished(es, es', addr, stop, hi)
  {
    hide Partition, NoPartition, SticksOut, Freed, Ends, Joined, Finished;
    var r := now[k].1;
    var e := Least(r.End(), stop);
    k' := f + 1;
    FreedTwice(es, now, es', addr, cur, e);
    if next < stop {
      FreedMore(es, es', hi, f, addr, e, next);
      NextAfter(es', hi, f, stop);
      EndsFrom(es, now, es', k, f + 1);
      NoHolder(es, hi, addr, stop, cur, j);
    } else {
      FreedMore(es, es', hi, f, addr, e, stop);
      JoinedFree(es, es', hi, addr, stop, cur, e, j, f);
      NoneOut(es, hi, addr, stop, cur, r.End(), j);
      FinishedMerged(es, es', hi, addr, stop, cur, j, f);
    }
  }

  /** What the free region took in behind the range had been free. */
  lemma JoinedFree(es: Regions, es': Regions, hi: nat, addr: nat, stop: nat, cur: nat, e: nat, j: nat, f: nat)
    requires Partition(es, RANGE_BEGIN, hi) && Partition(es', RANGE_BEGIN, hi) && Freed(es, es', addr, e)
    requires addr <= cur < e <= stop <= hi
    requires j < |es| && Within(es[j].1, cur) && e == Least(es[j].1.End(), stop)
    requires f < |es'| && es'[f].1.kind.FREE? && es'[f].1.begin <= cur && stop <= es'[f].1.End()
    ensures forall i :: j < i < |es| && es[i].1.begin < stop ==> es[i].1.kind.FREE?
  {
    hide Shows, Chain, Solid;
    forall i | j < i < |es| && es[i].1.begin < stop ensures es[i].1.kind.FREE? {
      var x := es[i].1.begin;
      Around(es, hi, i, j);
      Inhabited(es, hi, i, stop);
      OwnView(es', RANGE_BEGIN, hi, f, x, Free);
      OwnView(es, RANGE_BEGIN, hi, i, x, Free);
    }
  }

  lemma Inhabited(es: Regions, hi: nat, i: nat, stop: nat)
    requires Partition(es, RANGE_BEGIN, hi) && i < |es| && es[i].1.begin < stop <= hi
    ensures es[i].1.length > 0
  {
    if i + 1 < |es| {
      assert es[..|es| - 1][i] == es[i];
    }
  }

  lemma FinishedMerged(es: Regions, es': Regions, hi: nat, addr: nat, stop: nat, cur: nat, j: nat, f: nat)
    requires Partition(es, RANGE_BEGIN, hi) && Partition(es', RANGE_BEGIN, hi) && j < |es| && addr <= cur < stop
    requires Within(es[j].1, cur)
    requires !es[j].1.kind.FREE? && Freed(es, es', addr, stop) && !SticksOut(es, addr, stop)
    requires addr < cur ==> forall i :: 0 <= i < |es| ==> !Holds(es[i].1, addr, stop)
    requires f < |es'| && (cur == addr && stop <= es[j].1.End() ==> JoinedAt(es', f, addr, stop))
    ensures Finished(es, es', addr, stop, hi)
  {
    hide Freed, SticksOut, JoinedAt;
    forall i | 0 <= i < |es| && Holds(es[i].1, addr, stop) ensures !es[i].1.kind.FREE? && Joined(es', addr, stop) {
      HeldBy(es, RANGE_BEGIN, hi, i, j, addr);
    }
  }

  /** The region before the gap touches it; with nothing before it the search wraps to the last one, which does not. */
  lemma BeforeGap(left: Regions, right: Regions, lo: nat, cur: nat, stop: nat, hi: nat, i: nat)
    requires Gap(left, right, lo, cur, stop, hi) && cur < stop && i < |left + right|
    requires i == if left == [] then |right| - 1 else |left| - 1
    ensures left == [] ==> (left + right)[i].1.End() != cur
    ensures left != [] ==> (left + right)[i] == left[i] && left[i].1.End() == cur
    ensures left != [] ==>
      Gap(left[..i], right, lo, left[i].1.begin, stop, hi) && Remove(left + right, i) == left[..i] + right
  {
    if left != [] {
      GapGrowLeft(left, right, lo, cur, stop, hi);
    }
  }

  lemma UpperAt(left: Regions, right: Regions, addr: nat, stop: nat, hi: nat, i: nat)
    requires Gap(left, right, RANGE_BEGIN, addr, stop, hi) && addr < stop && SplitsAt(left + right, i, addr + 1)
    ensures i == |left|
  {
    hide Gap;
    GapSplits(left, right, RANGE_BEGIN, addr, stop, hi, addr + 1);
    SplitsUnique(left + right, |left|, i, addr + 1);
  }

  lemma FreeAroundNone(es: Regions, p: nat, q: nat)
    ensures FreeAround(es, p, q, p, q)
  {
  }

  lemma LeftEmpty(left: Regions, right: Regions, lo: nat, cur: nat, stop: nat, hi: nat)
    requires Gap(left, right, lo, cur, stop, hi)
    ensures left == [] <==> cur == lo
  {
    if left != [] {
      ChainBounds(left, lo, cur, 0);
      assert left[0].1.length > 0;
    }
  }

  /** One free region closes the gap. */
  lemma CloseUp(es: Regions, left: Regions, right: Regions, cur: nat, n: nat, hi: nat, addr: nat, stop: nat, flags: int)
    requires Partition(es, RANGE_BEGIN, hi) && Gap(left, right, RANGE_BEGIN, cur, cur + n, hi) && n > 0
    requires Kept(es, left + right, cur, cur + n) && FreeAround(es, cur, cur + n, addr, stop)
    requires cur <= addr <= stop <= cur + n
    requires addr == RANGE_BEGIN ==> cur == addr && cur + n == stop
    requires addr != RANGE_BEGIN ==>
      (left != [] ==> !left[|left| - 1].1.kind.FREE?) && (right != [] ==> !right[0].1.kind.FREE?)
    ensures var es' := left + ([(cur, Region(cur, n, FREE, flags))] + right);
      Partition(es', RANGE_BEGIN, hi) && JoinedAt(es', |left|, addr, stop) && Freed(es, es', addr, stop)
  {
    hide Shows, Chain, Solid, Gap, Kept, FreeAround;
    var r := Region(cur, n, FREE, flags);
    var es' := left + ([(cur as int, r)] + right);
    assert es' == (left + [(cur, r)]) + right;
    GapFillLeft(left, right, RANGE_BEGIN, cur, cur + n, hi, r);
    CloseGap(left + [(cur, r)], right, RANGE_BEGIN, cur + n, hi);
    forall x: nat, v ensures Shows(es', x, v) <==> if addr <= x < stop then v == Free else Shows(es, x, v) {
      KeptClose(es, RANGE_BEGIN, hi, left, right, cur, cur + n, addr, stop, r, x, v);
    }
    assert es'[|left|] == (cur, r);
    assert |left| > 0 ==> es'[|left| - 1] == left[|left| - 1];
    assert right != [] ==> es'[|left| + 1] == right[0];
  }
}
