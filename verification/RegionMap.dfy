/**
 Regions of a user address space in key order: what it means to partition a
 range, what each address shows, and what the operations do to both.
 */
module RegionMap {
  import opened SkipListShape
  import opened SkipList

  const PAGE_SIZE: nat := 4096

  datatype EntryType = FREE | PHYS | ANON

  datatype Region = Region(begin: nat, length: nat, kind: EntryType, flags: int) {
    function End(): nat { begin + length }
  }

  type Regions = seq<(int, Region)>

  /** What an address shows: free memory has no flags worth keeping. */
  datatype View = Free | Mapped(kind: EntryType, flags: int)

  function ViewOf(r: Region): View {
    if r.kind.FREE? then Free else Mapped(r.kind, r.flags)
  }

  ghost predicate Within(r: Region, x: nat) { r.begin <= x < r.End() }

  /** Some region covers address x and shows v there. */
  ghost predicate Shows(es: Regions, x: nat, v: View) {
    exists i :: 0 <= i < |es| && Within(es[i].1, x) && ViewOf(es[i].1) == v
  }

  // ----- chains of touching regions

  /** Touching regions filling [a, b), each stored under its own begin. */
  ghost predicate Chain(es: Regions, a: nat, b: nat) {
    && (es == [] ==> a == b)
    && (es != [] ==> es[0].1.begin == a && es[|es| - 1].1.End() == b)
    && (forall i :: 0 <= i < |es| ==> es[i].0 == es[i].1.begin)
    && (forall i, j ::
      0 <= i < j < |es| ==> es[i].1.End() <= es[j].1.begin && (j == i + 1 ==> es[i].1.End() == es[j].1.begin))
  }

  ghost predicate Solid(es: Regions) {
    forall i :: 0 <= i < |es| ==> es[i].1.length > 0
  }

  /** The regions partition [lo, hi); only the last may be empty. */
  ghost predicate Partition(es: Regions, lo: nat, hi: nat) {
    es != [] && Chain(es, lo, hi) && Solid(es[..|es| - 1])
  }

  lemma ChainConcat(a: Regions, b: Regions, lo: nat, mid: nat, hi: nat)
    requires Chain(a, lo, mid) && Chain(b, mid, hi) && lo <= mid <= hi
    ensures Chain(a + b, lo, hi)
  {
    var es := a + b;
    forall i, j | 0 <= i < j < |es|
      ensures es[i].1.End() <= es[j].1.begin && (j == i + 1 ==> es[i].1.End() == es[j].1.begin)
    {
      if i < |a| <= j {
        ChainBounds(a, lo, mid, i);
        ChainBounds(b, mid, hi, j - |a|);
      }
    }
  }

  lemma ChainBounds(es: Regions, a: nat, b: nat, i: nat)
    requires Chain(es, a, b) && i < |es|
    ensures a <= es[i].1.begin && es[i].1.End() <= b
  {
    if i + 1 < |es| {
      assert es[i].1.End() <= es[|es| - 1].1.begin;
    }
    if i > 0 {
      assert es[0].1.End() <= es[i].1.begin;
    }
  }

  lemma ChainTake(es: Regions, a: nat, b: nat, i: nat)
    requires Chain(es, a, b) && i < |es|
    ensures Chain(es[..i], a, es[i].1.begin)
  {
  }

  lemma ChainDrop(es: Regions, a: nat, b: nat, i: nat)
    requires Chain(es, a, b) && i < |es|
    ensures Chain(es[i..], es[i].1.begin, b)
  {
  }

  lemma ChainDropAfter(es: Regions, a: nat, b: nat, i: nat)
    requires Chain(es, a, b) && i < |es|
    ensures Chain(es[i + 1..], es[i].1.End(), b)
  {
    if i + 1 < |es| {
      ChainDrop(es, a, b, i + 1);
    }
  }

  lemma ChainOne(r: Region)
    ensures Chain([(r.begin, r)], r.begin, r.End())
  {
  }

  lemma ShowsConcat(a: Regions, b: Regions, x: nat, v: View)
    ensures Shows(a + b, x, v) <==> Shows(a, x, v) || Shows(b, x, v)
  {
    if Shows(a, x, v) {
      var i :| 0 <= i < |a| && Within(a[i].1, x) && ViewOf(a[i].1) == v;
      assert (a + b)[i] == a[i];
    }
    if Shows(b, x, v) {
      var i :| 0 <= i < |b| && Within(b[i].1, x) && ViewOf(b[i].1) == v;
      assert (a + b)[|a| + i] == b[i];
    }
  }

  lemma ShowsOne(e: (int, Region), x: nat, v: View)
    ensures Shows([e], x, v) <==> Within(e.1, x) && ViewOf(e.1) == v
  {
    assert [e][0] == e;
  }

  lemma ShowsUnique(es: Regions, a: nat, b: nat, x: nat, v: View, w: View)
    requires Chain(es, a, b) && Shows(es, x, v) && Shows(es, x, w)
    ensures v == w && a <= x < b
  {
    var i :| 0 <= i < |es| && Within(es[i].1, x) && ViewOf(es[i].1) == v;
    var j :| 0 <= j < |es| && Within(es[j].1, x) && ViewOf(es[j].1) == w;
    assert !(i < j) && !(j < i);
    ChainBounds(es, a, b, i);
  }

  lemma SplitsUnique(es: Regions, i: nat, j: nat, k: int)
    requires SplitsAt(es, i, k) && SplitsAt(es, j, k)
    ensures i == j
  {
    assert i < |es| ==> es[i].0 >= k;
    assert j < |es| ==> es[j].0 >= k;
  }

  // ----- a range taken out of the middle

  /** `left` fills [lo, cur) and `right` fills [stop, hi); nothing is in between. */
  ghost predicate Gap(left: Regions, right: Regions, lo: nat, cur: nat, stop: nat, hi: nat) {
    && Chain(left, lo, cur) && Solid(left) && lo <= cur <= stop <= hi
    && Chain(right, stop, hi) && (right != [] ==> Solid(right[..|right| - 1]))
  }

  lemma OpenGap(es: Regions, lo: nat, hi: nat, i: nat)
    requires Partition(es, lo, hi) && i < |es|
    ensures Gap(es[..i], es[i + 1..], lo, es[i].1.begin, es[i].1.End(), hi)
    ensures Remove(es, i) == es[..i] + es[i + 1..]
  {
    ChainTake(es, lo, hi, i);
    ChainDropAfter(es, lo, hi, i);
    ChainBounds(es, lo, hi, i);
    assert forall j :: 0 <= j < |es| - 1 ==> es[j] == es[..|es| - 1][j];
  }

  lemma GapSplits(left: Regions, right: Regions, lo: nat, cur: nat, stop: nat, hi: nat, k: int)
    requires Gap(left, right, lo, cur, stop, hi) && cur <= k <= stop
    ensures SplitsAt(left + right, |left|, k)
    ensures !HasKey(left, k)
    ensures HasKey(right, k) <==> right != [] && k == stop
    ensures HasKey(left + right, k) <==> right != [] && k == stop
  {
    forall j | 0 <= j < |left| ensures left[j].0 < k {
      ChainBounds(left, lo, cur, j);
    }
    forall j | 0 <= j < |right| ensures right[j].0 >= k && (right[j].0 == k ==> k == stop) {
      ChainBounds(right, stop, hi, j);
    }
    if right != [] {
      assert right[0].0 == stop;
    }
    var es := left + right;
    forall j | 0 <= j < |es| ensures es[j] == if j < |left| then left[j] else right[j - |left|] {}
    if right != [] {
      assert es[|left|] == right[0];
    }
  }

  /** A region laid against the left side of the gap. */
  lemma GapFillLeft(left: Regions, right: Regions, lo: nat, cur: nat, stop: nat, hi: nat, r: Region)
    requires Gap(left, right, lo, cur, stop, hi) && r.begin == cur && r.length > 0 && r.End() <= stop
    ensures Gap(left + [(r.begin, r)], right, lo, r.End(), stop, hi)
    ensures Insert(left + right, |left|, (r.begin, r)) == (left + [(r.begin, r)]) + right
  {
    hide Chain;
    ChainOne(r);
    ChainConcat(left, [(r.begin, r)], lo, cur, r.End());
    InsertBetween(left, right, (r.begin, r));
  }

  /** A region laid against the right side of the gap. */
  lemma GapFillRight(left: Regions, right: Regions, lo: nat, cur: nat, stop: nat, hi: nat, r: Region)
    requires Gap(left, right, lo, cur, stop, hi) && r.End() == stop && cur <= r.begin && (right != [] ==> r.length > 0)
    ensures Gap(left, [(r.begin, r)] + right, lo, cur, r.begin, hi)
    ensures Insert(left + right, |left|, (r.begin, r)) == left + ([(r.begin, r)] + right)
  {
    hide Chain, Solid;
    ChainOne(r);
    ChainConcat([(r.begin, r)], right, r.begin, stop, hi);
    SolidFront((r.begin, r), right);
    InsertBetween(left, right, (r.begin, r));
  }

  lemma SolidFront(e: (int, Region), right: Regions)
    requires right != [] ==> e.1.length > 0 && Solid(right[..|right| - 1])
    ensures var t := [e] + right; Solid(t[..|t| - 1])
  {
    var t := ([e] + right)[..|right|];
    forall j | 0 <= j < |t| ensures t[j].1.length > 0 {
      if j > 0 {
        assert t[j] == right[..|right| - 1][j - 1];
      }
    }
  }

  lemma InsertBetween(left: Regions, right: Regions, e: (int, Region))
    ensures Insert(left + right, |left|, e) == left + ([e] + right)
    ensures Insert(left + right, |left|, e) == (left + [e]) + right
  {
    assert (left + right)[..|left|] == left && (left + right)[|left|..] == right;
  }

  lemma CloseGap(left: Regions, right: Regions, lo: nat, cur: nat, hi: nat)
    requires Gap(left, right, lo, cur, cur, hi) && left + right != []
    ensures Partition(left + right, lo, hi)
  {
    ChainConcat(left, right, lo, cur, hi);
    var es := left + right;
    var t := es[..|es| - 1];
    forall j | 0 <= j < |t| ensures t[j].1.length > 0 {
      if j >= |left| {
        assert es[j] == right[..|right| - 1][j - |left|];
      }
    }
  }

  /** The first region right of the gap joins it. */
  lemma GapGrowRight(left: Regions, right: Regions, lo: nat, cur: nat, stop: nat, hi: nat)
    requires Gap(left, right, lo, cur, stop, hi) && right != []
    ensures right[0].1.begin == stop && Gap(left, right[1..], lo, cur, right[0].1.End(), hi)
    ensures Remove(left + right, |left|) == left + right[1..]
  {
    hide Solid;
    ChainDropAfter(right, stop, hi, 0);
    ChainBounds(right, stop, hi, 0);
    SolidRest(right);
  }

  lemma SolidRest(right: Regions)
    requires right != [] && Solid(right[..|right| - 1])
    ensures |right| > 1 ==> Solid(right[1..][..|right| - 2])
  {
    if |right| > 1 {
      var t := right[1..][..|right| - 2];
      forall j | 0 <= j < |t| ensures t[j].1.length > 0 {
        assert t[j] == right[..|right| - 1][j + 1];
      }
    }
  }

  /** The last region left of the gap joins it. */
  lemma GapGrowLeft(left: Regions, right: Regions, lo: nat, cur: nat, stop: nat, hi: nat)
    requires Gap(left, right, lo, cur, stop, hi) && left != []
    ensures var last := |left| - 1;
      && left[last].1.End() == cur && Gap(left[..last], right, lo, left[last].1.begin, stop, hi)
      && Remove(left + right, last) == left[..last] + right
  {
    ChainTake(left, lo, cur, |left| - 1);
    ChainBounds(left, lo, cur, |left| - 1);
  }

  // ----- what get_entry does

  predicate Usable(r: Region, length: nat) { r.kind.FREE? && r.length >= length }

  /** The hint lies inside the region with room to spare: the code then cuts the region in front of it. */
  predicate Cuts(r: Region, hint: nat, length: nat) {
    r.begin < hint && r.length > (hint - r.begin) + length
  }

  /** Where the part handed out begins. */
  function CutPoint(r: Region, hint: nat, length: nat): nat { if Cuts(r, hint, length) then hint else r.begin }

  /** What stays in front of the hint. */
  function Front(r: Region, hint: nat, length: nat): Regions {
    if Cuts(r, hint, length) then [(r.begin, Region(r.begin, hint - r.begin, FREE, 0))] else []
  }

  /**
   What is left behind the part handed out. It is as long as if the region had
   not been cut; and none is put in where a region begins already.
   */
  function Behind(r: Region, hint: nat, length: nat, last: bool): Regions
    requires length <= r.length
  {
    var b := CutPoint(r, hint, length) + length;
    if length == 0 || (r.length == length && !last) then [] else [(b, Region(b, r.length - length, FREE, 0))]
  }

  /** The entry handed out: with no length asked for, all that would have been left behind it. */
  function Handed(r: Region, hint: nat, length: nat): Region {
    if length == 0 then Region(CutPoint(r, hint, length), r.length, FREE, 0)
    else Region(CutPoint(r, hint, length), length, ANON, 0)
  }

  predicate SameRange(a: Region, b: Region) { a.begin == b.begin && a.length == b.length }

  /** The regions after region i was carved, with `given` for the part handed out. */
  function Carved(es: Regions, i: nat, hint: nat, length: nat, given: Region): Regions
    requires i < |es| && length <= es[i].1.length
  {
    var r := es[i].1;
    es[..i] + Front(r, hint, length) + ([(given.begin, given)] + Behind(r, hint, length, i + 1 == |es|) + es[i + 1..])
  }

  /** A cut of the last region moves the end: what is left behind the hint is too long by as much as lies in front. */
  function EndAfter(es: Regions, i: nat, hint: nat, length: nat, hi: nat): nat
    requires i < |es|
  {
    if i + 1 == |es| && Cuts(es[i].1, hint, length) then hi + (hint - es[i].1.begin) else hi
  }

  /** The gap a region leaves, filled again. */
  lemma FillGap(left: Regions, right: Regions, lo: nat, at: nat, stop: nat, hi: nat, length: nat, given: Region)
    requires Gap(left, right, lo, at, stop, hi) && at + length <= stop && (right != [] ==> at < stop)
    requires given.begin == at && given.length == if length == 0 then stop - at else length
    ensures var b := at + length;
      var behind := if length == 0 || (b == stop && right != []) then [] else [(b, Region(b, stop - b, FREE, 0))];
      Partition(left + ([(at, given)] + behind + right), lo, hi)
  {
    hide Chain, Solid, Gap;
    var b := at + length;
    if given.length == 0 {
      GapFillRight(left, right, lo, at, stop, hi, given);
      CloseGap(left, [(at, given)] + right, lo, at, hi);
      assert [(at, given)] + [] + right == [(at, given)] + right;
    } else {
      GapFillLeft(left, right, lo, at, stop, hi, given);
      var left' := left + [(at, given)];
      if length == 0 || (b == stop && right != []) {
        CloseGap(left', right, lo, stop, hi);
        assert left + ([(at, given)] + [] + right) == left' + right;
      } else {
        var rest := Region(b, stop - b, FREE, 0);
        GapFillRight(left', right, lo, b, stop, hi, rest);
        CloseGap(left', [(b, rest)] + right, lo, b, hi);
        assert left + ([(at, given)] + [(b, rest)] + right) == left' + ([(b, rest)] + right);
      }
    }
  }

  lemma GapAfter(es: Regions, lo: nat, hi: nat, i: nat, hint: nat, length: nat)
    requires Partition(es, lo, hi) && i < |es| && length <= es[i].1.length
    requires (Cuts(es[i].1, hint, length) ==> i + 1 == |es|)
    ensures var r := es[i].1;
      Gap(es[..i] + Front(r, hint, length), es[i + 1..], lo, CutPoint(r, hint, length),
        CutPoint(r, hint, length) + r.length, EndAfter(es, i, hint, length, hi))
  {
    var r, left, right := es[i].1, es[..i], es[i + 1..];
    OpenGap(es, lo, hi, i);
    if Cuts(r, hint, length) {
      var hi' := hi + (hint - r.begin);
      assert Gap(left, right, lo, r.begin, hi', hi');
      GapFillLeft(left, right, lo, r.begin, hi', hi', Region(r.begin, hint - r.begin, FREE, 0));
    } else {
      assert left + [] == left;
    }
  }

  /** Without a cut, or with a cut of the last region, the regions partition the range again; the end may have moved. */
  lemma CarvedPartition(es: Regions, lo: nat, hi: nat, i: nat, hint: nat, length: nat, given: Region)
    requires Partition(es, lo, hi) && i < |es| && length <= es[i].1.length
    requires SameRange(given, Handed(es[i].1, hint, length))
    requires Cuts(es[i].1, hint, length) ==> i + 1 == |es|
    ensures Partition(Carved(es, i, hint, length, given), lo, EndAfter(es, i, hint, length, hi))
  {
    hide Chain, Gap;
    var r := es[i].1;
    var at := CutPoint(r, hint, length);
    GapAfter(es, lo, hi, i, hint, length);
    NotEmpty(es, lo, hi, i);
    FillGap(es[..i] + Front(r, hint, length), es[i + 1..], lo, at, at + r.length, EndAfter(es, i, hint, length, hi),
      length, given);
  }

  lemma NotEmpty(es: Regions, lo: nat, hi: nat, i: nat)
    requires Partition(es, lo, hi) && i + 1 <= |es|
    ensures es[i + 1..] != [] ==> es[i].1.length > 0
    ensures es[i + 1..] == [] <==> i + 1 == |es|
  {
    if i + 1 < |es| {
      assert es[..|es| - 1][i] == es[i];
    }
  }

  /** A cut of any other region leaves a tail that runs into the next one: the regions partition no range at all. */
  lemma CutBreaks(es: Regions, lo: nat, hi: nat, i: nat, hint: nat, length: nat, given: Region, lo': nat, hi': nat)
    requires Partition(es, lo, hi) && i + 1 < |es| && length <= es[i].1.length && Cuts(es[i].1, hint, length)
    requires SameRange(given, Handed(es[i].1, hint, length))
    ensures !Partition(Carved(es, i, hint, length, given), lo', hi')
  {
    var r, c := es[i].1, Carved(es, i, hint, length, given);
    var k := if length == 0 then i + 1 else i + 2;
    assert c[k].1.End() == hint + r.length && c[k + 1] == es[i + 1];
    assert es[i + 1].1.begin == r.End() < hint + r.length;
  }

  /** The parts of a carved region, and what they show. */
  lemma CarvedParts(es: Regions, i: nat, hint: nat, length: nat, given: Region, x: nat, v: View)
    requires i < |es| && length <= es[i].1.length
    ensures var r := es[i].1;
      Shows(Carved(es, i, hint, length, given), x, v) <==>
        || Shows(es[..i], x, v) || Shows(es[i + 1..], x, v) || (Within(given, x) && ViewOf(given) == v)
        || Shows(Front(r, hint, length), x, v) || Shows(Behind(r, hint, length, i + 1 == |es|), x, v)
  {
    hide Shows;
    var r, left, right := es[i].1, es[..i], es[i + 1..];
    var front, behind := Front(r, hint, length), Behind(r, hint, length, i + 1 == |es|);
    ShowsConcat(left + front, [(given.begin, given)] + behind + right, x, v);
    ShowsConcat(left, front, x, v);
    ShowsConcat([(given.begin, given)] + behind, right, x, v);
    ShowsConcat([(given.begin, given)], behind, x, v);
    ShowsOne((given.begin, given), x, v);
  }

  /** The part handed out shows what it was made, what a cut moved the end by is free, and all else is as before. */
  lemma CarvedShows(es: Regions, lo: nat, hi: nat, i: nat, hint: nat, length: nat, given: Region, x: nat, v: View)
    requires Partition(es, lo, hi) && i < |es| && Usable(es[i].1, length)
    requires SameRange(given, Handed(es[i].1, hint, length))
    requires Cuts(es[i].1, hint, length) ==> i + 1 == |es|
    ensures Shows(Carved(es, i, hint, length, given), x, v) <==>
      if Within(given, x) then v == ViewOf(given)
      else if hi <= x < EndAfter(es, i, hint, length, hi) then v == Free
      else Shows(es, x, v)
  {
    hide Shows, Chain, Solid;
    var r, left, right := es[i].1, es[..i], es[i + 1..];
    CarvedParts(es, i, hint, length, given, x, v);
    FrontShows(r, hint, length, x, v);
    BehindShows(r, hint, length, i + 1 == |es|, x, v);
    assert es == left + [es[i]] + right;
    ShowsConcat(left + [es[i]], right, x, v);
    ShowsConcat(left, [es[i]], x, v);
    ShowsOne(es[i], x, v);
    OpenGap(es, lo, hi, i);
    EndsWith(es, lo, hi, i, x, v);
    if r.begin <= x < r.End() {
      GapShows(left, right, lo, r.begin, r.End(), hi, x, v);
    }
  }

  lemma FrontShows(r: Region, hint: nat, length: nat, x: nat, v: View)
    ensures Shows(Front(r, hint, length), x, v) <==> Cuts(r, hint, length) && r.begin <= x < hint && v == Free
  {
    hide Shows;
    ShowsNone(x, v);
    if Cuts(r, hint, length) {
      ShowsOne((r.begin, Region(r.begin, hint - r.begin, FREE, 0)), x, v);
    }
  }

  lemma BehindShows(r: Region, hint: nat, length: nat, last: bool, x: nat, v: View)
    requires length <= r.length
    ensures var at := CutPoint(r, hint, length);
      Shows(Behind(r, hint, length, last), x, v) <==> length > 0 && at + length <= x < at + r.length && v == Free
  {
    hide Shows;
    ShowsNone(x, v);
    var b := CutPoint(r, hint, length) + length;
    ShowsOne((b, Region(b, r.length - length, FREE, 0)), x, v);
  }

  /** Behind the last region nothing is shown. */
  lemma EndsWith(es: Regions, lo: nat, hi: nat, i: nat, x: nat, v: View)
    requires Partition(es, lo, hi) && i < |es|
    ensures i + 1 == |es| ==> es[i].1.End() == hi && es[i + 1..] == [] && (x >= hi ==> !Shows(es, x, v))
    ensures !Shows([], x, v)
  {
    ShowsNone(x, v);
    forall j | 0 <= j < |es| ensures es[j].1.End() <= hi {
      ChainBounds(es, lo, hi, j);
    }
  }

  /** Other flags and another kind for the part handed out. */
  lemma CarvedGiven(es: Regions, i: nat, hint: nat, length: nat, given: Region, given': Region)
    requires i < |es| && length <= es[i].1.length && given'.begin == given.begin
    ensures var k := i + |Front(es[i].1, hint, length)|; var c := Carved(es, i, hint, length, given);
      && k < |c| && c[k] == (given.begin, given)
      && c[k := (given'.begin, given')] == Carved(es, i, hint, length, given')
  {
  }

  lemma ShowsNone(x: nat, v: View)
    ensures !Shows([], x, v)
  {
  }

  /** Nothing is shown inside a gap. */
  lemma GapShows(left: Regions, right: Regions, lo: nat, cur: nat, stop: nat, hi: nat, x: nat, v: View)
    requires Gap(left, right, lo, cur, stop, hi) && cur <= x < stop
    ensures !Shows(left, x, v) && !Shows(right, x, v) && !Shows(left + right, x, v)
  {
    forall i | 0 <= i < |left| ensures !Within(left[i].1, x) {
      ChainBounds(left, lo, cur, i);
    }
    forall i | 0 <= i < |right| ensures !Within(right[i].1, x) {
      ChainBounds(right, stop, hi, i);
    }
    ShowsConcat(left, right, x, v);
  }

  // ----- what munmap does

  /** Outside [a, b) both maps show the same. */
  ghost predicate Kept(es: Regions, es': Regions, a: nat, b: nat) {
    forall x: nat, v :: !(a <= x < b) ==> (Shows(es', x, v) <==> Shows(es, x, v))
  }

  /** All of [a, b) apart from [p, q) shows free memory. */
  ghost predicate FreeAround(es: Regions, a: nat, b: nat, p: nat, q: nat) {
    forall x: nat :: a <= x < b && !(p <= x < q) ==> Shows(es, x, Free)
  }

  lemma KeptOpen(es: Regions, i: nat)
    requires i < |es|
    ensures Kept(es, es[..i] + es[i + 1..], es[i].1.begin, es[i].1.End())
  {
    hide Shows;
    var left, right, r := es[..i], es[i + 1..], es[i].1;
    forall x: nat, v | !(r.begin <= x < r.End()) ensures Shows(left + right, x, v) <==> Shows(es, x, v) {
      assert es == left + [es[i]] + right;
      ShowsConcat(left + [es[i]], right, x, v);
      ShowsConcat(left, [es[i]], x, v);
      ShowsOne(es[i], x, v);
      ShowsConcat(left, right, x, v);
    }
  }

  /** Part of region i is put back at the left of the gap. */
  lemma KeptFillLeft(es: Regions, lo: nat, hi: nat, i: nat, left: Regions, right: Regions, a: nat, b: nat,
      e: (int, Region))
    requires Chain(es, lo, hi) && i < |es| && Gap(left, right, lo, a, b, hi) && Kept(es, left + right, a, b)
    requires e.1.begin == a && e.1.End() <= b && ViewOf(e.1) == ViewOf(es[i].1)
    requires es[i].1.begin <= a && b <= es[i].1.End()
    ensures Kept(es, (left + [e]) + right, e.1.End(), b)
  {
    hide Shows, Chain, Gap;
    var c := e.1.End();
    forall x: nat, v | !(c <= x < b) ensures Shows((left + [e]) + right, x, v) <==> Shows(es, x, v) {
      ShowsConcat(left + [e], right, x, v);
      ShowsConcat(left, [e], x, v);
      ShowsConcat(left, right, x, v);
      ShowsOne(e, x, v);
      if a <= x < c {
        OwnView(es, lo, hi, i, x, v);
        GapShows(left, right, lo, a, b, hi, x, v);
      }
    }
  }

  /** Part of region i is put back at the right of the gap. */
  lemma KeptFillRight(es: Regions, lo: nat, hi: nat, i: nat, left: Regions, right: Regions, a: nat, b: nat,
      e: (int, Region))
    requires Chain(es, lo, hi) && i < |es| && Gap(left, right, lo, a, b, hi) && Kept(es, left + right, a, b)
    requires a <= e.1.begin && e.1.End() == b && ViewOf(e.1) == ViewOf(es[i].1)
    requires es[i].1.begin <= a && b <= es[i].1.End()
    ensures Kept(es, left + ([e] + right), a, e.1.begin)
  {
    hide Shows, Chain, Gap;
    var c := e.1.begin;
    forall x: nat, v | !(a <= x < c) ensures Shows(left + ([e] + right), x, v) <==> Shows(es, x, v) {
      ShowsConcat(left, [e] + right, x, v);
      ShowsConcat([e], right, x, v);
      ShowsConcat(left, right, x, v);
      ShowsOne(e, x, v);
      if c <= x < b {
        OwnView(es, lo, hi, i, x, v);
        GapShows(left, right, lo, a, b, hi, x, v);
      }
    }
  }

  lemma KeptGrowRight(es: Regions, left: Regions, right: Regions, a: nat, b: nat, p: nat, q: nat)
    requires right != [] && right[0].1.kind.FREE? && right[0].1.begin == b && a <= p <= q <= b
    requires Kept(es, left + right, a, b) && FreeAround(es, a, b, p, q)
    ensures Kept(es, left + right[1..], a, right[0].1.End()) && FreeAround(es, a, right[0].1.End(), p, q)
  {
    hide Shows;
    var r := right[0].1;
    forall x: nat, v | !(a <= x < b) ensures Shows(es, x, v) <==>
      Shows(left + right[1..], x, v) || (b <= x < r.End() && v == Free) {
      ShowsConcat(left, right, x, v);
      assert right == [right[0]] + right[1..];
      ShowsConcat([right[0]], right[1..], x, v);
      ShowsOne(right[0], x, v);
      ShowsConcat(left, right[1..], x, v);
    }
  }

  lemma KeptGrowLeft(es: Regions, left: Regions, right: Regions, a: nat, b: nat, p: nat, q: nat)
    requires left != [] && left[|left| - 1].1.kind.FREE? && left[|left| - 1].1.End() == a && a <= p <= q <= b
    requires Kept(es, left + right, a, b) && FreeAround(es, a, b, p, q)
    ensures var last := |left| - 1; var r := left[last].1;
      Kept(es, left[..last] + right, r.begin, b) && FreeAround(es, r.begin, b, p, q)
  {
    hide Shows;
    var last := |left| - 1;
    var r, rest := left[last].1, left[..last];
    forall x: nat, v | !(a <= x < b) ensures Shows(es, x, v) <==>
      Shows(rest + right, x, v) || (r.begin <= x < a && v == Free) {
      ShowsConcat(left, right, x, v);
      assert left == rest + [left[last]];
      ShowsConcat(rest, [left[last]], x, v);
      ShowsOne(left[last], x, v);
      ShowsConcat(rest, right, x, v);
    }
  }

  /** The gap is closed by one free region: exactly [p, q) has become free. */
  lemma KeptClose(es: Regions, lo: nat, hi: nat, left: Regions, right: Regions, a: nat, b: nat, p: nat, q: nat,
      r: Region, x: nat, v: View)
    requires Chain(es, lo, hi) && Gap(left, right, lo, a, b, hi) && Kept(es, left + right, a, b)
    requires FreeAround(es, a, b, p, q)
    requires a <= p <= q <= b && r.begin == a && r.End() == b && r.kind.FREE?
    ensures Shows((left + [(a, r)]) + right, x, v) <==> if p <= x < q then v == Free else Shows(es, x, v)
  {
    hide Shows, Chain, Gap;
    ShowsConcat(left + [(a, r)], right, x, v);
    ShowsConcat(left, [(a, r)], x, v);
    ShowsConcat(left, right, x, v);
    ShowsOne((a, r), x, v);
    if a <= x < b {
      GapShows(left, right, lo, a, b, hi, x, v);
      if !(p <= x < q) && Shows(es, x, v) {
        ShowsUnique(es, lo, hi, x, v, Free);
      }
    }
  }

  lemma OwnView(es: Regions, lo: nat, hi: nat, i: nat, x: nat, v: View)
    requires Chain(es, lo, hi) && i < |es| && Within(es[i].1, x)
    ensures Shows(es, x, v) <==> v == ViewOf(es[i].1)
  {
    assert Shows(es, x, ViewOf(es[i].1));
    if Shows(es, x, v) {
      ShowsUnique(es, lo, hi, x, v, ViewOf(es[i].1));
    }
  }
}
