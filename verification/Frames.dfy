/**
 The physical frame allocator: a bitmap with two bits per page, a lowest page
 to search from and a running total.
 */
module Frames {
  import opened Wrappers

  datatype PageStatus = RESERVED | FREE | USED | RECLAIMABLE

  /** One byte of the bitmap. */
  datatype FourPages = FourPages(first: PageStatus, second: PageStatus, third: PageStatus, fourth: PageStatus)

  const PAGE: nat := 0x1000
  const BITMAP_SIZE: nat := 32 * 1024 * 1024 / 16
  const PAGES: nat := BITMAP_SIZE * 4
  const MAX_PID: nat := PAGES - 4

  const HHDM_BEGIN: nat := 0xffff_f800_0000_0000

  const TWO64: nat := 0x1_0000_0000_0000_0000

  type Word = x: nat | x < TWO64

  /** 64-bit arithmetic. */
  function Wrap(x: int): Word { x % TWO64 }

  /** A region of the boot loader's memory map. */
  datatype Boot = Boot(base: Word, length: Word, kind: int)

  function RoundUp(a: Word): Word { if a % PAGE == 0 then a else Wrap(a + PAGE) / PAGE * PAGE }
  function RoundDown(a: nat): nat { a / PAGE * PAGE }

  /** Below 2^43 the HHDM window's bit operations are an addition and the subtraction that undoes it. */
  lemma HhdmBits(a: bv64)
    requires a < 0x800_0000_0000
    ensures a | 0xffff_f800_0000_0000 == a + 0xffff_f800_0000_0000
    ensures (a | 0xffff_f800_0000_0000) & !0xffff_f800_0000_0000 == a
  {
  }

  // ----- the bitmap as a sequence of pages

  function Field(f: FourPages, i: nat): PageStatus {
    if i == 0 then f.first else if i == 1 then f.second else if i == 2 then f.third else f.fourth
  }

  function SetField(f: FourPages, i: nat, sts: PageStatus): FourPages {
    if i == 0 then f.(first := sts) else if i == 1 then f.(second := sts)
    else if i == 2 then f.(third := sts) else f.(fourth := sts)
  }

  ghost function Unpacked(b: seq<FourPages>): seq<PageStatus> {
    seq(|b| * 4, p requires 0 <= p < |b| * 4 => Field(b[p / 4], p % 4))
  }

  ghost function FreePages(ps: seq<PageStatus>): nat {
    if ps == [] then 0 else FreePages(ps[..|ps| - 1]) + if ps[|ps| - 1].FREE? then 1 else 0
  }

  lemma {:induction false} FreePagesSet(ps: seq<PageStatus>, p: nat, sts: PageStatus)
    requires p < |ps|
    ensures FreePages(ps[p := sts]) == FreePages(ps) - (if ps[p].FREE? then 1 else 0) + (if sts.FREE? then 1 else 0)
    decreases |ps|
  {
    var n := |ps| - 1;
    if p == n {
      assert ps[p := sts][..n] == ps[..n];
    } else {
      FreePagesSet(ps[..n], p, sts);
      assert ps[p := sts][..n] == ps[..n][p := sts];
    }
  }

  lemma {:induction false} NoFreePages(ps: seq<PageStatus>)
    ensures FreePages(ps) == 0 <==> forall p :: 0 <= p < |ps| ==> !ps[p].FREE?
  {
    if ps != [] {
      NoFreePages(ps[..|ps| - 1]);
    }
  }

  // ----- what the memory map makes free

  /** What the loop does with a region: pass it over, or go through pages lo to hi - 1. */
  datatype Span = Skip | Pages(lo: nat, hi: nat)

  /** The whole pages inside a region of the wanted kind, the end clipped to the bitmap. */
  function SpanOf(e: Boot, what: int): (sp: Span)
    ensures sp.Pages? ==> sp.hi < MAX_PID && sp.lo <= TWO64 / PAGE
  {
    var base := RoundUp(e.base);
    var skipped := Wrap(base - e.base);
    if e.kind != what || base >= Wrap(e.base + e.length) || e.length <= skipped then Skip
    else
      var len := RoundDown(e.length - skipped);
      if len == 0 then Skip
      else
        var stop := Wrap(base + len) / PAGE;
        Pages(base / PAGE, if stop >= MAX_PID then MAX_PID - 1 else stop)
  }

  ghost function Marked(ps: seq<PageStatus>, lo: nat, hi: nat): seq<PageStatus> {
    seq(|ps|, p requires 0 <= p < |ps| => if lo <= p < hi && !ps[p].USED? then FREE else ps[p])
  }

  /** How many pages from lo to hi - 1 are in the allocator's hands already. */
  ghost function Touched(ps: seq<PageStatus>, lo: nat, hi: nat): nat
    requires hi <= |ps|
    decreases hi
  {
    if hi <= lo then 0 else Touched(ps, lo, hi - 1) + if ps[hi - 1].FREE? || ps[hi - 1].USED? then 1 else 0
  }

  lemma {:induction false} TouchedNone(ps: seq<PageStatus>, lo: nat, hi: nat)
    requires hi <= |ps|
    ensures Touched(ps, lo, hi) == 0 <==> Untouched(ps, lo, hi)
    decreases hi
  {
    if lo < hi {
      TouchedNone(ps, lo, hi - 1);
    }
  }

  ghost predicate Untouched(ps: seq<PageStatus>, lo: nat, hi: nat) {
    forall p :: lo <= p < hi && p < |ps| ==> !ps[p].FREE? && !ps[p].USED?
  }

  /** Marking frees every page of the range but those free or in use before. */
  lemma {:induction false} MarkedCount(ps: seq<PageStatus>, lo: nat, hi: nat)
    requires lo <= hi <= |ps|
    ensures FreePages(Marked(ps, lo, hi)) == FreePages(ps) + (hi - lo) - Touched(ps, lo, hi)
    decreases hi
  {
    if lo == hi {
      assert Marked(ps, lo, hi) == ps;
    } else {
      MarkedCount(ps, lo, hi - 1);
      var half := Marked(ps, lo, hi - 1);
      FreePagesSet(half, hi - 1, FREE);
      assert Marked(ps, lo, hi) == if ps[hi - 1].USED? then half else half[hi - 1 := FREE];
    }
  }

  /** The allocator's books: the status of every page, where to search, and the running total. */
  datatype Book = Book(ps: seq<PageStatus>, minPid: nat, maxPid: nat, total: nat)

  /** The books after one region. */
  ghost function Added(b: Book, sp: Span): (b': Book)
    ensures |b'.ps| == |b.ps|
  {
    if sp.Skip? then b
    else
      Book(Marked(b.ps, sp.lo, sp.hi), if b.minPid == 0 || sp.lo < b.minPid then sp.lo else b.minPid,
           if sp.hi > b.maxPid then sp.hi else b.maxPid, Wrap(b.total + (sp.hi - sp.lo) * 4))
  }

  ghost function AddedAll(b: Book, es: seq<Boot>, what: int): (b': Book)
    ensures |b'.ps| == |b.ps|
  {
    if es == [] then b else Added(AddedAll(b, es[..|es| - 1], what), SpanOf(es[|es| - 1], what))
  }

  ghost predicate Counted(b: Book) { b.total == 4 * FreePages(b.ps) }

  /** What a region puts the total off by: the pages it counts again, or what lies between its end and beginning. */
  ghost function OffBy(ps: seq<PageStatus>, sp: Span): int
    requires sp.Pages? ==> sp.hi <= |ps|
  {
    if sp.Skip? then 0 else if sp.lo <= sp.hi then 4 * Touched(ps, sp.lo, sp.hi) else 4 * sp.hi - 4 * sp.lo
  }

  /** One region puts the total off by so much more. */
  lemma AddedOff(b: Book, sp: Span, d: int)
    requires |b.ps| == PAGES && (sp.Pages? ==> sp.hi < MAX_PID) && b.total == Wrap(4 * FreePages(b.ps) + d)
    ensures Added(b, sp).total == Wrap(4 * FreePages(Added(b, sp).ps) + d + OffBy(b.ps, sp))
  {
    hide FreePages, Touched, Marked, Wrap;
    if sp.Pages? {
      if sp.lo <= sp.hi {
        MarkedCount(b.ps, sp.lo, sp.hi);
      } else {
        MarkedNothing(b.ps, sp.lo, sp.hi);
      }
      WrapAdd(4 * FreePages(b.ps) + d, (sp.hi - sp.lo) * 4);
    }
  }

  lemma MarkedNothing(ps: seq<PageStatus>, lo: nat, hi: nat)
    requires hi <= lo
    ensures Marked(ps, lo, hi) == ps
  {
  }

  lemma WrapAdd(x: int, y: int)
    ensures Wrap(Wrap(x) + y) == Wrap(x + y)
  {
  }

  lemma {:induction false} FreePagesBound(ps: seq<PageStatus>)
    ensures FreePages(ps) <= |ps|
  {
    if ps != [] {
      FreePagesBound(ps[..|ps| - 1]);
    }
  }

  lemma {:induction false} TouchedBound(ps: seq<PageStatus>, lo: nat, hi: nat)
    requires hi <= |ps|
    ensures Touched(ps, lo, hi) <= hi
    decreases hi
  {
    if lo < hi {
      TouchedBound(ps, lo, hi - 1);
    }
  }

  /** The total stays right if and only if the region begins below the clip and none of its pages was free or in use. */
  lemma CountedIff(b: Book, lo: nat, hi: nat)
    requires |b.ps| == PAGES && Counted(b) && hi < MAX_PID && lo <= TWO64 / PAGE
    ensures Counted(Added(b, Pages(lo, hi))) <==> lo <= hi && Untouched(b.ps, lo, hi)
  {
    hide FreePages, Touched, Marked, Untouched;
    var b' := Added(b, Pages(lo, hi));
    FreePagesBound(b.ps);
    AddedOff(b, Pages(lo, hi), 0);
    TouchedNone(b.ps, lo, hi);
    FreePagesBound(b'.ps);
    assert |b'.ps| == PAGES by { MarkedLength(b.ps, lo, hi); }
    TouchedBound(b.ps, lo, hi);
    WrapsIff(4 * FreePages(b'.ps), if lo <= hi then 4 * Touched(b.ps, lo, hi) else 4 * hi - 4 * lo);
  }

  lemma MarkedLength(ps: seq<PageStatus>, lo: nat, hi: nat)
    ensures |Marked(ps, lo, hi)| == |ps|
  {
  }

  lemma WrapsIff(n: nat, d: int)
    requires n < TWO64 / 4 && -(TWO64 / 4) < d < TWO64 / 4
    ensures Wrap(n + d) == n <==> d == 0
  {
    if n + d < 0 {
      assert Wrap(n + d) == n + d + TWO64;
    }
  }

  /** Free pages lie between the two marks, used ones below the upper, and the total counts the free ones. */
  ghost predicate Sound(b: Book) {
    && |b.ps| == PAGES && b.maxPid < MAX_PID && Counted(b)
    && (forall p :: 0 <= p < PAGES && b.ps[p].FREE? ==> b.minPid <= p < b.maxPid)
    && (forall p :: 0 <= p < PAGES && b.ps[p].USED? ==> p < b.maxPid)
  }

  /** A lowest page of 0 is taken for no lowest page yet: then nothing free may lie below the region. */
  ghost predicate Fits(b: Book, sp: Span) {
    sp.Skip? || (sp.lo <= sp.hi && Untouched(b.ps, sp.lo, sp.hi)
                 && (b.minPid == 0 ==> forall p :: 0 <= p < sp.lo && p < |b.ps| ==> !b.ps[p].FREE?))
  }

  /** The books stay right if and only if the region fits. */
  lemma SoundIff(b: Book, sp: Span)
    requires Sound(b) && (sp.Pages? ==> sp.hi < MAX_PID && sp.lo <= TWO64 / PAGE)
    ensures Sound(Added(b, sp)) <==> Fits(b, sp)
  {
    hide FreePages, Counted;
    if sp.Pages? {
      var b' := Added(b, sp);
      CountedIff(b, sp.lo, sp.hi);
      if sp.lo <= sp.hi && Untouched(b.ps, sp.lo, sp.hi) {
        MarkedKept(b.ps, sp.lo, sp.hi);
        if !Fits(b, sp) {
          var p :| 0 <= p < sp.lo && p < |b.ps| && b.ps[p].FREE?;
          assert b'.ps[p].FREE? && p < b'.minPid;
        }
      }
    }
  }

  lemma MarkedKept(ps: seq<PageStatus>, lo: nat, hi: nat)
    requires Untouched(ps, lo, hi)
    ensures |Marked(ps, lo, hi)| == |ps|
    ensures forall p :: 0 <= p < |ps| ==> (Marked(ps, lo, hi)[p].FREE? <==> ps[p].FREE? || lo <= p < hi)
    ensures forall p :: 0 <= p < |ps| ==> (Marked(ps, lo, hi)[p].USED? <==> ps[p].USED?)
  {
  }

  // ----- what a region of the map stands for

  /** The region holds all of page p. */
  predicate Holds(e: Boot, p: nat) { e.base <= p * PAGE && (p + 1) * PAGE <= e.base + e.length }

  /** A region that does not wrap around names exactly its whole pages, up to the clip. */
  lemma SpanWhole(e: Boot, what: int, p: nat)
    requires e.base + e.length < TWO64
    ensures SpanOf(e, what).Pages? && SpanOf(e, what).lo <= p < SpanOf(e, what).hi <==>
      e.kind == what && Holds(e, p) && p < MAX_PID - 1
  {
    var up := (e.base + PAGE - 1) / PAGE;
    var down := (e.base + e.length) / PAGE;
    WrapSmall(e.base + e.length);
    HoldsIff(e, p);
    if up < down {
      FirstWhole(e);
      SpanIs(e, what);
    } else {
      SpanNone(e, what);
    }
  }

  lemma HoldsIff(e: Boot, p: nat)
    ensures Holds(e, p) <==> (e.base + PAGE - 1) / PAGE <= p < (e.base + e.length) / PAGE
  {
  }

  /** The first whole page of a region that has one. */
  lemma FirstWhole(e: Boot)
    requires e.base + e.length < TWO64 && (e.base + PAGE - 1) / PAGE < (e.base + e.length) / PAGE
    ensures var up := (e.base + PAGE - 1) / PAGE;
      RoundUp(e.base) == up * PAGE && e.base <= up * PAGE < e.base + e.length
    ensures RoundUp(e.base) - e.base < e.length
  {
    if e.base % PAGE != 0 {
      WrapSmall(e.base + PAGE);
    }
  }

  lemma SpanIs(e: Boot, what: int)
    requires e.base + e.length < TWO64 && (e.base + PAGE - 1) / PAGE < (e.base + e.length) / PAGE
    ensures var up, down := (e.base + PAGE - 1) / PAGE, (e.base + e.length) / PAGE;
      SpanOf(e, what) == if e.kind != what then Skip else Pages(up, if down >= MAX_PID then MAX_PID - 1 else down)
  {
    hide Wrap, RoundUp;
    FirstWhole(e);
    var up, down := (e.base + PAGE - 1) / PAGE, (e.base + e.length) / PAGE;
    var base := up * PAGE;
    WrapSmall(base - e.base);
    WrapSmall(e.base + e.length);
    WholeLength(e.base + e.length, up);
    WrapSmall(down * PAGE);
    Multiple(up);
    Multiple(down);
  }

  lemma WholeLength(stop: nat, up: nat)
    requires up * PAGE <= stop
    ensures up * PAGE + RoundDown(stop - up * PAGE) == stop / PAGE * PAGE <= stop
    ensures RoundDown(stop - up * PAGE) == 0 <==> stop / PAGE == up
  {
  }

  /** A region without a whole page is passed over. */
  lemma SpanNone(e: Boot, what: int)
    requires e.base + e.length < TWO64 && (e.base + e.length) / PAGE <= (e.base + PAGE - 1) / PAGE
    ensures SpanOf(e, what) == Skip
  {
    hide Wrap, RoundUp;
    WrapSmall(e.base + e.length);
    var up := (e.base + PAGE - 1) / PAGE;
    if e.base + PAGE < TWO64 || e.base % PAGE == 0 {
      RoundsUp(e.base);
      if up * PAGE < e.base + e.length {
        WrapSmall(up * PAGE - e.base);
        WholeLength(e.base + e.length, up);
      }
    } else {
      RoundsAway(e.base);
    }
  }

  lemma RoundsUp(a: Word)
    requires a + PAGE < TWO64 || a % PAGE == 0
    ensures RoundUp(a) == (a + PAGE - 1) / PAGE * PAGE >= a
  {
  }

  lemma RoundsAway(a: Word)
    requires a + PAGE >= TWO64 && a % PAGE != 0
    ensures RoundUp(a) == 0 && Wrap(0 - a) == TWO64 - a
  {
  }

  // ----- whole memory maps

  lemma {:induction false} AllFitSound(b: Book, es: seq<Boot>, what: int)
    requires Sound(b) && forall i :: 0 <= i < |es| ==> Fits(AddedAll(b, es[..i], what), SpanOf(es[i], what))
    ensures Sound(AddedAll(b, es, what))
    decreases |es|
  {
    hide Sound, Fits, SpanOf, Added;
    if es != [] {
      var n := |es| - 1;
      var init := es[..n];
      forall i | 0 <= i < |init| ensures Fits(AddedAll(b, init[..i], what), SpanOf(init[i], what)) {
        assert init[..i] == es[..i] && init[i] == es[i];
      }
      AllFitSound(b, init, what);
      SoundIff(AddedAll(b, init, what), SpanOf(es[n], what));
    }
  }

  /** What a whole map puts the total off by. */
  ghost function OffByAll(b: Book, es: seq<Boot>, what: int): int
    requires |b.ps| == PAGES
  {
    if es == [] then 0
    else
      var init := es[..|es| - 1];
      OffByAll(b, init, what) + OffBy(AddedAll(b, init, what).ps, SpanOf(es[|es| - 1], what))
  }

  lemma {:induction false} TotalAll(b: Book, es: seq<Boot>, what: int)
    requires |b.ps| == PAGES && Counted(b)
    ensures var b' := AddedAll(b, es, what); b'.total == Wrap(4 * FreePages(b'.ps) + OffByAll(b, es, what))
    decreases |es|
  {
    hide FreePages, Touched, Added, SpanOf, OffBy;
    if es == [] {
      FreePagesBound(b.ps);
      WrapSmall(4 * FreePages(b.ps));
    } else {
      var init := es[..|es| - 1];
      TotalAll(b, init, what);
      AddedOff(AddedAll(b, init, what), SpanOf(es[|es| - 1], what), OffByAll(b, init, what));
    }
  }

  /** After any map the total is right if and only if what its regions put it off by comes to nothing. */
  lemma CountedAllIff(b: Book, es: seq<Boot>, what: int)
    requires |b.ps| == PAGES && Counted(b)
    ensures Counted(AddedAll(b, es, what)) <==> Wrap(OffByAll(b, es, what)) == 0
  {
    hide FreePages, AddedAll, OffByAll;
    var b' := AddedAll(b, es, what);
    TotalAll(b, es, what);
    FreePagesBound(b'.ps);
    WrapZero(4 * FreePages(b'.ps), OffByAll(b, es, what));
  }

  lemma WrapZero(n: nat, d: int)
    requires n < TWO64
    ensures Wrap(n + d) == n <==> Wrap(d) == 0
  {
    var q := (n + d) / TWO64;
    assert n + d == q * TWO64 + Wrap(n + d);
    if Wrap(n + d) == n {
      assert d == q * TWO64;
    }
  }

  const TWO32: nat := 0x1_0000_0000

  /** With no region above the clip nothing makes up for a page counted twice. */
  lemma CountedBelow(b: Book, es: seq<Boot>, what: int)
    requires |b.ps| == PAGES && Counted(b) && |es| < TWO32
    requires forall i :: 0 <= i < |es| && SpanOf(es[i], what).Pages? ==>
      SpanOf(es[i], what).lo <= SpanOf(es[i], what).hi
    ensures Counted(AddedAll(b, es, what)) <==> forall i :: 0 <= i < |es| ==> NoneAgain(b, es, what, i)
  {
    hide AddedAll, OffByAll, Counted, SpanOf, NoneAgain;
    CountedAllIff(b, es, what);
    OffBelow(b, es, what);
  }

  /** Region i has no page that was free or in use before it. */
  ghost predicate NoneAgain(b: Book, es: seq<Boot>, what: int, i: nat)
    requires i < |es|
  {
    var sp := SpanOf(es[i], what);
    sp.Pages? ==> Untouched(AddedAll(b, es[..i], what).ps, sp.lo, sp.hi)
  }

  lemma {:induction false} OffBelow(b: Book, es: seq<Boot>, what: int)
    requires |b.ps| == PAGES
    requires forall i :: 0 <= i < |es| && SpanOf(es[i], what).Pages? ==>
      SpanOf(es[i], what).lo <= SpanOf(es[i], what).hi
    ensures 0 <= OffByAll(b, es, what) <= |es| * (4 * PAGES)
    ensures OffByAll(b, es, what) == 0 <==> forall i :: 0 <= i < |es| ==> NoneAgain(b, es, what, i)
    decreases |es|
  {
    hide AddedAll, SpanOf, Touched, Untouched;
    if es != [] {
      var n := |es| - 1;
      var init := es[..n];
      OffBelow(b, init, what);
      forall i | 0 <= i < n ensures NoneAgain(b, init, what, i) <==> NoneAgain(b, es, what, i) {
        assert init[..i] == es[..i] && init[i] == es[i];
      }
      var sp := SpanOf(es[n], what);
      if sp.Pages? {
        TouchedNone(AddedAll(b, init, what).ps, sp.lo, sp.hi);
        TouchedBound(AddedAll(b, init, what).ps, sp.lo, sp.hi);
      }
      assert NoneAgain(b, es, what, n) <==> OffBy(AddedAll(b, init, what).ps, sp) == 0;
      if forall i :: 0 <= i < n ==> NoneAgain(b, init, what, i) {
        assert forall i :: 0 <= i < n ==> NoneAgain(b, es, what, i);
      } else {
        var i :| 0 <= i < n && !NoneAgain(b, init, what, i);
        assert !NoneAgain(b, es, what, i);
      }
    }
  }

  /** Page p is in one of the first n spans. */
  ghost predicate Covered(es: seq<Boot>, what: int, n: nat, p: nat)
    requires n <= |es|
  {
    exists i :: 0 <= i < n && SpanOf(es[i], what).Pages? && SpanOf(es[i], what).lo <= p < SpanOf(es[i], what).hi
  }

  predicate Overlap(a: Span, b: Span) { a.Pages? && b.Pages? && a.lo < b.hi && b.lo < a.hi }

  /**
   A memory map as it should be: no page 0, nothing beginning above the clip, no two regions with a
   page in common.
   */
  ghost predicate Proper(es: seq<Boot>, what: int) {
    && (forall i :: 0 <= i < |es| && SpanOf(es[i], what).Pages? ==>
      0 < SpanOf(es[i], what).lo <= SpanOf(es[i], what).hi)
    && (forall i, j :: 0 <= i < j < |es| ==> !Overlap(SpanOf(es[i], what), SpanOf(es[j], what)))
  }

  ghost predicate Fresh(b: Book) {
    |b.ps| == PAGES && b.minPid == 0 == b.maxPid == b.total && forall p :: 0 <= p < PAGES ==> b.ps[p].RESERVED?
  }

  /** After the first n regions exactly their pages are free, and nothing is in use. */
  ghost predicate Filled(b: Book, es: seq<Boot>, what: int, n: nat)
    requires n <= |es|
  {
    && Sound(b) && (forall p :: 0 <= p < PAGES ==> !b.ps[p].USED? && (b.ps[p].FREE? <==> Covered(es, what, n, p)))
    && (b.minPid == 0 ==> forall p :: 0 <= p < PAGES ==> !b.ps[p].FREE?)
  }

  /** From boot, a proper map makes exactly its whole pages free, and the books are right. */
  lemma {:induction false} ProperMap(b: Book, es: seq<Boot>, what: int, n: nat)
    requires Fresh(b) && Proper(es, what) && n <= |es|
    ensures Filled(AddedAll(b, es[..n], what), es, what, n)
    decreases n
  {
    hide SpanOf, Sound, Added;
    if n == 0 {
      FreshSound(b);
    } else {
      ProperMap(b, es, what, n - 1);
      assert es[..n][..n - 1] == es[..n - 1];
      ProperNext(AddedAll(b, es[..n - 1], what), es, what, n - 1);
    }
  }

  lemma FreshSound(b: Book)
    requires Fresh(b)
    ensures Sound(b)
  {
    NoFreePages(b.ps);
  }

  lemma ProperNext(b: Book, es: seq<Boot>, what: int, n: nat)
    requires n < |es| && Filled(b, es, what, n) && Proper(es, what)
    ensures Filled(Added(b, SpanOf(es[n], what)), es, what, n + 1)
  {
    hide SpanOf, Counted, Marked;
    var sp := SpanOf(es[n], what);
    SpanBounds(es[n], what);
    if sp.Pages? {
      forall p | sp.lo <= p < sp.hi && p < |b.ps| ensures !b.ps[p].FREE? {
        NotCovered(es, what, n, p);
      }
      MarkedKept(b.ps, sp.lo, sp.hi);
    }
    SoundIff(b, sp);
    forall p: nat ensures Covered(es, what, n + 1, p) <==>
      Covered(es, what, n, p) || (sp.Pages? && sp.lo <= p < sp.hi) {
      CoveredNext(es, what, n, p);
    }
  }

  lemma NotCovered(es: seq<Boot>, what: int, n: nat, p: nat)
    requires n < |es| && Proper(es, what)
    requires SpanOf(es[n], what).Pages? && SpanOf(es[n], what).lo <= p < SpanOf(es[n], what).hi
    ensures !Covered(es, what, n, p)
  {
    hide SpanOf;
    assert forall i :: 0 <= i < n ==> !Overlap(SpanOf(es[i], what), SpanOf(es[n], what));
  }

  lemma SpanBounds(e: Boot, what: int)
    ensures SpanOf(e, what).Pages? ==> SpanOf(e, what).hi < MAX_PID && SpanOf(e, what).lo <= TWO64 / PAGE
  {
  }

  lemma CoveredNext(es: seq<Boot>, what: int, n: nat, p: nat)
    requires n < |es|
    ensures Covered(es, what, n + 1, p) <==>
      Covered(es, what, n, p) || (SpanOf(es[n], what).Pages? && SpanOf(es[n], what).lo <= p < SpanOf(es[n], what).hi)
  {
    hide SpanOf;
  }

  /** Region i is of the wanted kind and holds all of page p, below the clip. */
  predicate Names(es: seq<Boot>, what: int, i: nat, p: nat)
    requires i < |es|
  {
    es[i].kind == what && Holds(es[i], p) && p < MAX_PID - 1
  }

  /**
   A memory map in bytes: no region wraps around, those wanted have neither
   page 0 nor begin behind the clip, and no two of them hold the same page.
   */
  ghost predicate Plain(es: seq<Boot>, what: int) {
    && (forall i :: 0 <= i < |es| ==> es[i].base + es[i].length < TWO64)
    && (forall i :: 0 <= i < |es| && es[i].kind == what ==> 0 < es[i].base <= (MAX_PID - 1) * PAGE)
    && (forall i, j, p: nat :: 0 <= i < j < |es| ==> !(Names(es, what, i, p) && Names(es, what, j, p)))
  }

  /** From boot, such a map makes free exactly the pages its regions hold, and the total counts them. */
  lemma PlainMap(b: Book, es: seq<Boot>, what: int)
    requires Fresh(b) && Plain(es, what)
    ensures var b' := AddedAll(b, es, what);
      && Sound(b') && |b'.ps| == PAGES
      && forall p :: 0 <= p < PAGES ==> !b'.ps[p].USED? && (b'.ps[p].FREE? <==>
        exists i :: 0 <= i < |es| && Names(es, what, i, p))
  {
    hide SpanOf, Sound, Fresh, Plain, Proper, AddedAll, Holds;
    PlainProper(es, what);
    assert es[..|es|] == es;
    ProperMap(b, es, what, |es|);
    FilledSound(AddedAll(b, es, what), es, what, |es|);
    forall p | 0 <= p < PAGES ensures Covered(es, what, |es|, p) <==> exists i ::
      0 <= i < |es| && Names(es, what, i, p) {
      CoveredNames(es, what, p);
    }
  }

  lemma CoveredNames(es: seq<Boot>, what: int, p: nat)
    requires Plain(es, what)
    ensures Covered(es, what, |es|, p) <==> exists i :: 0 <= i < |es| && Names(es, what, i, p)
  {
    hide SpanOf, Holds;
    forall i | 0 <= i < |es|
      ensures SpanOf(es[i], what).Pages? && SpanOf(es[i], what).lo <= p < SpanOf(es[i], what).hi <==>
        Names(es, what, i, p)
    {
      SpanWhole(es[i], what, p);
    }
  }

  lemma PlainProper(es: seq<Boot>, what: int)
    requires Plain(es, what)
    ensures Proper(es, what)
  {
    hide SpanOf, Holds;
    forall i | 0 <= i < |es| && SpanOf(es[i], what).Pages?
      ensures 0 < SpanOf(es[i], what).lo <= SpanOf(es[i], what).hi
    {
      SpanBelow(es[i], what);
    }
    forall i, j | 0 <= i < j < |es| ensures !Overlap(SpanOf(es[i], what), SpanOf(es[j], what)) {
      var x, y := SpanOf(es[i], what), SpanOf(es[j], what);
      if x.Pages? && y.Pages? {
        SpanBelow(es[i], what);
        SpanBelow(es[j], what);
        PlainApart(es, what, i, j, if x.lo < y.lo then y.lo else x.lo);
      }
    }
  }

  lemma PlainApart(es: seq<Boot>, what: int, i: nat, j: nat, p: nat)
    requires Plain(es, what) && i < j < |es| && SpanOf(es[i], what).Pages? && SpanOf(es[j], what).Pages?
    ensures !(SpanOf(es[i], what).lo <= p < SpanOf(es[i], what).hi &&
      SpanOf(es[j], what).lo <= p < SpanOf(es[j], what).hi)
  {
    hide SpanOf, Holds;
    SpanWhole(es[i], what, p);
    SpanWhole(es[j], what, p);
    assert !(Names(es, what, i, p) && Names(es, what, j, p));
  }

  lemma SpanBelow(e: Boot, what: int)
    requires e.base + e.length < TWO64 && SpanOf(e, what).Pages?
    requires e.kind == what ==> 0 < e.base <= (MAX_PID - 1) * PAGE
    ensures e.kind == what && 0 < SpanOf(e, what).lo <= SpanOf(e, what).hi < MAX_PID
    ensures SpanOf(e, what).lo < SpanOf(e, what).hi || SpanOf(e, what).lo == MAX_PID - 1
  {
    hide SpanOf;
    if (e.base + PAGE - 1) / PAGE < (e.base + e.length) / PAGE {
      SpanIs(e, what);
    } else {
      SpanNone(e, what);
    }
  }

  /** A gigabyte above the 32nd: no page is named twice, nothing is marked, and the total wraps around. */
  lemma HighRegion(b: Book)
    requires Fresh(b)
    ensures var e := Boot(0x8_0000_0000, 0x4000_0000, 0);
      && SpanOf(e, 0) == Pages(PAGES, MAX_PID - 1)
      && Added(b, SpanOf(e, 0)).ps == b.ps && Added(b, SpanOf(e, 0)).total == TWO64 - 20
  {
    assert Marked(b.ps, PAGES, MAX_PID - 1) == b.ps;
  }

  lemma AddedTwo(b: Book, e0: Boot, e1: Boot, what: int)
    ensures AddedAll(b, [e0, e1], what) == Added(Added(b, SpanOf(e0, what)), SpanOf(e1, what))
  {
    hide SpanOf, Added;
    assert [e0, e1][..1] == [e0] && [e0][..0] == [];
    assert AddedAll(b, [e0], what) == Added(AddedAll(b, [], what), SpanOf(e0, what));
  }

  /** Two regions with a page in common: three pages are free, and four are counted. */
  lemma SharedPage(b: Book)
    requires Fresh(b)
    ensures var es := [Boot(0x1000, 0x2000, 0), Boot(0x2000, 0x2000, 0)];
      && SpanOf(es[0], 0) == Pages(1, 3) && SpanOf(es[1], 0) == Pages(2, 4)
      && AddedAll(b, es, 0).total == 16 && FreePages(AddedAll(b, es, 0).ps) == 3
  {
    hide Fresh, FreePages, Added, AddedAll, SpanOf;
    var e0, e1 := Boot(0x1000, 0x2000, 0), Boot(0x2000, 0x2000, 0);
    AddedTwo(b, e0, e1, 0);
    AlignedSpan(1, 2, 0);
    AlignedSpan(2, 2, 0);
    SharedCount(b);
  }

  /** One more region above the clip takes as much off the total: three pages are free, and three are counted. */
  lemma ErrorsCancel(b: Book)
    requires Fresh(b)
    ensures var es := [Boot(0x1000, 0x2000, 0), Boot(0x2000, 0x2000, 0), Boot(MAX_PID * PAGE, PAGE, 0)];
      && SpanOf(es[2], 0) == Pages(MAX_PID, MAX_PID - 1)
      && AddedAll(b, es, 0).total == 12 && FreePages(AddedAll(b, es, 0).ps) == 3
  {
    hide Fresh, FreePages, AddedAll, SpanOf, Marked;
    var es := [Boot(0x1000, 0x2000, 0), Boot(0x2000, 0x2000, 0), Boot(MAX_PID * PAGE, PAGE, 0)];
    SharedPage(b);
    LastSpan();
    assert es[..2] == [es[0], es[1]];
    AddedLast(b, es, 0);
    MarkedNothing(AddedAll(b, es[..2], 0).ps, MAX_PID, MAX_PID - 1);
  }

  lemma AddedLast(b: Book, es: seq<Boot>, what: int)
    requires es != []
    ensures AddedAll(b, es, what) == Added(AddedAll(b, es[..|es| - 1], what), SpanOf(es[|es| - 1], what))
  {
    hide Added, SpanOf;
  }

  lemma LastSpan()
    ensures SpanOf(Boot(MAX_PID * PAGE, PAGE, 0), 0) == Pages(MAX_PID, MAX_PID - 1)
  {
    hide Wrap;
    WrapSmall(0);
    WrapSmall((MAX_PID + 1) * PAGE);
    Multiple(MAX_PID);
    Multiple(1);
    Multiple(MAX_PID + 1);
  }

  /** A page-aligned region inside the bitmap is gone through from end to end. */
  lemma AlignedSpan(lo: nat, n: nat, what: int)
    requires 0 < n && lo + n < MAX_PID
    ensures SpanOf(Boot(lo * PAGE, n * PAGE, what), what) == Pages(lo, lo + n)
  {
    hide Wrap;
    WrapSmall(0);
    WrapSmall((lo + n) * PAGE);
    Multiple(lo);
    Multiple(n);
    Multiple(lo + n);
    assert lo * PAGE + n * PAGE == (lo + n) * PAGE;
  }

  lemma WrapSmall(x: nat)
    requires x < TWO64
    ensures Wrap(x) == x
  {
  }

  lemma Multiple(k: nat)
    ensures (k * PAGE) % PAGE == 0 && k * PAGE / PAGE == k
  {
  }

  lemma SharedCount(b: Book)
    requires Fresh(b)
    ensures var b' := Added(Added(b, Pages(1, 3)), Pages(2, 4)); b'.total == 16 && FreePages(b'.ps) == 3
  {
    hide FreePages, Touched, Marked;
    var b1 := Added(b, Pages(1, 3));
    NoFreePages(b.ps);
    MarkedLength(b.ps, 1, 3);
    MarkedCount(b.ps, 1, 3);
    MarkedCount(b1.ps, 2, 4);
    TouchedHere(b.ps, b1.ps);
  }

  lemma TouchedHere(ps: seq<PageStatus>, ps1: seq<PageStatus>)
    requires |ps| == PAGES && (forall p :: 0 <= p < PAGES ==> ps[p].RESERVED?) && ps1 == Marked(ps, 1, 3)
    ensures Touched(ps, 1, 3) == 0 && Touched(ps1, 2, 4) == 1
  {
    assert Touched(ps, 1, 1) == 0 && Touched(ps, 1, 2) == 0;
    assert Touched(ps1, 2, 2) == 0 && Touched(ps1, 2, 3) == 1;
  }

  /** A region with page 0, then another: page 0 is free and never found. */
  lemma PageZeroLost(b: Book)
    requires Fresh(b)
    ensures var b' := AddedAll(b, [Boot(0, 0x1000, 0), Boot(0x2000, 0x1000, 0)], 0);
      |b'.ps| > 0 && b'.ps[0].FREE? && b'.minPid == 2
  {
    hide Fresh, FreePages, Added, AddedAll, SpanOf;
    AddedTwo(b, Boot(0, 0x1000, 0), Boot(0x2000, 0x1000, 0), 0);
    AlignedSpan(0, 1, 0);
    AlignedSpan(2, 1, 0);
    ZeroLost(b);
  }

  lemma ZeroLost(b: Book)
    requires Fresh(b)
    ensures var b' := Added(Added(b, Pages(0, 1)), Pages(2, 3)); |b'.ps| > 0 && b'.ps[0].FREE? && b'.minPid == 2
  {
  }

  // ----- pages handed out and taken back

  lemma SoundTaken(b: Book, p: nat, min': nat)
    requires Sound(b) && p < PAGES && b.ps[p].FREE? && min' <= p
    requires forall q :: 0 <= q < p ==> !b.ps[q].FREE?
    ensures b.total >= 4 && Sound(Book(b.ps[p := USED], min', b.maxPid, b.total - 4))
  {
    FreePagesSet(b.ps, p, USED);
  }

  lemma SoundGiven(b: Book, p: nat)
    requires Sound(b) && p < PAGES && b.ps[p].USED?
    ensures Sound(Book(b.ps[p := FREE], if b.minPid > p then p else b.minPid, b.maxPid, b.total + 4))
  {
    FreePagesSet(b.ps, p, FREE);
  }

  lemma SoundEmpty(b: Book) returns (first: nat)
    requires Sound(b)
    ensures |b.ps| == PAGES && b.maxPid < MAX_PID
    ensures b.total == 0 <==> forall p :: 0 <= p < PAGES ==> !b.ps[p].FREE?
    ensures b.total > 0 ==> b.minPid <= first < b.maxPid && b.ps[first].FREE? && forall p ::
      0 <= p < b.minPid ==> !b.ps[p].FREE?
  {
    NoFreePages(b.ps);
    first := 0;
    if b.total > 0 {
      first :| first < PAGES && b.ps[first].FREE?;
    }
  }

  class Frames {
    const bitmap: array<FourPages>
    var minPid: nat
    var maxPid: nat
    var totalMem: nat

    ghost function Pages(): seq<PageStatus>
      reads bitmap
    {
      Unpacked(bitmap[..])
    }

    ghost function Now(): Book
      reads this, bitmap
    {
      Book(Pages(), minPid, maxPid, totalMem)
    }

    ghost predicate Valid()
      reads this, bitmap
    {
      bitmap.Length == BITMAP_SIZE && Sound(Now())
    }

    constructor ()
      ensures Valid() && fresh(bitmap) && Fresh(Now())
    {
      bitmap := new FourPages[BITMAP_SIZE](_ => FourPages(RESERVED, RESERVED, RESERVED, RESERVED));
      minPid, maxPid, totalMem := 0, 0, 0;
      new;
      NoFreePages(Pages());
    }

    /** setSts: only the page's own two bits change. */
    method SetSts(pid: nat, sts: PageStatus)
      requires pid < bitmap.Length * 4
      modifies bitmap
      ensures Pages() == old(Pages())[pid := sts]
    {
      bitmap[pid / 4] := SetField(bitmap[pid / 4], pid % 4, sts);
      FieldsApart(old(bitmap[..]), pid, sts);
    }

    /** getSts */
    method GetSts(pid: nat) returns (sts: PageStatus)
      requires pid < bitmap.Length * 4
      ensures sts == Pages()[pid]
    {
      sts := Field(bitmap[pid / 4], pid % 4);
    }

    /** One region of the memory map. */
    method AddRegion(e: Boot, what: int)
      requires bitmap.Length == BITMAP_SIZE
      modifies this, bitmap
      ensures Now() == Added(old(Now()), SpanOf(e, what))
    {
      hide Added, Unpacked;
      AddedSkip(Now());
      var base := RoundUp(e.base);
      if e.kind != what || base >= Wrap(e.base + e.length) || e.length <= Wrap(base - e.base) {
        return;
      }
      var len := RoundDown(e.length - Wrap(base - e.base));
      if len == 0 {
        return;
      }
      var pid := base / PAGE;
      var pidend := Wrap(base + len) / PAGE;
      if pidend >= MAX_PID {
        pidend := MAX_PID - 1;
      }
      MarkRange(pid, pidend);
    }

    /** The marking loop, the two marks and the 64-bit total. */
    method MarkRange(pid: nat, pidend: nat)
      requires bitmap.Length == BITMAP_SIZE && pidend < MAX_PID
      modifies this, bitmap
      ensures Now() == Added(old(Now()), Span.Pages(pid, pidend))
    {
      hide Marked, Unpacked;
      ghost var ps := Pages();
      assert |ps| == PAGES by { UnpackedLength(bitmap[..]); }
      if minPid == 0 || pid < minPid {
        minPid := pid;
      }
      MarkedNone(ps, pid, pidend);
      var cp := pid;
      while cp < pidend
        invariant pid <= cp && (cp <= pidend || cp == pid) && bitmap.Length == BITMAP_SIZE && |ps| == PAGES
        invariant Pages() == Marked(ps, pid, cp) && unchanged(`totalMem) && unchanged(`maxPid)
        invariant minPid == if old(minPid) == 0 || pid < old(minPid) then pid else old(minPid)
      {
        var sts := GetSts(cp);
        MarkedNext(ps, pid, cp);
        if sts != USED {
          SetSts(cp, FREE);
        }
        cp := cp + 1;
      }
      totalMem := Wrap(totalMem + (pidend - pid) * 4);
      if pidend > maxPid {
        maxPid := pidend;
      }
    }

    /** parse_limine_memmap: the books after all regions, whatever they are. */
    method ParseMemmap(es: seq<Boot>, what: int)
      requires bitmap.Length == BITMAP_SIZE
      modifies this, bitmap
      ensures Now() == AddedAll(old(Now()), es, what)
      ensures Fresh(old(Now())) && Proper(es, what) ==> Valid() && Filled(Now(), es, what, |es|)
    {
      hide SpanOf, Added, Unpacked, Sound, Fresh, Proper, Filled;
      ghost var b := Now();
      var i := 0;
      while i < |es|
        invariant i <= |es| && Now() == AddedAll(b, es[..i], what)
      {
        AddRegion(es[i], what);
        assert es[..i + 1][..i] == es[..i];
        i := i + 1;
      }
      assert es[..|es|] == es;
      if Fresh(b) && Proper(es, what) {
        ProperMap(b, es, what, |es|);
        FilledSound(Now(), es, what, |es|);
      }
    }

    /** get4k: the lowest free page, or NULL exactly when none is free. */
    method Get4k() returns (page: Option<nat>)
      requires Valid()
      modifies this, bitmap
      ensures Valid()
      ensures page.None? <==> forall p :: 0 <= p < PAGES ==> !old(Pages())[p].FREE?
      ensures page.None? ==> Pages() == old(Pages())
      ensures page.Some? ==>
        var p := (page.value - HHDM_BEGIN) / PAGE;
        && page.value >= HHDM_BEGIN && page.value == HHDM_BEGIN + p * PAGE && p < PAGES
        && old(Pages())[p].FREE? && (forall q :: 0 <= q < p ==> !old(Pages())[q].FREE?)
        && Pages() == old(Pages())[p := USED]
    {
      hide Sound, Unpacked;
      ghost var ps := Pages();
      ghost var first := SoundEmpty(Now());
      if totalMem == 0 {
        return None;
      }
      var curPid := minPid;
      var sts := GetSts(curPid);
      while sts != FREE && curPid < maxPid
        invariant minPid <= curPid <= first < maxPid && sts == ps[curPid] && |ps| == PAGES
        invariant forall q :: 0 <= q < curPid ==> !ps[q].FREE?
        invariant unchanged(bitmap) && unchanged(`totalMem) && unchanged(`maxPid)
        decreases maxPid - curPid
      {
        minPid := curPid;
        curPid := curPid + 1;
        sts := GetSts(curPid);
      }
      if curPid >= maxPid {
        return None;
      }
      SoundTaken(Book(ps, old(minPid), maxPid, totalMem), curPid, minPid);
      totalMem := totalMem - 4;
      SetSts(curPid, USED);
      page := Some(HHDM_BEGIN + curPid * PAGE);
    }

    /** free4k: halts unless the page is an aligned one that get4k handed out. */
    method Free4k(page: nat) returns (halted: bool)
      requires Valid() && page < HHDM_BEGIN + PAGES * PAGE
      modifies this, bitmap
      ensures Valid()
      ensures halted <==> page < HHDM_BEGIN || page % PAGE != 0 || !old(Pages())[(page - HHDM_BEGIN) / PAGE].USED?
      ensures halted ==> Pages() == old(Pages())
      ensures !halted ==> Pages() == old(Pages())[(page - HHDM_BEGIN) / PAGE := FREE]
    {
      hide Sound, Unpacked;
      if page < HHDM_BEGIN {
        return true;
      }
      var phys := page - HHDM_BEGIN;
      if phys != RoundDown(phys) {
        return true;
      }
      var pid := phys / PAGE;
      var sts := GetSts(pid);
      if sts != USED {
        return true;
      }
      ghost var ps := Pages();
      SoundGiven(Now(), pid);
      SetSts(pid, FREE);
      totalMem := totalMem + 4;
      if minPid > pid {
        minPid := pid;
      }
      halted := false;
    }
  }

  /** A store to one two-bit field leaves the other three and all other bytes alone. */
  lemma FieldsApart(b: seq<FourPages>, pid: nat, sts: PageStatus)
    requires pid < |b| * 4
    ensures Unpacked(b[pid / 4 := SetField(b[pid / 4], pid % 4, sts)]) == Unpacked(b)[pid := sts]
  {
    var b' := b[pid / 4 := SetField(b[pid / 4], pid % 4, sts)];
    forall p | 0 <= p < |b| * 4 ensures Unpacked(b')[p] == Unpacked(b)[pid := sts][p] {
      if p / 4 == pid / 4 && p % 4 == pid % 4 {
        assert p == pid;
      }
    }
  }

  lemma UnpackedLength(b: seq<FourPages>)
    ensures |Unpacked(b)| == 4 * |b|
  {
  }

  lemma AddedSkip(b: Book)
    ensures Added(b, Skip) == b
  {
  }

  lemma FilledSound(b: Book, es: seq<Boot>, what: int, n: nat)
    requires n <= |es| && Filled(b, es, what, n)
    ensures Sound(b)
  {
  }

  lemma MarkedNone(ps: seq<PageStatus>, lo: nat, hi: nat)
    ensures Marked(ps, lo, lo) == ps && (hi <= lo ==> Marked(ps, lo, hi) == ps)
  {
  }

  lemma MarkedNext(ps: seq<PageStatus>, lo: nat, cp: nat)
    requires lo <= cp < |ps|
    ensures |Marked(ps, lo, cp)| == |ps| && Marked(ps, lo, cp)[cp] == ps[cp]
    ensures Marked(ps, lo, cp + 1) == if ps[cp].USED? then Marked(ps, lo, cp) else Marked(ps, lo, cp)[cp := FREE]
  {
  }
}
