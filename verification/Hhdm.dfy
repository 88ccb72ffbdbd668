/**
 The window onto all physical memory that boot maps with two-megabyte pages,
 using table frames from a small static pool.
 */
module Hhdm {
  import opened PageTables
  import opened Paging
  import opened Wrappers

  const HHDM_PAGE: nat := 0xffff_f800_0000_0 // HHDM_BEGIN in pages
  const HHDM_SIZE: nat := 32                 // in gigabytes
  const POOL: nat := (HHDM_SIZE + 1) * 2
  const LARGE_PAGES: nat := HHDM_SIZE * 512
  const SLOT: nat := 496

  const EARLY: Entry := Entry(0x002, 0, 0)

  function EarlyTable(): seq<Entry> { seq(512, _ => EARLY) }

  function TableEntry(f: nat): Entry { Entry(0x007, f, 0) }
  function LargeEntry(n: nat): Entry { Entry(0x083, n * 512, 0) }

  /** The table of gigabyte k after n large pages. */
  ghost function Gigabyte(n: nat, k: nat): seq<Entry> {
    seq(512, j requires 0 <= j < 512 => if k * 512 + j < n then LargeEntry(k * 512 + j) else EARLY)
  }

  /** The table of tables after n large pages: one entry for each gigabyte begun. */
  ghost function Gigabytes(e0: nat, n: nat): seq<Entry> {
    seq(512, k requires 0 <= k < 512 => if k * 512 < n then TableEntry(e0 + 1 + k) else EARLY)
  }

  /** How many frames n large pages need. */
  function Needed(n: nat): nat { if n == 0 then 0 else 2 + (n - 1) / 512 }

  /** Memory after n large pages, with table frames from e0 on. */
  ghost predicate Built(w0: Words, w: Words, root: nat, e0: nat, n: nat) {
    && root in w0 && |w0[root]| == 512
    && if n == 0 then w == w0
       else
         && (forall f :: f in w0 || e0 <= f < e0 + Needed(n) <==> f in w)
         && (forall f :: f in w0 && f != root && !(e0 <= f < e0 + Needed(n)) ==> w[f] == w0[f])
         && w[root] == w0[root][SLOT := TableEntry(e0)]
         && w[e0] == Gigabytes(e0, n)
         && (forall f :: e0 < f < e0 + Needed(n) ==> w[f] == Gigabyte(n, f - e0 - 1))
  }

  class EarlyPool {
    const ram: Ram
    const base: nat // frame of early_pages
    var used: nat

    constructor (ram: Ram, base: nat)
      ensures this.ram == ram && this.base == base && used == 0
    {
      this.ram, this.base, this.used := ram, base, 0;
    }

    /** get_early_frame: halts when the pool is exhausted. */
    method GetEarlyFrame() returns (f: Option<nat>)
      modifies this, ram
      ensures f.None? <==> old(used) >= POOL
      ensures f.Some? ==>
        f.value == base + old(used) && used == old(used) + 1 && ram.words == old(ram.words)[f.value := EarlyTable()]
    {
      if used >= POOL {
        return None;
      }
      f := Some(base + used);
      used := used + 1;
      ram.words := ram.words[f.value := EarlyTable()];
    }

    /** One turn of the loop: large page n. */
    method MapLarge(root: nat, n: nat, ghost w0: Words, ghost e0: nat) returns (halted: bool)
      requires n < LARGE_PAGES && Built(w0, ram.words, root, e0, n) && !Present(w0[root][SLOT])
      requires base <= e0 && used == e0 - base + Needed(n) && (n > 0 ==> used <= POOL) && !(base <= root < base + POOL)
      modifies this, ram
      ensures halted <==> e0 - base + Needed(n + 1) > POOL
      ensures !halted ==> Built(w0, ram.words, root, e0, n + 1) && used == e0 - base + Needed(n + 1)
    {
      hide Built, Indices;
      var i := Indices(HHDM_PAGE + n * 512);
      WindowIndices(n, 0);
      NeededNext(n);
      OpenReads(w0, ram.words, root, e0, n);
      var e1 := At(ram.words, root, i.a);
      if !Present(e1) {
        var f := GetEarlyFrame();
        if f.None? {
          return true;
        }
        e1 := Entry(0x001 | 0x002 | 0x004, f.value, 0);
        ram.words := Store(ram.words, root, i.a, e1);
      }
      ghost var w1 := Open(old(ram.words), root, e0, n);
      assert ram.words == w1;
      BeginReads(w0, old(ram.words), root, e0, n);
      var e2 := At(ram.words, e1.frame, i.b);
      if Large(e2) {
        return true;
      }
      if !Present(e2) {
        var f := GetEarlyFrame();
        if f.None? {
          return true;
        }
        e2 := Entry(0x001 | 0x002 | 0x004, f.value, 0);
        ram.words := Store(ram.words, e1.frame, i.b, e2);
      }
      assert ram.words == Begun(w1, e0, n);
      LargeReads(w0, old(ram.words), root, e0, n);
      var e3 := At(ram.words, e2.frame, i.c);
      if Large(e3) || Present(e3) {
        return true;
      }
      BuiltNext(w0, old(ram.words), root, e0, n);
      ram.words := Store(ram.words, e2.frame, i.c, Entry(0x001 | 0x002 | 0x080, n * 512, 0));
      halted := false;
    }

    /** map_hhdm: from an absent top-level slot, and with frames enough, every page below 32 GiB is mapped to itself. */
    method MapHhdm(root: nat) returns (halted: bool)
      requires root in ram.words && |ram.words[root]| == 512 && !Present(ram.words[root][SLOT])
      requires !(base <= root < base + POOL)
      modifies this, ram
      ensures halted <==> old(used) + HHDM_SIZE + 1 > POOL
      ensures !halted ==> used == old(used) + HHDM_SIZE + 1
      ensures !halted ==> Built(old(ram.words), ram.words, root, base + old(used), LARGE_PAGES)
      ensures !halted ==> forall p: nat ::
        p < LARGE_PAGES * 512 ==> Windowed(ram.words, root, p)
    {
      hide Windowed, Indices, Window;
      ghost var w0, e0 := ram.words, base + used;
      var n := 0;
      while n < LARGE_PAGES
        invariant n <= LARGE_PAGES && Built(w0, ram.words, root, e0, n)
        invariant used == e0 - base + Needed(n) && (n > 0 ==> used <= POOL)
      {
        NeededMore(n + 1, LARGE_PAGES);
        halted := MapLarge(root, n, w0, e0);
        if halted {
          return;
        }
        n := n + 1;
      }
      BuiltWindow(w0, ram.words, root, e0);
      forall p: nat | p < LARGE_PAGES * 512 ensures Windowed(ram.words, root, p) {
        WindowWalk(ram.words, root, e0, p);
      }
      halted := false;
    }

    /** Both boot calls: the pool is exactly enough, and the second leaves the first one's window alone. */
    method BootWindows(boot: nat, kern: nat) returns (halted: bool)
      requires used == 0 && boot != kern && !(base <= boot < base + POOL) && !(base <= kern < base + POOL)
      requires boot in ram.words && |ram.words[boot]| == 512 && !Present(ram.words[boot][SLOT])
      requires kern in ram.words && ram.words[kern] == EarlyTable()
      modifies this, ram
      ensures !halted && used == POOL
      ensures forall p: nat :: p < LARGE_PAGES * 512 ==> Windowed(ram.words, boot, p)
      ensures forall p: nat :: p < LARGE_PAGES * 512 ==> Windowed(ram.words, kern, p)
      ensures IsTree(ram.words, WindowTree(kern, base + HHDM_SIZE + 1))
    {
      hide Windowed, Indices, Window, IsTree;
      EntryBits(0);
      ghost var w0 := ram.words;
      halted := MapHhdm(boot);
      ghost var w1, e1 := ram.words, base + used;
      BuiltWindow(w0, w1, boot, base);
      Bystander(w0, w1, boot, base, kern);
      halted := MapHhdm(kern);
      WindowStays(w1, ram.words, boot, base, kern, e1);
      forall p: nat | p < LARGE_PAGES * 512 ensures Windowed(ram.words, boot, p) {
        WindowWalk(ram.words, boot, base, p);
      }
      WindowIsTree(w1, ram.words, kern, e1);
    }
  }

  /** The finished window below one top-level table. */
  ghost predicate Window(w: Words, root: nat, e0: nat) {
    && root in w && |w[root]| == 512 && w[root][SLOT] == TableEntry(e0)
    && e0 in w && w[e0] == Gigabytes(e0, LARGE_PAGES)
    && forall f :: e0 < f < e0 + HHDM_SIZE + 1 ==> f in w && w[f] == Gigabyte(LARGE_PAGES, f - e0 - 1)
  }

  lemma BuiltWindow(w0: Words, w: Words, root: nat, e0: nat)
    requires Built(w0, w, root, e0, LARGE_PAGES)
    ensures Window(w, root, e0)
  {
    hide Gigabyte, Gigabytes;
    NeededNext(LARGE_PAGES);
  }

  lemma Bystander(w0: Words, w: Words, root: nat, e0: nat, f: nat)
    requires Built(w0, w, root, e0, LARGE_PAGES) && f in w0 && f != root && !(e0 <= f < e0 + HHDM_SIZE + 1)
    ensures f in w && w[f] == w0[f]
  {
    hide Gigabyte, Gigabytes;
  }

  lemma WindowStays(w: Words, w': Words, root: nat, e0: nat, other: nat, e1: nat)
    requires Window(w, root, e0) && Built(w, w', other, e1, LARGE_PAGES)
    requires root != other && e1 == e0 + HHDM_SIZE + 1 && !(e0 <= other < e1) && !(e1 <= root < e1 + HHDM_SIZE + 1)
    ensures Window(w', root, e0)
  {
    hide Gigabyte, Gigabytes;
  }

  /** The window's tables: the top one, the table of gigabytes, and one for each gigabyte. */
  ghost function WindowTree(root: nat, e0: nat): Tree {
    map[T0 := root, T1(SLOT) := e0] + map t: Table | t in (set k: nat | k < HHDM_SIZE :: T2(SLOT, k)) ::
      e0 + 1 + Last(t)
  }

  lemma WindowTreeIs(root: nat, e0: nat, t: Table)
    ensures t in WindowTree(root, e0) <==> t == T0 || t == T1(SLOT) || (t.T2? && t.a == SLOT && t.b < HHDM_SIZE)
    ensures t in WindowTree(root, e0) ==>
      WindowTree(root, e0)[t] == match t case T0 => root case T1(_) => e0 case _ => e0 + 1 + Last(t)
  {
  }

  /** Tables that start out with the writable bit set and no address still form a proper tree. */
  lemma WindowIsTree(w0: Words, w: Words, root: nat, e0: nat)
    requires Built(w0, w, root, e0, LARGE_PAGES) && w0[root] == EarlyTable() && !(e0 <= root < e0 + HHDM_SIZE + 1)
    ensures IsTree(w, WindowTree(root, e0))
  {
    hide WindowTree, Built, At, Present, Large, Gigabyte, Gigabytes;
    BuiltWindow(w0, w, root, e0);
    var tree := WindowTree(root, e0);
    forall t | t in tree ensures tree[t] in w && |w[tree[t]]| == 512 {
      WindowAt(w0, w, root, e0, t, 0);
    }
    forall t, i: nat | t in tree && i < 512 ensures At(w, tree[t], i) == WindowEntry(e0, t, i) {
      WindowAt(w0, w, root, e0, t, i);
    }
    forall t ensures (t in tree <==> t == T0 || t == T1(SLOT) || (t.T2? && t.a == SLOT && t.b < HHDM_SIZE))
      && (t in tree ==> tree[t] == match t case T0 => root case T1(_) => e0 case _ => e0 + 1 + Last(t))
    {
      WindowTreeIs(root, e0, t);
    }
    forall f: nat ensures Present(TableEntry(f)) && !Large(TableEntry(f)) && Present(LargeEntry(f)) &&
      Large(LargeEntry(f)) && !Present(EARLY) && !Large(EARLY) {
      EntryBits(f);
    }
  }

  /** What entry i of a table of the window holds. */
  ghost function WindowEntry(e0: nat, t: Table, i: nat): Entry {
    match t
    case T0 => if i == SLOT then TableEntry(e0) else EARLY
    case T1(_) => if i < HHDM_SIZE then TableEntry(e0 + 1 + i) else EARLY
    case _ => LargeEntry(Last(t) * 512 + i)
  }

  lemma WindowAt(w0: Words, w: Words, root: nat, e0: nat, t: Table, i: nat)
    requires Built(w0, w, root, e0, LARGE_PAGES) && Window(w, root, e0) && w0[root] == EarlyTable()
    requires t in WindowTree(root, e0)
    ensures var f := WindowTree(root, e0)[t];
      f in w && |w[f]| == 512 && (i < 512 ==> At(w, f, i) == WindowEntry(e0, t, i))
  {
    hide WindowTree;
    WindowTreeIs(root, e0, t);
  }

  lemma NeededNext(n: nat)
    ensures n == 0 ==> Needed(n + 1) == 2
    ensures n > 0 && n % 512 == 0 ==> Needed(n) == 1 + n / 512 && Needed(n + 1) == Needed(n) + 1
    ensures n % 512 != 0 ==> Needed(n + 1) == Needed(n) == 2 + n / 512
  {
  }

  lemma NeededMore(n: nat, m: nat)
    requires n <= m
    ensures Needed(n) <= Needed(m)
  {
  }

  /** The top-level slot has its table. */
  ghost function Open(w: Words, root: nat, e0: nat, n: nat): Words
    requires root in w && |w[root]| == 512 && root != e0
  {
    if n == 0 then Store(w[e0 := EarlyTable()], root, SLOT, TableEntry(e0)) else w
  }

  /** The gigabyte of large page n has its table. */
  ghost function Begun(w: Words, e0: nat, n: nat): Words
    requires e0 in w && |w[e0]| == 512 && n / 512 < 512
  {
    var f := e0 + 1 + n / 512;
    if n % 512 == 0 then Store(w[f := EarlyTable()], e0, n / 512, TableEntry(f)) else w
  }

  lemma OpenReads(w0: Words, w: Words, root: nat, e0: nat, n: nat)
    requires n < LARGE_PAGES && Built(w0, w, root, e0, n) && !Present(w0[root][SLOT])
    ensures root in w && |w[root]| == 512
    ensures n == 0 ==> !Present(At(w, root, SLOT))
    ensures n > 0 ==> At(w, root, SLOT) == TableEntry(e0)
  {
  }

  lemma BeginReads(w0: Words, w: Words, root: nat, e0: nat, n: nat)
    requires n < LARGE_PAGES && Built(w0, w, root, e0, n) && root != e0
    requires root in w && |w[root]| == 512
    ensures var w1 := Open(w, root, e0, n);
      && e0 in w1 && |w1[e0]| == 512
      && At(w1, e0, n / 512) == if n % 512 == 0 then EARLY else TableEntry(e0 + 1 + n / 512)
  {
  }

  lemma LargeReads(w0: Words, w: Words, root: nat, e0: nat, n: nat)
    requires n < LARGE_PAGES && Built(w0, w, root, e0, n) && root != e0
    requires root in w && |w[root]| == 512
    requires var w1 := Open(w, root, e0, n); e0 in w1 && |w1[e0]| == 512
    ensures var w2, f := Begun(Open(w, root, e0, n), e0, n), e0 + 1 + n / 512;
      f in w2 && w2[f] == Gigabyte(n, n / 512) && At(w2, f, n % 512) == EARLY
  {
    NeededNext(n);
    GigabyteNew(n);
  }

  /** A gigabyte just begun is an empty table. */
  lemma GigabyteNew(n: nat)
    ensures |Gigabyte(n, n / 512)| == 512 && Gigabyte(n, n / 512)[n % 512] == EARLY
    ensures n % 512 == 0 ==> Gigabyte(n, n / 512) == EarlyTable()
    ensures Gigabyte(n + 1, n / 512) == Gigabyte(n, n / 512)[n % 512 := LargeEntry(n)]
  {
    var was, now := Gigabyte(n, n / 512), Gigabyte(n + 1, n / 512);
    assert now == was[n % 512 := LargeEntry(n)];
    if n % 512 == 0 {
      forall j | 0 <= j < 512 ensures Gigabyte(n, n / 512)[j] == EarlyTable()[j] {
      }
    }
  }

  lemma GigabyteOther(n: nat, k: nat)
    requires k < n / 512
    ensures Gigabyte(n + 1, k) == Gigabyte(n, k)
  {
  }

  lemma GigabytesNext(e0: nat, n: nat)
    requires n / 512 < 512
    ensures n == 0 ==> Gigabytes(e0, n) == EarlyTable()
    ensures n % 512 == 0 ==> Gigabytes(e0, n + 1) == Gigabytes(e0, n)[n / 512 := TableEntry(e0 + 1 + n / 512)]
    ensures n % 512 != 0 ==> Gigabytes(e0, n + 1) == Gigabytes(e0, n)
  {
    if n == 0 {
      assert Gigabytes(e0, n) == EarlyTable();
    }
    forall k | 0 <= k < 512 && k != n / 512 ensures Gigabytes(e0, n + 1)[k] == Gigabytes(e0, n)[k] {
    }
  }

  lemma BuiltNext(w0: Words, w: Words, root: nat, e0: nat, n: nat)
    requires n < LARGE_PAGES && Built(w0, w, root, e0, n) && !(e0 <= root < e0 + Needed(n + 1))
    requires root in w && |w[root]| == 512 && root != e0
    requires var w1 := Open(w, root, e0, n); e0 in w1 && |w1[e0]| == 512
    requires var w2, f := Begun(Open(w, root, e0, n), e0, n), e0 + 1 + n / 512; f in w2 && w2[f] == Gigabyte(n, n / 512)
    ensures var w2, f := Begun(Open(w, root, e0, n), e0, n), e0 + 1 + n / 512;
      Built(w0, Store(w2, f, n % 512, LargeEntry(n)), root, e0, n + 1)
  {
    hide Gigabyte, Gigabytes;
    NeededNext(n);
    GigabyteNew(n);
    GigabytesNext(e0, n);
    var k := n / 512;
    var w' := Store(Begun(Open(w, root, e0, n), e0, n), e0 + 1 + k, n % 512, LargeEntry(n));
    forall f | e0 < f < e0 + Needed(n + 1) ensures w'[f] == Gigabyte(n + 1, f - e0 - 1) {
      if f - e0 - 1 < k {
        GigabyteOther(n, f - e0 - 1);
      }
    }
  }

  /** The page of the window leads to the physical page of that number, to be read and written by the kernel only. */
  ghost predicate Windowed(w: Words, root: nat, p: nat) {
    var i := Indices(HHDM_PAGE + p); Walk(w, root, i) == Some(p) && Rights(w, root, i) == Some(Access(true, false))
  }

  /** A walk through the finished window ends on the page itself. */
  lemma WindowWalk(w: Words, root: nat, e0: nat, p: nat)
    requires Window(w, root, e0) && p < LARGE_PAGES * 512
    ensures Windowed(w, root, p)
  {
    hide Or;
    var n, d := p / 512, p % 512;
    WindowIndices(n, d);
    OrBelow(n, d, 9);
    assert Power(9) == 512;
    assert At(w, root, SLOT) == TableEntry(e0);
    assert At(w, e0, n / 512) == TableEntry(e0 + 1 + n / 512);
    assert w[e0 + 1 + n / 512] == Gigabyte(LARGE_PAGES, n / 512);
    assert n / 512 * 512 + n % 512 == n;
    assert At(w, e0 + 1 + n / 512, n % 512) == LargeEntry(n);
    EntryBits(e0);
    assert Or(n * 512, d) == p;
  }

  lemma EntryBits(f: nat)
    ensures Present(TableEntry(f)) && !Large(TableEntry(f)) && Present(LargeEntry(f)) && Large(LargeEntry(f))
    ensures !Present(EARLY) && !Large(EARLY)
    ensures AccessBits(TableEntry(f).flags) == FULL && AccessBits(LargeEntry(f).flags) == Access(true, false)
  {
  }

  function Power(k: nat): nat { if k == 0 then 1 else 2 * Power(k - 1) }

  /** Or-ing bits below an aligned number adds them. */
  lemma {:induction false} OrBelow(n: nat, d: nat, k: nat)
    requires d < Power(k)
    ensures Or(n * Power(k), d) == n * Power(k) + d
    decreases k
  {
    if k > 0 && n > 0 && d > 0 {
      var half := n * Power(k - 1);
      assert n * Power(k) == 2 * half;
      OrBelow(n, d / 2, k - 1);
    }
  }

  /** Large page n lies in slot 496, gigabyte n / 512, entry n % 512. */
  lemma WindowIndices(n: nat, d: nat)
    requires n < LARGE_PAGES && d < 512
    ensures Indices(HHDM_PAGE + n * 512 + d) == Path(SLOT, n / 512, n % 512, d)
  {
    var v, top := HHDM_PAGE + n * 512 + d, 33554416;
    assert v == top * 0x800_0000 + (n * 512 + d);
    Split27(top, n * 512 + d);
    assert v == (top * 512 + n / 512) * 0x4_0000 + (n % 512 * 512 + d);
    Split18(top * 512 + n / 512, n % 512 * 512 + d);
    assert v == (top * 0x4_0000 + n) * 0x200 + d;
    Split9(top * 0x4_0000 + n, d);
  }

  lemma Split27(q: nat, r: nat)
    requires r < 0x800_0000
    ensures (q * 0x800_0000 + r) / 0x800_0000 == q
  {
  }

  lemma Split18(q: nat, r: nat)
    requires r < 0x4_0000
    ensures (q * 0x4_0000 + r) / 0x4_0000 == q
  {
  }

  lemma Split9(q: nat, r: nat)
    requires r < 0x200
    ensures (q * 0x200 + r) / 0x200 == q && (q * 0x200 + r) % 0x200 == r
  {
  }
}
