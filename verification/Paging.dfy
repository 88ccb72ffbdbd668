/**
 Address spaces: page tables kept in frames taken from the frame allocator.
 */
module Paging {
  import opened PageTables
  import opened Wrappers
  import F = Frames

  const PAGE: nat := F.PAGE

  /** Physical memory as the page tables use it. */
  class Ram {
    var words: Words

    constructor ()
      ensures words == map[]
    {
      words := map[];
    }
  }

  /** Tables sit in frames that the allocator will not hand out. */
  ghost predicate Kept(tree: Tree, pages: seq<F.PageStatus>) {
    forall t :: t in tree && tree[t] < |pages| ==> !pages[tree[t]].FREE?
  }

  /** A space as values: memory, where the tables are, and the state of every page. */
  datatype Space = Space(w: Words, tree: Tree, ps: seq<F.PageStatus>)

  /** No table is given up, new ones were free pages; nothing else in memory changes, and nothing becomes free. */
  ghost predicate Grown(s: Space, s': Space) {
    && |s'.ps| == |s.ps|
    && (forall f :: 0 <= f < |s.ps| && !s.ps[f].FREE? ==> !s'.ps[f].FREE?)
    && (forall f :: f in s.w && f !in s.tree.Values && (f < |s.ps| ==> !s.ps[f].FREE?) ==>
      f in s'.w && s'.w[f] == s.w[f])
    && (forall f :: f in s'.tree.Values ==> f in s.tree.Values || (f < |s.ps| && s.ps[f].FREE?))
    && (forall t :: t in s.tree ==> t in s'.tree && s'.tree[t] == s.tree[t])
  }

  lemma GrownTrans(s: Space, s': Space, s'': Space)
    requires Grown(s, s') && Grown(s', s'')
    ensures Grown(s, s'')
  {
  }

  /** The entries that lead to the tables are as they were; those to new tables stand in nobody's way. */
  ghost predicate Opened(s: Space, s': Space) {
    forall t :: t in s'.tree && !t.T0? && Up(t) in s'.tree ==>
      var e := At(s'.w, s'.tree[Up(t)], Last(t));
      if t in s.tree && Up(t) in s.tree then e == At(s.w, s.tree[Up(t)], Last(t)) else AccessBits(e.flags) == FULL
  }

  lemma OpenedTrans(s: Space, s': Space, s'': Space)
    requires Grown(s, s') && Opened(s, s') && Opened(s', s'')
    ensures Opened(s, s'')
  {
    hide At, AccessBits;
  }

  lemma OpenedSame(s: Space)
    ensures Opened(s, s)
  {
  }

  class AddressSpace {
    const ram: Ram
    const frames: F.Frames
    const root: nat                     // frame of PML4
    var taken: Option<seq<nat>>       // _taken_pages: null for the boot address spaces
    ghost var tree: Tree

    ghost predicate Valid()
      reads this, ram, frames, frames.bitmap
    {
      && frames.Valid() && IsTree(ram.words, tree) && tree[T0] == root
      && Kept(tree, frames.Pages())
      && (taken.Some? ==> Taken(taken.value, frames.Pages()))
    }

    ghost function Now(): Space
      reads this, ram, frames, frames.bitmap
    {
      Space(ram.words, tree, frames.Pages())
    }

    /** The translation of a page. */
    ghost function Translation(p: Path): Option<nat>
      reads this, ram
    {
      Walk(ram.words, root, p)
    }

    /** What a mapped page may be used for. */
    ghost function Allows(p: Path): Option<Access>
      reads this, ram
    {
      Rights(ram.words, root, p)
    }

    /** A space of its own, around a zeroed top table in a frame just taken. */
    constructor Own(ram: Ram, frames: F.Frames, f: nat)
      requires frames.Valid() && f < F.PAGES && frames.Pages()[f].USED? && f in ram.words && ram.words[f] == Zeroed()
      ensures this.ram == ram && this.frames == frames && root == f && taken == Some([f]) && Valid()
      ensures forall p :: Proper(p) ==> Translation(p) == None
    {
      this.ram, this.frames, this.root, this.taken, this.tree := ram, frames, f, Some([f]), map[T0 := f];
    }

    /** AddressSpace(): takes a frame for the top table; without one the stores to it go to the null page. */
    static method Create(ram: Ram, frames: F.Frames) returns (space: Option<AddressSpace>)
      requires frames.Valid()
      modifies ram, frames, frames.bitmap
      ensures space.None? <==> F.FreePages(old(frames.Pages())) == 0
      ensures space.Some? ==>
        var s := space.value;
        && s.ram == ram && s.frames == frames && s.Valid() && s.taken == Some([s.root]) && s.root < F.PAGES
        && old(frames.Pages())[s.root].FREE? && frames.Pages() == old(frames.Pages())[s.root := F.USED]
        && ram.words == old(ram.words)[s.root := Zeroed()]
        && forall p :: Proper(p) ==> s.Translation(p) == None
    {
      hide F.Unpacked, Walk;
      F.NoFreePages(frames.Pages());
      var page := frames.Get4k();
      if page.None? {
        return None;
      }
      var f := (page.value - F.HHDM_BEGIN) / PAGE;
      ram.words := ram.words[f := Zeroed()];
      var s := new AddressSpace.Own(ram, frames, f);
      space := Some(s);
    }

    /** A space around tables that exist already. */
    constructor Around(ram: Ram, frames: F.Frames, root: nat, ghost tree: Tree)
      requires frames.Valid() && IsTree(ram.words, tree) && tree[T0] == root && Kept(tree, frames.Pages())
      ensures this.ram == ram && this.frames == frames && this.root == root && this.tree == tree
      ensures taken.None? && Valid()
    {
      this.ram, this.frames, this.root, this.tree, this.taken := ram, frames, root, tree, None;
    }

    /** virt2real: the physical address, or 0 for a page that is not mapped; also for one mapped to frame 0. */
    method Virt2Real(v: nat) returns (real_: nat)
      requires Valid()
      ensures forall f: nat :: Maps(ram.words, tree, Indices(v), f) ==> real_ == f * PAGE
      ensures real_ != 0 ==> real_ % PAGE == 0 && Maps(ram.words, tree, Indices(v), real_ / PAGE)
      ensures real_ == 0 <==>
        (forall f: nat :: !Maps(ram.words, tree, Indices(v), f)) || Maps(ram.words, tree, Indices(v), 0)
    {
      hide IsTree, Maps, F.Sound, F.Unpacked, Kept, Taken;
      WalkMaps(ram.words, tree, Indices(v));
      var i := Indices(v);
      var w := ram.words;
      var e1 := At(w, root, i.a);
      if !Present(e1) {
        return 0;
      }
      var e2 := At(w, e1.frame, i.b);
      if !Present(e2) {
        return 0;
      }
      if Large(e2) {
        return Or(e2.frame, i.c * 512 + i.d) * PAGE;
      }
      var e3 := At(w, e2.frame, i.c);
      if !Present(e3) {
        return 0;
      }
      if Large(e3) {
        return Or(e3.frame, i.d) * PAGE;
      }
      var e4 := At(w, e3.frame, i.d);
      if !Present(e4) {
        return 0;
      }
      return e4.frame * PAGE;
    }

    /** get_free_frame: halts when the allocator has nothing left. */
    method GetFreeFrame() returns (f: Option<nat>)
      requires Valid()
      modifies `taken, ram, frames, frames.bitmap
      ensures f.None? <==> F.FreePages(old(frames.Pages())) == 0
      ensures f.Some? ==> Valid() && f.value < F.PAGES && f.value !in tree.Values && old(frames.Pages())[f.value].FREE?
      ensures f.Some? ==> ram.words == old(ram.words)[f.value := Zeroed()]
      ensures f.Some? ==> frames.Pages() == old(frames.Pages())[f.value := F.USED]
      ensures f.Some? ==> taken == if old(taken).None? then None else Some(old(taken).value + [f.value])
    {
      hide IsTree, F.Unpacked;
      F.NoFreePages(frames.Pages());
      ghost var ps := frames.Pages();
      var page := frames.Get4k();
      if page.None? {
        return None;
      }
      var p := (page.value - F.HHDM_BEGIN) / PAGE;
      if taken.Some? {
        TakenMore(taken.value, ps, p);
        taken := Some(taken.value + [p]);
      }
      NotATable(tree, ps, p);
      UntouchedTree(ram.words, tree, p);
      ram.words := ram.words[p := Zeroed()];
      f := Some(p);
    }

    /** The table below entry i of table t, hung there first if need be. */
    method Ensure(ghost t: Table, f: nat, i: nat) returns (next: Option<nat>)
      requires Valid() && t in tree && tree[t] == f && !t.T3? && i < 512 && !Large(At(ram.words, f, i))
      modifies `taken, `tree, ram, frames, frames.bitmap
      ensures next.None? <==> !Present(At(old(ram.words), f, i)) && F.FreePages(old(frames.Pages())) == 0
      ensures next.Some? ==> Valid() && Down(t, i) in tree && next.value == tree[Down(t, i)]
      ensures next.Some? ==> Hangs(old(ram.words), ram.words, old(tree), tree, t, i, next.value)
      ensures next.Some? ==> forall p :: Proper(p) ==> Translation(p) == old(Translation(p))
      ensures next.Some? ==> (forall p :: Proper(p) ==> Allows(p) == old(Allows(p))) && Opened(old(Now()), Now())
      ensures next.Some? ==>
        F.FreePages(frames.Pages()) == F.FreePages(old(frames.Pages())) - (if Present(At(old(ram.words), f,
        i)) then 0 else 1)
      ensures next.Some? ==> Grown(old(Now()), Now())
    {
      hide IsTree, Kept, Taken, Grown, Opened, F.Unpacked, Walk, Rights;
      ghost var w, ps := ram.words, frames.Pages();
      var e := At(ram.words, f, i);
      if Present(e) {
        Follow(w, tree, t, i);
        GrownSame(Now());
        OpenedSame(Now());
        next := Some(e.frame);
        return;
      }
      var newp := GetFreeFrame();
      if newp.None? {
        return None;
      }
      F.FreePagesSet(ps, newp.value, F.USED);
      HungTable(w, tree, t, i, newp.value, ps, frames.Pages());
      var ws := ram.words[f];
      ram.words := ram.words[f := ws[i := Linked(ws[i], newp.value)]];
      tree := tree[Down(t, i) := newp.value];
      next := newp;
    }

    /** The last-level table of a page, with every table missing on the way hung first. */
    method Tables(i: Path) returns (t3: Option<nat>)
      requires Valid() && Proper(i)
      modifies `taken, `tree, ram, frames, frames.bitmap
      ensures t3.None? <==>
        MeetsLarge(old(ram.words), root, i) || F.FreePages(old(frames.Pages())) < Missing(old(ram.words), root, i)
      ensures t3.Some? ==> Valid() && T3(i.a, i.b, i.c) in tree && t3.value == tree[T3(i.a, i.b, i.c)]
      ensures t3.Some? ==> (forall p :: Proper(p) ==> Translation(p) == old(Translation(p))) && Grown(old(Now()), Now())
      ensures t3.Some? ==> (forall p :: Proper(p) ==> Allows(p) == old(Allows(p))) && Opened(old(Now()), Now())
      ensures t3.Some? ==> Above(ram.words, root, i) == Above(old(ram.words), root, i)
    {
      hide IsTree, Kept, Taken, Hangs, Grown, Opened, Walk, Rights, Above, MeetsLarge, Missing, F.Unpacked, F.Sound;
      ghost var s := Now();
      Level0(s.w, s.tree, i);
      var t1 := Ensure(T0, root, i.a);
      if t1.None? {
        return None;
      }
      ghost var s1 := Now();
      HangsMissing(s.w, s1.w, s.tree, s1.tree, T0, i.a, t1.value, i);
      Level1(s1.w, s1.tree, i);
      if Large(At(ram.words, t1.value, i.b)) {
        return None;
      }
      var t2 := Ensure(T1(i.a), t1.value, i.b);
      if t2.None? {
        return None;
      }
      ghost var s2 := Now();
      HangsMissing(s1.w, s2.w, s1.tree, s2.tree, T1(i.a), i.b, t2.value, i);
      GrownTrans(s, s1, s2);
      OpenedTrans(s, s1, s2);
      Level2(s2.w, s2.tree, i);
      if Large(At(ram.words, t2.value, i.c)) {
        return None;
      }
      t3 := Ensure(T2(i.a, i.b), t2.value, i.c);
      if t3.None? {
        return;
      }
      ghost var s3 := Now();
      HangsMissing(s2.w, s3.w, s2.tree, s3.tree, T2(i.a, i.b), i.c, t3.value, i);
      GrownTrans(s, s2, s3);
      OpenedTrans(s, s2, s3);
      Level3(s3.w, s3.tree, i);
    }

    /**
     map: the page translates to the frame and may be used as the flags and the tables on its way
     allow, every other page as before; halts on a large mapping or without memory.
     */
    method Map(v: nat, r: nat, flags: bv12) returns (halted: bool)
      requires Valid()
      modifies `taken, `tree, ram, frames, frames.bitmap
      ensures halted <==>
        (MeetsLarge(old(ram.words), root, Indices(v)) ||
          F.FreePages(old(frames.Pages())) < Missing(old(ram.words), root, Indices(v)))
      ensures !halted ==> Valid()
      ensures !halted ==> forall p :: Proper(p) ==>
        Translation(p) == if p == Indices(v) then Some(r % FRAMES) else old(Translation(p))
      ensures !halted ==> forall p :: Proper(p) ==>
        Allows(p) == if p == Indices(v) then Some(Meet(Above(old(ram.words), root, p), AccessBits(flags)))
                     else old(Allows(p))
      ensures !halted ==>
        var i := Indices(v);
        T3(i.a, i.b, i.c) in tree && At(ram.words, tree[T3(i.a, i.b, i.c)], i.d) == Entry(flags | 0x001, r % FRAMES, 0)
      ensures !halted ==> Grown(old(Now()), Now()) && Opened(old(Now()), Now())
    {
      hide IsTree, Kept, Taken, Grown, Opened, Walk, Rights, Above, MeetsLarge, Missing, F.Unpacked, F.Sound;
      ghost var s := Now();
      var i := Indices(v);
      var t3 := Tables(i);
      if t3.None? {
        return true;
      }
      ghost var s3 := Now();
      var e := Entry(flags | 0x001, r % FRAMES, 0);
      LeafStored(s3, i, e);
      GrownTrans(s, s3, s3.(w := Store(s3.w, t3.value, i.d, e)));
      OpenedTrans(s, s3, s3.(w := Store(s3.w, t3.value, i.d, e)));
      AtStore(s3.w, t3.value, i.d, e, t3.value, i.d);
      FlagBits(flags);
      ram.words := Store(ram.words, t3.value, i.d, e);
      halted := false;
    }

    /** unmap: the page becomes absent, every other page stays; halts unless it was mapped by a small page. */
    method Unmap(v: nat) returns (halted: bool)
      requires Valid()
      modifies ram
      ensures halted <==> (MeetsLarge(old(ram.words), root, Indices(v)) || old(Translation(Indices(v))) == None)
      ensures halted ==> ram.words == old(ram.words)
      ensures Valid() && Grown(old(Now()), Now())
      ensures !halted ==> forall p ::
        Proper(p) ==> Translation(p) == if p == Indices(v) then None else old(Translation(p))
      ensures !halted ==> forall p :: Proper(p) ==> Allows(p) == if p == Indices(v) then None else old(Allows(p))
      ensures Opened(old(Now()), Now())
    {
      hide Kept, Taken, Grown, Opened, Rights, Above, F.Unpacked, F.Sound, Stored, Hung, Closed;
      ghost var s := Now();
      GrownSame(s);
      OpenedSame(s);
      var i := Indices(v);
      Level0(s.w, tree, i);
      var e1 := At(ram.words, root, i.a);
      if !Present(e1) {
        return true;
      }
      Follow(s.w, tree, T0, i.a);
      Level1(s.w, tree, i);
      var e2 := At(ram.words, e1.frame, i.b);
      if Large(e2) || !Present(e2) {
        return true;
      }
      Follow(s.w, tree, T1(i.a), i.b);
      Level2(s.w, tree, i);
      var e3 := At(ram.words, e2.frame, i.c);
      if Large(e3) || !Present(e3) {
        return true;
      }
      Follow(s.w, tree, T2(i.a, i.b), i.c);
      Level3(s.w, tree, i);
      var e4 := At(ram.words, e3.frame, i.d);
      if !Present(e4) {
        return true;
      }
      var e := e4.(flags := e4.flags & !0x001);
      FlagBits(e4.flags);
      LeafStored(s, i, e);
      ram.words := Store(ram.words, e3.frame, i.d, e);
      halted := false;
    }

    /** The destructor gives back every frame taken, and free4k accepts each. */
    method Destroy()
      requires Valid()
      modifies frames, frames.bitmap
      ensures frames.Valid()
      ensures frames.Pages() == if taken.None? then old(frames.Pages()) else Given(old(frames.Pages()), taken.value)
    {
      hide F.Unpacked, IsTree, Kept;
      if taken.None? {
        return;
      }
      var fs := taken.value;
      ghost var ps := frames.Pages();
      var i := 0;
      assert fs[..0] == [];
      while i < |fs|
        invariant i <= |fs| && frames.Valid() && |ps| == F.PAGES && Taken(fs, ps)
        invariant frames.Pages() == Given(ps, fs[..i])
      {
        GivenNext(ps, fs, i);
        var halted := frames.Free4k(F.HHDM_BEGIN + fs[i] * PAGE);
        i := i + 1;
      }
      assert fs[..|fs|] == fs;
    }
  }

  /** The frames a space has taken are distinct and in use. */
  ghost predicate Taken(fs: seq<nat>, pages: seq<F.PageStatus>) {
    && (forall i :: 0 <= i < |fs| ==> fs[i] < |pages| && pages[fs[i]].USED?)
    && (forall i, j :: 0 <= i < j < |fs| ==> fs[i] != fs[j])
  }

  lemma TakenMore(fs: seq<nat>, pages: seq<F.PageStatus>, p: nat)
    requires Taken(fs, pages) && p < |pages| && pages[p].FREE?
    ensures Taken(fs + [p], pages[p := F.USED])
  {
  }

  /** A frame that was free is no table. */
  lemma NotATable(tree: Tree, pages: seq<F.PageStatus>, p: nat)
    requires Kept(tree, pages) && p < |pages| && pages[p].FREE?
    ensures p !in tree.Values && Kept(tree, pages[p := F.USED])
  {
  }

  lemma UntouchedTree(w: Words, tree: Tree, f: nat)
    requires IsTree(w, tree) && f !in tree.Values
    ensures IsTree(w[f := Zeroed()], tree)
  {
    var w' := w[f := Zeroed()];
    forall t, i: nat | t in tree ensures At(w', tree[t], i) == At(w, tree[t], i) {
      assert tree[t] in tree.Values;
    }
    assert forall t :: t in tree ==> tree[t] in tree.Values;
  }

  /** The tree is as it was, or has one new empty table. */
  ghost predicate Hangs(w: Words, w': Words, tree: Tree, tree': Tree, t: Table, i: nat, f: nat) {
    && t in tree && tree[t] in w && i < |w[tree[t]]|
    && if Present(At(w, tree[t], i)) then w' == w && tree' == tree
       else f != tree[t] && w' == Hang(w, tree, t, i, f) && tree' == tree[Down(t, i) := f]
  }

  lemma GrownSame(s: Space)
    ensures Grown(s, s)
  {
  }

  lemma HungTable(w: Words, tree: Tree, t: Table, i: nat, f: nat, ps: seq<F.PageStatus>, ps': seq<F.PageStatus>)
    requires IsTree(w, tree) && t in tree && !t.T3? && i < 512 && f !in tree.Values && !Present(At(w, tree[t], i))
    requires f < |ps| && ps[f].FREE? && ps' == ps[f := F.USED] && Kept(tree, ps)
    ensures tree[t] in w && |w[tree[t]]| == 512 && f != tree[t] && Down(t, i) !in tree
    ensures w[f := Zeroed()][tree[t]] == w[tree[t]]
    ensures Hangs(w, Hang(w, tree, t, i, f), tree, tree[Down(t, i) := f], t, i, f)
    ensures IsTree(Hang(w, tree, t, i, f), tree[Down(t, i) := f]) && Kept(tree[Down(t, i) := f], ps')
    ensures forall p :: Proper(p) ==> Walk(Hang(w, tree, t, i, f), tree[T0], p) == Walk(w, tree[T0], p)
    ensures forall p :: Proper(p) ==> Rights(Hang(w, tree, t, i, f), tree[T0], p) == Rights(w, tree[T0], p)
    ensures Grown(Space(w, tree, ps), Space(Hang(w, tree, t, i, f), tree[Down(t, i) := f], ps'))
    ensures Opened(Space(w, tree, ps), Space(Hang(w, tree, t, i, f), tree[Down(t, i) := f], ps'))
  {
    hide Walk, Rights, Grown, Opened;
    HangIsTree(w, tree, t, i, f);
    forall p | Proper(p)
      ensures Walk(Hang(w, tree, t, i, f), tree[T0], p) == Walk(w, tree[T0], p)
      ensures Rights(Hang(w, tree, t, i, f), tree[T0], p) == Rights(w, tree[T0], p)
    {
      HangWalk(w, tree, t, i, f, p);
    }
    HungGrown(w, tree, t, i, f, ps, ps');
    HungOpened(w, tree, t, i, f, ps, ps');
  }

  lemma HungOpened(w: Words, tree: Tree, t: Table, i: nat, f: nat, ps: seq<F.PageStatus>, ps': seq<F.PageStatus>)
    requires IsTree(w, tree) && t in tree && !t.T3? && i < 512 && f !in tree.Values && !Present(At(w, tree[t], i))
    requires f != tree[t] && Down(t, i) !in tree
    ensures Opened(Space(w, tree, ps), Space(Hang(w, tree, t, i, f), tree[Down(t, i) := f], ps'))
  {
    hide Closed, AccessBits, Linked;
    var c := Down(t, i);
    var w', tree' := Hang(w, tree, t, i, f), tree[c := f];
    forall u | u in tree' && !u.T0? && Up(u) in tree'
      ensures var e := At(w', tree'[Up(u)], Last(u));
        if u in tree && Up(u) in tree then e == At(w, tree[Up(u)], Last(u)) else AccessBits(e.flags) == FULL
    {
      if u == c {
        HangAt(w, tree, t, i, f, tree[t], i);
        LinkedFull(w[tree[t]][i], f);
      } else {
        assert tree[Up(u)] in tree.Values;
        DownUp(u);
        HangAt(w, tree, t, i, f, tree[Up(u)], Last(u));
      }
    }
  }

  lemma LinkedFull(e: Entry, f: nat)
    ensures AccessBits(Linked(e, f).flags) == FULL
  {
    FlagBits(e.flags);
  }

  lemma HungGrown(w: Words, tree: Tree, t: Table, i: nat, f: nat, ps: seq<F.PageStatus>, ps': seq<F.PageStatus>)
    requires t in tree && tree[t] in w && |w[tree[t]]| == 512 && i < 512 && f != tree[t] && Down(t, i) !in tree
    requires f < |ps| && ps[f].FREE? && ps' == ps[f := F.USED]
    ensures Grown(Space(w, tree, ps), Space(Hang(w, tree, t, i, f), tree[Down(t, i) := f], ps'))
  {
    assert tree[t] in tree.Values;
  }

  // ----- the levels of one path

  /** How many tables a path still lacks. */
  function Missing(w: Words, root: nat, p: Path): nat {
    var e1 := At(w, root, p.a);
    var e2 := At(w, e1.frame, p.b);
    var e3 := At(w, e2.frame, p.c);
    if !Present(e1) then 3 else if !Present(e2) then 2 else if Large(e2) then 0 else if !Present(e3) then 1 else 0
  }

  lemma Level0(w: Words, tree: Tree, p: Path)
    requires IsTree(w, tree) && Proper(p)
    ensures T0 in tree && !Large(At(w, tree[T0], p.a))
    ensures !Present(At(w, tree[T0], p.a)) ==> Missing(w, tree[T0], p) == 3 && !MeetsLarge(w, tree[T0], p)
  {
  }

  lemma Level1(w: Words, tree: Tree, p: Path)
    requires IsTree(w, tree) && Proper(p) && T1(p.a) in tree
    ensures var e := At(w, tree[T1(p.a)], p.b);
      && (Large(e) ==> MeetsLarge(w, tree[T0], p))
      && (!Present(e) ==> Missing(w, tree[T0], p) == 2 && !MeetsLarge(w, tree[T0], p))
  {
    assert Up(T1(p.a)) == T0;
  }

  lemma Level2(w: Words, tree: Tree, p: Path)
    requires IsTree(w, tree) && Proper(p) && T2(p.a, p.b) in tree
    ensures var e := At(w, tree[T2(p.a, p.b)], p.c);
      && (Large(e) ==> MeetsLarge(w, tree[T0], p))
      && (!Present(e) ==> Missing(w, tree[T0], p) == 1 && !MeetsLarge(w, tree[T0], p))
  {
    assert Up(T2(p.a, p.b)) == T1(p.a) && Up(T1(p.a)) == T0;
  }

  lemma Level3(w: Words, tree: Tree, p: Path)
    requires IsTree(w, tree) && Proper(p) && T3(p.a, p.b, p.c) in tree
    ensures tree[T3(p.a, p.b, p.c)] in w && |w[tree[T3(p.a, p.b, p.c)]]| == 512
    ensures Missing(w, tree[T0], p) == 0 && !MeetsLarge(w, tree[T0], p)
  {
    ThreeUp(w, tree, p.a, p.b, p.c);
  }

  /** A table hung on a path is one table less missing from it. */
  lemma HangsMissing(w: Words, w': Words, tree: Tree, tree': Tree, t: Table, i: nat, f: nat, p: Path)
    requires IsTree(w, tree) && IsTree(w', tree') && Hangs(w, w', tree, tree', t, i, f) && Proper(p)
    requires (t == T0 && i == p.a) || (t == T1(p.a) && i == p.b) || (t == T2(p.a, p.b) && i == p.c)
    ensures tree'[T0] == tree[T0]
    ensures MeetsLarge(w', tree[T0], p) == MeetsLarge(w, tree[T0], p)
    ensures Above(w', tree[T0], p) == Above(w, tree[T0], p)
    ensures Missing(w', tree[T0], p) == Missing(w, tree[T0], p) - (if Present(At(w, tree[t], i)) then 0 else 1)
  {
  }

  lemma LeafStored(s: Space, p: Path, e: Entry)
    requires IsTree(s.w, s.tree) && Proper(p) && T3(p.a, p.b, p.c) in s.tree
    ensures s.tree[T3(p.a, p.b, p.c)] in s.w && |s.w[s.tree[T3(p.a, p.b, p.c)]]| == 512
    ensures var w' := Store(s.w, s.tree[T3(p.a, p.b, p.c)], p.d, e);
      && IsTree(w', s.tree) && Grown(s, s.(w := w'))
      && forall q :: Proper(q) ==>
        Walk(w', s.tree[T0], q) == if q == p then (if Present(e) then Some(e.frame) else None) else Walk(s.w,
        s.tree[T0], q)
    ensures var w' := Store(s.w, s.tree[T3(p.a, p.b, p.c)], p.d, e);
      && Opened(s, s.(w := w'))
      && forall q :: Proper(q) ==>
        Rights(w', s.tree[T0], q) ==
        if q == p then (if Present(e) then Some(Meet(Above(s.w, s.tree[T0], p), AccessBits(e.flags))) else None)
        else Rights(s.w, s.tree[T0], q)
  {
    hide Walk, Rights, Above, Opened;
    var f := s.tree[T3(p.a, p.b, p.c)];
    assert f in s.tree.Values;
    LeafIsTree(s.w, s.tree, p.a, p.b, p.c, p.d, e);
    LeafOpened(s, p, e);
    var w' := Store(s.w, f, p.d, e);
    forall q | Proper(q)
      ensures Walk(w', s.tree[T0], q) ==
        if q == p then (if Present(e) then Some(e.frame) else None) else Walk(s.w, s.tree[T0], q)
      ensures Rights(w', s.tree[T0], q) ==
        if q == p then (if Present(e) then Some(Meet(Above(s.w, s.tree[T0], p), AccessBits(e.flags))) else None)
        else Rights(s.w, s.tree[T0], q)
    {
      LeafWalk(s.w, s.tree, p.a, p.b, p.c, p.d, e, q);
    }
  }

  lemma LeafOpened(s: Space, p: Path, e: Entry)
    requires IsTree(s.w, s.tree) && Proper(p) && T3(p.a, p.b, p.c) in s.tree
    ensures Opened(s, s.(w := Store(s.w, s.tree[T3(p.a, p.b, p.c)], p.d, e)))
  {
    hide Hung, Closed, AccessBits;
    var f := s.tree[T3(p.a, p.b, p.c)];
    forall t | t in s.tree && !t.T0? && Up(t) in s.tree
      ensures At(Store(s.w, f, p.d, e), s.tree[Up(t)], Last(t)) == At(s.w, s.tree[Up(t)], Last(t))
    {
      AtStore(s.w, f, p.d, e, s.tree[Up(t)], Last(t));
    }
  }

  /** Pages after the frames in a list were freed. */
  ghost function Given(ps: seq<F.PageStatus>, fs: seq<nat>): seq<F.PageStatus> {
    seq(|ps|, p requires 0 <= p < |ps| => if p in fs then F.FREE else ps[p])
  }

  lemma GivenNext(ps: seq<F.PageStatus>, fs: seq<nat>, i: nat)
    requires Taken(fs, ps) && i < |fs|
    ensures fs[i] < |ps| && Given(ps, fs[..i])[fs[i]].USED?
    ensures Given(ps, fs[..i + 1]) == Given(ps, fs[..i])[fs[i] := F.FREE]
  {
    assert fs[..i + 1] == fs[..i] + [fs[i]];
  }

  /** Two pages share all four indices if and only if they agree in their low 36 bits. */
  lemma IndicesTell(u: nat, v: nat)
    ensures Indices(u) == Indices(v) <==> u % 0x10_0000_0000 == v % 0x10_0000_0000
  {
    Recompose(u);
    Recompose(v);
  }

  lemma Recompose(v: nat)
    ensures var i := Indices(v); v % 0x10_0000_0000 == i.a * 0x800_0000 + i.b * 0x4_0000 + i.c * 0x200 + i.d
  {
    Digit(v);
    Digit(v / 0x200);
    Digit(v / 0x4_0000);
    Quotients(v);
  }

  lemma Digit(v: nat)
    ensures v == v / 512 * 512 + v % 512
  {
  }

  lemma Quotients(v: nat)
    ensures v / 0x4_0000 == v / 0x200 / 512 && v / 0x800_0000 == v / 0x4_0000 / 512
    ensures v % 0x10_0000_0000 == v - v / 0x800_0000 / 512 * 0x10_0000_0000
  {
  }
}
