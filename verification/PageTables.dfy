/**
 Four-level page tables over physical memory: what a walk finds, what makes
 the tables an alias-free tree, and what the two kinds of store do to both.
 */
module PageTables {
  import opened Wrappers

  /** A 64-bit table entry: twelve flag bits, the frame address bits, and the rest. */
  datatype Entry = Entry(flags: bv12, frame: nat, high: nat)

  type Words = map<nat, seq<Entry>> // physical frame to its 512 entries

  const FRAMES: nat := 0x100_0000_0000 // 40 address bits
  const RW: bv12 := 0x002
  const ZERO: Entry := Entry(0, 0, 0)

  predicate Present(e: Entry) { e.flags & 0x001 != 0 }
  predicate Large(e: Entry) { e.flags & 0x080 != 0 }

  /** What a page may be used for, beside reading by the kernel. */
  datatype Access = Access(write: bool, user: bool)

  const FULL: Access := Access(true, true)

  function AccessBits(flags: bv12): Access { Access(flags & 0x002 != 0, flags & 0x004 != 0) }

  function Meet(x: Access, y: Access): Access { Access(x.write && y.write, x.user && y.user) }

  /** Bitwise or of address bits. */
  function Or(x: nat, y: nat): nat {
    if x == 0 then y else if y == 0 then x
    else 2 * Or(x / 2, y / 2) + if x % 2 == 1 || y % 2 == 1 then 1 else 0
  }

  /** What the two `|=` stores make of an entry that is not present. */
  function Linked(e: Entry, frame: nat): Entry {
    Entry(e.flags | 0x001 | 0x002 | 0x004, Or(e.frame, frame), e.high)
  }

  /** The linking stores leave exactly the new frame only because the address bits were zero. */
  lemma LinkedIs(e: Entry, frame: nat)
    requires e.frame == 0 && !Large(e)
    ensures Present(Linked(e, frame)) && !Large(Linked(e, frame)) && Linked(e, frame).frame == frame
    ensures AccessBits(Linked(e, frame).flags) == FULL
  {
    FlagBits(e.flags);
  }

  lemma FlagBits(f: bv12)
    ensures (f | 0x001 | 0x002 | 0x004) & 0x001 != 0
    ensures f & 0x080 == 0 ==> (f | 0x001 | 0x002 | 0x004) & 0x080 == 0
    ensures (f | 0x001 | 0x002 | 0x004) & 0x002 != 0 && (f | 0x001 | 0x002 | 0x004) & 0x004 != 0
    ensures (f | 0x001) & 0x001 != 0 && (f & !0x001) & 0x001 == 0
    ensures (f | 0x001) & 0x002 == f & 0x002 && (f | 0x001) & 0x004 == f & 0x004
  {
  }

  // ----- indices

  /** The four table indices of a page. */
  datatype Path = Path(a: nat, b: nat, c: nat, d: nat)

  function Indices(page: nat): Path {
    Path(page / 0x800_0000 % 512, page / 0x4_0000 % 512, page / 0x200 % 512, page % 512)
  }

  ghost predicate Proper(p: Path) { p.a < 512 && p.b < 512 && p.c < 512 && p.d < 512 }

  /** A table: the indices that lead to it. */
  datatype Table = T0 | T1(a: nat) | T2(a: nat, b: nat) | T3(a: nat, b: nat, c: nat)

  function Down(t: Table, i: nat): Table {
    match t
    case T0 => T1(i)
    case T1(a) => T2(a, i)
    case T2(a, b) => T3(a, b, i)
    case T3(_, _, _) => t
  }

  function Up(t: Table): Table {
    match t
    case T0 => T0
    case T1(_) => T0
    case T2(a, _) => T1(a)
    case T3(a, b, _) => T2(a, b)
  }

  function Last(t: Table): nat {
    match t
    case T0 => 0
    case T1(a) => a
    case T2(_, b) => b
    case T3(_, _, c) => c
  }

  // ----- walks

  function At(w: Words, f: nat, i: nat): Entry {
    if f in w && i < |w[f]| then w[f][i] else ZERO
  }

  /** The physical page a walk ends on; large entries take the rest of the page number from the address. */
  function Walk(w: Words, root: nat, p: Path): Option<nat> {
    var e1 := At(w, root, p.a);
    if !Present(e1) then None else
    var e2 := At(w, e1.frame, p.b);
    if !Present(e2) then None else
    if Large(e2) then Some(Or(e2.frame, p.c * 512 + p.d)) else
    var e3 := At(w, e2.frame, p.c);
    if !Present(e3) then None else
    if Large(e3) then Some(Or(e3.frame, p.d)) else
    var e4 := At(w, e3.frame, p.d);
    if !Present(e4) then None else Some(e4.frame)
  }

  /** What a mapped page may be used for: what all entries on its walk allow. */
  function Rights(w: Words, root: nat, p: Path): Option<Access> {
    var e1 := At(w, root, p.a);
    if !Present(e1) then None else
    var e2 := At(w, e1.frame, p.b);
    if !Present(e2) then None else
    var a2 := Meet(AccessBits(e1.flags), AccessBits(e2.flags));
    if Large(e2) then Some(a2) else
    var e3 := At(w, e2.frame, p.c);
    if !Present(e3) then None else
    var a3 := Meet(a2, AccessBits(e3.flags));
    if Large(e3) then Some(a3) else
    var e4 := At(w, e3.frame, p.d);
    if !Present(e4) then None else Some(Meet(a3, AccessBits(e4.flags)))
  }

  /** A page may be used for something if and only if it is mapped. */
  lemma RightsMapped(w: Words, root: nat, p: Path)
    ensures Rights(w, root, p).Some? <==> Walk(w, root, p).Some?
  {
    hide Or, AccessBits, Meet;
  }

  /** What the entries above the last level allow, those that are there. */
  function Above(w: Words, root: nat, p: Path): Access {
    var e1 := At(w, root, p.a);
    if !Present(e1) then FULL else
    var e2 := At(w, e1.frame, p.b);
    if !Present(e2) then AccessBits(e1.flags) else
    var a2 := Meet(AccessBits(e1.flags), AccessBits(e2.flags));
    var e3 := At(w, e2.frame, p.c);
    if !Present(e3) then a2 else Meet(a2, AccessBits(e3.flags))
  }

  /** The walk meets a large entry before the last level. */
  predicate MeetsLarge(w: Words, root: nat, p: Path) {
    var e1 := At(w, root, p.a);
    var e2 := At(w, e1.frame, p.b);
    var e3 := At(w, e2.frame, p.c);
    Present(e1) && Present(e2) && (Large(e2) || (Present(e3) && Large(e3)))
  }

  // ----- the tree

  type Tree = map<Table, nat> // where each table lives

  ghost predicate Stored(w: Words, tree: Tree) {
    && T0 in tree
    && (forall t :: t in tree ==> tree[t] in w && |w[tree[t]]| == 512)
    && (forall t, u :: t in tree && u in tree && tree[t] == tree[u] ==> t == u)
  }

  /** Each table but the root hangs off the entry its indices name. */
  ghost predicate Hung(w: Words, tree: Tree) {
    forall t :: t in tree && !t.T0? ==>
      && Up(t) in tree && Last(t) < 512
      && var e := At(w, tree[Up(t)], Last(t)); Present(e) && !Large(e) && e.frame == tree[t]
  }

  /** Entries above the last level lead to tables; an absent one has no address bits. */
  ghost predicate Closed(w: Words, tree: Tree) {
    forall t, i: nat :: t in tree && !t.T3? && i < 512 ==>
      var e := At(w, tree[t], i);
      && (!Present(e) ==> e.frame == 0 && !Large(e))
      && (Present(e) && !Large(e) ==> Down(t, i) in tree)
      && (t.T0? ==> !Large(e))
  }

  ghost predicate IsTree(w: Words, tree: Tree) { Stored(w, tree) && Hung(w, tree) && Closed(w, tree) }

  /** Entry i of table t gets a new value. */
  function Store(w: Words, f: nat, i: nat, e: Entry): Words
    requires f in w && i < |w[f]|
  {
    w[f := w[f][i := e]]
  }

  lemma AtStore(w: Words, f: nat, i: nat, e: Entry, g: nat, j: nat)
    requires f in w && i < |w[f]|
    ensures At(Store(w, f, i, e), g, j) == if g == f && j == i then e else At(w, g, j)
  {
  }

  /** The page is mapped to frame f: by its entry in its last-level table, or by a large entry above that. */
  ghost predicate Maps(w: Words, tree: Tree, p: Path, f: nat) {
    || (T3(p.a, p.b, p.c) in tree && Present(At(w, tree[T3(p.a, p.b, p.c)], p.d)) &&
      f == At(w, tree[T3(p.a, p.b, p.c)], p.d).frame)
    || (T2(p.a, p.b) in tree && var e := At(w, tree[T2(p.a, p.b)], p.c);
      Present(e) && Large(e) && f == Or(e.frame, p.d))
    || (T1(p.a) in tree && var e := At(w, tree[T1(p.a)], p.b);
      Present(e) && Large(e) && f == Or(e.frame, p.c * 512 + p.d))
  }

  /** A walk through the tables finds exactly what the tree says. */
  lemma WalkMaps(w: Words, tree: Tree, p: Path)
    requires IsTree(w, tree) && Proper(p)
    ensures forall f: nat :: Maps(w, tree, p, f) <==> Walk(w, tree[T0], p) == Some(f)
  {
    hide IsTree;
    WalkDown(w, tree, p);
    WalkUp(w, tree, p);
  }

  lemma WalkDown(w: Words, tree: Tree, p: Path)
    requires IsTree(w, tree) && Proper(p)
    ensures T0 in tree
    ensures Walk(w, tree[T0], p).Some? ==> Maps(w, tree, p, Walk(w, tree[T0], p).value)
  {
    var e1 := At(w, tree[T0], p.a);
    if Present(e1) {
      Follow(w, tree, T0, p.a);
      var e2 := At(w, tree[T1(p.a)], p.b);
      if Present(e2) && !Large(e2) {
        Follow(w, tree, T1(p.a), p.b);
        var e3 := At(w, tree[T2(p.a, p.b)], p.c);
        if Present(e3) && !Large(e3) {
          Follow(w, tree, T2(p.a, p.b), p.c);
        }
      }
    }
  }

  lemma WalkUp(w: Words, tree: Tree, p: Path)
    requires IsTree(w, tree) && Proper(p)
    ensures T0 in tree
    ensures forall f: nat :: Maps(w, tree, p, f) ==> Walk(w, tree[T0], p) == Some(f)
  {
    forall f: nat | Maps(w, tree, p, f) ensures Walk(w, tree[T0], p) == Some(f) {
      assert T1(p.a) in tree;
      if T2(p.a, p.b) in tree {
        assert At(w, tree[T1(p.a)], p.b).frame == tree[T2(p.a, p.b)];
      }
    }
  }

  /** A present ordinary entry leads to the table below, and nowhere else. */
  lemma Follow(w: Words, tree: Tree, t: Table, i: nat)
    requires IsTree(w, tree) && t in tree && !t.T3? && i < 512
    requires Present(At(w, tree[t], i)) && !Large(At(w, tree[t], i))
    ensures Down(t, i) in tree && At(w, tree[t], i).frame == tree[Down(t, i)]
  {
    var c := Down(t, i);
    assert c in tree && Up(c) == t && Last(c) == i;
  }

  // ----- storing a last-level entry

  lemma LeafIsTree(w: Words, tree: Tree, a: nat, b: nat, c: nat, d: nat, e: Entry)
    requires IsTree(w, tree) && T3(a, b, c) in tree && d < 512
    ensures IsTree(Store(w, tree[T3(a, b, c)], d, e), tree)
  {
    var f := tree[T3(a, b, c)];
    var w' := Store(w, f, d, e);
    forall t, i: nat | t in tree && !t.T3? ensures At(w', tree[t], i) == At(w, tree[t], i) {
      AtStore(w, f, d, e, tree[t], i);
    }
  }

  /** Only the page whose four indices were written translates differently. */
  lemma LeafWalk(w: Words, tree: Tree, a: nat, b: nat, c: nat, d: nat, e: Entry, p: Path)
    requires IsTree(w, tree) && T3(a, b, c) in tree && d < 512 && Proper(p)
    ensures Walk(Store(w, tree[T3(a, b, c)], d, e), tree[T0], p) ==
      if p == Path(a, b, c, d) then (if Present(e) then Some(e.frame) else None) else Walk(w, tree[T0], p)
    ensures Rights(Store(w, tree[T3(a, b, c)], d, e), tree[T0], p) ==
      if p == Path(a, b, c, d) then (if Present(e) then Some(Meet(Above(w, tree[T0], p),
        AccessBits(e.flags))) else None)
      else Rights(w, tree[T0], p)
  {
    hide Or, Hung, Closed, AccessBits, Meet;
    var f := tree[T3(a, b, c)];
    var e1 := At(w, tree[T0], p.a);
    ThreeUp(w, tree, a, b, c);
    Elsewhere(w, tree, f, a, b, c, d, e, T0, p.a);
    if Present(e1) {
      Follow(w, tree, T0, p.a);
      var e2 := At(w, e1.frame, p.b);
      Elsewhere(w, tree, f, a, b, c, d, e, T1(p.a), p.b);
      if Present(e2) && !Large(e2) {
        Follow(w, tree, T1(p.a), p.b);
        var e3 := At(w, e2.frame, p.c);
        Elsewhere(w, tree, f, a, b, c, d, e, T2(p.a, p.b), p.c);
        if Present(e3) && !Large(e3) {
          Follow(w, tree, T2(p.a, p.b), p.c);
          Elsewhere(w, tree, f, a, b, c, d, e, T3(p.a, p.b, p.c), p.d);
        }
      }
    }
  }

  lemma Elsewhere(w: Words, tree: Tree, f: nat, a: nat, b: nat, c: nat, d: nat, e: Entry, t: Table, i: nat)
    requires IsTree(w, tree) && T3(a, b, c) in tree && d < 512 && f == tree[T3(a, b, c)] && t in tree && i < 512
    ensures At(Store(w, f, d, e), tree[t], i) == if t == T3(a, b, c) && i == d then e else At(w, tree[t], i)
    ensures t.T0? ==> !Large(At(w, tree[t], i))
  {
    hide Hung;
    AtStore(w, f, d, e, tree[t], i);
  }

  /** The entries on the way to a last-level table. */
  lemma ThreeUp(w: Words, tree: Tree, a: nat, b: nat, c: nat)
    requires IsTree(w, tree) && T3(a, b, c) in tree
    ensures a < 512 && b < 512 && c < 512 && T2(a, b) in tree && T1(a) in tree
    ensures var e1, e2, e3 := At(w, tree[T0], a), At(w, tree[T1(a)], b), At(w, tree[T2(a, b)], c);
      && Present(e1) && Present(e2) && Present(e3) && !Large(e1) && !Large(e2) && !Large(e3)
      && e1.frame == tree[T1(a)] && e2.frame == tree[T2(a, b)] && e3.frame == tree[T3(a, b, c)]
  {
    assert Up(T3(a, b, c)) == T2(a, b) && Up(T2(a, b)) == T1(a) && Up(T1(a)) == T0;
  }

  // ----- hanging a new table

  function Zeroed(): seq<Entry> { seq(512, _ => ZERO) }

  /** A zeroed frame is linked into an entry that is not present. */
  function Hang(w: Words, tree: Tree, t: Table, i: nat, f: nat): Words
    requires t in tree && tree[t] in w && i < |w[tree[t]]| && f != tree[t]
  {
    Store(w[f := Zeroed()], tree[t], i, Linked(w[tree[t]][i], f))
  }

  lemma HangAt(w: Words, tree: Tree, t: Table, i: nat, f: nat, g: nat, j: nat)
    requires t in tree && tree[t] in w && i < |w[tree[t]]| && f != tree[t]
    ensures At(Hang(w, tree, t, i, f), g, j) ==
      if g == f then ZERO else if g == tree[t] && j == i then Linked(w[tree[t]][i], f) else At(w, g, j)
  {
  }

  lemma HangIsTree(w: Words, tree: Tree, t: Table, i: nat, f: nat)
    requires IsTree(w, tree) && t in tree && !t.T3? && i < 512 && f !in tree.Values && !Present(At(w, tree[t], i))
    ensures f != tree[t] && Down(t, i) !in tree && IsTree(Hang(w, tree, t, i, f), tree[Down(t, i) := f])
  {
    assert tree[t] in tree.Values;
    var c := Down(t, i);
    assert Up(c) == t && Last(c) == i;
    var w', tree' := Hang(w, tree, t, i, f), tree[c := f];
    LinkedIs(At(w, tree[t], i), f);
    HangStored(w, tree, t, i, f);
    HangHung(w, tree, t, i, f);
    HangClosed(w, tree, t, i, f);
  }

  lemma HangStored(w: Words, tree: Tree, t: Table, i: nat, f: nat)
    requires Stored(w, tree) && t in tree && i < 512 && f !in tree.Values && f != tree[t] && Down(t, i) !in tree
    ensures Stored(Hang(w, tree, t, i, f), tree[Down(t, i) := f])
  {
    assert forall u :: u in tree ==> tree[u] in tree.Values;
  }

  lemma HangHung(w: Words, tree: Tree, t: Table, i: nat, f: nat)
    requires Stored(w, tree) && Hung(w, tree) && t in tree && !t.T3? && i < 512 && f !in tree.Values && f != tree[t]
    requires Down(t, i) !in tree
    requires var e := Linked(At(w, tree[t], i), f); Present(e) && !Large(e) && e.frame == f
    ensures Hung(Hang(w, tree, t, i, f), tree[Down(t, i) := f])
  {
    var c := Down(t, i);
    var w', tree' := Hang(w, tree, t, i, f), tree[c := f];
    forall u | u in tree' && !u.T0?
      ensures Up(u) in tree' && Last(u) < 512
      ensures var e := At(w', tree'[Up(u)], Last(u)); Present(e) && !Large(e) && e.frame == tree'[u]
    {
      if u == c {
        HangAt(w, tree, t, i, f, tree[t], i);
      } else {
        assert tree[Up(u)] in tree.Values;
        assert Up(u) == t && Last(u) == i ==> u == c by { DownUp(u); }
        HangAt(w, tree, t, i, f, tree[Up(u)], Last(u));
      }
    }
  }

  lemma DownUp(t: Table)
    requires !t.T0?
    ensures Down(Up(t), Last(t)) == t
  {
  }

  lemma HangClosed(w: Words, tree: Tree, t: Table, i: nat, f: nat)
    requires Stored(w, tree) && Closed(w, tree) && t in tree && !t.T3? && i < 512 && f !in tree.Values
    requires f != tree[t] && Down(t, i) !in tree
    requires var e := Linked(At(w, tree[t], i), f); Present(e) && !Large(e) && e.frame == f
    ensures Closed(Hang(w, tree, t, i, f), tree[Down(t, i) := f])
  {
    var c := Down(t, i);
    var w', tree' := Hang(w, tree, t, i, f), tree[c := f];
    forall u, j: nat | u in tree' && !u.T3? && j < 512
      ensures var e := At(w', tree'[u], j);
        && (!Present(e) ==> e.frame == 0 && !Large(e))
        && (Present(e) && !Large(e) ==> Down(u, j) in tree')
        && (u.T0? ==> !Large(e))
    {
      HangAt(w, tree, t, i, f, tree'[u], j);
      if u != c {
        assert tree[u] in tree.Values;
      }
    }
  }

  /** A new table changes no translation. */
  lemma HangWalk(w: Words, tree: Tree, t: Table, i: nat, f: nat, p: Path)
    requires IsTree(w, tree) && t in tree && !t.T3? && i < 512 && f !in tree.Values && !Present(At(w, tree[t], i))
    requires f != tree[t] && Proper(p)
    ensures Walk(Hang(w, tree, t, i, f), tree[T0], p) == Walk(w, tree[T0], p)
    ensures Rights(Hang(w, tree, t, i, f), tree[T0], p) == Rights(w, tree[T0], p)
  {
    hide Or, Hung, Closed, AccessBits, Meet;
    var w' := Hang(w, tree, t, i, f);
    Hanging(w, tree, t, i, f, T0, p.a, p.b);
    var e1 := At(w, tree[T0], p.a);
    if Present(e1) {
      Follow(w, tree, T0, p.a);
      Hanging(w, tree, t, i, f, T1(p.a), p.b, p.c);
      var e2 := At(w, e1.frame, p.b);
      if Present(e2) && !Large(e2) {
        Follow(w, tree, T1(p.a), p.b);
        Hanging(w, tree, t, i, f, T2(p.a, p.b), p.c, p.d);
        var e3 := At(w, e2.frame, p.c);
        if Present(e3) && !Large(e3) {
          Follow(w, tree, T2(p.a, p.b), p.c);
          Hanging(w, tree, t, i, f, T3(p.a, p.b, p.c), p.d, 0);
        }
      }
    }
  }

  /** One step of a walk before and after: the same entry, or a link to an empty table where none was. */
  lemma Hanging(w: Words, tree: Tree, t: Table, i: nat, f: nat, u: Table, j: nat, k: nat)
    requires IsTree(w, tree) && t in tree && !t.T3? && i < 512 && f !in tree.Values && !Present(At(w, tree[t], i))
    requires f != tree[t]
    requires u in tree && j < 512
    ensures var e, e' := At(w, tree[u], j), At(Hang(w, tree, t, i, f), tree[u], j);
      && (u.T0? ==> !Large(e))
      && (e' == e || (!Present(e) && Present(e') && !Large(e') && !u.T3? &&
        !Present(At(Hang(w, tree, t, i, f), e'.frame, k))))
  {
    hide Hung;
    assert tree[u] in tree.Values;
    HangAt(w, tree, t, i, f, tree[u], j);
    HangAt(w, tree, t, i, f, f, k);
    LinkedIs(At(w, tree[t], i), f);
  }

  // ----- tables left alone

  predicate TableSame(w: Words, w': Words, f: nat) { f in w && f in w' && w'[f] == w[f] }

  lemma TableStored(w: Words, tree: Tree, t: Table)
    requires IsTree(w, tree) && t in tree
    ensures tree[t] in w
  {
  }

  /** Tables that are the same form the same tree, and walks through them end where they did. */
  lemma SameTables(w: Words, w': Words, tree: Tree)
    requires IsTree(w, tree) && forall t :: t in tree ==> TableSame(w, w', tree[t])
    ensures IsTree(w', tree) && forall p :: Proper(p) ==> Walk(w', tree[T0], p) == Walk(w, tree[T0], p)
    ensures forall p :: Proper(p) ==> Rights(w', tree[T0], p) == Rights(w, tree[T0], p)
  {
    hide Rights;
    forall t, i: nat | t in tree ensures At(w', tree[t], i) == At(w, tree[t], i) {
      assert TableSame(w, w', tree[t]);
    }
    SameIsTree(w, w', tree);
    forall p | Proper(p)
      ensures Walk(w', tree[T0], p) == Walk(w, tree[T0], p) && Rights(w', tree[T0], p) == Rights(w, tree[T0], p)
    {
      SameWalk(w, w', tree, p);
    }
  }

  lemma SameIsTree(w: Words, w': Words, tree: Tree)
    requires IsTree(w, tree) && (forall t :: t in tree ==> TableSame(w, w', tree[t]))
    requires forall t, i: nat :: t in tree ==> At(w', tree[t], i) == At(w, tree[t], i)
    ensures IsTree(w', tree)
  {
    hide At;
    assert forall t :: t in tree ==> TableSame(w, w', tree[t]);
  }

  lemma SameWalk(w: Words, w': Words, tree: Tree, p: Path)
    requires IsTree(w, tree) && Proper(p)
    requires forall t, i: nat :: t in tree && (if t.T0? then i == p.a else t.a == p.a) ==>
      At(w', tree[t], i) == At(w, tree[t], i)
    ensures Walk(w', tree[T0], p) == Walk(w, tree[T0], p) && Rights(w', tree[T0], p) == Rights(w, tree[T0], p)
  {
    hide IsTree, At, AccessBits, Meet;
    RootSmall(w, tree, p.a);
    var e1 := At(w, tree[T0], p.a);
    if Present(e1) {
      Follow(w, tree, T0, p.a);
      var e2 := At(w, tree[T1(p.a)], p.b);
      if Present(e2) && !Large(e2) {
        Follow(w, tree, T1(p.a), p.b);
        var e3 := At(w, tree[T2(p.a, p.b)], p.c);
        if Present(e3) && !Large(e3) {
          Follow(w, tree, T2(p.a, p.b), p.c);
        }
      }
    }
  }

  lemma RootSmall(w: Words, tree: Tree, i: nat)
    requires IsTree(w, tree) && i < 512
    ensures T0 in tree && !Large(At(w, tree[T0], i))
  {
  }
}
