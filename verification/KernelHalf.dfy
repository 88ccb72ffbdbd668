/**
 Address spaces that share tables: every task's space has the kernel's tables
 in its upper half.
 */
module KernelHalf {
  import opened PageTables
  import opened Paging

  /** Both spaces have the same table behind entry a of their roots. */
  ghost predicate Joint(x: Tree, y: Tree, a: nat) { T1(a) in x && T1(a) in y && x[T1(a)] == y[T1(a)] }

  /** The tables in common are those behind shared entries of the roots, and each stands in the same place in both. */
  ghost predicate Shares(x: Tree, y: Tree) {
    && (forall t, u :: t in x && u in y && x[t] == y[u] ==> t == u && !t.T0? && Joint(x, y, t.a))
    && (forall t :: t in x && !t.T0? && Joint(x, y, t.a) ==> t in y && y[t] == x[t])
    && (forall t :: t in y && !t.T0? && Joint(x, y, t.a) ==> t in x && x[t] == y[t])
  }

  lemma SharesBack(x: Tree, y: Tree)
    requires Shares(x, y)
    ensures Shares(y, x)
  {
    assert forall a: nat :: Joint(y, x, a) <==> Joint(x, y, a);
    forall t, u | t in y && u in x && y[t] == x[u] ensures t == u && !t.T0? && Joint(y, x, t.a) {
      assert u == t;
    }
  }

  // ----- what one space maps, and the other

  /** The tables of y once x has become x'. */
  ghost function Joined(x: Tree, x': Tree, y: Tree): Tree {
    y + map t | t in x' && !t.T0? && Joint(x, y, t.a) :: x'[t]
  }

  /**
   Whatever is mapped or unmapped in one space: behind the entries they share,
   the other space translates every page as this one does now; everywhere else
   it translates as before. And they share as before.
   */
  lemma OtherSpace(s: Space, s': Space, y: Tree)
    requires Grown(s, s') && IsTree(s.w, s.tree) && IsTree(s'.w, s'.tree) && Kept(s'.tree, s'.ps)
    requires IsTree(s.w, y) && Kept(y, s.ps) && Shares(s.tree, y)
    ensures var y' := Joined(s.tree, s'.tree, y);
      && IsTree(s'.w, y') && Kept(y', s'.ps) && Shares(s'.tree, y') && y'[T0] == y[T0]
      && (forall a: nat :: Joint(s'.tree, y', a) <==> Joint(s.tree, y, a))
      && (forall p :: Proper(p) && Joint(s.tree, y, p.a) ==>
        Walk(s'.w, y'[T0], p) == Walk(s'.w, s'.tree[T0], p))
      && (forall p :: Proper(p) && !Joint(s.tree, y, p.a) ==> Walk(s'.w, y'[T0], p) == Walk(s.w, y[T0], p))
      && (forall p :: Proper(p) && !Joint(s.tree, y, p.a) ==> Rights(s'.w, y'[T0], p) == Rights(s.w, y[T0], p))
  {
    hide IsTree, Walk, Rights, Shares, Joint, Joined, Grown, Kept;
    var y' := Joined(s.tree, s'.tree, y);
    JoinedStays(s, s', y);
    JoinedShares(s, s', y);
    JoinedTree(s, s', y);
    JoinedKept(s, s', y);
    RootSmall(s.w, y, 0);
    RootSmall(s'.w, s'.tree, 0);
    RootSmall(s'.w, y', 0);
    forall p | Proper(p)
      ensures Walk(s'.w, y'[T0], p) ==
        if Joint(s.tree, y, p.a) then Walk(s'.w, s'.tree[T0], p) else Walk(s.w, y[T0], p)
      ensures !Joint(s.tree, y, p.a) ==> Rights(s'.w, y'[T0], p) == Rights(s.w, y[T0], p)
    {
      if Joint(s.tree, y, p.a) {
        SameFrom(s'.w, s'.tree, y', p);
      } else {
        AsBefore(s, s', y, p);
      }
    }
  }

  /** Two more spaces go on sharing with each other. */
  lemma OthersShare(s: Space, s': Space, y: Tree, z: Tree)
    requires Grown(s, s') && IsTree(s'.w, s'.tree) && Kept(y, s.ps) && Kept(z, s.ps)
    requires Shares(s.tree, y) && Shares(s.tree, z) && Shares(y, z)
    ensures Shares(Joined(s.tree, s'.tree, y), Joined(s.tree, s'.tree, z))
  {
    hide IsTree, Shares, Joined, Joint, Grown, Kept;
    var y', z' := Joined(s.tree, s'.tree, y), Joined(s.tree, s'.tree, z);
    forall a: nat ensures Joint(y', z', a) <==> Joint(y, z, a) {
      JointBoth(s, s', y, z, a);
    }
    forall t, u | t in y' && u in z' && y'[t] == z'[u] ensures t == u && !t.T0? && Joint(y', z', t.a) {
      OthersFrame(s, s', y, z, t, u);
    }
    forall t: Table | !t.T0? && Joint(y', z', t.a) && (t in y' || t in z')
      ensures t in y' && t in z' && y'[t] == z'[t]
    {
      JointBoth(s, s', y, z, t.a);
      JoinedAt(s, s', y, t);
      JoinedAt(s, s', z, t);
      if !Joint(s.tree, y, t.a) {
        SharedTable(y, z, t);
      }
    }
    SharesIs(y', z');
  }

  lemma SharesIs(x: Tree, y: Tree)
    requires forall t, u :: t in x && u in y && x[t] == y[u] ==> t == u && !t.T0? && Joint(x, y, t.a)
    requires forall t: Table :: !t.T0? && Joint(x, y, t.a) && (t in x || t in y) ==> t in x && t in y && x[t] == y[t]
    ensures Shares(x, y)
  {
  }

  lemma SharedTable(x: Tree, y: Tree, t: Table)
    requires Shares(x, y) && !t.T0? && Joint(x, y, t.a)
    ensures t in x <==> t in y
    ensures t in x ==> x[t] == y[t]
  {
  }

  /** Three spaces share an entry as they did, two by two. */
  lemma JointBoth(s: Space, s': Space, y: Tree, z: Tree, a: nat)
    requires Grown(s, s') && IsTree(s'.w, s'.tree) && Kept(y, s.ps) && Kept(z, s.ps)
    requires Shares(s.tree, y) && Shares(s.tree, z) && Shares(y, z)
    ensures Joint(Joined(s.tree, s'.tree, y), Joined(s.tree, s'.tree, z), a) <==> Joint(y, z, a)
    ensures Joint(y, z, a) ==> (Joint(s.tree, y, a) <==> Joint(s.tree, z, a))
  {
    hide IsTree, Shares, Joined, Kept, Grown;
    JoinedAt(s, s', y, T1(a));
    JoinedAt(s, s', z, T1(a));
    JoinedStays(s, s', y);
    JoinedStays(s, s', z);
    assert Joint(s'.tree, Joined(s.tree, s'.tree, y), a) <==> Joint(s.tree, y, a);
    assert Joint(s'.tree, Joined(s.tree, s'.tree, z), a) <==> Joint(s.tree, z, a);
  }

  lemma OthersFrame(s: Space, s': Space, y: Tree, z: Tree, t: Table, u: Table)
    requires Grown(s, s') && IsTree(s'.w, s'.tree) && Kept(y, s.ps) && Kept(z, s.ps)
    requires Shares(s.tree, y) && Shares(s.tree, z) && Shares(y, z)
    requires var y', z' := Joined(s.tree, s'.tree, y), Joined(s.tree, s'.tree, z);
      t in y' && u in z' && y'[t] == z'[u]
    ensures t == u && !t.T0? && Joint(y, z, t.a)
  {
    hide IsTree, Shares, Joined, Joint, Kept, Grown;
    JoinedAt(s, s', y, t);
    JoinedAt(s, s', z, u);
    if !t.T0? && Joint(s.tree, y, t.a) {
      OneFrame(s, s', z, t, u);
      JointTrans(s.tree, y, z, t.a);
    } else if !u.T0? && Joint(s.tree, z, u.a) {
      OneFrame(s, s', y, u, t);
    } else {
      SharedFrame(y, z, t, u);
    }
  }

  lemma JointTrans(x: Tree, y: Tree, z: Tree, a: nat)
    requires Joint(x, y, a) && Joint(x, z, a)
    ensures Joint(y, z, a)
  {
  }

  lemma SharedFrame(x: Tree, y: Tree, t: Table, u: Table)
    requires Shares(x, y) && t in x && u in y && x[t] == y[u]
    ensures t == u && !t.T0? && Joint(x, y, t.a)
  {
  }

  /** A table that is not shared is left alone. */
  lemma LeftAlone(s: Space, s': Space, y: Tree, t: Table)
    requires Grown(s, s') && IsTree(s.w, y) && Kept(y, s.ps) && Shares(s.tree, y)
    requires t in y && (t.T0? || !Joint(s.tree, y, t.a))
    ensures TableSame(s.w, s'.w, y[t]) && y[t] !in s'.tree.Values
  {
    hide IsTree;
    TableStored(s.w, y, t);
    forall u | u in s.tree ensures s.tree[u] != y[t] {
    }
  }

  /** A table of the grown space is an earlier one or was a free page. */
  lemma EarlierOrFree(s: Space, s': Space, t: Table)
    requires Grown(s, s') && IsTree(s'.w, s'.tree) && t in s'.tree
    ensures t in s.tree || (s'.tree[t] < |s.ps| && s.ps[s'.tree[t]].FREE?)
  {
    var f := s'.tree[t];
    assert f in s'.tree.Values;
    if f in s.tree.Values {
      var u :| u in s.tree && s.tree[u] == f;
      assert s'.tree[u] == f;
    }
  }

  /** What the tables of y become, table by table. */
  lemma JoinedAt(s: Space, s': Space, y: Tree, t: Table)
    requires Grown(s, s') && Shares(s.tree, y)
    ensures var y' := Joined(s.tree, s'.tree, y);
      if !t.T0? && Joint(s.tree, y, t.a) then (t in y' <==> t in s'.tree) && (t in y' ==> y'[t] == s'.tree[t])
      else (t in y' <==> t in y) && (t in y' ==> y'[t] == y[t])
    ensures t in y ==> t in Joined(s.tree, s'.tree, y) && Joined(s.tree, s'.tree, y)[t] == y[t]
  {
    hide Joint;
  }

  lemma JoinedStays(s: Space, s': Space, y: Tree)
    requires Grown(s, s') && IsTree(s'.w, s'.tree) && Kept(y, s.ps) && Shares(s.tree, y)
    ensures forall a: nat :: Joint(s'.tree, Joined(s.tree, s'.tree, y), a) <==> Joint(s.tree, y, a)
  {
    hide IsTree, Shares, Joined;
    var y' := Joined(s.tree, s'.tree, y);
    forall a: nat ensures Joint(s'.tree, y', a) <==> Joint(s.tree, y, a) {
      JoinedAt(s, s', y, T1(a));
      if Joint(s'.tree, y', a) {
        EarlierOrFree(s, s', T1(a));
      }
    }
  }

  lemma JoinedShares(s: Space, s': Space, y: Tree)
    requires Grown(s, s') && IsTree(s'.w, s'.tree) && Kept(y, s.ps) && Shares(s.tree, y)
    ensures Shares(s'.tree, Joined(s.tree, s'.tree, y))
  {
    hide IsTree, Joined, Joint, Grown;
    var x', y' := s'.tree, Joined(s.tree, s'.tree, y);
    JoinedStays(s, s', y);
    forall t, u | t in x' && u in y' && x'[t] == y'[u] ensures t == u && !t.T0? && Joint(x', y', t.a) {
      JoinedAt(s, s', y, u);
      OneFrame(s, s', y, t, u);
    }
    forall t: Table | !t.T0? && Joint(x', y', t.a) && (t in x' || t in y')
      ensures t in x' && t in y' && y'[t] == x'[t]
    {
      JoinedAt(s, s', y, t);
    }
  }

  /** A frame both spaces have tables in is the same shared table. */
  lemma OneFrame(s: Space, s': Space, y: Tree, t: Table, u: Table)
    requires Grown(s, s') && IsTree(s'.w, s'.tree) && Kept(y, s.ps) && Shares(s.tree, y) && t in s'.tree
    requires if !u.T0? && Joint(s.tree, y, u.a) then u in s'.tree && s'.tree[u] == s'.tree[t]
      else u in y && y[u] == s'.tree[t]
    ensures t == u && !t.T0? && Joint(s.tree, y, t.a)
  {
    hide Joint, Hung, Closed;
    if u.T0? || !Joint(s.tree, y, u.a) {
      EarlierOrFree(s, s', t);
      assert t in s.tree;
    }
  }

  lemma JoinedKept(s: Space, s': Space, y: Tree)
    requires Grown(s, s') && Kept(s'.tree, s'.ps) && Kept(y, s.ps) && Shares(s.tree, y)
    ensures Kept(Joined(s.tree, s'.tree, y), s'.ps)
  {
    hide Shares, Joint, Joined;
    var y' := Joined(s.tree, s'.tree, y);
    forall t | t in y' && y'[t] < |s'.ps| ensures !s'.ps[y'[t]].FREE? {
      JoinedAt(s, s', y, t);
    }
  }

  lemma JoinedTree(s: Space, s': Space, y: Tree)
    requires Grown(s, s') && IsTree(s.w, s.tree) && IsTree(s'.w, s'.tree)
    requires IsTree(s.w, y) && Kept(y, s.ps) && Shares(s.tree, y)
    ensures IsTree(s'.w, Joined(s.tree, s'.tree, y)) && Joined(s.tree, s'.tree, y)[T0] == y[T0]
  {
    hide IsTree, Shares, Joined, Joint, Grown, Kept;
    var y' := Joined(s.tree, s'.tree, y);
    RootSmall(s.w, y, 0);
    JoinedAt(s, s', y, T0);
    JoinedStored(s, s', y);
    forall t | t in y' && !t.T0? ensures HungAt(s'.w, y', t) {
      JoinedHung(s, s', y, t);
    }
    forall t, i: nat | t in y' && !t.T3? && i < 512 ensures ClosedAt(s'.w, y', t, i) {
      JoinedClosed(s, s', y, t, i);
    }
    TreeIs(s'.w, y');
  }

  ghost predicate HungAt(w: Words, tree: Tree, t: Table) {
    t in tree && !t.T0? && Up(t) in tree && Last(t) < 512 &&
    var e := At(w, tree[Up(t)], Last(t)); Present(e) && !Large(e) && e.frame == tree[t]
  }

  ghost predicate ClosedAt(w: Words, tree: Tree, t: Table, i: nat) {
    t in tree &&
    var e := At(w, tree[t], i);
    && (!Present(e) ==> e.frame == 0 && !Large(e))
    && (Present(e) && !Large(e) ==> Down(t, i) in tree)
    && (t.T0? ==> !Large(e))
  }

  lemma TreeIs(w: Words, tree: Tree)
    ensures IsTree(w, tree) <==>
      && Stored(w, tree) && (forall t :: t in tree && !t.T0? ==> HungAt(w, tree, t))
      && (forall t, i: nat :: t in tree && !t.T3? && i < 512 ==> ClosedAt(w, tree, t, i))
  {
    if IsTree(w, tree) {
      forall t | t in tree && !t.T0? ensures HungAt(w, tree, t) {
      }
      forall t, i: nat | t in tree && !t.T3? && i < 512 ensures ClosedAt(w, tree, t, i) {
      }
    }
    if (forall t :: t in tree && !t.T0? ==> HungAt(w, tree, t))
      && (forall t, i: nat :: t in tree && !t.T3? && i < 512 ==> ClosedAt(w, tree, t, i))
    {
      forall t | t in tree && !t.T0?
        ensures Up(t) in tree && Last(t) < 512 && var e := At(w, tree[Up(t)], Last(t));
          Present(e) && !Large(e) && e.frame == tree[t]
      {
        assert HungAt(w, tree, t);
      }
      forall t, i: nat | t in tree && !t.T3? && i < 512
        ensures var e := At(w, tree[t], i);
          && (!Present(e) ==> e.frame == 0 && !Large(e))
          && (Present(e) && !Large(e) ==> Down(t, i) in tree)
          && (t.T0? ==> !Large(e))
      {
        assert ClosedAt(w, tree, t, i);
      }
    }
  }

  lemma JoinedStored(s: Space, s': Space, y: Tree)
    requires Grown(s, s') && IsTree(s'.w, s'.tree) && IsTree(s.w, y) && Kept(y, s.ps) && Shares(s.tree, y)
    ensures Stored(s'.w, Joined(s.tree, s'.tree, y))
  {
    hide Joined, Joint, Hung, Closed, Grown, Kept;
    var y' := Joined(s.tree, s'.tree, y);
    JoinedAt(s, s', y, T0);
    forall t | t in y' ensures y'[t] in s'.w && |s'.w[y'[t]]| == 512 {
      JoinedAt(s, s', y, t);
      if t.T0? || !Joint(s.tree, y, t.a) {
        LeftAlone(s, s', y, t);
      }
    }
    forall t, u | t in y' && u in y' && y'[t] == y'[u] ensures t == u {
      JoinedAt(s, s', y, t);
      JoinedAt(s, s', y, u);
      if !t.T0? && Joint(s.tree, y, t.a) {
        OneFrame(s, s', y, t, u);
      } else if !u.T0? && Joint(s.tree, y, u.a) {
        OneFrame(s, s', y, u, t);
      }
    }
  }

  lemma JoinedHung(s: Space, s': Space, y: Tree, t: Table)
    requires Grown(s, s') && IsTree(s'.w, s'.tree) && IsTree(s.w, y) && Kept(y, s.ps) && Shares(s.tree, y)
    requires t in Joined(s.tree, s'.tree, y) && !t.T0?
    ensures HungAt(s'.w, Joined(s.tree, s'.tree, y), t)
  {
    hide IsTree, Shares, Joined, Joint, Grown, Kept, At;
    var y' := Joined(s.tree, s'.tree, y);
    var u := Up(t);
    JoinedAt(s, s', y, t);
    JoinedAt(s, s', y, u);
    if Joint(s.tree, y, t.a) && !t.T1? {
      HangsOff(s'.w, s'.tree, t);
    } else {
      if t.T1? && Joint(s.tree, y, t.a) {
        JointIn(s, s', y, t.a);
      }
      HangsOff(s.w, y, t);
      LeftAlone(s, s', y, u);
      SameEntries(s.w, s'.w, y[u], Last(t));
    }
  }

  lemma JointIn(s: Space, s': Space, y: Tree, a: nat)
    requires Grown(s, s') && Joint(s.tree, y, a)
    ensures T1(a) in y && T1(a) in s'.tree && s'.tree[T1(a)] == y[T1(a)]
  {
  }

  lemma HangsOff(w: Words, tree: Tree, t: Table)
    requires IsTree(w, tree) && t in tree && !t.T0?
    ensures HungAt(w, tree, t)
  {
  }

  lemma SameEntries(w: Words, w': Words, f: nat, i: nat)
    requires TableSame(w, w', f)
    ensures At(w', f, i) == At(w, f, i)
  {
  }

  lemma JoinedClosed(s: Space, s': Space, y: Tree, t: Table, i: nat)
    requires Grown(s, s') && IsTree(s'.w, s'.tree) && IsTree(s.w, y) && Kept(y, s.ps) && Shares(s.tree, y)
    requires t in Joined(s.tree, s'.tree, y) && !t.T3? && i < 512
    ensures ClosedAt(s'.w, Joined(s.tree, s'.tree, y), t, i)
  {
    hide IsTree, Shares, Joined, Joint, Grown, Kept, At;
    var y' := Joined(s.tree, s'.tree, y);
    JoinedAt(s, s', y, t);
    JoinedAt(s, s', y, Down(t, i));
    if !t.T0? && Joint(s.tree, y, t.a) {
      EntryLeads(s'.w, s'.tree, t, i);
    } else {
      EntryLeads(s.w, y, t, i);
      LeftAlone(s, s', y, t);
      SameEntries(s.w, s'.w, y[t], i);
    }
  }

  lemma EntryLeads(w: Words, tree: Tree, t: Table, i: nat)
    requires IsTree(w, tree) && t in tree && !t.T3? && i < 512
    ensures ClosedAt(w, tree, t, i)
  {
  }

  /** Roots that lead to the same table translate alike behind that entry. */
  lemma SameFrom(w: Words, x: Tree, y: Tree, p: Path)
    requires IsTree(w, x) && IsTree(w, y) && Proper(p) && Joint(x, y, p.a)
    ensures Walk(w, y[T0], p) == Walk(w, x[T0], p)
  {
    hide IsTree, At;
    HangsOff(w, x, T1(p.a));
    HangsOff(w, y, T1(p.a));
  }

  lemma AsBefore(s: Space, s': Space, y: Tree, p: Path)
    requires Grown(s, s') && IsTree(s.w, y) && Kept(y, s.ps) && Shares(s.tree, y)
    requires Proper(p) && !Joint(s.tree, y, p.a)
    ensures T0 in y && Walk(s'.w, y[T0], p) == Walk(s.w, y[T0], p) && Rights(s'.w, y[T0], p) == Rights(s.w, y[T0], p)
  {
    hide IsTree, Shares, Joint, Grown, Kept, Walk, Rights, At;
    RootSmall(s.w, y, 0);
    forall t, i: nat | t in y && (t.T0? || t.a == p.a) ensures At(s'.w, y[t], i) == At(s.w, y[t], i) {
      LeftAlone(s, s', y, t);
      SameEntries(s.w, s'.w, y[t], i);
    }
    SameWalk(s.w, s'.w, y, p);
  }

  // ----- how they come to share

  const HALF: nat := 256

  /**
   The entries copied are those of the pages in the upper half of the addresses: bit 47, bit 35 of
   the page number.
   */
  lemma UpperPages(v: nat)
    ensures Indices(v).a >= HALF <==> v / 0x8_0000_0000 % 2 == 1
  {
    var q := v / 0x800_0000;
    assert q / 256 == v / 0x8_0000_0000;
    HalfDigit(q);
  }

  lemma HalfDigit(q: nat)
    ensures q % 512 >= HALF <==> q / 256 % 2 == 1
  {
    assert q == q / 512 * 512 + q % 512;
    assert q / 256 == q / 512 * 2 + q % 512 / 256;
  }

  /** A root with the upper half of another. */
  function HalfOf(own: seq<Entry>, kern: seq<Entry>, n: nat): seq<Entry>
    requires |own| == 512 == |kern| && HALF <= n <= 512
  {
    own[..HALF] + kern[HALF..n] + own[n..]
  }

  /** The tables of a space once it has the upper half of the kernel's. */
  ghost function WithKernel(y: Tree, kern: Tree): Tree {
    (map t | t in y && (t.T0? || t.a < HALF) :: y[t]) + map t | t in kern && !t.T0? && t.a >= HALF :: kern[t]
  }

  /** VMA::map_kern, entry by entry. */
  method MapKern(ram: Ram, root: nat, kern: nat)
    requires root in ram.words && |ram.words[root]| == 512 && kern in ram.words && |ram.words[kern]| == 512
    modifies ram
    ensures ram.words == old(ram.words)[root := HalfOf(old(ram.words)[root], old(ram.words)[kern], 512)]
  {
    var i := HALF;
    ghost var w := ram.words;
    assert HalfOf(w[root], w[kern], HALF) == w[root];
    while i < 512
      invariant HALF <= i <= 512
      invariant ram.words == w[root := HalfOf(w[root], w[kern], i)]
    {
      HalfNext(w[root], w[kern], i);
      assert root != kern ==> ram.words[kern] == w[kern];
      assert root == kern ==> HalfOf(w[root], w[kern], i) == w[kern];
      ram.words := Store(ram.words, root, i, ram.words[kern][i]);
      i := i + 1;
    }
  }

  lemma HalfNext(own: seq<Entry>, kern: seq<Entry>, n: nat)
    requires |own| == 512 == |kern| && HALF <= n < 512
    ensures HalfOf(own, kern, n + 1) == HalfOf(own, kern, n)[n := kern[n]]
  {
  }

  /**
   After map_kern the space has the kernel's tables behind every entry of its
   upper half and its own below: it shares with the kernel, translates the
   upper half as the kernel does and the lower half as before.
   */
  lemma MapKernShares(w: Words, y: Tree, kern: Tree)
    requires IsTree(w, y) && IsTree(w, kern) && y.Values !! kern.Values
    ensures y[T0] in w && |w[y[T0]]| == 512 && kern[T0] in w && |w[kern[T0]]| == 512
    ensures var w' := w[y[T0] := HalfOf(w[y[T0]], w[kern[T0]], 512)]; var y' := WithKernel(y, kern);
      && IsTree(w', kern) && IsTree(w', y') && y'[T0] == y[T0] && Shares(kern, y')
      && (forall p :: Proper(p) ==> Walk(w', kern[T0], p) == Walk(w, kern[T0], p))
      && (forall p :: Proper(p) ==> Walk(w', y[T0], p) == Walk(w, if p.a < HALF then y[T0] else kern[T0], p))
      && (forall p :: Proper(p) ==> Rights(w', y[T0], p) == Rights(w, if p.a < HALF then y[T0] else kern[T0], p))
  {
    hide Shares, Walk, Rights;
    var w' := w[y[T0] := HalfOf(w[y[T0]], w[kern[T0]], 512)];
    var y' := WithKernel(y, kern);
    KernSame(w, w', y, kern);
    WithKernelTree(w, w', y, kern);
    WithKernelShares(w, w', y, kern);
    forall p | Proper(p)
      ensures Walk(w', y[T0], p) == Walk(w, if p.a < HALF then y[T0] else kern[T0], p)
      ensures Rights(w', y[T0], p) == Rights(w, if p.a < HALF then y[T0] else kern[T0], p)
    {
      if p.a < HALF {
        LowerWalk(w, w', y, kern, p);
      } else {
        HalfEntry(w, w', y, kern, p.a);
        SameEntry(w', y[T0], kern[T0], p);
      }
    }
  }

  /** And with every space that shares with the kernel. */
  lemma MapKernAmong(y: Tree, kern: Tree, z: Tree)
    requires y.Values !! kern.Values && y.Values !! z.Values && Shares(kern, z)
    ensures Shares(z, WithKernel(y, kern))
  {
    hide Shares, WithKernel;
    var y' := WithKernel(y, kern);
    forall a: nat ensures Joint(z, y', a) <==> a >= HALF && Joint(kern, z, a) {
      WithKernelAt(y, kern, T1(a));
      assert T1(a) in y ==> y[T1(a)] in y.Values;
      assert T1(a) in z ==> z[T1(a)] in z.Values;
    }
    forall t, u | t in z && u in y' && z[t] == y'[u] ensures t == u && !t.T0? && Joint(z, y', t.a) {
      WithKernelAt(y, kern, u);
      assert z[t] in z.Values && (u in y ==> y[u] in y.Values);
      SharedFrame(kern, z, u, t);
    }
    forall t: Table | !t.T0? && Joint(z, y', t.a) && (t in z || t in y')
      ensures t in z && t in y' && z[t] == y'[t]
    {
      WithKernelAt(y, kern, t);
      SharedTable(kern, z, t);
    }
    SharesIs(z, y');
  }

  /** Only the space's root has changed. */
  ghost predicate Copied(w: Words, w': Words, y: Tree, kern: Tree) {
    && IsTree(w, y) && IsTree(w, kern) && y.Values !! kern.Values
    && w' == w[y[T0] := HalfOf(w[y[T0]], w[kern[T0]], 512)]
  }

  lemma HalfEntry(w: Words, w': Words, y: Tree, kern: Tree, i: nat)
    requires Copied(w, w', y, kern) && i < 512
    ensures At(w', y[T0], i) == At(w, if i < HALF then y[T0] else kern[T0], i)
    ensures y[T0] != kern[T0] && At(w', kern[T0], i) == At(w, kern[T0], i)
  {
    hide Hung, Closed;
    assert y[T0] in y.Values && kern[T0] in kern.Values;
  }

  lemma OtherEntry(w: Words, w': Words, y: Tree, kern: Tree, t: Table, i: nat)
    requires Copied(w, w', y, kern)
    ensures t in y && !t.T0? ==> At(w', y[t], i) == At(w, y[t], i)
    ensures t in kern ==> At(w', kern[t], i) == At(w, kern[t], i) && TableSame(w, w', kern[t])
  {
    hide Hung, Closed;
    if t in kern {
      assert y[T0] in y.Values && kern[t] in kern.Values;
    }
  }

  lemma KernSame(w: Words, w': Words, y: Tree, kern: Tree)
    requires Copied(w, w', y, kern)
    ensures IsTree(w', kern) && forall p :: Proper(p) ==> Walk(w', kern[T0], p) == Walk(w, kern[T0], p)
    ensures forall p :: Proper(p) ==> Rights(w', kern[T0], p) == Rights(w, kern[T0], p)
  {
    hide Walk, Rights, Hung, Closed;
    forall t | t in kern ensures TableSame(w, w', kern[t]) {
      OtherEntry(w, w', y, kern, t, 0);
    }
    SameTables(w, w', kern);
  }

  lemma WithKernelAt(y: Tree, kern: Tree, t: Table)
    ensures var y' := WithKernel(y, kern);
      if t.T0? || t.a < HALF then (t in y' <==> t in y) && (t in y' ==> y'[t] == y[t])
      else (t in y' <==> t in kern) && (t in y' ==> y'[t] == kern[t])
  {
  }

  lemma WithKernelTree(w: Words, w': Words, y: Tree, kern: Tree)
    requires Copied(w, w', y, kern)
    ensures IsTree(w', WithKernel(y, kern)) && WithKernel(y, kern)[T0] == y[T0]
  {
    hide IsTree, WithKernel, Copied;
    var y' := WithKernel(y, kern);
    WithKernelStored(w, w', y, kern);
    forall t | t in y' && !t.T0? ensures HungAt(w', y', t) {
      WithKernelHung(w, w', y, kern, t);
    }
    forall t, i: nat | t in y' && !t.T3? && i < 512 ensures ClosedAt(w', y', t, i) {
      WithKernelClosed(w, w', y, kern, t, i);
    }
    TreeIs(w', y');
  }

  lemma WithKernelStored(w: Words, w': Words, y: Tree, kern: Tree)
    requires Copied(w, w', y, kern)
    ensures Stored(w', WithKernel(y, kern)) && WithKernel(y, kern)[T0] == y[T0]
  {
    hide WithKernel, Hung, Closed;
    var y' := WithKernel(y, kern);
    WithKernelAt(y, kern, T0);
    forall t | t in y' ensures y'[t] in w' && |w'[y'[t]]| == 512 {
      WithKernelAt(y, kern, t);
    }
    forall t, u | t in y' && u in y' && y'[t] == y'[u] ensures t == u {
      WithKernelAt(y, kern, t);
      WithKernelAt(y, kern, u);
      assert t in y ==> y[t] in y.Values;
      assert u in y ==> y[u] in y.Values;
      assert t in kern ==> kern[t] in kern.Values;
      assert u in kern ==> kern[u] in kern.Values;
    }
  }

  lemma WithKernelHung(w: Words, w': Words, y: Tree, kern: Tree, t: Table)
    requires Copied(w, w', y, kern) && t in WithKernel(y, kern) && !t.T0?
    ensures HungAt(w', WithKernel(y, kern), t)
  {
    hide WithKernel, IsTree, At, HalfOf;
    WithKernelAt(y, kern, t);
    WithKernelAt(y, kern, Up(t));
    HangsOff(w, if t.a < HALF then y else kern, t);
    RootSmall(w, y, 0);
    if t.T1? {
      HalfEntry(w, w', y, kern, t.a);
    } else {
      OtherEntry(w, w', y, kern, Up(t), Last(t));
    }
  }

  lemma WithKernelClosed(w: Words, w': Words, y: Tree, kern: Tree, t: Table, i: nat)
    requires Copied(w, w', y, kern) && t in WithKernel(y, kern) && !t.T3? && i < 512
    ensures ClosedAt(w', WithKernel(y, kern), t, i)
  {
    hide WithKernel, IsTree, At, HalfOf;
    WithKernelAt(y, kern, t);
    WithKernelAt(y, kern, Down(t, i));
    RootSmall(w, kern, 0);
    if t.T0? {
      EntryLeads(w, if i < HALF then y else kern, T0, i);
      HalfEntry(w, w', y, kern, i);
    } else {
      EntryLeads(w, if t.a < HALF then y else kern, t, i);
      OtherEntry(w, w', y, kern, t, i);
    }
  }

  lemma WithKernelShares(w: Words, w': Words, y: Tree, kern: Tree)
    requires Copied(w, w', y, kern)
    ensures Shares(kern, WithKernel(y, kern))
  {
    hide WithKernel, Closed, HalfOf;
    var y' := WithKernel(y, kern);
    forall a: nat ensures Joint(kern, y', a) <==> a >= HALF && T1(a) in kern {
      WithKernelAt(y, kern, T1(a));
      assert T1(a) in y ==> y[T1(a)] in y.Values;
      assert T1(a) in kern ==> kern[T1(a)] in kern.Values;
    }
    forall t, u | t in kern && u in y' && kern[t] == y'[u] ensures t == u && !t.T0? && Joint(kern, y', t.a) {
      WithKernelAt(y, kern, u);
      assert kern[t] in kern.Values;
      assert u in y ==> y[u] in y.Values;
      Rooted(w, kern, t);
    }
    forall t: Table | !t.T0? && Joint(kern, y', t.a) && (t in kern || t in y')
      ensures t in kern && t in y' && y'[t] == kern[t]
    {
      WithKernelAt(y, kern, t);
    }
  }

  /** Each table lies behind an entry of the root. */
  lemma Rooted(w: Words, tree: Tree, t: Table)
    requires IsTree(w, tree) && t in tree && !t.T0?
    ensures T1(t.a) in tree
  {
    hide Closed, Stored;
    if t.T3? {
      assert Up(t) in tree && Up(Up(t)) in tree;
    }
  }

  lemma LowerWalk(w: Words, w': Words, y: Tree, kern: Tree, p: Path)
    requires Copied(w, w', y, kern) && Proper(p) && p.a < HALF
    ensures Walk(w', y[T0], p) == Walk(w, y[T0], p) && Rights(w', y[T0], p) == Rights(w, y[T0], p)
  {
    hide IsTree, Walk, Rights, At, HalfOf;
    forall t, i: nat | t in y && (if t.T0? then i == p.a else t.a == p.a) ensures At(w', y[t], i) == At(w, y[t], i) {
      if t.T0? {
        HalfEntry(w, w', y, kern, i);
      } else {
        OtherEntry(w, w', y, kern, t, i);
      }
    }
    SameWalk(w, w', y, p);
  }

  lemma SameEntry(w: Words, f: nat, g: nat, p: Path)
    requires At(w, f, p.a) == At(w, g, p.a)
    ensures Walk(w, f, p) == Walk(w, g, p) && Rights(w, f, p) == Rights(w, g, p)
  {
    hide At;
  }
}
