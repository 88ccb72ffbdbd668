/**
 The skip list map as pointer code over a node store, against a sorted
 sequence of entries.  The heights drawn at random are arbitrary.
 */
module SkipList {
  import opened SkipListShape

  const POOL_SIZE: nat := 64

  /** The entries in order, without the sentinels. */
  ghost function Entries<V>(ns: Nodes<V>, s: Shape): (es: seq<(int, V)>)
    requires |s.order| >= 2 && Stored(ns, s) && Sorted(ns, s)
    ensures |es| == |s.order| - 2
  {
    seq(|s.order| - 2, j requires 0 <= j < |s.order| - 2 =>
      assert Inner(s, j + 1); (ns[s.order[j + 1]].item.key, ns[s.order[j + 1]].item.val))
  }

  /** Every node in the store has its full array of pointers. */
  ghost predicate Full<V>(ns: Nodes<V>) {
    forall x :: x in ns ==> x != NULL && |ns[x].next| == MAXL + 1
  }

  /** Nodes kept for reuse are in the store and not in the list. */
  ghost predicate Pooled<V>(ns: Nodes<V>, s: Shape, pool: seq<Ptr>) {
    && Distinct(pool) && |pool| <= POOL_SIZE
    && forall j :: 0 <= j < |pool| ==> pool[j] in ns && pool[j] !in s.order
  }

  /** The pointer of level l in node y, once the first `done` levels are linked to `x`. */
  function LinkedTo(y: Ptr, n: seq<Ptr>, path: seq<Ptr>, done: nat, x: Ptr, l: nat): Ptr
    requires l < |n| && l < |path|
  {
    if l < done && path[l] == y then x else n[l]
  }

  /** All nodes but `x` are as before, apart from the levels already linked to it. */
  ghost predicate LinkedUpTo<V>(ns: Nodes<V>, ns': Nodes<V>, path: seq<Ptr>, done: nat, x: Ptr, next: Ptr)
    requires |path| == MAXL + 1 && Full(ns)
  {
    && ns'.Keys == ns.Keys
    && forall y :: y in ns && y != x ==>
      && ns'[y].item == ns[y].item && |ns'[y].next| == MAXL + 1
      && ns'[y].before == (if y == next then x else ns[y].before)
      && forall l :: 0 <= l <= MAXL ==> ns'[y].next[l] == LinkedTo(y, ns[y].next, path, done, x, l)
  }

  /** All nodes but `x` are as before, apart from the levels that already skip it. */
  ghost predicate SkippedUpTo<V>(ns: Nodes<V>, ns': Nodes<V>, path: seq<Ptr>, done: nat, x: Ptr, next: Ptr)
    requires |path| == MAXL + 1 && Full(ns) && x in ns
  {
    && ns'.Keys == ns.Keys && ns'[x] == ns[x]
    && forall y :: y in ns && y != x ==>
      && ns'[y].item == ns[y].item && |ns'[y].next| == MAXL + 1
      && ns'[y].before == (if y == next then path[0] else ns[y].before)
      && forall l :: 0 <= l <= MAXL ==> ns'[y].next[l] == LinkedTo(y, ns[y].next, path, done, ns[x].next[l], l)
  }

  /** Some position separates the keys below `k` from the others. */
  lemma FindBoundary<V>(ns: Nodes<V>, s: Shape, k: int) returns (at: nat)
    requires |s.order| >= 2 && Stored(ns, s) && Sorted(ns, s)
    ensures Boundary(ns, s, at, k)
  {
    at := 1;
    while at < |s.order| - 1 && ns[s.order[at]].item.key < k
      invariant 0 < at < |s.order|
      invariant forall p: nat :: Inner(s, p) && p < at ==> ns[s.order[p]].item.key < k
    {
      assert Inner(s, at);
      at := at + 1;
    }
    forall p: nat | Inner(s, p) && at <= p ensures ns[s.order[p]].item.key >= k {
      assert Inner(s, at);
    }
  }

  /** One more level linked to `x`, whose own node is now `v`. */
  lemma LinkStep<V>(ns: Nodes<V>, ns1: Nodes<V>, path: seq<Ptr>, i: nat, x: Ptr, next: Ptr)
    requires |path| == MAXL + 1 && Full(ns) && i <= MAXL && LinkedUpTo(ns, ns1, path, i, x, next)
    requires path[i] in ns && path[i] != x && x in ns && |ns1[x].next| == MAXL + 1
    ensures path[i] in ns1 && |ns1[path[i]].next| == MAXL + 1 && ns1[path[i]].next[i] == ns[path[i]].next[i]
    ensures var p := path[i];
      var v := ns1[x].(next := ns1[x].next[i := ns1[p].next[i]]);
      LinkedUpTo(ns, ns1[x := v][p := ns1[p].(next := ns1[p].next[i := x])], path, i + 1, x, next)
  {
    var p := path[i];
    assert ns1[p].next[i] == LinkedTo(p, ns[p].next, path, i, x, i);
    var v := ns1[x].(next := ns1[x].next[i := ns1[p].next[i]]);
    var ns2 := ns1[x := v][p := ns1[p].(next := ns1[p].next[i := x])];
    forall y, l | y in ns && y != x && 0 <= l <= MAXL
      ensures |ns2[y].next| == MAXL + 1 && ns2[y].next[l] == LinkedTo(y, ns[y].next, path, i + 1, x, l)
    {
      assert ns1[y].next[l] == LinkedTo(y, ns[y].next, path, i, x, l);
    }
  }

  /** One more level that skips `x`. */
  lemma SkipStep<V>(ns: Nodes<V>, ns1: Nodes<V>, path: seq<Ptr>, i: nat, x: Ptr, next: Ptr)
    requires |path| == MAXL + 1 && Full(ns) && i <= MAXL && x in ns && SkippedUpTo(ns, ns1, path, i, x, next)
    requires path[i] in ns && path[i] != x
    ensures path[i] in ns1 && |ns1[path[i]].next| == MAXL + 1 && ns1[path[i]].next[i] == ns[path[i]].next[i]
    ensures var p := path[i];
      SkippedUpTo(ns, ns1[p := ns1[p].(next := ns1[p].next[i := ns1[x].next[i]])], path, i + 1, x, next)
  {
    var p := path[i];
    assert ns1[p].next[i] == LinkedTo(p, ns[p].next, path, i, ns[x].next[i], i);
    var ns2 := ns1[p := ns1[p].(next := ns1[p].next[i := ns1[x].next[i]])];
    forall y, l | y in ns && y != x && 0 <= l <= MAXL
      ensures |ns2[y].next| == MAXL + 1 && ns2[y].next[l] == LinkedTo(y, ns[y].next, path, i + 1, ns[x].next[l], l)
    {
      assert ns1[y].next[l] == LinkedTo(y, ns[y].next, path, i, ns[x].next[l], l);
    }
  }

  lemma LinkStart<V>(ns: Nodes<V>, path: seq<Ptr>, x: Ptr, next: Ptr, v: Node<V>)
    requires |path| == MAXL + 1 && Full(ns) && x in ns && next in ns && next != x
    ensures LinkedUpTo(ns, ns[x := v][next := ns[next].(before := x)], path, 0, x, next)
  {
  }

  lemma SkipStart<V>(ns: Nodes<V>, path: seq<Ptr>, x: Ptr, next: Ptr)
    requires |path| == MAXL + 1 && Full(ns) && x in ns && next in ns && next != x
    ensures SkippedUpTo(ns, ns[next := ns[next].(before := path[0])], path, 0, x, next)
  {
  }

  lemma LinkedFull<V>(ns: Nodes<V>, ns': Nodes<V>, path: seq<Ptr>, done: nat, x: Ptr, next: Ptr)
    requires |path| == MAXL + 1 && Full(ns) && LinkedUpTo(ns, ns', path, done, x, next)
    requires x in ns' ==> |ns'[x].next| == MAXL + 1
    ensures ns'.Keys == ns.Keys && Full(ns')
  {
  }

  lemma SkippedFull<V>(ns: Nodes<V>, ns': Nodes<V>, path: seq<Ptr>, done: nat, x: Ptr, next: Ptr)
    requires |path| == MAXL + 1 && Full(ns) && x in ns && SkippedUpTo(ns, ns', path, done, x, next)
    ensures ns'.Keys == ns.Keys && ns'[x] == ns[x] && Full(ns')
  {
  }

  /** Level 0 leads from each node to the next in order, and `before` leads back. */
  lemma NextInOrder<V>(ns: Nodes<V>, s: Shape, top: nat, c: nat)
    requires Represents(ns, s, top) && c + 1 < |s.order|
    ensures ns[s.order[c]].next[0] == s.order[c + 1] && s.order[c + 1] in ns && ns[s.order[c + 1]].before == s.order[c]
    ensures s.order[c + 1] != s.order[c] && s.order[c + 1] != NULL
    ensures ns[s.order[c + 1]].item.EndMark? <==> c + 1 == |s.order| - 1
    ensures c + 1 < |s.order| - 1 <==> Inner(s, c + 1)
  {
    var q := FollowLink(ns, s, top, 0, c);
    assert s.heights[c + 1] >= 0;
  }

  /** From position c on level i, the pointer leads to the next position on that level. */
  lemma FollowLink<V>(ns: Nodes<V>, s: Shape, top: nat, i: nat, c: nat) returns (q: nat)
    requires Represents(ns, s, top) && i <= MAXL && c + 1 < |s.order| && s.heights[c] >= i
    ensures Adjacent(s.heights, i, c, q) && ns[s.order[c]].next[i] == s.order[q] && s.order[q] in ns
    ensures ns[s.order[q]].item.EndMark? <==> q == |s.order| - 1
  {
    q := NextAt(s.heights, i, c);
    LinkAt(ns, s, i, c, q);
    assert Inner(s, q) || q == |s.order| - 1;
  }

  lemma InsertedBy<V>(ns: Nodes<V>, ns': Nodes<V>, s: Shape, top: nat, at: nat, x: Ptr, h: nat, path: seq<Ptr>)
    requires Represents(ns, s, top) && Full(ns) && h <= MAXL && PathTo(s, path, at, h)
    requires x in ns && x !in s.order && LinkedUpTo(ns, ns', path, h + 1, x, s.order[at])
    requires ns'[x].before == path[0] && |ns'[x].next| == MAXL + 1
    requires forall l :: 0 <= l <= h ==> path[l] in ns && ns'[x].next[l] == ns[path[l]].next[l]
    ensures Inserted(ns, ns', s, at, x, h, path)
  {
    hide Linked, BackLinked, Sorted;
    forall p | 0 <= p < |s.order|
      ensures s.order[p] in ns' && Relinked(s.order[p], ns[s.order[p]], ns'[s.order[p]], path, h, x, p == at, x)
    {
      var y := s.order[p];
      assert y == s.order[at] <==> p == at;
      forall i | 0 <= i <= MAXL ensures ns'[y].next[i] == if i <= h && path[i] == y then x else ns[y].next[i] {
        assert ns'[y].next[i] == LinkedTo(y, ns[y].next, path, h + 1, x, i);
      }
    }
    assert path[0] == s.order[at - 1];
  }

  lemma RemovedBy<V>(ns: Nodes<V>, ns': Nodes<V>, s: Shape, top: nat, at: nat, path: seq<Ptr>)
    requires Represents(ns, s, top) && Full(ns) && Inner(s, at) && PathTo(s, path, at, s.heights[at])
    requires SkippedUpTo(ns, ns', path, s.heights[at] + 1, s.order[at], s.order[at + 1])
    ensures Removed(ns, ns', s, at, path)
  {
    hide Linked, BackLinked, Sorted;
    var x, h := s.order[at], s.heights[at];
    forall p | 0 <= p < |s.order| && p != at
      ensures s.order[p] in ns' && Unlinked(s.order[p], ns[s.order[p]], ns'[s.order[p]], path, h, ns[x], p == at + 1)
    {
      var y := s.order[p];
      assert (y == s.order[at + 1] <==> p == at + 1) && y != x;
      forall i | 0 <= i <= MAXL
        ensures ns'[y].next[i] == if i <= h && path[i] == y then ns[x].next[i] else ns[y].next[i]
      {
        assert ns'[y].next[i] == LinkedTo(y, ns[y].next, path, h + 1, ns[x].next[i], i);
      }
    }
  }

  /** The representation speaks of the listed nodes only. */
  lemma RepresentsFrame<V>(ns: Nodes<V>, ns': Nodes<V>, s: Shape, top: nat)
    requires Represents(ns, s, top)
    requires forall p :: 0 <= p < |s.order| ==> s.order[p] in ns' && ns'[s.order[p]] == ns[s.order[p]]
    ensures Represents(ns', s, top) && Entries(ns', s) == Entries(ns, s)
  {
    assert Stored(ns', s);
    forall i: nat, p: nat, q: nat | i <= MAXL && Adjacent(s.heights, i, p, q)
      ensures ns'[s.order[p]].next[i] == s.order[q]
    {
      LinkAt(ns, s, i, p, q);
    }
    assert Sorted(ns', s);
    forall j | 0 <= j < |s.order| - 2 ensures Entries(ns', s)[j] == Entries(ns, s)[j] {
      assert Inner(s, j + 1);
    }
  }

  lemma InsertEntries<V>(ns: Nodes<V>, ns': Nodes<V>, s: Shape, top: nat, top': nat, at: nat, x: Ptr, h: nat,
      path: seq<Ptr>)
    requires Represents(ns, s, top) && PathTo(s, path, at, h) && h <= MAXL && Inserted(ns, ns', s, at, x, h, path)
    requires Represents(ns', InsertShape(s, at, x, h), top') && ns'[x].item.Item?
    ensures Entries(ns', InsertShape(s, at, x, h)) == Insert(Entries(ns, s), at - 1, (ns'[x].item.key, ns'[x].item.val))
  {
    hide Linked, BackLinked, Sorted, Stored, Relinked;
    var s' := InsertShape(s, at, x, h);
    var e, v := Entries(ns, s), (ns'[x].item.key, ns'[x].item.val);
    forall j | 0 <= j < |s'.order| - 2 ensures Entries(ns', s')[j] == Insert(e, at - 1, v)[j] {
      InsertEntryAt(ns, ns', s, s', at, x, h, path, j);
      InsertIndex(e, at - 1, v, j);
    }
  }

  lemma InsertIndex<T>(s: seq<T>, at: nat, x: T, j: nat)
    requires at <= |s| && j <= |s|
    ensures Insert(s, at, x)[j] == if j < at then s[j] else if j == at then x else s[j - 1]
  {
  }

  lemma InsertEntryAt<V>(ns: Nodes<V>, ns': Nodes<V>, s: Shape, s': Shape, at: nat, x: Ptr, h: nat, path: seq<Ptr>,
      j: nat)
    requires |s.order| == |s.heights| >= 2 && Stored(ns, s) && Sorted(ns, s)
    requires PathTo(s, path, at, h) && h <= MAXL && Inserted(ns, ns', s, at, x, h, path)
    requires s' == InsertShape(s, at, x, h) && Stored(ns', s') && Sorted(ns', s') && j < |s'.order| - 2
    ensures Inner(s', j + 1)
    ensures j + 1 == at ==> Entries(ns', s')[j] == (ns'[x].item.key, ns'[x].item.val)
    ensures j + 1 < at ==> Entries(ns', s')[j] == Entries(ns, s)[j]
    ensures j + 1 > at ==> Entries(ns', s')[j] == Entries(ns, s)[j - 1]
  {
    InsertIndex(s.order, at, x, j + 1);
    if j + 1 < at {
      assert Inner(s, j + 1);
    } else if j + 1 > at {
      assert Inner(s, j);
    }
  }

  lemma RemoveEntries<V>(ns: Nodes<V>, ns': Nodes<V>, s: Shape, top: nat, at: nat, path: seq<Ptr>)
    requires Represents(ns, s, top) && Inner(s, at) && PathTo(s, path, at, s.heights[at])
    requires Removed(ns, ns', s, at, path)
    requires Represents(ns', RemoveShape(s, at), top)
    ensures Entries(ns', RemoveShape(s, at)) == Remove(Entries(ns, s), at - 1)
  {
    hide Linked, BackLinked;
    var s' := RemoveShape(s, at);
    var e' := Remove(Entries(ns, s), at - 1);
    forall j | 0 <= j < |s'.order| - 2 ensures Entries(ns', s')[j] == e'[j] {
      assert Inner(s', j + 1);
      assert s'.order[j + 1] == s.order[Up(at, j + 1)] && Inner(s, Up(at, j + 1));
    }
  }

  lemma FreshPtr<V>(ns: Nodes<V>) returns (x: Ptr)
    ensures x != NULL && x !in ns
  {
    var keys := ns.Keys;
    x := 1;
    while keys != {}
      invariant x > 0 && forall y :: y in ns && y !in keys ==> y < x
      decreases |keys|
    {
      var y :| y in keys;
      keys := keys - {y};
      x := if y >= x then y + 1 else x;
    }
  }

  predicate Below(key: int, k: int, orEqual: bool) { key < k || (orEqual && key == k) }

  class SkipListMap<V> {
    var nodes: Nodes<V>
    var root: Ptr
    var endnode: Ptr
    var curL: nat
    var pool: seq<Ptr>  // NodeAllocator's free nodes
    ghost var shape: Shape

    ghost predicate Valid()
      reads this
    {
      && Represents(nodes, shape, curL)
      && root == shape.order[0] && endnode == shape.order[|shape.order| - 1]
      && Full(nodes) && Pooled(nodes, shape, pool)
    }

    ghost function Contents(): seq<(int, V)>
      requires Valid()
      reads this
    {
      Entries(nodes, shape)
    }

    /** The finite map the list stands for. */
    ghost function Model(): map<int, V>
      requires Valid()
      reads this
    {
      EntriesSorted(nodes, shape, curL);
      AsMap(Contents())
    }

    constructor ()
      ensures Valid() && Contents() == []
    {
      var up, none := seq(MAXL + 1, _ => 2), seq(MAXL + 1, _ => NULL);
      root, endnode, curL, pool := 1, 2, 0, [];
      nodes := map[1 := Node(up, NULL, EndMark), 2 := Node(none, 1, EndMark)];
      shape := Shape([1, 2], [MAXL, MAXL]);
    }

    // ----- NodeAllocator

    /** A node from the pool, stale pointers and all, or a new one. */
    method AllocNode(k: int, v: V) returns (x: Ptr)
      requires Valid()
      modifies this`nodes, this`pool
      ensures Valid() && Contents() == old(Contents())
      ensures x in nodes && x !in shape.order && x !in pool && nodes[x].item == Item(k, v)
    {
      hide Linked, BackLinked, Sorted, Framed, Entries;
      var junk: seq<Ptr>;
      if pool == [] {
        ghost var isNew := FreshPtr(nodes);
        x :| x != NULL && x !in nodes;
        ghost var some := seq(MAXL + 1, _ => NULL);
        assert |some| == MAXL + 1;
        junk :| |junk| == MAXL + 1;
        NotStored(nodes, shape, x);
      } else {
        x := pool[|pool| - 1];
        pool := pool[..|pool| - 1];
        junk := nodes[x].next;
      }
      ghost var ns := nodes;
      nodes := nodes[x := Node(junk[0 := NULL], NULL, Item(k, v))];
      RepresentsFrame(ns, nodes, shape, curL);
    }

    /** A node no longer in the list goes to the pool, or back to the heap when that is full. */
    method PushNode(x: Ptr)
      requires Valid() && x in nodes && x !in shape.order && x !in pool
      modifies this`nodes, this`pool
      ensures Valid() && Contents() == old(Contents())
      ensures forall y :: y in shape.order ==> y in nodes && nodes[y] == old(nodes)[y]
      ensures forall y :: y in old(nodes) && y != x ==> y in nodes && nodes[y] == old(nodes)[y]
      ensures forall y :: y in pool ==> y == x || y in old(pool)
    {
      hide Linked, BackLinked, Sorted, Framed, Entries;
      if |pool| >= POOL_SIZE {
        ghost var ns := nodes;
        nodes := nodes - {x};
        RepresentsFrame(ns, nodes, shape, curL);
      } else {
        pool := pool + [x];
      }
    }

    // ----- searching

    /** The inner search loop: as far as keys below `k` go on level i. */
    method WalkLevel(i: nat, k: int, orEqual: bool, start: Ptr, ghost at: nat, ghost c0: nat)
      returns (cur: Ptr, ghost c: nat)
      requires Valid() && i <= curL && Boundary(nodes, shape, at, if orEqual then k + 1 else k)
      requires c0 < at && start == shape.order[c0] && shape.heights[c0] >= i
      ensures c < |shape.order| && cur == shape.order[c] && Pred(shape.heights, i, at, c)
    {
      hide Linked, BackLinked, Pooled;
      cur, c := start, c0;
      ghost var q: nat := FollowLink(nodes, shape, curL, i, c);
      while !nodes[nodes[cur].next[i]].item.EndMark? && Below(nodes[nodes[cur].next[i]].item.key, k, orEqual)
        invariant c < at && cur == shape.order[c] && shape.heights[c] >= i
        invariant Adjacent(shape.heights, i, c, q) && nodes[cur].next[i] == shape.order[q] && shape.order[q] in nodes
        invariant nodes[shape.order[q]].item.EndMark? <==> q == |shape.order| - 1
        decreases at - c
      {
        assert Inner(shape, q);
        cur, c := nodes[cur].next[i], q;
        q := FollowLink(nodes, shape, curL, i, c);
      }
      assert q < at ==> Inner(shape, q);
    }

    /** The search loop shared by all operations: the path to the first key not below `k`. */
    method Walk(k: int, orEqual: bool) returns (path: seq<Ptr>, cur: Ptr, ghost at: nat)
      requires Valid()
      ensures Boundary(nodes, shape, at, if orEqual then k + 1 else k)
      ensures PathTo(shape, path, at, curL) && cur == path[0] == shape.order[at - 1]
    {
      ghost var limit := if orEqual then k + 1 else k;
      at := FindBoundary(nodes, shape, limit);
      cur := root;
      path := seq(MAXL + 1, _ => NULL);
      ghost var c: nat := 0;
      var i := curL + 1;
      while i > 0
        invariant i <= curL + 1 && |path| == MAXL + 1
        invariant c < at && cur == shape.order[c] && shape.heights[c] + 1 >= i
        invariant forall r :: c < r < at ==> shape.heights[r] < i
        invariant forall l: nat :: i <= l <= curL ==> path[l] == shape.order[PredAt(shape.heights, l, at)]
        invariant i == 0 ==> cur == path[0]
      {
        i := i - 1;
        cur, c := WalkLevel(i, k, orEqual, cur, at, c);
        PredUnique(shape.heights, i, at, c, PredAt(shape.heights, i, at));
        path := path[i := cur];
      }
    }

    /** Links node `x` in behind the nodes of the path, up to level `h`. */
    method LinkIn(x: Ptr, path: seq<Ptr>, h: nat)
      requires x in nodes && Full(nodes) && |path| == MAXL + 1 && h <= MAXL
      requires forall l :: 0 <= l <= h ==> path[l] in nodes && path[l] != x
      requires var next := nodes[path[0]].next[0]; next != NULL && next in nodes && next != x
      modifies this`nodes
      ensures var next := old(nodes)[path[0]].next[0]; LinkedUpTo(old(nodes), nodes, path, h + 1, x, next)
      ensures nodes[x].item == old(nodes)[x].item && nodes[x].before == path[0] && |nodes[x].next| == MAXL + 1
      ensures forall l :: 0 <= l <= h ==> nodes[x].next[l] == old(nodes)[path[l]].next[l]
    {
      hide LinkedUpTo;
      var next := nodes[path[0]].next[0];
      LinkStart(nodes, path, x, next, nodes[x].(before := path[0]));
      nodes := nodes[x := nodes[x].(before := path[0])];
      if next != NULL {
        nodes := nodes[next := nodes[next].(before := x)];
      }
      var i := 0;
      while i <= h
        invariant i <= h + 1 && x in nodes && LinkedUpTo(old(nodes), nodes, path, i, x, next)
        invariant nodes[x].item == old(nodes)[x].item && nodes[x].before == path[0] && |nodes[x].next| == MAXL + 1
        invariant forall l :: 0 <= l < i ==> nodes[x].next[l] == old(nodes)[path[l]].next[l]
      {
        var p := path[i];
        LinkStep(old(nodes), nodes, path, i, x, next);
        nodes := nodes[x := nodes[x].(next := nodes[x].next[i := nodes[p].next[i]])];
        nodes := nodes[p := nodes[p].(next := nodes[p].next[i := x])];
        i := i + 1;
      }
    }

    /** Takes node `x` out of every level on which the path still leads to it. */
    method LinkOut(x: Ptr, path: seq<Ptr>, ghost h: nat)
      requires x in nodes && Full(nodes) && |path| == MAXL + 1 && h <= curL <= MAXL
      requires forall l :: 0 <= l <= curL ==> path[l] in nodes && path[l] != x
      requires forall l :: 0 <= l <= h ==> nodes[path[l]].next[l] == x
      requires h < curL ==> nodes[path[h + 1]].next[h + 1] != x
      requires nodes[x].next[0] in nodes && nodes[x].next[0] != x
      modifies this`nodes
      ensures SkippedUpTo(old(nodes), nodes, path, h + 1, x, old(nodes)[x].next[0])
    {
      hide SkippedUpTo;
      var next := nodes[x].next[0];
      SkipStart(nodes, path, x, next);
      nodes := nodes[next := nodes[next].(before := path[0])];
      var i := 0;
      while i <= curL
        invariant i <= h + 1 && x in nodes && nodes[x] == old(nodes)[x]
        invariant SkippedUpTo(old(nodes), nodes, path, i, x, next)
        decreases curL + 1 - i
      {
        var p := path[i];
        SkipStep(old(nodes), nodes, path, i, x, next);
        if nodes[p].next[i] != x {
          assert i == h + 1;
          break;
        }
        assert i <= h;
        nodes := nodes[p := nodes[p].(next := nodes[p].next[i := nodes[x].next[i]])];
        i := i + 1;
      }
    }

    // ----- insertion

    /** Links the new node `x` in, with some height, unless its key is present. */
    method InsertNode(x: Ptr) returns (it: Ptr, isNew: bool, ghost at: nat)
      requires Valid() && x in nodes && x !in shape.order && x !in pool && nodes[x].item.Item?
      modifies this`nodes, this`curL, this`shape
      ensures Valid() && 0 < at < |shape.order| - 1 && it == shape.order[at]
      ensures nodes[it].item.Item? && nodes[it].item.key == old(nodes)[x].item.key
      ensures !isNew ==> nodes == old(nodes) && shape == old(shape)
      ensures isNew ==> it == x && at <= |old(shape).order| - 1 && shape.order == Insert(old(shape).order, at, x)
      ensures isNew ==> nodes[x].item == old(nodes)[x].item
      ensures isNew ==> Contents() == Insert(old(Contents()), at - 1, (nodes[x].item.key, nodes[x].item.val))
      ensures isNew ==> SplitsAt(old(Contents()), at - 1, nodes[x].item.key)
      ensures isNew && at - 1 < |old(Contents())| ==> old(Contents())[at - 1].0 != nodes[x].item.key
    {
      hide Linked, BackLinked, Sorted, Distinct, Pooled, Entries, Inserted, LinkedUpTo, Boundary;
      var k := nodes[x].item.key;
      var path, prev;
      path, prev, at := Walk(k, false);
      NextInOrder(nodes, shape, curL, at - 1);
      var cur := nodes[prev].next[0];
      if !nodes[cur].item.EndMark? && nodes[cur].item.key == k {
        return cur, false, at;
      }
      BoundarySplits(nodes, shape, curL, at, k);
      LastIsEnd(nodes, shape, curL, at);
      LinkNew(x, k, path, at);
      it, isNew := x, true;
    }

    /** The coin tosses give a height; the node is linked in on every level up to it. */
    method LinkNew(x: Ptr, k: int, path0: seq<Ptr>, ghost at: nat)
      requires Valid() && x in nodes && x !in shape.order && x !in pool && nodes[x].item.Item? && nodes[x].item.key == k
      requires 0 < at < |shape.order| && PathTo(shape, path0, at, curL) && Boundary(nodes, shape, at, k)
      requires Inner(shape, at) ==> nodes[shape.order[at]].item.Item? && nodes[shape.order[at]].item.key != k
      modifies this`nodes, this`curL, this`shape
      ensures Valid() && at < |shape.order| - 1 && shape.order == Insert(old(shape).order, at, x)
      ensures x in nodes && nodes[x].item == old(nodes)[x].item
      ensures Contents() == Insert(old(Contents()), at - 1, (nodes[x].item.key, nodes[x].item.val))
    {
      hide Linked, BackLinked, Sorted, Distinct, Pooled, Entries, Inserted, LinkedUpTo, Boundary;
      ghost var ns, s, top := nodes, shape, curL;
      NextInOrder(ns, s, top, at - 1);
      var path := path0;
      var h: nat :| h <= MAXL;
      if h > curL {
        path := RaisePath(path, h, at);
        curL := h;
      }
      PathThere(ns, s, path, at, h, x);
      LinkIn(x, path, h);
      NodeLinked(ns, nodes, s, top, curL, at, x, h, path, k, pool);
      shape := InsertShape(s, at, x, h);
    }

    /** The levels new to the list start at the root. */
    method RaisePath(path0: seq<Ptr>, h: nat, ghost at: nat) returns (path: seq<Ptr>)
      requires Valid() && PathTo(shape, path0, at, curL) && curL < h <= MAXL
      ensures PathTo(shape, path, at, h)
    {
      path := path0;
      var i := curL + 1;
      while i <= h
        invariant curL < i <= h + 1 && PathTo(shape, path, at, i - 1)
      {
        PathAboveTop(shape, at, i, curL);
        path := path[i := root];
        i := i + 1;
      }
    }

    /** Adds the entry (k, v) unless `k` is present; the old value stays then. */
    method Emplace(k: int, v: V) returns (it: Ptr, isNew: bool, ghost at: nat)
      requires Valid()
      modifies this
      ensures Valid() && 0 < at < |shape.order| - 1 && it == shape.order[at]
      ensures Contents()[at - 1].0 == k
      ensures !isNew ==> Contents() == old(Contents())
      ensures isNew ==> SplitsAt(old(Contents()), at - 1, k) && Contents() == Insert(old(Contents()), at - 1, (k, v))
      ensures isNew <==> k !in old(Model())
      ensures Model() == if isNew then old(Model())[k := v] else old(Model())
    {
      hide Represents, Pooled, Full, Entries, Insert, SortedEntries, AsMap;
      ghost var es := Contents();
      EntriesSorted(nodes, shape, curL);
      var x := AllocNode(k, v);
      it, isNew, at := InsertNode(x);
      if !isNew {
        KeyAt(nodes, shape, curL, at);
        KeyIn(es, at - 1, k);
        PushNode(x);
      } else {
        InsertAsMap(es, at - 1, k, v);
        KeyAt(nodes, shape, curL, at);
      }
    }

    // ----- removal

    /** Unlinks the node at position `at`, given the path to it; the node itself stays in the store. */
    method Unlink(x: Ptr, path: seq<Ptr>, ghost at: nat)
      requires Valid() && Inner(shape, at) && x == shape.order[at] && PathTo(shape, path, at, curL)
      modifies this`nodes, this`shape
      ensures Valid() && shape == RemoveShape(old(shape), at) && x in nodes && x !in shape.order && x !in pool
      ensures nodes[x] == old(nodes)[x] && nodes[x].next[0] == shape.order[at]
      ensures Contents() == Remove(old(Contents()), at - 1) && PathTo(shape, path, at, curL)
    {
      hide Linked, BackLinked, Sorted, Pooled, Entries, Removed, SkippedUpTo, Distinct;
      ghost var ns, s := nodes, shape;
      LevelsTo(ns, s, curL, path, at);
      NextInOrder(ns, s, curL, at);
      LinkOut(x, path, s.heights[at]);
      SkippedFull(ns, nodes, path, s.heights[at] + 1, x, s.order[at + 1]);
      RemovedBy(ns, nodes, s, curL, at, path);
      RemoveRepresents(ns, nodes, s, curL, at, path);
      RemoveEntries(ns, nodes, s, curL, at, path);
      PathStays(s, path, at, curL);
      shape := RemoveShape(s, at);
      PoolLess(ns, nodes, s, at, pool);
      RemoveIndex(s.order, at, at);
      // root->next[curL] is never null: this loop of the source has nothing to do
      RootLevel(nodes, shape, curL);
      assert nodes[root].next[curL] != NULL;
    }

    /** Removes the entry with key `k`; returns the node behind it. */
    method EraseKey(k: int) returns (it: Ptr, ok: bool, ghost at: nat)
      requires Valid()
      modifies this
      ensures Valid() && 0 < at < |shape.order| && it == shape.order[at]
      ensures ok ==> at - 1 < |old(Contents())| && old(Contents())[at - 1].0 == k
      ensures ok ==> Contents() == Remove(old(Contents()), at - 1)
      ensures !ok ==> Contents() == old(Contents()) && forall j :: 0 <= j < |Contents()| ==> Contents()[j].0 != k
      ensures ok <==> k in old(Model())
      ensures Model() == old(Model()) - {k}
    {
      ghost var es := Contents();
      EntriesSorted(nodes, shape, curL);
      hide SortedEntries, AsMap, Linked, BackLinked, Sorted, Distinct, Pooled, Entries, Boundary, RemoveShape, Remove;
      var path, prev;
      path, prev, at := Walk(k, false);
      NextInOrder(nodes, shape, curL, at - 1);
      LastIsEnd(nodes, shape, curL, at);
      var cur := nodes[prev].next[0];
      if nodes[cur].item.EndMark? || nodes[cur].item.key != k {
        Absent(nodes, shape, curL, at, k);
        NoKey(es, k);
        return cur, false, at;
      }
      RemoveAsMap(es, at - 1);
      Unlink(cur, path, at);
      it, ok := nodes[cur].next[0], true;
      PushNode(cur);
    }

    /** Removes the entry the iterator points at; returns the node behind it. */
    method EraseIter(n: Ptr, ghost at: nat) returns (it: Ptr)
      requires Valid() && Inner(shape, at) && n == shape.order[at]
      modifies this
      ensures Valid() && shape.order == Remove(old(shape).order, at) && it == shape.order[at]
      ensures at - 1 < |old(Contents())| && Contents() == Remove(old(Contents()), at - 1)
    {
      hide Linked, BackLinked, Pooled, Boundary;
      var path, prev, b := Walk(nodes[n].item.key, false);
      BoundaryOfKey(nodes, shape, curL, at, b);
      NextInOrder(nodes, shape, curL, at - 1);
      var cur := nodes[prev].next[0];
      assert !nodes[cur].item.EndMark? && cur == n;
      Unlink(cur, path, at);
      it := nodes[cur].next[0];
      PushNode(cur);
    }

    /** The loop of the range removal: each node is unlinked, and freed one round later. */
    method EraseFrom(first: Ptr, last: Ptr, path: seq<Ptr>, ghost at: nat, ghost stop: nat) returns (it: Ptr)
      requires Valid() && 0 < at < stop < |shape.order| && first == shape.order[at] && last == shape.order[stop]
      requires PathTo(shape, path, at, curL)
      modifies this
      ensures Valid() && it == last && shape.order == CutOut(old(shape).order, at, stop)
      ensures stop - 1 <= |old(Contents())| && Contents() == CutOut(old(Contents()), at - 1, stop - 1)
    {
      hide Linked, BackLinked, Sorted, Stored, Pooled, Entries, CutOut, Remove;
      var cur, before := first, NULL;
      ghost var done := at;
      ghost var order, es := shape.order, Contents();
      CutOutNone(order, at);
      CutOutNone(es, at - 1);
      while cur != last
        invariant Valid() && at <= done <= stop < |order|
        invariant shape.order == CutOut(order, at, done) && Contents() == CutOut(es, at - 1, done - 1)
        invariant |shape.order| == |order| - (done - at) && cur == shape.order[at]
        invariant PathTo(shape, path, at, curL)
        invariant before == NULL <==> done == at
        invariant before != NULL ==>
          before in nodes && before !in shape.order && before !in pool && |nodes[before].next| > 0 &&
          nodes[before].next[0] == cur
        decreases stop - done
      {
        if before != NULL {
          PushNode(before);
        }
        CutOutIndex(order, at, done, 0);
        assert done < stop;
        Unlink(cur, path, at);
        CutOutStep(order, at, done);
        CutOutStep(es, at - 1, done - 1);
        before, done := cur, done + 1;
        cur := nodes[cur].next[0];
      }
      CutOutIndex(order, at, done, stop - done);
      SamePosition(nodes, shape, curL, at, at + (stop - done));
      it := nodes[before].next[0];
      PushNode(before);
    }

    /** Removes the entries from `first` up to `last`; an empty range only returns the first node. */
    method EraseRange(first: Ptr, last: Ptr, ghost at: nat, ghost stop: nat) returns (it: Ptr)
      requires Valid() && 0 < at <= stop < |shape.order| && first == shape.order[at] && last == shape.order[stop]
      modifies this
      ensures Valid() && stop - 1 <= |old(Contents())|
      ensures Contents() == CutOut(old(Contents()), at - 1, stop - 1)
      ensures shape.order == CutOut(old(shape).order, at, stop)
      ensures it == if at < stop then last else shape.order[1]
    {
      hide Linked, BackLinked, Pooled, Boundary, Sorted, Entries, CutOut;
      if first == last {
        SamePosition(nodes, shape, curL, at, stop);
        NextInOrder(nodes, shape, curL, 0);
        CutOutNone(Contents(), at - 1);
        CutOutNone(shape.order, at);
        return nodes[root].next[0];
      }
      InnerItem(nodes, shape, curL, at);
      var path, prev, b := Walk(nodes[first].item.key, false);
      BoundaryOfKey(nodes, shape, curL, at, b);
      it := EraseFrom(first, last, path, at, stop);
    }

    // ----- lookups and iterators

    /** The first node whose key is not below `k`. */
    method LowerBound(k: int) returns (it: Ptr, ghost at: nat)
      requires Valid()
      ensures 0 < at < |shape.order| && it == shape.order[at] && SplitsAt(Contents(), at - 1, k)
    {
      hide Linked, BackLinked, Pooled;
      var path, prev;
      path, prev, at := Walk(k, false);
      NextInOrder(nodes, shape, curL, at - 1);
      BoundarySplits(nodes, shape, curL, at, k);
      it := nodes[prev].next[0];
    }

    /** The first node whose key is above `k` if some key is not; otherwise the end. */
    method UpperBound(k: int) returns (it: Ptr, ghost at: nat)
      requires Valid()
      ensures 0 < at < |shape.order| && SplitsAt(Contents(), at - 1, k + 1)
      ensures it == if at == 1 then endnode else shape.order[at]
      ensures it == shape.order[at] <==> Contents() == [] || Contents()[0].0 <= k
    {
      hide Linked, BackLinked, Pooled;
      var path, cur;
      path, cur, at := Walk(k, true);
      NextInOrder(nodes, shape, curL, at - 1);
      BoundarySplits(nodes, shape, curL, at, k + 1);
      if at > 1 {
        InnerItem(nodes, shape, curL, at - 1);
      }
      LastIsEnd(nodes, shape, curL, at);
      it := cur;
      if !nodes[cur].item.EndMark? && (nodes[cur].item.key < k || nodes[cur].item.key == k) {
        it := nodes[cur].next[0];
      }
      if nodes[it].item.EndMark? {
        it := endnode;
      }
    }

    /** The node with key `k`, or the end. */
    method Find(k: int) returns (it: Ptr, ghost at: nat)
      requires Valid()
      ensures 0 < at < |shape.order| && it == shape.order[at]
      ensures it == endnode <==> at - 1 == |Contents()|
      ensures at - 1 < |Contents()| ==> Contents()[at - 1].0 == k
      ensures at - 1 == |Contents()| ==> forall j :: 0 <= j < |Contents()| ==> Contents()[j].0 != k
      ensures it != endnode <==> k in Model()
      ensures k in Model() ==> Model()[k] == Contents()[at - 1].1
    {
      AsMapInContents(nodes, shape, curL, k);
      it, at := LowerBound(k);
      LastIsEnd(nodes, shape, curL, at);
      if nodes[it].item.EndMark? || nodes[it].item.key != k {
        it, at := endnode, |shape.order| - 1;
      }
    }

    /** operator++ */
    method Next(n: Ptr, ghost at: nat) returns (it: Ptr)
      requires Valid() && at < |shape.order| && n == shape.order[at]
      ensures it == if at + 1 < |shape.order| then shape.order[at + 1] else n
    {
      if at + 1 < |shape.order| {
        NextInOrder(nodes, shape, curL, at);
      }
      it := if nodes[n].next[0] != NULL then nodes[n].next[0] else n;
    }

    /** operator-- */
    method Prev(n: Ptr, ghost at: nat) returns (it: Ptr)
      requires Valid() && at < |shape.order| && n == shape.order[at]
      ensures it == if at > 0 then shape.order[at - 1] else n
    {
      if at > 0 {
        NextInOrder(nodes, shape, curL, at - 1);
      }
      it := if nodes[n].before != NULL then nodes[n].before else n;
    }

    /** end() of a node: true for both sentinels. */
    method IsEnd(n: Ptr, ghost at: nat) returns (e: bool)
      requires Valid() && at < |shape.order| && n == shape.order[at]
      ensures e <==> at == 0 || at == |shape.order| - 1
    {
      LastIsEnd(nodes, shape, curL, at);
      e := nodes[n].item.EndMark?;
    }

    /** The value an iterator points at. */
    method Get(n: Ptr, ghost at: nat) returns (v: V)
      requires Valid() && Inner(shape, at) && n == shape.order[at]
      ensures at - 1 < |Contents()| && v == Contents()[at - 1].1
    {
      v := nodes[n].item.val;
    }

    /** Overwrites the value an iterator points at. */
    method Put(n: Ptr, v: V, ghost at: nat)
      requires Valid() && Inner(shape, at) && n == shape.order[at]
      modifies this`nodes
      ensures Valid() && at - 1 < |old(Contents())|
      ensures Contents() == old(Contents())[at - 1 := (old(Contents())[at - 1].0, v)]
    {
      ghost var ns := nodes;
      nodes := nodes[n := nodes[n].(item := Item(nodes[n].item.key, v))];
      PutRepresents(ns, nodes, shape, curL, at, v);
    }
  }

  lemma NotStored<V>(ns: Nodes<V>, s: Shape, x: Ptr)
    requires Stored(ns, s) && x !in ns
    ensures x !in s.order
  {
  }

  /** The nodes on a search path are in the store, and a new node is not among them. */
  lemma PathThere<V>(ns: Nodes<V>, s: Shape, path: seq<Ptr>, at: nat, h: nat, x: Ptr)
    requires Stored(ns, s) && PathTo(s, path, at, h) && x !in s.order
    ensures forall l :: 0 <= l <= h ==> path[l] in ns && path[l] != x
  {
  }

  /** A node linked in on the levels up to its height is in the list, once. */
  lemma NodeLinked<V>(ns: Nodes<V>, ns': Nodes<V>, s: Shape, top: nat, top': nat, at: nat, x: Ptr, h: nat,
      path: seq<Ptr>, k: int, pool: seq<Ptr>)
    requires Represents(ns, s, top) && Full(ns) && h <= top' <= MAXL && top <= top' && PathTo(s, path, at, h)
    requires x in ns && x !in s.order && LinkedUpTo(ns, ns', path, h + 1, x, s.order[at])
    requires ns'[x].before == path[0] && |ns'[x].next| == MAXL + 1 && ns'[x].item.Item? && ns'[x].item.key == k
    requires forall l :: 0 <= l <= h ==> path[l] in ns && ns'[x].next[l] == ns[path[l]].next[l]
    requires Boundary(ns, s, at, k) && (Inner(s, at) ==> ns[s.order[at]].item.key != k)
    requires Pooled(ns, s, pool) && x !in pool && at <= |s.heights|
    ensures ns'.Keys == ns.Keys && Full(ns') && Represents(ns', InsertShape(s, at, x, h), top')
    ensures Entries(ns', InsertShape(s, at, x, h)) == Insert(Entries(ns, s), at - 1, (k, ns'[x].item.val))
    ensures Pooled(ns', InsertShape(s, at, x, h), pool)
  {
    hide Linked, BackLinked, Sorted, Distinct, Pooled, Entries, Inserted, LinkedUpTo, Boundary;
    LinkedFull(ns, ns', path, h + 1, x, s.order[at]);
    InsertedBy(ns, ns', s, top, at, x, h, path);
    InsertRepresents(ns, ns', s, top, top', at, x, h, path, k);
    InsertEntries(ns, ns', s, top, top', at, x, h, path);
    PoolKept(ns, ns', s, at, x, h, pool, path);
  }

  lemma PoolKept<V>(ns: Nodes<V>, ns': Nodes<V>, s: Shape, at: nat, x: Ptr, h: nat, pool: seq<Ptr>, path: seq<Ptr>)
    requires Pooled(ns, s, pool) && Full(ns) && x !in pool && at <= |s.order| && at <= |s.heights|
    requires ns'.Keys == ns.Keys
    ensures Pooled(ns', InsertShape(s, at, x, h), pool)
  {
  }

  /** On the levels a node reaches, the path leads to it; above, it does not. */
  lemma LevelsTo<V>(ns: Nodes<V>, s: Shape, top: nat, path: seq<Ptr>, at: nat)
    requires Represents(ns, s, top) && Inner(s, at) && PathTo(s, path, at, top)
    ensures s.heights[at] <= top
    ensures forall l :: 0 <= l <= top ==> path[l] in ns && path[l] != s.order[at]
    ensures forall l :: 0 <= l <= s.heights[at] ==> ns[path[l]].next[l] == s.order[at]
    ensures s.heights[at] < top ==> ns[path[s.heights[at] + 1]].next[s.heights[at] + 1] != s.order[at]
    ensures PathTo(s, path, at, s.heights[at])
  {
    var h := s.heights[at];
    forall l | 0 <= l <= h ensures ns[path[l]].next[l] == s.order[at] {
      LinkAt(ns, s, l, PredAt(s.heights, l, at), at);
    }
    if h < top {
      var c := PredAt(s.heights, h + 1, at);
      var q := FollowLink(ns, s, top, h + 1, c);
      assert q != at;
    }
  }

  lemma PoolLess<V>(ns: Nodes<V>, ns': Nodes<V>, s: Shape, at: nat, pool: seq<Ptr>)
    requires Pooled(ns, s, pool) && at < |s.order| && at < |s.heights| && ns'.Keys == ns.Keys && Distinct(s.order)
    ensures Pooled(ns', RemoveShape(s, at), pool)
    ensures s.order[at] !in pool && s.order[at] !in Remove(s.order, at)
  {
    assert s.order[at] in s.order;
  }

  lemma RemoveIndex<T>(s: seq<T>, at: nat, j: nat)
    requires at < |s| && j < |s| - 1
    ensures Remove(s, at)[j] == s[Up(at, j)]
  {
  }

  lemma RootLevel<V>(ns: Nodes<V>, s: Shape, top: nat)
    requires Represents(ns, s, top)
    ensures ns[s.order[0]].next[top] != NULL
  {
    var q := FollowLink(ns, s, top, top, 0);
  }

  lemma Absent<V>(ns: Nodes<V>, s: Shape, top: nat, at: nat, k: int)
    requires Represents(ns, s, top) && Boundary(ns, s, at, k) && (Inner(s, at) ==> ns[s.order[at]].item.key != k)
    ensures forall j :: 0 <= j < |Entries(ns, s)| ==> Entries(ns, s)[j].0 != k
  {
    forall j | 0 <= j < |Entries(ns, s)| ensures Entries(ns, s)[j].0 != k {
      assert Inner(s, j + 1);
      assert j + 1 > at ==> Inner(s, at);
    }
  }

  /** Searching for the key at position `at` ends right before that position. */
  lemma BoundaryOfKey<V>(ns: Nodes<V>, s: Shape, top: nat, at: nat, b: nat)
    requires Represents(ns, s, top) && Inner(s, at) && ns[s.order[at]].item.Item?
    requires Boundary(ns, s, b, ns[s.order[at]].item.key)
    ensures b == at
  {
    assert b < at ==> Inner(s, b);
  }

  lemma SamePosition<V>(ns: Nodes<V>, s: Shape, top: nat, p: nat, q: nat)
    requires Represents(ns, s, top) && p < |s.order| && q < |s.order| && s.order[p] == s.order[q]
    ensures p == q
  {
  }

  lemma InnerItem<V>(ns: Nodes<V>, s: Shape, top: nat, p: nat)
    requires Represents(ns, s, top) && 0 < p < |s.order| - 1
    ensures Inner(s, p) && ns[s.order[p]].item.Item?
  {
  }

  /** `s` without the elements from `at` up to `done`. */
  function CutOut<T>(s: seq<T>, at: nat, done: nat): seq<T>
    requires at <= done <= |s|
  {
    s[..at] + s[done..]
  }

  lemma CutOutNone<T>(s: seq<T>, at: nat)
    requires at <= |s|
    ensures CutOut(s, at, at) == s
  {
  }

  lemma CutOutStep<T>(s: seq<T>, at: nat, done: nat)
    requires at <= done < |s|
    ensures |CutOut(s, at, done)| > at && Remove(CutOut(s, at, done), at) == CutOut(s, at, done + 1)
    ensures |CutOut(s, at, done + 1)| == |s| - (done + 1 - at)
  {
  }

  lemma CutOutIndex<T>(s: seq<T>, at: nat, done: nat, j: nat)
    requires at <= done && done + j < |s|
    ensures |CutOut(s, at, done)| > at + j && CutOut(s, at, done)[at + j] == s[done + j]
  {
  }

  // ----- sorted entries and the finite map they stand for

  ghost predicate SortedEntries<V>(es: seq<(int, V)>) {
    forall i, j :: 0 <= i < j < |es| ==> es[i].0 < es[j].0
  }

  /** Exactly the entries before index `i` have keys below `k`. */
  ghost predicate SplitsAt<V>(es: seq<(int, V)>, i: nat, k: int) {
    && i <= |es|
    && (forall j :: 0 <= j < i ==> es[j].0 < k)
    && (forall j :: i <= j < |es| ==> es[j].0 >= k)
  }

  ghost function AsMap<V>(es: seq<(int, V)>): map<int, V>
    requires SortedEntries(es)
  {
    map j | 0 <= j < |es| :: es[j].0 := es[j].1
  }

  ghost predicate HasKey<V>(es: seq<(int, V)>, x: int) {
    exists j :: 0 <= j < |es| && es[j].0 == x
  }

  lemma AsMapIn<V>(es: seq<(int, V)>, x: int)
    requires SortedEntries(es)
    ensures x in AsMap(es) <==> HasKey(es, x)
    ensures forall j :: 0 <= j < |es| && es[j].0 == x ==> x in AsMap(es) && AsMap(es)[x] == es[j].1
  {
  }

  lemma InsertSortedEntries<V>(es: seq<(int, V)>, i: nat, k: int, v: V)
    requires SortedEntries(es) && SplitsAt(es, i, k) && (i < |es| ==> es[i].0 != k)
    ensures SortedEntries(Insert(es, i, (k, v))) && !HasKey(es, k)
  {
    var es' := Insert(es, i, (k, v));
    forall p, q | 0 <= p < q < |es'| ensures es'[p].0 < es'[q].0 {
      InsertIndex(es, i, (k, v), p);
      InsertIndex(es, i, (k, v), q);
      assert q > i ==> es[q - 1].0 > k;
    }
  }

  /** Inserting at the split is the map update. */
  lemma InsertAsMap<V>(es: seq<(int, V)>, i: nat, k: int, v: V)
    requires SortedEntries(es) && SplitsAt(es, i, k) && (i < |es| ==> es[i].0 != k)
    ensures SortedEntries(Insert(es, i, (k, v))) && k !in AsMap(es)
    ensures AsMap(Insert(es, i, (k, v))) == AsMap(es)[k := v]
  {
    hide SortedEntries, AsMap, Insert;
    var e, es' := (k, v), Insert(es, i, (k, v));
    InsertSortedEntries(es, i, k, v);
    AsMapIn(es, k);
    forall x ensures x in AsMap(es') <==> x in AsMap(es)[k := v]
             ensures x in AsMap(es') ==> AsMap(es')[x] == AsMap(es)[k := v][x]
    {
      AsMapIn(es, x);
      AsMapIn(es', x);
      InsertFind(es, i, e, x);
    }
  }

  /** Looking a key up after an insertion: at the new place, or where it was. */
  lemma InsertFind<V>(es: seq<(int, V)>, i: nat, e: (int, V), x: int)
    requires i <= |es| && !HasKey(es, e.0)
    ensures HasKey(Insert(es, i, e), x) <==> x == e.0 || HasKey(es, x)
    ensures x == e.0 ==> exists j :: 0 <= j < |Insert(es, i, e)| && Insert(es, i, e)[j] == e
    ensures x != e.0 && HasKey(es, x) ==>
      exists j, j' :: 0 <= j < |es| && 0 <= j' < |Insert(es, i, e)| && es[j].0 == x && Insert(es, i, e)[j'] == es[j]
  {
    var es' := Insert(es, i, e);
    assert es'[i] == e;
    if HasKey(es, x) {
      var j :| 0 <= j < |es| && es[j].0 == x;
      InsertIndex(es, i, e, if j < i then j else j + 1);
      assert es'[if j < i then j else j + 1] == es[j];
    }
    if HasKey(es', x) {
      var j :| 0 <= j < |es'| && es'[j].0 == x;
      InsertIndex(es, i, e, j);
    }
  }

  /** Removing an entry takes its key out of the map. */
  lemma RemoveAsMap<V>(es: seq<(int, V)>, i: nat)
    requires SortedEntries(es) && i < |es|
    ensures SortedEntries(Remove(es, i)) && es[i].0 in AsMap(es)
    ensures AsMap(Remove(es, i)) == AsMap(es) - {es[i].0}
  {
    hide AsMap, SortedEntries;
    var es' := Remove(es, i);
    RemoveSortedEntries(es, i);
    assert Insert(es', i, es[i]) == es;
    InsertAsMap(es', i, es[i].0, es[i].1);
    assert es[i] == (es[i].0, es[i].1);
  }

  lemma RemoveSortedEntries<V>(es: seq<(int, V)>, i: nat)
    requires SortedEntries(es) && i < |es|
    ensures var es' := Remove(es, i);
      SortedEntries(es') && SplitsAt(es', i, es[i].0) && (i < |es'| ==> es'[i].0 != es[i].0)
  {
    var es' := Remove(es, i);
    forall j | 0 <= j < |es'| ensures es'[j] == es[Up(i, j)] {
      RemoveIndex(es, i, j);
    }
  }

  /** The map determines the sorted entries: iteration order is fixed by the contents. */
  lemma {:induction false} AsMapInjective<V>(a: seq<(int, V)>, b: seq<(int, V)>)
    requires SortedEntries(a) && SortedEntries(b) && AsMap(a) == AsMap(b)
    ensures a == b
  {
    hide AsMap, SortedEntries;
    var n := 0;
    while n < |a| && n < |b|
      invariant n <= |a| && n <= |b| && forall i :: 0 <= i < n ==> a[i] == b[i]
    {
      SameHead(a, b, n);
      SameHead(b, a, n);
      AsMapIn(a, a[n].0);
      AsMapIn(b, a[n].0);
      assert a[n] == (a[n].0, a[n].1) && b[n] == (b[n].0, b[n].1);
      n := n + 1;
    }
    if n < |a| {
      SameHead(a, b, n);
    }
    if n < |b| {
      SameHead(b, a, n);
    }
  }

  lemma SameHead<V>(a: seq<(int, V)>, b: seq<(int, V)>, n: nat)
    requires SortedEntries(a) && SortedEntries(b) && AsMap(a) == AsMap(b) && n < |a| && n <= |b|
    requires forall i :: 0 <= i < n ==> a[i] == b[i]
    ensures n < |b| && b[n].0 <= a[n].0
  {
    AsMapIn(a, a[n].0);
    AsMapIn(b, a[n].0);
    var j :| 0 <= j < |b| && b[j].0 == a[n].0;
    assert j >= n;
  }

  lemma EntriesSorted<V>(ns: Nodes<V>, s: Shape, top: nat)
    requires Represents(ns, s, top)
    ensures SortedEntries(Entries(ns, s))
  {
    var es := Entries(ns, s);
    forall i, j | 0 <= i < j < |es| ensures es[i].0 < es[j].0 {
      assert Inner(s, i + 1) && Inner(s, j + 1);
    }
  }

  lemma BoundarySplits<V>(ns: Nodes<V>, s: Shape, top: nat, at: nat, k: int)
    requires Represents(ns, s, top) && Boundary(ns, s, at, k)
    ensures SplitsAt(Entries(ns, s), at - 1, k)
  {
    var es := Entries(ns, s);
    forall j | 0 <= j < |es| ensures if j < at - 1 then es[j].0 < k else es[j].0 >= k {
      assert Inner(s, j + 1);
    }
  }

  lemma LastIsEnd<V>(ns: Nodes<V>, s: Shape, top: nat, at: nat)
    requires Represents(ns, s, top) && at < |s.order|
    ensures ns[s.order[at]].item.EndMark? <==> at == 0 || at == |s.order| - 1
    ensures s.order[at] == s.order[|s.order| - 1] <==> at == |s.order| - 1
    ensures 0 < at < |s.order| - 1 ==>
      ns[s.order[at]].item.Item? && Entries(ns, s)[at - 1] == (ns[s.order[at]].item.key, ns[s.order[at]].item.val)
  {
    assert 0 < at < |s.order| - 1 ==> Inner(s, at);
  }

  lemma PutRepresents<V>(ns: Nodes<V>, ns': Nodes<V>, s: Shape, top: nat, at: nat, v: V)
    requires Represents(ns, s, top) && Inner(s, at) && ns[s.order[at]].item.Item?
    requires ns' == ns[s.order[at] := ns[s.order[at]].(item := Item(ns[s.order[at]].item.key, v))]
    ensures Represents(ns', s, top)
    ensures Entries(ns', s) == Entries(ns, s)[at - 1 := (Entries(ns, s)[at - 1].0, v)]
  {
    forall p | 0 <= p < |s.order|
      ensures s.order[p] in ns' && ns'[s.order[p]].next == ns[s.order[p]].next
      ensures ns'[s.order[p]].before == ns[s.order[p]].before
      ensures p != at ==> ns'[s.order[p]] == ns[s.order[p]]
    {
    }
    assert Stored(ns', s);
    forall i: nat, p: nat, q: nat | i <= MAXL && Adjacent(s.heights, i, p, q)
      ensures ns'[s.order[p]].next[i] == s.order[q]
    {
      LinkAt(ns, s, i, p, q);
    }
    assert Sorted(ns', s);
    var es, es' := Entries(ns, s), Entries(ns', s);
    forall j | 0 <= j < |es| ensures es'[j] == es[at - 1 := (es[at - 1].0, v)][j] {
      assert Inner(s, j + 1);
    }
  }

  lemma KeyAt<V>(ns: Nodes<V>, s: Shape, top: nat, at: nat)
    requires Represents(ns, s, top) && 0 < at < |s.order| - 1 && ns[s.order[at]].item.Item?
    ensures at - 1 < |Entries(ns, s)| && Entries(ns, s)[at - 1].0 == ns[s.order[at]].item.key
  {
    assert Inner(s, at);
  }

  lemma KeyIn<V>(es: seq<(int, V)>, i: nat, k: int)
    requires SortedEntries(es) && i < |es| && es[i].0 == k
    ensures k in AsMap(es)
  {
  }

  lemma NoKey<V>(es: seq<(int, V)>, k: int)
    requires SortedEntries(es) && forall j :: 0 <= j < |es| ==> es[j].0 != k
    ensures k !in AsMap(es) && AsMap(es) - {k} == AsMap(es)
  {
  }

  lemma AsMapInContents<V>(ns: Nodes<V>, s: Shape, top: nat, k: int)
    requires Represents(ns, s, top)
    ensures SortedEntries(Entries(ns, s)) && (k in AsMap(Entries(ns, s)) <==> HasKey(Entries(ns, s), k))
    ensures forall j :: 0 <= j < |Entries(ns, s)| && Entries(ns, s)[j].0 == k ==>
      k in AsMap(Entries(ns, s)) && AsMap(Entries(ns, s))[k] == Entries(ns, s)[j].1
  {
    EntriesSorted(ns, s, top);
    AsMapIn(Entries(ns, s), k);
  }
}
