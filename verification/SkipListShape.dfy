/**
 The shape of a skip list: which nodes stand in which order, how tall each is,
 and which pointer leads where.  Nodes live in a store keyed by address, so a
 pointer to a freed node has nothing behind it.
 */
module SkipListShape {
  type Ptr = nat

  const NULL: Ptr := 0
  const MAXL: nat := 31

  /** A node's payload: the two sentinels carry none. */
  datatype Item<V> = EndMark | Item(key: int, val: V)

  datatype Node<V> = Node(next: seq<Ptr>, before: Ptr, item: Item<V>)

  type Nodes<V> = map<Ptr, Node<V>>

  /** Nodes in list order, root first and end node last, with their heights. */
  datatype Shape = Shape(order: seq<Ptr>, heights: seq<nat>)

  // ----- heights: who is whose neighbour on a level

  /** p and q reach level i and nothing between them does. */
  ghost predicate Adjacent(hs: seq<nat>, i: nat, p: nat, q: nat) {
    && p < q < |hs| && hs[p] >= i && hs[q] >= i
    && forall r :: p < r < q ==> hs[r] < i
  }

  /** p is the last position before `at` that reaches level i. */
  ghost predicate Pred(hs: seq<nat>, i: nat, at: nat, p: nat) {
    && p < at <= |hs| && hs[p] >= i
    && forall r :: p < r < at ==> hs[r] < i
  }

  /** The next position on level i; the last position reaches every level. */
  ghost function NextAt(hs: seq<nat>, i: nat, p: nat): (q: nat)
    requires p + 1 < |hs| && hs[|hs| - 1] >= i
    ensures p < q < |hs| && hs[q] >= i && forall r :: p < r < q ==> hs[r] < i
    decreases |hs| - p
  {
    if hs[p + 1] >= i then p + 1 else NextAt(hs, i, p + 1)
  }

  lemma PredUnique(hs: seq<nat>, i: nat, at: nat, p: nat, q: nat)
    requires Pred(hs, i, at, p) && Pred(hs, i, at, q)
    ensures p == q
  {
  }

  function Insert<T>(s: seq<T>, at: nat, x: T): seq<T>
    requires at <= |s|
  {
    s[..at] + [x] + s[at..]
  }

  function Remove<T>(s: seq<T>, at: nat): seq<T>
    requires at < |s|
  {
    s[..at] + s[at + 1..]
  }

  /** Where position p of the longer sequence was before the insertion at `at`. */
  function Down(at: nat, p: nat): nat { if p > at then p - 1 else p }

  /** Where position p of the shorter sequence was before the removal at `at`. */
  function Up(at: nat, p: nat): nat { if p < at then p else p + 1 }

  lemma InsertAdjacent(hs: seq<nat>, at: nat, h: nat, i: nat, p: nat, q: nat)
    requires 0 < at < |hs| && Adjacent(Insert(hs, at, h), i, p, q)
    ensures p < q <= |hs|
    ensures q == at ==> h >= i && Pred(hs, i, at, p)
    ensures p == at ==> h >= i && forall o: nat :: Pred(hs, i, at, o) ==> Adjacent(hs, i, o, q - 1)
    ensures p != at && q != at ==> Adjacent(hs, i, Down(at, p), Down(at, q)) && (p < at < q ==> h < i)
  {
    var t := Insert(hs, at, h);
    assert t[at] == h;
    forall r | 0 <= r < |hs| ensures hs[r] == t[if r < at then r else r + 1] {}
    if p == at {
      forall o: nat | Pred(hs, i, at, o) ensures Adjacent(hs, i, o, q - 1) {
        forall r | o < r < q - 1 ensures hs[r] < i {
          assert r >= at ==> t[r + 1] < i;
        }
      }
    } else if q != at {
      forall r | Down(at, p) < r < Down(at, q) ensures hs[r] < i {
        assert t[if r < at then r else r + 1] < i;
      }
    }
  }

  lemma RemoveAdjacent(hs: seq<nat>, at: nat, i: nat, p: nat, q: nat)
    requires at < |hs| && Adjacent(Remove(hs, at), i, p, q)
    ensures p < q < |hs| - 1
    ensures var p', q' := Up(at, p), Up(at, q);
      if p' < at < q' && hs[at] >= i
      then Adjacent(hs, i, p', at) && Adjacent(hs, i, at, q')
      else Adjacent(hs, i, p', q')
  {
    var t := Remove(hs, at);
    var p', q' := Up(at, p), Up(at, q);
    forall r | 0 <= r < |hs| && r != at ensures hs[r] == t[if r < at then r else r - 1] {}
    forall r | p' < r < q' && r != at ensures hs[r] < i {
      assert t[if r < at then r else r - 1] < i;
    }
  }

  // ----- the representation

  ghost predicate Distinct<T>(s: seq<T>) {
    forall i, j :: 0 <= i < j < |s| ==> s[i] != s[j]
  }

  /** Two sentinels of full height around nodes no taller than `top`. */
  ghost predicate Framed(s: Shape, top: nat) {
    && |s.order| == |s.heights| >= 2 && top <= MAXL
    && s.heights[0] == MAXL == s.heights[|s.heights| - 1]
    && forall p :: 0 < p < |s.order| - 1 ==> s.heights[p] <= top
  }

  ghost predicate Stored<V>(ns: Nodes<V>, s: Shape) {
    && Distinct(s.order)
    && forall p :: 0 <= p < |s.order| ==> s.order[p] in ns && s.order[p] != NULL && |ns[s.order[p]].next| == MAXL + 1
  }

  /** Level i is exactly the subsequence of nodes of height i or more. */
  ghost predicate Linked<V>(ns: Nodes<V>, s: Shape)
    requires |s.order| == |s.heights| && Stored(ns, s)
  {
    forall i: nat, p: nat, q: nat :: i <= MAXL && Adjacent(s.heights, i, p, q) ==> ns[s.order[p]].next[i] == s.order[q]
  }

  /** `before` is the inverse of the level-0 pointer. */
  ghost predicate BackLinked<V>(ns: Nodes<V>, s: Shape)
    requires Stored(ns, s)
  {
    && (forall p :: 0 < p < |s.order| ==> ns[s.order[p]].before == s.order[p - 1])
    && (|s.order| > 0 ==> ns[s.order[0]].before == NULL && ns[s.order[|s.order| - 1]].next[0] == NULL)
  }

  ghost predicate Inner(s: Shape, p: nat) { 0 < p < |s.order| - 1 }

  /** Sentinels carry no item; inner keys strictly increase. */
  ghost predicate Sorted<V>(ns: Nodes<V>, s: Shape)
    requires |s.order| >= 2 && Stored(ns, s)
  {
    && ns[s.order[0]].item.EndMark? && ns[s.order[|s.order| - 1]].item.EndMark?
    && (forall p: nat :: Inner(s, p) ==> ns[s.order[p]].item.Item?)
    && (forall p: nat, q: nat ::
      Inner(s, p) && Inner(s, q) && p < q ==> ns[s.order[p]].item.key < ns[s.order[q]].item.key)
  }

  ghost predicate Represents<V>(ns: Nodes<V>, s: Shape, top: nat) {
    && Framed(s, top) && Stored(ns, s) && Linked(ns, s) && BackLinked(ns, s) && Sorted(ns, s)
  }

  // ----- search paths

  /** The last position before `at` that reaches level i; the root reaches every level. */
  ghost function PredAt(hs: seq<nat>, i: nat, at: nat): (p: nat)
    requires 0 < at <= |hs| && hs[0] >= i
    ensures Pred(hs, i, at, p)
    decreases at
  {
    if hs[at - 1] >= i then at - 1 else PredAt(hs, i, at - 1)
  }

  /** `path` holds, for each level up to `top`, the node after which position `at` is reached. */
  ghost predicate PathTo(s: Shape, path: seq<Ptr>, at: nat, top: nat) {
    && |s.order| == |s.heights| && |path| == MAXL + 1 && top <= MAXL
    && 0 < at < |s.order| && s.heights[0] == MAXL
    && forall i: nat :: i <= top ==> path[i] == s.order[PredAt(s.heights, i, at)]
  }

  /** Above every inner node the path is the root. */
  lemma PathAboveTop(s: Shape, at: nat, i: nat, top: nat)
    requires Framed(s, top) && 0 < at < |s.order| && top < i <= MAXL
    ensures PredAt(s.heights, i, at) == 0
  {
  }

  // ----- insertion

  function InsertShape(s: Shape, at: nat, x: Ptr, h: nat): Shape
    requires at <= |s.order| && at <= |s.heights|
  {
    Shape(Insert(s.order, at, x), Insert(s.heights, at, h))
  }

  /** An old node after the insertion: relinked to `x` where the path says so. */
  ghost predicate Relinked<V>(o: Ptr, n: Node<V>, n': Node<V>, path: seq<Ptr>, h: nat, x: Ptr, isNext: bool, pred: Ptr)
    requires |path| == MAXL + 1 && |n.next| == MAXL + 1 && h <= MAXL
  {
    && n'.item == n.item && |n'.next| == MAXL + 1
    && n'.before == (if isNext then pred else n.before)
    && forall i :: 0 <= i <= MAXL ==> n'.next[i] == if i <= h && path[i] == o then x else n.next[i]
  }

  ghost predicate Inserted<V>(ns: Nodes<V>, ns': Nodes<V>, s: Shape, at: nat, x: Ptr, h: nat, path: seq<Ptr>)
    requires Stored(ns, s) && PathTo(s, path, at, h) && h <= MAXL
  {
    && x in ns' && x != NULL && x !in s.order && |ns'[x].next| == MAXL + 1 && ns'[x].before == s.order[at - 1]
    && (forall i: nat ::
      i <= h ==> path[i] in ns && |ns[path[i]].next| == MAXL + 1 && ns'[x].next[i] == ns[path[i]].next[i])
    && forall p :: 0 <= p < |s.order| ==>
      s.order[p] in ns' && Relinked(s.order[p], ns[s.order[p]], ns'[s.order[p]], path, h, x, p == at, x)
  }

  lemma InsertStored<V>(ns: Nodes<V>, ns': Nodes<V>, s: Shape, at: nat, x: Ptr, h: nat, path: seq<Ptr>)
    requires Stored(ns, s) && PathTo(s, path, at, h) && h <= MAXL && Inserted(ns, ns', s, at, x, h, path)
    ensures Stored(ns', InsertShape(s, at, x, h))
  {
    var o := Insert(s.order, at, x);
    forall i, j | 0 <= i < j < |o| ensures o[i] != o[j] {
      assert forall p :: 0 <= p < |o| && p != at ==> o[p] == s.order[Down(at, p)];
    }
    forall p | 0 <= p < |o| ensures o[p] in ns' && o[p] != NULL && |ns'[o[p]].next| == MAXL + 1 {
      assert p != at ==> o[p] == s.order[Down(at, p)];
    }
  }

  lemma InsertLinked<V>(ns: Nodes<V>, ns': Nodes<V>, s: Shape, at: nat, x: Ptr, h: nat, path: seq<Ptr>)
    requires Stored(ns, s) && |s.order| == |s.heights| && Linked(ns, s)
    requires h <= MAXL && PathTo(s, path, at, h) && Inserted(ns, ns', s, at, x, h, path)
    requires Stored(ns', InsertShape(s, at, x, h))
    ensures Linked(ns', InsertShape(s, at, x, h))
  {
    var s' := InsertShape(s, at, x, h);
    forall i: nat, p: nat, q: nat | i <= MAXL && Adjacent(s'.heights, i, p, q)
      ensures ns'[s'.order[p]].next[i] == s'.order[q]
    {
      InsertLink(ns, ns', s, at, x, h, path, i, p, q);
    }
  }

  lemma InsertLink<V>(ns: Nodes<V>, ns': Nodes<V>, s: Shape, at: nat, x: Ptr, h: nat, path: seq<Ptr>, i: nat, p: nat,
      q: nat)
    requires Stored(ns, s) && |s.order| == |s.heights| && Linked(ns, s)
    requires h <= MAXL && PathTo(s, path, at, h) && Inserted(ns, ns', s, at, x, h, path)
    requires Stored(ns', InsertShape(s, at, x, h))
    requires i <= MAXL && Adjacent(Insert(s.heights, at, h), i, p, q)
    ensures ns'[Insert(s.order, at, x)[p]].next[i] == Insert(s.order, at, x)[q]
  {
    hide Linked, Distinct, Adjacent, Pred;
    InsertAdjacent(s.heights, at, h, i, p, q);
    var o := Insert(s.order, at, x);
    if p == at {
      var c := PredAt(s.heights, i, at);
      LinkAt(ns, s, i, c, q - 1);
      assert o[p] == x && o[q] == s.order[q - 1];
    } else if q == at {
      PredUnique(s.heights, i, at, p, PredAt(s.heights, i, at));
      assert o[p] == s.order[p] && o[q] == x;
    } else {
      var p0, q0 := Down(at, p), Down(at, q);
      LinkAt(ns, s, i, p0, q0);
      assert o[p] == s.order[p0] && o[q] == s.order[q0];
      if i <= h {
        NotOnPath(s, path, at, h, i, p0, q0);
      }
    }
  }

  lemma LinkAt<V>(ns: Nodes<V>, s: Shape, i: nat, p: nat, q: nat)
    requires |s.order| == |s.heights| && Stored(ns, s) && Linked(ns, s) && i <= MAXL && Adjacent(s.heights, i, p, q)
    ensures p < q < |s.order| && ns[s.order[p]].next[i] == s.order[q]
  {
  }

  /** A link that does not cross position `at` does not start on the path to it. */
  lemma NotOnPath(s: Shape, path: seq<Ptr>, at: nat, h: nat, i: nat, p: nat, q: nat)
    requires PathTo(s, path, at, h) && Distinct(s.order) && i <= h && Adjacent(s.heights, i, p, q) && !(p < at <= q)
    ensures path[i] != s.order[p]
  {
    var c := PredAt(s.heights, i, at);
    assert p != c;
  }

  lemma InsertBack<V>(ns: Nodes<V>, ns': Nodes<V>, s: Shape, at: nat, x: Ptr, h: nat, path: seq<Ptr>)
    requires Stored(ns, s) && PathTo(s, path, at, h) && h <= MAXL && Inserted(ns, ns', s, at, x, h, path)
    requires Stored(ns', InsertShape(s, at, x, h)) && BackLinked(ns, s)
    ensures BackLinked(ns', InsertShape(s, at, x, h))
  {
    var o := Insert(s.order, at, x);
    forall p | 0 < p < |o| ensures ns'[o[p]].before == o[p - 1] {
      assert p != at ==> o[p] == s.order[Down(at, p)];
      assert p - 1 != at ==> o[p - 1] == s.order[Down(at, p - 1)];
    }
    var e := |s.order| - 1;
    assert o[|o| - 1] == s.order[e] && o[0] == s.order[0];
    PathNotEnd(s, path, at, h);
  }

  lemma PathNotEnd(s: Shape, path: seq<Ptr>, at: nat, h: nat)
    requires PathTo(s, path, at, h) && Distinct(s.order)
    ensures forall i: nat :: i <= h ==> path[i] != s.order[|s.order| - 1]
  {
  }

  /** `at` separates the keys below `k` from the others. */
  ghost predicate Boundary<V>(ns: Nodes<V>, s: Shape, at: nat, k: int)
    requires |s.order| >= 2 && Stored(ns, s) && Sorted(ns, s)
  {
    && 0 < at < |s.order|
    && (forall p: nat :: Inner(s, p) && p < at ==> ns[s.order[p]].item.key < k)
    && (forall p: nat :: Inner(s, p) && at <= p ==> ns[s.order[p]].item.key >= k)
  }

  lemma InsertSorted<V>(ns: Nodes<V>, ns': Nodes<V>, s: Shape, at: nat, x: Ptr, h: nat, path: seq<Ptr>, k: int)
    requires Stored(ns, s) && PathTo(s, path, at, h) && h <= MAXL && Inserted(ns, ns', s, at, x, h, path)
    requires Stored(ns', InsertShape(s, at, x, h)) && |s.order| >= 2 && Sorted(ns, s)
    requires Boundary(ns, s, at, k) && ns'[x].item.Item? && ns'[x].item.key == k
    requires Inner(s, at) ==> ns[s.order[at]].item.key != k
    ensures Sorted(ns', InsertShape(s, at, x, h))
  {
    var s' := InsertShape(s, at, x, h);
    forall p: nat | Inner(s', p) ensures ns'[s'.order[p]].item.Item? {
      assert p != at ==> s'.order[p] == s.order[Down(at, p)] && Inner(s, Down(at, p));
    }
    forall p: nat, q: nat | Inner(s', p) && Inner(s', q) && p < q
      ensures ns'[s'.order[p]].item.key < ns'[s'.order[q]].item.key
    {
      assert p != at ==> s'.order[p] == s.order[Down(at, p)] && Inner(s, Down(at, p));
      assert q != at ==> s'.order[q] == s.order[Down(at, q)] && Inner(s, Down(at, q));
      if p == at {
        assert ns[s.order[q - 1]].item.key > k by {
          assert q - 1 > at ==> Inner(s, at);
        }
      }
    }
    assert s'.order[0] == s.order[0] && s'.order[|s'.order| - 1] == s.order[|s.order| - 1];
  }

  /** Linking a node in along the search path keeps the whole representation. */
  lemma InsertRepresents<V>(ns: Nodes<V>, ns': Nodes<V>, s: Shape, top: nat, top': nat, at: nat, x: Ptr, h: nat,
      path: seq<Ptr>, k: int)
    requires Represents(ns, s, top) && h <= top' <= MAXL && top <= top'
    requires PathTo(s, path, at, h) && Inserted(ns, ns', s, at, x, h, path)
    requires Boundary(ns, s, at, k) && ns'[x].item.Item? && ns'[x].item.key == k
    requires Inner(s, at) ==> ns[s.order[at]].item.key != k
    ensures Represents(ns', InsertShape(s, at, x, h), top')
  {
    hide Stored, Linked, BackLinked, Sorted, Inserted, Boundary;
    InsertStored(ns, ns', s, at, x, h, path);
    InsertLinked(ns, ns', s, at, x, h, path);
    InsertBack(ns, ns', s, at, x, h, path);
    InsertSorted(ns, ns', s, at, x, h, path, k);
    InsertFramed(s, top, top', at, x, h);
  }

  lemma InsertFramed(s: Shape, top: nat, top': nat, at: nat, x: Ptr, h: nat)
    requires Framed(s, top) && 0 < at < |s.order| && h <= top' <= MAXL && top <= top'
    ensures Framed(InsertShape(s, at, x, h), top')
  {
  }

  // ----- removal

  function RemoveShape(s: Shape, at: nat): Shape
    requires at < |s.order| && at < |s.heights|
  {
    Shape(Remove(s.order, at), Remove(s.heights, at))
  }

  /** An old node after the removal of `gone`: its links to it now skip it. */
  ghost predicate Unlinked<V>(o: Ptr, n: Node<V>, n': Node<V>, path: seq<Ptr>, h: nat, gone: Node<V>, isNext: bool)
    requires |path| == MAXL + 1 && |n.next| == MAXL + 1 == |gone.next| && h <= MAXL
  {
    && n'.item == n.item && |n'.next| == MAXL + 1
    && n'.before == (if isNext then path[0] else n.before)
    && forall i :: 0 <= i <= MAXL ==> n'.next[i] == if i <= h && path[i] == o then gone.next[i] else n.next[i]
  }

  ghost predicate Removed<V>(ns: Nodes<V>, ns': Nodes<V>, s: Shape, at: nat, path: seq<Ptr>)
    requires Stored(ns, s) && PathTo(s, path, at, 0) && s.heights[at] <= MAXL
  {
    forall p :: 0 <= p < |s.order| && p != at ==>
      && s.order[p] in ns'
      && Unlinked(s.order[p], ns[s.order[p]], ns'[s.order[p]], path, s.heights[at], ns[s.order[at]], p == at + 1)
  }

  lemma RemoveStored<V>(ns: Nodes<V>, ns': Nodes<V>, s: Shape, at: nat, path: seq<Ptr>)
    requires Stored(ns, s) && PathTo(s, path, at, 0) && s.heights[at] <= MAXL && Removed(ns, ns', s, at, path)
    ensures Stored(ns', RemoveShape(s, at))
  {
    var o := Remove(s.order, at);
    forall p | 0 <= p < |o| ensures o[p] in ns' && o[p] != NULL && |ns'[o[p]].next| == MAXL + 1 {
      assert o[p] == s.order[Up(at, p)];
    }
    forall i, j | 0 <= i < j < |o| ensures o[i] != o[j] {
      assert o[i] == s.order[Up(at, i)] && o[j] == s.order[Up(at, j)];
    }
  }

  lemma RemoveLinked<V>(ns: Nodes<V>, ns': Nodes<V>, s: Shape, at: nat, path: seq<Ptr>)
    requires Stored(ns, s) && |s.order| == |s.heights| && Linked(ns, s)
    requires 0 < at < |s.order| && s.heights[at] <= MAXL && PathTo(s, path, at, s.heights[at])
    requires Removed(ns, ns', s, at, path)
    requires Stored(ns', RemoveShape(s, at))
    ensures Linked(ns', RemoveShape(s, at))
  {
    var s' := RemoveShape(s, at);
    forall i: nat, p: nat, q: nat | i <= MAXL && Adjacent(s'.heights, i, p, q)
      ensures ns'[s'.order[p]].next[i] == s'.order[q]
    {
      RemoveLink(ns, ns', s, at, path, i, p, q);
    }
  }

  lemma RemoveLink<V>(ns: Nodes<V>, ns': Nodes<V>, s: Shape, at: nat, path: seq<Ptr>, i: nat, p: nat, q: nat)
    requires Stored(ns, s) && |s.order| == |s.heights| && Linked(ns, s)
    requires 0 < at < |s.order| && s.heights[at] <= MAXL && PathTo(s, path, at, s.heights[at])
    requires Removed(ns, ns', s, at, path)
    requires Stored(ns', RemoveShape(s, at))
    requires i <= MAXL && Adjacent(Remove(s.heights, at), i, p, q)
    ensures ns'[Remove(s.order, at)[p]].next[i] == Remove(s.order, at)[q]
  {
    hide Linked, Distinct, Adjacent, Pred;
    RemoveAdjacent(s.heights, at, i, p, q);
    var o, p', q' := Remove(s.order, at), Up(at, p), Up(at, q);
    assert o[p] == s.order[p'] && o[q] == s.order[q'];
    if p' < at < q' && s.heights[at] >= i {
      LinkAt(ns, s, i, at, q');
      OnPath(s, path, at, s.heights[at], i, p');
    } else {
      LinkAt(ns, s, i, p', q');
      if i <= s.heights[at] {
        NotOnPath(s, path, at, s.heights[at], i, p', q');
      }
    }
  }

  lemma OnPath(s: Shape, path: seq<Ptr>, at: nat, h: nat, i: nat, p: nat)
    requires PathTo(s, path, at, h) && i <= h && Adjacent(s.heights, i, p, at)
    ensures path[i] == s.order[p]
  {
    PredUnique(s.heights, i, at, p, PredAt(s.heights, i, at));
  }

  lemma RemoveBack<V>(ns: Nodes<V>, ns': Nodes<V>, s: Shape, at: nat, path: seq<Ptr>)
    requires Stored(ns, s) && BackLinked(ns, s) && Inner(s, at) && |s.order| == |s.heights|
    requires s.heights[at] <= MAXL && PathTo(s, path, at, s.heights[at]) && Removed(ns, ns', s, at, path)
    requires Stored(ns', RemoveShape(s, at))
    ensures BackLinked(ns', RemoveShape(s, at))
  {
    var o := Remove(s.order, at);
    assert path[0] == s.order[at - 1];
    forall p | 0 < p < |o| ensures ns'[o[p]].before == o[p - 1] {
      assert o[p] == s.order[Up(at, p)] && o[p - 1] == s.order[Up(at, p - 1)];
    }
    assert o[|o| - 1] == s.order[|s.order| - 1] && o[0] == s.order[0];
    PathNotEnd(s, path, at, 0);
  }

  lemma RemoveSorted<V>(ns: Nodes<V>, ns': Nodes<V>, s: Shape, at: nat, path: seq<Ptr>)
    requires Stored(ns, s) && |s.order| >= 2 && Sorted(ns, s) && Inner(s, at)
    requires PathTo(s, path, at, 0) && s.heights[at] <= MAXL && Removed(ns, ns', s, at, path)
    requires Stored(ns', RemoveShape(s, at))
    ensures Sorted(ns', RemoveShape(s, at))
  {
    var s' := RemoveShape(s, at);
    forall p: nat | Inner(s', p) ensures ns'[s'.order[p]].item.Item? {
      assert s'.order[p] == s.order[Up(at, p)] && Inner(s, Up(at, p));
    }
    forall p: nat, q: nat | Inner(s', p) && Inner(s', q) && p < q
      ensures ns'[s'.order[p]].item.key < ns'[s'.order[q]].item.key
    {
      assert s'.order[p] == s.order[Up(at, p)] && Inner(s, Up(at, p));
      assert s'.order[q] == s.order[Up(at, q)] && Inner(s, Up(at, q));
    }
    assert s'.order[0] == s.order[0] && s'.order[|s'.order| - 1] == s.order[|s.order| - 1];
  }

  /** Unlinking a node along the search path keeps the whole representation. */
  lemma RemoveRepresents<V>(ns: Nodes<V>, ns': Nodes<V>, s: Shape, top: nat, at: nat, path: seq<Ptr>)
    requires Represents(ns, s, top) && Inner(s, at)
    requires PathTo(s, path, at, s.heights[at]) && Removed(ns, ns', s, at, path)
    ensures Represents(ns', RemoveShape(s, at), top)
  {
    hide Stored, Linked, BackLinked, Sorted, Removed;
    RemoveStored(ns, ns', s, at, path);
    RemoveLinked(ns, ns', s, at, path);
    RemoveBack(ns, ns', s, at, path);
    RemoveSorted(ns, ns', s, at, path);
  }

  /** After removing position `at`, the path to the node now there is the same. */
  lemma PathStays(s: Shape, path: seq<Ptr>, at: nat, top: nat)
    requires PathTo(s, path, at, top) && at + 1 < |s.order|
    ensures PathTo(RemoveShape(s, at), path, at, top)
  {
    var s' := RemoveShape(s, at);
    forall i: nat | i <= top ensures path[i] == s'.order[PredAt(s'.heights, i, at)] {
      PredSame(s.heights, s'.heights, i, at);
    }
  }

  lemma PredSame(hs: seq<nat>, hs': seq<nat>, i: nat, at: nat)
    requires 0 < at <= |hs| && at <= |hs'| && hs[..at] == hs'[..at] && hs[0] >= i
    ensures hs'[0] >= i && PredAt(hs, i, at) == PredAt(hs', i, at)
  {
    assert forall r :: 0 <= r < at ==> hs[r] == hs[..at][r] == hs'[..at][r] == hs'[r];
    PredUnique(hs, i, at, PredAt(hs, i, at), PredAt(hs', i, at));
  }
}
