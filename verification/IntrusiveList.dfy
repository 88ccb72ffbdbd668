/**
 The intrusive singly linked queue: nodes are appended at the head, taken at
 the tail, and remember the list they are in.
 */
module IntrusiveList {

  class Node<T> {
    var val: T
    var next: Node?<T>
    var list: List?<T>

    /** create_node */
    constructor (v: T)
      ensures val == v && next == null && list == null
    {
      val, next, list := v, null, null;
    }
  }

  ghost function Ends<T>(n: Node?<T>): set<Node<T>> { if n == null then {} else {n} }

  ghost predicate Apart<T>(a: seq<Node<T>>, b: seq<Node<T>>) {
    forall i, j :: 0 <= i < |a| && 0 <= j < |b| ==> a[i] != b[j]
  }

  class List<T> {
    var head: Node?<T>
    var tail: Node?<T>
    var size: nat
    /** The nodes from tail to head, oldest first. */
    ghost var items: seq<Node<T>>

    /** Every node but the newest links to the next newer one; the newest links anywhere. */
    ghost predicate Valid()
      reads this, items
    {
      && size == |items|
      && (items == [] ==> head == null && tail == null)
      && (items != [] ==> tail == items[0] && head == items[|items| - 1])
      && (forall i, j :: 0 <= i < j < |items| ==> items[i] != items[j])
      && (forall i :: 0 <= i < |items| - 1 ==> items[i].next == items[i + 1])
      && (forall i :: 0 <= i < |items| ==> items[i].list != null)
    }

    constructor ()
      ensures Valid() && items == []
    {
      head, tail, size, items := null, null, 0, [];
    }

    /** emplace_front: the caller owes a node that is in no list; its `next` may be stale. */
    method EmplaceFront(n: Node<T>)
      requires Valid() && n.list == null
      modifies this, n`list, Ends(head)`next
      ensures Valid() && items == old(items) + [n] && n.list == this
    {
      n.list := this;
      if head != null {
        assert tail != null && size > 0;
        head.next := n;
        head := n;
      } else {
        assert size == 0;
        head := n;
        tail := n;
      }
      size := size + 1;
      items := items + [n];
    }

    /** extract_back: the oldest node, with its `next` left as it was, or null. */
    method ExtractBack() returns (n: Node?<T>)
      requires Valid()
      modifies this, Ends(tail)`list
      ensures Valid()
      ensures old(items) == [] ==> n == null && items == []
      ensures old(items) != [] ==> n == old(items)[0] && items == old(items)[1..] && n.list == null
    {
      if head == null {
        assert size == 0;
        return null;
      }
      assert size > 0;
      size := size - 1;
      if tail == head {
        OnlyOne();
        n := tail;
        tail := null;
        head := null;
        n.list := null;
        items := items[1..];
        return;
      }
      n := tail;
      tail := tail.next;
      n.list := null;
      items := items[1..];
    }

    /** pop_back: the oldest node is dropped and no longer refers to the list. */
    method PopBack()
      requires Valid()
      modifies this
      ensures Valid() && items == if old(items) == [] then [] else old(items)[1..]
    {
      if head == null {
        return;
      }
      size := size - 1;
      if tail == head {
        OnlyOne();
        tail := null;
        head := null;
        items := items[1..];
        return;
      }
      tail := tail.next;
      items := items[1..];
    }

    lemma OnlyOne()
      requires |items| > 0 && tail == items[0] && head == items[|items| - 1] && tail == head
      requires forall i, j :: 0 <= i < j < |items| ==> items[i] != items[j]
      ensures |items| == 1
    {
    }

    method Empty() returns (e: bool)
      requires Valid()
      ensures e <==> items == []
    {
      assert (tail == null) == (head == null) && (head == null) == (size == 0);
      e := head == null;
    }

    method Back() returns (v: T)
      requires Valid() && items != []
      ensures v == items[0].val
    {
      v := tail.val;
    }

    /** std::swap with an empty list: the nodes move over and keep naming the list they came from. */
    method SwapEmpty(other: List<T>)
      requires Valid() && items == [] && other.Valid() && other != this
      modifies this, other
      ensures Valid() && items == old(other.items) && other.Valid() && other.items == []
    {
      head, tail, size, other.head, other.tail, other.size := other.head, other.tail, other.size, head, tail, size;
      items, other.items := other.items, items;
    }
  }

  /** The oldest node of one list becomes the newest of another, as a wake-up does. */
  method MoveOldest<T>(from: List<T>, into: List<T>)
    requires from.Valid() && into.Valid() && from != into && from.items != []
    requires Apart(from.items, into.items)
    modifies from, into, Ends(from.tail)`list, Ends(into.head)`next
    ensures from.Valid() && from.items == old(from.items)[1..]
    ensures into.Valid() && into.items == old(into.items) + [old(from.items)[0]]
    ensures Apart(from.items, into.items)
  {
    var n := from.ExtractBack();
    into.EmplaceFront(n);
  }

  /** The drain loop of notify_all: every node moves over, oldest first. */
  method DrainInto<T>(mine: List<T>, ready: List<T>)
    requires mine.Valid() && ready.Valid() && mine != ready && Apart(mine.items, ready.items)
    modifies mine, ready, mine.items, ready.items
    ensures mine.Valid() && mine.items == []
    ensures ready.Valid() && ready.items == old(ready.items) + old(mine.items)
  {
    hide *;
    ghost var woken: nat := 0;
    ghost var all, were := mine.items, ready.items;
    var e := mine.Empty();
    while !e
      invariant mine.Valid() && ready.Valid() && Apart(mine.items, ready.items) && (e <==> mine.items == [])
      invariant woken <= |all| && mine.items == all[woken..] && ready.items == were + all[..woken]
      decreases |mine.items|
    {
      TailIn(mine);
      HeadIn(ready);
      MoveOldest(mine, ready);
      woken := woken + 1;
      e := mine.Empty();
    }
  }

  lemma TailIn<T>(l: List<T>)
    requires l.Valid()
    ensures forall n :: n in Ends(l.tail) ==> n in l.items
  {
  }

  lemma HeadIn<T>(l: List<T>)
    requires l.Valid()
    ensures forall n :: n in Ends(l.head) ==> n in l.items
  {
  }

  /** notify_all: the whole waiter list is swapped out, then drained. */
  method NotifyAll<T>(waiters: List<T>, ready: List<T>)
    requires waiters.Valid() && ready.Valid() && waiters != ready && Apart(waiters.items, ready.items)
    modifies waiters, ready, waiters.items, ready.items
    ensures waiters.Valid() && waiters.items == []
    ensures ready.Valid() && ready.items == old(ready.items) + old(waiters.items)
  {
    var mine := new List<T>();
    mine.SwapEmpty(waiters);
    DrainInto(mine, ready);
  }
}
