/** The doubly linked list of listnode.h that holds queued messages, and the hash-style list that holds
    timers, as pointer writes on the heap. */
module ListHead {
  import opened Lists

  class Item {
    var next: Item
    var prev: Item

    /** INIT_LIST_NODE: the item is its own ring. */
    constructor ()
      ensures next == this && prev == this
    {
      next, prev := this, this;
    }
  }

  /** The ring of root and q: the i-th of it, and the one behind the i-th. */
  function At(root: Item, q: seq<Item>, i: nat): Item
    requires i <= |q|
  {
    if i == 0 then root else q[i - 1]
  }

  function Behind(root: Item, q: seq<Item>, i: nat): Item
    requires i <= |q|
  {
    if i == |q| then root else q[i]
  }

  ghost predicate Ring(root: Item, q: seq<Item>)
    reads root, q
  {
    forall i :: 0 <= i <= |q| ==>
      At(root, q, i).next == Behind(root, q, i) && Behind(root, q, i).prev == At(root, q, i)
  }

  class ListHead {
    const root: Item
    var size: int
    ghost var q: seq<Item>

    ghost predicate Valid()
      reads this, root, q
    {
      Distinct(q) && root !in q && Ring(root, q) && size == |q|
    }

    /** INIT_LIST_HEAD. */
    constructor ()
      ensures Valid() && q == [] && fresh(root)
    {
      root := new Item();
      size, q := 0, [];
    }

    predicate IsEmpty()
      reads this, root
    {
      root.next == root
    }

    lemma EmptyMeansEmpty()
      requires Valid()
      ensures IsEmpty() <==> q == []
      ensures root.next == Behind(root, q, 0) && root.prev == At(root, q, |q|)
    {
      assert At(root, q, 0) == root && Behind(root, q, |q|) == root;
      assert q != [] ==> q[0] in q;
    }

    method AddBack(added: Item)
      requires Valid() && added != root && added !in q
      modifies this, root, root.prev, added
      ensures Valid() && q == old(q) + [added]
    {
      EmptyMeansEmpty();
      ghost var n := |q|;
      var last := root.prev;
      assert n > 0 ==> last == q[n - 1];
      added.prev := last;
      added.next := root;
      last.next := added;
      root.prev := added;
      size := size + 1;
      q := q + [added];
      forall i | 0 <= i <= |q|
        ensures At(root, q, i).next == Behind(root, q, i) && Behind(root, q, i).prev == At(root, q, i)
      {
        if i < n {
          assert At(root, q, i) == old(At(root, q, i)) && Behind(root, q, i) == old(Behind(root, q, i));
        }
      }
    }

    /** list_del, from the links of the item alone; an item that is in no list is left as it is. */
    method Del(item: Item)
      requires Valid() && (item in q || (item.next == item && item != root))
      modifies this, item, item.prev, item.next
      ensures Valid() && item.next == item && (item in old(q) ==> item.prev == item)
      ensures item !in old(q) ==> q == old(q)
      ensures forall k :: 0 <= k < |old(q)| && old(q)[k] == item ==> q == old(q)[..k] + old(q)[k + 1..]
    {
      LinkedMeansIn(item);
      if item.next != item {
        ghost var k :| 0 <= k < |q| && q[k] == item;
        Unlink(item, k);
      }
    }

    lemma LinkedMeansIn(item: Item)
      requires Valid() && (item in q || item.next == item)
      ensures item in q <==> item.next != item
    {
      if item in q {
        var k :| 0 <= k < |q| && q[k] == item;
        assert At(root, q, k + 1) == item;
      }
    }

    /** __list_del of the k-th item. */
    method Unlink(item: Item, ghost k: nat)
      requires Valid() && k < |q| && item == q[k]
      modifies this, item, item.prev, item.next
      ensures Valid() && item.next == item && item.prev == item
      ensures q == old(q)[..k] + old(q)[k + 1..]
    {
      ghost var was := q;
      assert At(root, q, k + 1) == item && Behind(root, q, k) == item;
      assert item.prev == At(root, q, k) && item.next == Behind(root, q, k + 1);
      item.prev.next := item.next;
      item.next.prev := item.prev;
      item.next := item;
      item.prev := item;
      size := size - 1;
      q := q[..k] + q[k + 1..];
      forall i | 0 <= i <= |q|
        ensures At(root, q, i).next == Behind(root, q, i) && Behind(root, q, i).prev == At(root, q, i)
      {
        if i < k {
          assert At(root, q, i) == At(root, was, i) && Behind(root, q, i) == Behind(root, was, i);
        } else if i > k {
          assert At(root, q, i) == At(root, was, i + 1) && Behind(root, q, i) == Behind(root, was, i + 1);
        }
      }
    }
  }

  /** list_splice_back: all of `from` goes to the back of `to`. */
  method SpliceBack(from: ListHead, to: ListHead)
    requires from.Valid() && to.Valid() && from != to && from.root != to.root
    requires from.root !in to.q && to.root !in from.q && forall x :: x in from.q ==> x !in to.q
    modifies from, to, from.root, to.root, to.root.prev, from.root.next, from.root.prev
    ensures from.Valid() && to.Valid() && from.q == [] && to.q == old(to.q) + old(from.q)
  {
    from.EmptyMeansEmpty();
    to.EmptyMeansEmpty();
    ghost var a, b := to.q, from.q;
    DistinctJoin(a, b);
    hide Distinct;
    if !from.IsEmpty() {
      var first, last, back := from.root.next, from.root.prev, to.root.prev;
      back.next := first;
      first.prev := back;
      to.root.prev := last;
      last.next := to.root;
      to.size := to.size + from.size;
      to.q := a + b;
      from.root.next := from.root;
      from.root.prev := from.root;
      from.size := 0;
      from.q := [];
      forall i | 0 <= i <= |to.q|
        ensures At(to.root, to.q, i).next == Behind(to.root, to.q, i)
        ensures Behind(to.root, to.q, i).prev == At(to.root, to.q, i)
      {
        if i < |a| {
          assert At(to.root, to.q, i) == At(to.root, a, i) && Behind(to.root, to.q, i) == Behind(to.root, a, i);
        } else if |a| < i < |a + b| {
          assert At(to.root, to.q, i) == At(from.root, b, i - |a|);
          assert Behind(to.root, to.q, i) == Behind(from.root, b, i - |a|);
        }
      }
    } else {
      assert to.q == a + b;
    }
  }

  /** The loop of freeMsgQue and of procNodeQue: every item is taken off and handed on, in order. */
  method TakeAll(list: ListHead) returns (out: seq<Item>)
    requires list.Valid()
    modifies list, list.root, list.q
    ensures list.Valid() && list.q == [] && out == old(list.q)
  {
    hide Ring, Distinct;
    out := [];
    list.EmptyMeansEmpty();
    var pos := list.root.next;
    while pos != list.root
      invariant list.Valid() && pos == Behind(list.root, list.q, 0)
      invariant out + list.q == old(list.q)
      decreases |list.q|
    {
      assert forall i :: 0 <= i < |list.q| ==> list.q[i] == old(list.q)[|out| + i];
      var n := TakeFirst(list, pos);
      out := out + [pos];
      pos := n;
    }
  }

  /** One round of the loop. */
  method TakeFirst(list: ListHead, pos: Item) returns (n: Item)
    requires list.Valid() && pos == Behind(list.root, list.q, 0) && pos != list.root
    modifies list, list.root, list.q
    ensures list.Valid() && old(list.q) == [pos] + list.q && n == Behind(list.root, list.q, 0)
  {
    FirstOf(list, pos);
    hide Distinct, Ring;
    n := pos.next;
    list.Unlink(pos, 0);
  }

  lemma FirstOf(list: ListHead, pos: Item)
    requires list.Valid() && pos == Behind(list.root, list.q, 0) && pos != list.root
    ensures list.q != [] && pos == list.q[0] && pos.next == Behind(list.root, list.q[1..], 0)
    ensures pos.prev == list.root && (pos.next == list.root || pos.next in list.q)
    ensures list.q == [pos] + list.q[1..] && list.q[..0] + list.q[1..] == list.q[1..]
  {
    assert At(list.root, list.q, 1) == pos && At(list.root, list.q, 0) == list.root;
  }

  // The list of timers: an item knows the pointer that points to it, in the head or in the item before.

  class HHead {
    var first: HItem?

    constructor ()
      ensures first == null
    {
      first := null;
    }
  }

  /** m_pprev: nothing, &head->m_first, or &item->m_next. */
  datatype Ref = Nowhere | OfHead(head: HHead) | OfItem(item: HItem)

  class HItem {
    var next: HItem?
    var pprev: Ref

    constructor ()
      ensures next == null && pprev == Nowhere
    {
      next, pprev := null, Nowhere;
    }
  }

  function Before(head: HHead, q: seq<HItem>, i: nat): Ref
    requires i < |q|
  {
    if i == 0 then OfHead(head) else OfItem(q[i - 1])
  }

  function NextOf(q: seq<HItem>, i: nat): HItem?
    requires i < |q|
  {
    if i + 1 == |q| then null else q[i + 1]
  }

  ghost predicate IsList(head: HHead, q: seq<HItem>)
    reads head, q
  {
    && Distinct(q) && head.first == (if q == [] then null else q[0])
    && forall i :: 0 <= i < |q| ==> q[i].next == NextOf(q, i) && q[i].pprev == Before(head, q, i)
  }

  method HlistAdd(n: HItem, h: HHead, ghost q: seq<HItem>)
    requires IsList(h, q) && n !in q
    modifies h, h.first, n
    ensures IsList(h, [n] + q)
  {
    var first := h.first;
    if first != null {
      first.pprev := OfItem(n);
    }
    n.next := first;
    n.pprev := OfHead(h);
    h.first := n;
    ghost var q' := [n] + q;
    forall i | 0 <= i < |q'|
      ensures q'[i].next == NextOf(q', i) && q'[i].pprev == Before(h, q', i)
    {
      if i > 0 {
        assert q'[i] == q[i - 1];
      }
    }
  }

  /** hlist_del: from its own pointers alone, wherever in a list the item is. */
  method HlistDel(n: HItem, ghost h: HHead, ghost q: seq<HItem>, ghost k: nat)
    requires IsList(h, q) && k < |q| && q[k] == n
    modifies h, q
    ensures IsList(h, q[..k] + q[k + 1..]) && n.next == null && n.pprev == Nowhere
  {
    DistinctCut(q, k);
    var next, pprev := n.next, n.pprev;
    Store(pprev, next, h, q, k);
    if next != null {
      Back(next, pprev, q, k + 1);
    }
    n.next, n.pprev := null, Nowhere;
    hide Distinct;
    Closed(h, q, k);
  }

  /** The write through m_pprev of the k-th item. */
  method Store(pprev: Ref, next: HItem?, ghost h: HHead, ghost q: seq<HItem>, ghost k: nat)
    requires k < |q| && Distinct(q) && pprev == Before(h, q, k)
    modifies if k == 0 then {h} else {q[k - 1]}
    ensures h.first == if k == 0 then next else old(h.first)
    ensures forall i :: 0 <= i < |q| ==>
              q[i].next == (if i + 1 == k then next else old(q[i].next)) && q[i].pprev == old(q[i].pprev)
  {
    match pprev {
      case OfHead(head) => head.first := next;
      case OfItem(item) => item.next := next;
      case Nowhere =>
    }
  }

  method Back(next: HItem, pprev: Ref, ghost q: seq<HItem>, ghost k: nat)
    requires k < |q| && Distinct(q) && next == q[k]
    modifies next
    ensures forall i :: 0 <= i < |q| ==>
              q[i].pprev == (if i == k then pprev else old(q[i].pprev)) && q[i].next == old(q[i].next)
  {
    next.pprev := pprev;
  }

  /** The list after the k-th item has gone, its neighbours pointing past it. */
  lemma Closed(h: HHead, q: seq<HItem>, k: nat)
    requires k < |q| && Distinct(q[..k] + q[k + 1..])
    requires h.first == if k > 0 then q[0] else NextOf(q, 0)
    requires forall i :: 0 <= i < |q| && i != k ==> q[i].next == if i + 1 == k then NextOf(q, k) else NextOf(q, i)
    requires forall i :: 0 <= i < |q| && i != k ==>
               q[i].pprev == if i == k + 1 then Before(h, q, k) else Before(h, q, i)
    ensures IsList(h, q[..k] + q[k + 1..])
  {
    hide Distinct;
    var q' := q[..k] + q[k + 1..];
    forall i | 0 <= i < |q'|
      ensures q'[i].next == NextOf(q', i) && q'[i].pprev == Before(h, q', i)
    {
      CutAt(h, q, k, i);
      assert q'[i] == q[if i < k then i else i + 1];
    }
  }

  lemma DistinctCut<T>(q: seq<T>, k: nat)
    requires Distinct(q) && k < |q|
    ensures Distinct(q[..k] + q[k + 1..])
    ensures forall i :: 0 <= i < |q| ==> (q[i] == q[k] <==> i == k)
    ensures k > 0 ==> forall i :: 0 <= i < |q| ==> (q[i] == q[k - 1] <==> i == k - 1)
    ensures k + 1 < |q| ==> forall i :: 0 <= i < |q| ==> (q[i] == q[k + 1] <==> i == k + 1)
  {
  }

  /** The neighbours of the i-th item after the k-th has gone. */
  lemma CutAt(h: HHead, q: seq<HItem>, k: nat, i: nat)
    requires k < |q| && i < |q| - 1
    ensures var q' := q[..k] + q[k + 1..];
      var j := if i < k then i else i + 1;
      && NextOf(q', i) == (if j + 1 == k then NextOf(q, k) else NextOf(q, j))
      && Before(h, q', i) == (if j == k + 1 then Before(h, q, k) else Before(h, q, j))
  {
  }

  /** hlist_replace: all of a list goes to an empty head. */
  method HlistReplace(from: HHead, to: HHead, ghost q: seq<HItem>)
    requires IsList(from, q) && from != to && to.first == null
    modifies from, to, from.first
    ensures IsList(from, []) && IsList(to, q)
  {
    to.first := from.first;
    if to.first != null {
      to.first.pprev := OfHead(to);
    }
    from.first := null;
  }
}
