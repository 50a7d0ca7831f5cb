/** The intrusive singly linked list of listnode.h: `struct node`, `struct root` and the operations on
    them, as pointer writes on the heap. */
module ListNode {
  import opened Lists

  class Node {
    var next: Node?

    constructor ()
      ensures next == null
    {
      next := null;
    }
  }

  /** The i-th node on the way from `from` through q. */
  function At(from: Node, q: seq<Node>, i: nat): Node
    requires i <= |q|
  {
    if i == 0 then from else q[i - 1]
  }

  function Last(from: Node, q: seq<Node>): Node {
    At(from, q, |q|)
  }

  function First(q: seq<Node>): Node? {
    if q == [] then null else q[0]
  }

  /** Following m_next from `from` passes exactly the nodes of q, in order, and ends at `end`. */
  ghost predicate Chain(from: Node, q: seq<Node>, end: Node?)
    reads from, q
  {
    forall i :: 0 <= i <= |q| ==> At(from, q, i).next == if i < |q| then q[i] else end
  }

  lemma DistinctSnoc(q: seq<Node>, n: Node)
    requires Distinct(q) && n !in q
    ensures Distinct(q + [n])
  {
  }

  lemma AtSnoc(from: Node, q: seq<Node>, n: Node)
    ensures forall i :: 0 <= i <= |q| ==> At(from, q + [n], i) == At(from, q, i)
    ensures Last(from, q + [n]) == n
  {
  }

  lemma LastIsLast(from: Node, q: seq<Node>)
    requires Distinct(q) && from !in q
    ensures forall i :: 0 <= i < |q| ==> At(from, q, i) != Last(from, q)
  {
  }

  lemma AtInside(from: Node, q: seq<Node>)
    ensures forall i :: 0 < i <= |q| ==> At(from, q, i) in q && At(from, q, i) == q[i - 1]
    ensures At(from, q, 0) == from
  {
  }

  /** The links of a chain before its last node. */
  ghost predicate Links(from: Node, q: seq<Node>)
    reads from, q
  {
    forall i :: 0 <= i < |q| ==> At(from, q, i).next == q[i]
  }

  lemma ChainIsLinks(from: Node, q: seq<Node>, end: Node?)
    ensures Chain(from, q, end) <==> Links(from, q) && Last(from, q).next == end
  {
    assert Chain(from, q, end) ==> At(from, q, |q|).next == end;
  }

  /** The nodes of q are linked to each other, and the last ends the list. */
  ghost predicate Tailed(q: seq<Node>)
    reads q
  {
    && (forall i, j :: 0 <= i < |q| && j == i + 1 && j < |q| ==> q[i].next == q[j])
    && (q != [] ==> q[|q| - 1].next == null)
  }

  class Root {
    const head: Node
    var tail: Node
    var size: int
    ghost var q: seq<Node>

    ghost predicate Valid()
      reads this, head, q
    {
      && Distinct(q) && head !in q
      && Chain(head, q, null) && tail == Last(head, q) && size == |q|
    }

    /** INIT_ROOT. */
    constructor ()
      ensures Valid() && q == [] && fresh(head)
    {
      var h := new Node();
      head, tail, size, q := h, h, 0, [];
    }

    predicate IsEmpty()
      reads this, head
    {
      head.next == null
    }

    lemma EmptyMeansEmpty()
      requires Valid()
      ensures IsEmpty() <==> q == []
    {
      assert At(head, q, 0) == head;
    }

    method PushNode(node: Node)
      requires Valid() && node != head && node !in q
      modifies this, tail, node
      ensures Valid() && q == old(q) + [node]
    {
      ghost var was := q;
      DistinctSnoc(q, node);
      ChainIsLinks(head, q, null);
      hide Chain;
      assert forall i :: 0 <= i < |q| ==> At(head, q, i) != tail && At(head, q, i) != node by {
        AtInside(head, q);
        LastIsLast(head, q);
      }
      hide Distinct;
      node.next := null;
      tail.next := node;
      assert Links(head, was);
      hide Links, At;
      AtSnoc(head, was, node);
      tail := node;
      size := size + 1;
      q := q + [node];
      LinksSnoc(head, was, node);
      ChainIsLinks(head, q, null);
    }

    method PopNode() returns (node: Node?)
      requires Valid()
      modifies this, head, q
      ensures Valid()
      ensures old(q) == [] ==> node == null && q == []
      ensures old(q) != [] ==> node == old(q)[0] && q == old(q)[1..] && node.next == null
    {
      EmptyMeansEmpty();
      node := null;
      if !IsEmpty() {
        assert At(head, q, 0) == head && At(head, q, 1) == q[0];
        assert forall i :: 1 <= i <= |q| ==> At(head, q, i) == q[i - 1];
        node := head.next;
        if node.next != null {
          head.next := node.next;
        } else {
          head.next := null;
          tail := head;
        }
        size := size - 1;
        node.next := null;
        q := q[1..];
        assert forall i :: 1 <= i <= |q| ==> At(head, q, i) == old(q)[i];
      }
    }

    /** The last node, or the head of an empty list, points somewhere else. */
    method PointTail(first: Node?)
      requires Valid()
      modifies tail
      ensures Links(head, q) && Last(head, q).next == first
    {
      hide Distinct;
      ChainIsLinks(head, q, null);
      assert forall i :: 0 <= i < |q| ==> At(head, q, i) != tail by { LastIsLast(head, q); }
      hide Chain;
      tail.next := first;
    }

    /** The chain b behind `other` becomes the back of the list. */
    method Append(other: Node, last: Node, n: int, ghost b: seq<Node>)
      requires Valid() && Chain(other, b, null) && Distinct(b) && b != [] && last == Last(other, b) && n == |b|
      requires other != head && other !in b && other !in q && head !in b && forall x :: x in b ==> x !in q
      modifies this, tail
      ensures Valid() && q == old(q) + b
    {
      hide Chain, Distinct, Links, At;
      ghost var a := q;
      TailInside();
      Second(other, b);
      DistinctJoin(a, b);
      PointTail(other.next);
      ChainJoin(head, a, other, b);
      tail := last;
      size := size + n;
      q := a + b;
    }

    lemma TailInside()
      requires Valid()
      ensures tail == head || tail in q
    {
      AtInside(head, q);
    }

    /** The list is empty; its nodes keep their links. */
    method Clear()
      modifies this, head
      ensures Valid() && q == []
    {
      head.next := null;
      tail := head;
      size := 0;
      q := [];
    }
  }

  /** spliceRoot: all of `from` goes to the back of `to`. */
  method SpliceRoot(from: Root, to: Root)
    requires from.Valid() && to.Valid() && from != to
    requires from.head != to.head && from.head !in to.q && to.head !in from.q
    requires forall n :: n in from.q ==> n !in to.q
    modifies from, to, from.head, to.tail
    ensures from.Valid() && to.Valid()
    ensures from.q == [] && to.q == old(to.q) + old(from.q)
  {
    hide Chain, Distinct;
    from.EmptyMeansEmpty();
    if !from.IsEmpty() {
      to.Append(from.head, from.tail, from.size, from.q);
      from.Clear();
    } else {
      assert to.q == to.q + from.q;
    }
  }

  lemma LinksSnoc(from: Node, a: seq<Node>, n: Node)
    requires Links(from, a) && Last(from, a).next == n
    ensures Links(from, a + [n])
  {
    forall i | 0 <= i < |a + [n]|
      ensures At(from, a + [n], i).next == (a + [n])[i]
    {
      assert At(from, a + [n], i) == At(from, a, i);
    }
  }

  lemma Second(from: Node, q: seq<Node>)
    requires Chain(from, q, null) && q != []
    ensures from.next == q[0]
  {
    assert At(from, q, 0) == from;
  }

  /** What follows the last node goes on like the chain b. */
  lemma ChainJoin(from: Node, a: seq<Node>, mid: Node, b: seq<Node>)
    requires b != [] && Links(from, a) && Last(from, a).next == b[0] && Chain(mid, b, null)
    ensures Chain(from, a + b, null) && Last(from, a + b) == Last(mid, b)
  {
    ChainIsLinks(mid, b, null);
    LinksJoin(from, a, mid, b);
    ChainIsLinks(from, a + b, null);
  }

  lemma LinksJoin(from: Node, a: seq<Node>, mid: Node, b: seq<Node>)
    requires b != [] && Links(from, a) && Last(from, a).next == b[0]
    requires forall i :: 0 < i < |b| ==> At(mid, b, i).next == b[i]
    ensures Links(from, a + b) && Last(from, a + b) == Last(mid, b)
  {
    forall i | 0 <= i < |a + b|
      ensures At(from, a + b, i).next == (a + b)[i]
    {
      if i < |a| {
        assert At(from, a + b, i) == At(from, a, i);
      } else if i > |a| {
        assert At(from, a + b, i) == At(mid, b, i - |a|);
      } else {
        assert At(from, a + b, i) == Last(from, a);
      }
    }
  }

  /** The walk of consume over m_safe_root: its locals `prev`, `curr` and `next`, and the list while
      the walk runs. `kept` are the nodes behind the cursor, `rest` the nodes ahead of it. */
  class Walk {
    const root: Root
    var prev: Node
    var curr: Node?
    var next: Node?
    ghost var kept: seq<Node>
    ghost var rest: seq<Node>

    /** Between two rounds of the loop: `curr` is the first node ahead. */
    ghost predicate AtHead()
      reads this, root, root.head, kept, rest
    {
      && Distinct(kept) && Distinct(rest) && root.head !in kept && root.head !in rest
      && (forall n :: n in kept ==> n !in rest)
      && Chain(root.head, kept, curr) && prev == Last(root.head, kept)
      && curr == First(rest) && Tailed(rest)
      && root.size == |kept| + |rest|
    }

    /** Inside the body of the loop: `curr` is still linked behind `prev`, but its own m_next may be
        used by another list already. */
    ghost predicate InBody()
      reads this, root, root.head, kept, rest
    {
      && Distinct(kept) && Distinct(rest) && root.head !in kept && root.head !in rest
      && (forall n :: n in kept ==> n !in rest)
      && curr != null && curr != root.head && curr !in kept && curr !in rest
      && Chain(root.head, kept, curr) && prev == Last(root.head, kept)
      && next == First(rest) && Tailed(rest)
      && root.size == |kept| + 1 + |rest|
    }

    constructor (root: Root)
      ensures this.root == root
    {
      this.root := root;
      prev, curr, next, kept, rest := root.head, null, null, [], [];
    }

    /** The initialisation of the for loop. */
    method Start()
      requires root.Valid()
      modifies this
      ensures AtHead() && kept == [] && rest == root.q && root.q == old(root.q)
    {
      prev := root.head;
      curr := prev.next;
      kept, rest := [], root.q;
      assert At(root.head, root.q, 0) == root.head;
      assert forall i :: 0 <= i < |rest| ==> At(root.head, root.q, i + 1) == rest[i];
    }

    /** next = curr->m_next. */
    method Fetch()
      requires AtHead() && curr != null
      modifies this
      ensures InBody() && kept == old(kept) && [curr] + rest == old(rest) && curr == old(curr) && curr.next == next
    {
      DistinctRest(rest);
      next := curr.next;
      assert rest[0] in rest;
      assert |rest| > 1 ==> rest[0].next == rest[1];
      rest := rest[1..];
      assert forall i :: 0 <= i < |rest| ==> rest[i] == old(rest)[i + 1];
    }

    /** Not done: the node stays, and `prev` moves on to it. The node is linked nowhere else. */
    method Keep()
      requires InBody() && curr.next == next
      modifies this
      ensures AtHead() && kept == old(kept) + [old(curr)] && rest == old(rest)
    {
      DistinctSnoc(kept, curr);
      AtSnoc(root.head, kept, curr);
      prev := curr;
      curr := next;
      kept := kept + [old(curr)];
    }

    /** Done: the node is unlinked through `prev`; its own m_next is not touched. */
    method Unlink()
      requires InBody()
      modifies this, root, prev
      ensures AtHead() && kept == old(kept) && rest == old(rest)
      ensures old(curr).next == old(curr.next)
    {
      hide Chain, Distinct;
      ChainIsLinks(root.head, kept, curr);
      AtInside(root.head, kept);
      LastIsLast(root.head, kept);
      assert prev !in rest && prev != curr;
      assert forall i :: 0 <= i < |kept| ==> At(root.head, kept, i) != prev;
      prev.next := next;
      root.size := root.size - 1;
      curr := next;
      ChainIsLinks(root.head, kept, next);
      assert Chain(root.head, kept, curr);
      assert Tailed(rest);
      assert prev == Last(root.head, kept) && curr == First(rest);
    }

    /** m_safe_root.m_tail = prev. */
    method Finish()
      requires AtHead() && curr == null
      modifies root
      ensures root.Valid() && root.q == kept
    {
      root.tail := prev;
      root.q := kept;
    }

    /** Another thread pushes a node on the other list: any node the walk does not own, among them the
        node under the cursor once the walk has let it go. */
    method OtherPush(lock: Root, node: Node)
      requires lock.Valid() && lock != root && lock.head != root.head
      requires InBody() || AtHead()
      requires node != lock.head && node !in lock.q && node != root.head && node !in kept && node !in rest
      requires lock.head !in kept && lock.head !in rest && root.head !in lock.q
      requires forall n :: n in lock.q ==> n !in kept && n !in rest
      modifies lock, lock.tail, node
      ensures lock.Valid() && lock.q == old(lock.q) + [node]
      ensures old(InBody()) ==> InBody()
      ensures curr != null && node != curr && curr != lock.head && old(curr !in lock.q) ==> curr.next == old(curr.next)
      ensures old(AtHead()) ==> AtHead()
    {
      AtInside(root.head, kept);
      AtInside(lock.head, lock.q);
      assert forall i :: 0 <= i < |rest| ==> rest[i] in rest;
      assert lock.tail != root.head && lock.tail !in kept && lock.tail !in rest;
      lock.PushNode(node);
      assert old(Chain(root.head, kept, curr)) ==> Chain(root.head, kept, curr);
      assert old(Tailed(rest)) ==> Tailed(rest);
    }
  }
}
