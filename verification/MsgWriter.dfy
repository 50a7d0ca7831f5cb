/** The gathering sender of a node: what leaves is the front of what is queued, whatever the kernel
    accepts at a time. */
module MsgWriter {
  import opened Framing
  import opened Lists
  import opened MsgCenter

  const VEC_SIZE: nat := 100
  const SEND_BUF_SIZE: nat := 0x100000

  /** Messages with their cursors within their data. */
  ghost predicate Ready(q: seq<Cache>)
    reads q
  {
    forall i :: 0 <= i < |q| ==> q[i].Valid() && q[i].pos <= q[i].size
  }

  /** Messages that a receiver would accept. */
  ghost predicate Small(q: seq<Cache>)
    reads q
  {
    forall i :: 0 <= i < |q| ==> q[i].size < MAX_MSG_SIZE
  }

  /** The bytes of a queue not sent yet. */
  ghost function Unsent(q: seq<Cache>): seq<Byte>
    requires Ready(q)
    reads q, set c | c in q :: c.data
  {
    if q == [] then [] else q[0].Unused() + Unsent(q[1..])
  }

  lemma ReadyAppend(a: seq<Cache>, b: seq<Cache>)
    requires Ready(a) && Ready(b)
    ensures Ready(a + b)
  {
    forall i | 0 <= i < |a + b|
      ensures (a + b)[i].Valid() && (a + b)[i].pos <= (a + b)[i].size
    {
      assert (a + b)[i] == if i < |a| then a[i] else b[i - |a|];
    }
  }

  lemma {:induction false} UnsentAppend(a: seq<Cache>, b: seq<Cache>)
    requires Ready(a) && Ready(b)
    ensures Ready(a + b) && Unsent(a + b) == Unsent(a) + Unsent(b)
  {
    ReadyAppend(a, b);
    if a == [] {
      assert a + b == b;
    } else {
      UnsentFirst(a);
      assert (a + b)[1..] == a[1..] + b && (a + b)[0] == a[0];
      UnsentFirst(a + b);
      hide Unsent, Ready;
      UnsentAppend(a[1..], b);
      Assoc(a[0].Unused(), Unsent(a[1..]), Unsent(b));
    }
  }

  lemma UnsentFirst(q: seq<Cache>)
    requires Ready(q) && q != []
    ensures Ready(q[1..]) && q[0].Valid() && q[0].pos <= q[0].size
    ensures Unsent(q) == q[0].Unused() + Unsent(q[1..])
  {
  }

  lemma UnsentNext(q: seq<Cache>, i: nat)
    requires i < |q| && Ready(q)
    ensures Ready(q[..i]) && Ready(q[..i + 1]) && q[i].Valid() && q[i].pos <= q[i].size
    ensures Unsent(q[..i + 1]) == Unsent(q[..i]) + q[i].Unused()
  {
    assert q[..i + 1] == q[..i] + [q[i]];
    UnsentAppend(q[..i], [q[i]]);
    assert [q[i]][1..] == [];
  }

  lemma UnsentFront(q: seq<Cache>, i: nat)
    requires i <= |q| && Ready(q)
    ensures Ready(q[..i]) && Unsent(q[..i]) <= Unsent(q)
    ensures i == |q| ==> Unsent(q[..i]) == Unsent(q)
  {
    UnsentAppend(q[..i], q[i..]);
    Split(q, i);
  }

  /** The messages of q are the last ones of all. */
  predicate IsTail(q: seq<Cache>, all: seq<Cache>) {
    |q| <= |all| && q == all[|all| - |q|..]
  }

  lemma TailOfTail(q: seq<Cache>, all: seq<Cache>)
    requires IsTail(q, all) && q != []
    ensures IsTail(q[1..], all)
  {
  }

  lemma TailIn(q: seq<Cache>, all: seq<Cache>)
    requires IsTail(q, all) && q != []
    ensures q[0] in all
  {
  }

  lemma SelfTail(q: seq<Cache>)
    ensures IsTail(q, q)
  {
  }

  lemma NothingUnsent()
    ensures Ready([]) && Unsent([]) == []
  {
  }

  class Writer {
    var que: seq<Cache>

    ghost predicate Valid()
      reads this, que
    {
      Ready(que) && Distinct(que)
    }

    constructor ()
      ensures Valid() && que == []
    {
      que := [];
    }

    /** The vector handed to the kernel: the front messages, no more than VEC_SIZE, until SEND_BUF_SIZE is
        reached. Only the last of them can take it further. */
    method Gather() returns (vec: seq<seq<Byte>>, total: nat)
      requires Valid()
      ensures Flat(vec) <= Unsent(que) && total == |Flat(vec)|
      ensures |vec| <= |que| && forall i :: 0 <= i < |vec| ==> vec[i] == que[i].Unused()
      ensures vec != [] ==> total < 0x10_0000 + |vec[|vec| - 1]|
      ensures Small(que) ==> total < 0x10_0000 + MAX_MSG_SIZE
      ensures |vec| <= 100 && (que != [] ==> vec != [])
      ensures |vec| == 100 || total >= 0x10_0000 || |vec| == |que|
      ensures Ready(que[..|vec|]) && Flat(vec) == Unsent(que[..|vec|])
    {
      hide Unsent, Flat, Distinct, Small, Ready, Holds;
      vec, total := [], 0;
      var i := 0;
      EmptyVec(que);
      while i < |que|
        invariant 0 <= i <= |que| && |vec| == i <= VEC_SIZE && total == |Flat(vec)|
        invariant vec != [] ==> total < SEND_BUF_SIZE + |vec[i - 1]|
        invariant Holds(que, vec)
      {
        if |vec| < VEC_SIZE && total < SEND_BUF_SIZE {
          HoldsNext(que, vec);
          var msg := que[i];
          vec := vec + [msg.data[msg.pos..msg.size]];
          total := total + msg.Remain();
          i := i + 1;
        } else {
          break;
        }
      }
      WhatItHolds(que, vec);
      assert Small(que) ==> total < SEND_BUF_SIZE + MAX_MSG_SIZE by { SmallPart(que, vec); }
    }

    /** The vector holds the front messages. */
    ghost predicate Holds(q: seq<Cache>, vec: seq<seq<Byte>>)
      requires Ready(q)
      reads q, set c | c in q :: c.data
    {
      && |vec| <= |q| && Ready(q[..|vec|]) && Flat(vec) == Unsent(q[..|vec|])
      && forall i :: 0 <= i < |vec| ==> vec[i] == q[i].Unused()
    }

    lemma WhatItHolds(q: seq<Cache>, vec: seq<seq<Byte>>)
      requires Ready(q) && Holds(q, vec)
      ensures |vec| <= |q| && Ready(q[..|vec|]) && Flat(vec) == Unsent(q[..|vec|]) <= Unsent(q)
      ensures forall i :: 0 <= i < |vec| ==> q[i].Valid() && vec[i] == q[i].Unused()
    {
      hide Unsent, Flat;
      UnsentFront(q, |vec|);
    }

    lemma HoldsNext(q: seq<Cache>, vec: seq<seq<Byte>>)
      requires Ready(q) && Holds(q, vec) && |vec| < |q|
      ensures var msg := q[|vec|]; msg.Valid() && msg.pos <= msg.size
      ensures var part := q[|vec|].Unused(); Holds(q, vec + [part]) && |Flat(vec + [part])| == |Flat(vec)| + |part|
    {
      hide Unsent, Flat;
      var part := q[|vec|].Unused();
      UnsentNext(q, |vec|);
      FlatAppend(vec, [part]);
      FlatOne(part);
    }

    lemma SmallPart(q: seq<Cache>, vec: seq<seq<Byte>>)
      requires Ready(q) && |vec| <= |q| && forall i :: 0 <= i < |vec| ==> vec[i] == q[i].Unused()
      ensures vec != [] && Small(q) ==> |vec[|vec| - 1]| < MAX_MSG_SIZE
    {
    }

    lemma EmptyVec(q: seq<Cache>)
      requires Ready(q)
      ensures Holds(q, []) && Flat([]) == []
    {
    }

    /** The messages that were sent whole are freed and the cursor of the next one moves on: what is left
        to send is what was, without its first n bytes, and it begins with the first message in the queue. */
    method Prune(n: nat) returns (done: bool)
      requires Valid() && n <= |Unsent(que)|
      modifies `que, que
      ensures Valid() && Unsent(que) == old(Unsent(que))[n..]
      ensures done <==> n == |old(Unsent(que))|
      ensures done <==> que == []
      ensures que != [] ==> que[0].Unused() != []
      ensures forall c: Cache :: c in old(que) && c in que && c != que[0] ==> c.pos == old(c.pos)
      ensures IsTail(que, old(que)) && forall c: Cache :: c in old(que) ==> c.size == old(c.size)
    {
      hide Ready, Distinct, Unsent, IsTail;
      assert IsTail(que, que) by { SelfTail(que); }
      NothingUnsent();
      var maxlen := n;
      done := true;
      while que != []
        invariant IsTail(que, old(que)) && Valid() && done && forall c: Cache :: c in old(que) ==> c.size == old(c.size)
        invariant 0 <= maxlen <= |Unsent(que)| && Unsent(que)[maxlen..] == old(Unsent(que))[n..]
        invariant forall c: Cache :: c in old(que) ==> c.pos == old(c.pos)
        decreases |que|
      {
        UnsentFirst(que);
        DropMoreOrLess(que[0].Unused(), Unsent(que[1..]), maxlen);
        var res := que[0].Remain();
        if res <= maxlen {
          DistinctRest(que);
          TailOfTail(que, old(que));
          que := que[1..];
          maxlen := maxlen - res;
        } else {
          TailIn(que, old(que));
          SkipFirst(que[0], maxlen);
          maxlen := 0;
          done := false;
          break;
        }
      }
    }

    /** sendQue. `want` is what the kernel would take: an error below zero, nothing when it would block, and
        otherwise as many bytes of the vector. `front` are the bytes of the first k messages, as many as the two
        limits allow. As much of it is sent as the kernel takes; the result is 0 when nothing is left, 1 when the
        kernel takes nothing, 2 when more is left. */
    method SendQue(want: int) returns (ret: int, sent: seq<Byte>, ghost k: nat, ghost front: seq<Byte>)
      requires Valid()
      modifies `que, que
      ensures Valid() && IsTail(que, old(que)) && forall c: Cache :: c in old(que) ==> c.size == old(c.size)
      ensures k <= |old(que)| && k <= 100 && old(Ready(que[..k]) && front == Unsent(que[..k]))
      ensures k == 100 || k == |old(que)| || |front| >= 0x10_0000
      ensures k > 0 ==> |front| < 0x10_0000 + |old(que[k - 1].Unused())|
      ensures sent == front[..if want < 0 then 0 else if want < |front| then want else |front|]
      ensures old(Unsent(que)) == sent + Unsent(que)
      ensures old(que != [] && que[0].Unused() != []) ==> front != []
      ensures que != [] && sent != [] ==> que[0].Unused() != []
      ensures forall c: Cache :: c in old(que) && c in que && (c != que[0] || sent == []) ==> c.pos == old(c.pos)
      ensures ret == 0 <==> que == []
      ensures ret == 1 <==> old(que) != [] && (want == 0 || (want > 0 && front == []))
      ensures ret == 2 <==> sent != [] && que != []
      ensures ret == -1 <==> old(que) != [] && want < 0
      ensures ret == 1 || ret == -1 ==> que == old(que) && sent == []
      ensures ret in {0, 1, 2, -1}
    {
      hide Ready, Distinct, Unsent, Flat, IsTail;
      SelfTail(que);
      sent, front, k := [], [], 0;
      if que != [] {
        var vec, total := Gather();
        front, k := Flat(vec), |vec|;
        FrontHas(que, k);
        var sndlen := if want <= total then want else total;
        if 0 < sndlen {
          sent := Flat(vec)[..sndlen];
          UnsentFront(que, k);
          SentFront(Flat(vec), Unsent(que), sndlen);
          var done := Prune(sndlen);
          ret := if done then 0 else 2;
        } else if 0 == sndlen {
          ret := 1;
        } else {
          ret := -1;
        }
      } else {
        ret := 0;
        NothingUnsent();
        assert que[..0] == [];
      }
      assert old(Unsent(que)) == [] + old(Unsent(que));
    }

    lemma FrontHas(q: seq<Cache>, k: nat)
      requires Ready(q) && q != [] && 0 < k <= |q|
      ensures Ready(q[..k]) && |Unsent(q[..k])| >= |q[0].Unused()|
    {
      UnsentFirst(q[..k]);
    }

    /** The cursor of the first message moves on. */
    method SkipFirst(msg: Cache, n: nat)
      requires Valid() && que != [] && msg == que[0] && n <= |msg.Unused()|
      modifies msg`pos
      ensures Valid() && Unsent(que) == old(Unsent(que))[n..] && que[0].Unused() == old(que[0].Unused())[n..]
    {
      ghost var rest := Unsent(que[1..]);
      UnsentFirst(que);
      DropMoreOrLess(msg.Unused(), rest, n);
      msg.Skip(n);
      assert forall i :: 1 <= i < |que| ==> que[i] != msg;
      assert Unsent(que[1..]) == rest;
      UnsentFirst(que);
    }
  }

  const INT32_END: nat := 0x8000_0000

  /** Two messages, each of a size that an Int32 holds, whose total in the vector does not. */
  method TotalTooLarge() returns (w: Writer, vec: seq<seq<Byte>>, total: nat)
    ensures w.Valid() && forall i :: 0 <= i < |w.que| ==> w.que[i].size < INT32_END
    ensures Flat(vec) == Unsent(w.que) && total == |Flat(vec)| >= INT32_END
  {
    hide Unsent, Flat, Small;
    w := TwoQueued();
    vec, total := w.Gather();
    TwoParts(w.que, vec);
  }

  method TwoQueued() returns (w: Writer)
    ensures w.Valid() && |w.que| == 2 && forall i :: 0 <= i < |w.que| ==> w.que[i].size < INT32_END
    ensures |w.que[0].Unused()| == SEND_BUF_SIZE - 1 && |w.que[1].Unused()| == INT32_END - SEND_BUF_SIZE + 1
  {
    var a := new Cache(SEND_BUF_SIZE - 1);
    var b := new Cache(INT32_END - SEND_BUF_SIZE + 1);
    a.size, b.size := a.data.Length, b.data.Length;
    w := new Writer();
    w.que := [a, b];
  }

  lemma TwoParts(q: seq<Cache>, vec: seq<seq<Byte>>)
    requires Ready(q) && |q| == 2 && |vec| <= 2 && forall i :: 0 <= i < |vec| ==> vec[i] == q[i].Unused()
    ensures |vec| == 1 ==> |Flat(vec)| == |q[0].Unused()|
    ensures Unsent(q) == q[0].Unused() + q[1].Unused()
    ensures |vec| == 2 ==> Flat(vec) == Unsent(q)
  {
    UnsentFirst(q);
    UnsentFirst(q[1..]);
    if |vec| > 0 {
      FlatOne(vec[0]);
      assert vec[..1] == [vec[0]];
    }
    if |vec| == 2 {
      FlatOne(vec[1]);
      FlatAppend([vec[0]], [vec[1]]);
      assert vec == [vec[0]] + [vec[1]];
    } else if |vec| == 1 {
      assert vec == [vec[0]];
    }
  }

  lemma DropMoreOrLess<T>(a: seq<T>, b: seq<T>, n: nat)
    requires n <= |a| + |b|
    ensures |a| <= n ==> (a + b)[n..] == b[n - |a|..]
    ensures n <= |a| ==> (a + b)[n..] == a[n..] + b
  {
  }

  lemma SentFront<T>(vec: seq<T>, all: seq<T>, n: nat)
    requires vec <= all && n <= |vec|
    ensures all == vec[..n] + all[n..]
  {
  }
}
