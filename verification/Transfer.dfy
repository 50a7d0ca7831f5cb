/** The writer of one node and the reader of the other undo each other. */
module Transfer {
  import opened Framing
  import opened Lists
  import opened MsgCenter
  import opened MsgReader
  import opened MsgWriter

  /** What happens next on a connection: the sender gets a turn and the kernel takes so much, or the
      receiver gets a turn and finds so much. */
  datatype Turn = Send(want: int) | Recv(n: nat)

  /** The queue can be sent, and shares nothing with the receiver. */
  ghost predicate Fits(w: Writer, r: Receiver)
    reads w, w.que
  {
    && w.Valid()
    && forall i :: 0 <= i < |w.que| ==> w.que[i].data != r.hdr
  }

  /** The message that is being received is none of the queued ones. */
  ghost predicate Apart(w: Writer, r: Receiver)
    reads w, r
  {
    r.rcv != null ==> r.rcv !in w.que && forall i :: 0 <= i < |w.que| ==> w.que[i].data != r.rcv.data
  }

  lemma TailFits(q: seq<Cache>, all: seq<Cache>)
    requires IsTail(q, all)
    ensures forall c: Cache :: c in q ==> c in all
    ensures forall i :: 0 <= i < |q| ==> q[i] in all
  {
  }

  /** Every queued message has something to send. */
  ghost predicate NoneEmpty(q: seq<Cache>)
    requires Ready(q)
    reads q, set c | c in q :: c.data
  {
    forall i :: 0 <= i < |q| ==> q[i].Unused() != []
  }

  /** How many turns let the sender send, and the receiver receive, something. */
  function Sends(turns: seq<Turn>): nat {
    if turns == [] then 0
    else Sends(turns[..|turns| - 1]) + if turns[|turns| - 1].Send? && turns[|turns| - 1].want > 0 then 1 else 0
  }

  function Recvs(turns: seq<Turn>): nat {
    if turns == [] then 0
    else Recvs(turns[..|turns| - 1]) + if turns[|turns| - 1].Recv? && turns[|turns| - 1].n > 0 then 1 else 0
  }

  /** The turns are enough: the sender can send every byte, and then the receiver can take every byte. */
  predicate Enough(turns: seq<Turn>, cut: nat, n: nat) {
    cut <= |turns| && Sends(turns[..cut]) >= n && Recvs(turns[cut..]) >= n
  }

  lemma OneTurn(turns: seq<Turn>, e: nat, i: nat)
    requires e <= i < |turns|
    ensures Sends(turns[..i + 1]) == Sends(turns[..i]) + if turns[i].Send? && turns[i].want > 0 then 1 else 0
    ensures Recvs(turns[e..i + 1]) == Recvs(turns[e..i]) + if turns[i].Recv? && turns[i].n > 0 then 1 else 0
  {
    assert turns[..i + 1][..i] == turns[..i];
    assert turns[e..i + 1][..i - e] == turns[e..i];
  }

  lemma {:induction false} RecvsOn(turns: seq<Turn>, e: nat, cut: nat)
    requires e <= cut <= |turns|
    ensures Recvs(turns[cut..]) <= Recvs(turns[e..])
    decreases |turns|
  {
    if cut < |turns| {
      var n := |turns| - 1;
      RecvsOn(turns[..n], e, cut);
      assert turns[cut..][..n - cut] == turns[..n][cut..] && turns[e..][..n - e] == turns[..n][e..];
    } else {
      assert turns[cut..] == [];
    }
  }

  /** As long as something is queued, each turn of the sender has sent a byte at least; since then, each turn of
      the receiver has taken one. `e` is when the queue was empty first. */
  predicate Moving(turns: seq<Turn>, i: nat, e: nat, unsent: nat, wire: nat, all: nat)
    requires e <= i <= |turns|
  {
    && (if unsent > 0 then e == i && unsent + Sends(turns[..i]) <= all
        else (forall j :: 0 <= j < e ==> Sends(turns[..j]) < all) && (wire > 0 ==> wire + Recvs(turns[e..i]) <= all))
    && (unsent > 0 ==> forall j :: 0 <= j <= e ==> Sends(turns[..j]) < all)
  }

  /** What a turn does to the bytes left on either side. */
  predicate Moves(t: Turn, unsent: nat, wire: nat, unsent': nat, wire': nat) {
    match t
    case Send(want) =>
      unsent' <= unsent && unsent' + wire' == unsent + wire && (want > 0 && unsent > 0 ==> unsent' < unsent)
    case Recv(n) => unsent' == unsent && wire' <= wire && (n > 0 && wire > 0 ==> wire' < wire)
  }

  /** All that was sent has been dispatched or waits at the receiver. */
  ghost predicate InStep(w: Writer, r: Receiver, frames: seq<seq<Byte>>, seen: seq<Byte>, wire: seq<Byte>)
    reads w, w.que, set c | c in w.que :: c.data, r, r.hdr, r.rcv, if r.rcv == null then {} else {r.rcv.data}
  {
    && Fits(w, r) && w.Valid() && r.Valid() && Apart(w, r)
    && Flat(frames) == seen + (wire + Unsent(w.que))
    && r.got == Frame(seen).msgs && r.Pending() == Frame(seen).rest && !Frame(seen).bad
  }

  /** Frames queued at a writer, sent and received in any pieces and any order of turns: at every moment
      the messages dispatched are the first of the frames, no header is refused, and when all has been
      sent and received they are the frames. With enough turns that is so in the end. */
  method Run(w: Writer, r: Receiver, ghost frames: seq<seq<Byte>>, turns: seq<Turn>) returns (wire: seq<Byte>)
    requires Fits(w, r) && Unsent(w.que) == Flat(frames)
    requires forall f :: f in frames ==> IsFrame(f)
    requires r.Valid() && r.rcv == null && r.rdlen == 0 && r.got == []
    modifies w, w.que, r, r.hdr
    ensures w.Valid() && r.Valid() && r.got <= frames
    ensures w.que == [] && wire == [] ==> r.got == frames && r.Pending() == []
    ensures old(NoneEmpty(w.que)) && (exists cut :: Enough(turns, cut, |Flat(frames)|)) ==> w.que == [] && wire == []
  {
    hide Frame, Flat, IsFrame, Unsent, IsTail, Ready, Distinct, Moving, Moves, NoneEmpty, Enough;
    wire := [];
    ghost var seen: seq<Byte> := [];
    ghost var busy, e := NoneEmpty(w.que), 0;
    Nothing(Unsent(w.que));
    SelfTail(w.que);
    StartMoving(turns, |Unsent(w.que)|);
    var i := 0;
    while i < |turns|
      invariant 0 <= e <= i <= |turns|
      invariant InStep(w, r, frames, seen, wire) && IsTail(w.que, old(w.que))
      invariant r.rcv == null || (fresh(r.rcv) && fresh(r.rcv.data))
      invariant busy ==> NoneEmpty(w.que) && Moving(turns, i, e, |Unsent(w.que)|, |wire|, |Flat(frames)|)
    {
      ghost var unsent, before := |Unsent(w.que)|, |wire|;
      TailFits(w.que, old(w.que));
      wire, seen := Take(w, r, turns[i], wire, frames, seen, old(w.que));
      if busy {
        e := StillMoving(turns, i, e, unsent, before, |Flat(frames)|, |Unsent(w.que)|, |wire|);
      }
      i := i + 1;
    }
    Reached(frames, seen, wire, Unsent(w.que));
    NothingUnsent();
    if busy {
      AllUnsent(w.que);
      EnoughIsAll(turns, e, |Unsent(w.que)|, |wire|, |Flat(frames)|);
    }
  }

  /** One turn. */
  method Take(w: Writer, r: Receiver, t: Turn, wire: seq<Byte>, ghost frames: seq<seq<Byte>>, ghost seen: seq<Byte>,
              ghost all: seq<Cache>)
    returns (wire': seq<Byte>, ghost seen': seq<Byte>)
    requires InStep(w, r, frames, seen, wire) && IsTail(w.que, all) && forall f :: f in frames ==> IsFrame(f)
    modifies w, w.que, r, r.hdr, r.rcv, if r.rcv == null then {} else {r.rcv.data}
    ensures InStep(w, r, frames, seen', wire') && IsTail(w.que, all)
    ensures r.rcv == null || r.rcv == old(r.rcv) || (fresh(r.rcv) && fresh(r.rcv.data))
    ensures old(NoneEmpty(w.que)) ==> NoneEmpty(w.que)
    ensures old(NoneEmpty(w.que)) ==> Moves(t, old(|Unsent(w.que)|), |wire|, |Unsent(w.que)|, |wire'|)
  {
    hide Frame, Flat, IsFrame, Unsent, IsTail, Ready, Distinct, NoneEmpty;
    wire', seen' := wire, seen;
    match t {
      case Send(want) =>
        NothingUnsent();
        var sent := SendSome(w, r, want, all);
        Assoc(wire, sent, Unsent(w.que));
        wire' := wire + sent;
      case Recv(n) =>
        var k := if n <= |wire| then n else |wire|;
        if k > 0 {
          ReadOn(frames, seen, wire, Unsent(w.que), k);
          FrameAppend(seen, wire[..k]);
          ReadSome(w, r, wire[..k]);
          seen' := seen + wire[..k];
          wire' := wire[k..];
        }
    }
  }

  lemma StartMoving(turns: seq<Turn>, n: nat)
    ensures Moving(turns, 0, 0, n, 0, n)
  {
  }

  lemma StillMoving(turns: seq<Turn>, i: nat, e: nat, unsent: nat, wire: nat, all: nat, unsent': nat, wire': nat)
    returns (e': nat)
    requires e <= i < |turns| && Moving(turns, i, e, unsent, wire, all) && unsent + wire <= all
    requires Moves(turns[i], unsent, wire, unsent', wire')
    ensures e' <= i + 1 && Moving(turns, i + 1, e', unsent', wire', all)
  {
    e' := if unsent > 0 then i + 1 else e;
    OneTurn(turns, if unsent > 0 then i else e, i);
    assert unsent > 0 ==> turns[i + 1..i + 1] == [];
  }

  lemma EnoughIsAll(turns: seq<Turn>, e: nat, unsent: nat, wire: nat, all: nat)
    requires e <= |turns| && Moving(turns, |turns|, e, unsent, wire, all)
    ensures (exists cut :: Enough(turns, cut, all)) ==> unsent == 0 && wire == 0
  {
    if cut :| Enough(turns, cut, all) {
      assert turns[..|turns|] == turns && turns[e..|turns|] == turns[e..];
      if unsent == 0 && e <= cut {
        RecvsOn(turns, e, cut);
      }
    }
  }

  lemma AllUnsent(q: seq<Cache>)
    requires Ready(q) && NoneEmpty(q)
    ensures Unsent(q) == [] ==> q == []
  {
    if q != [] {
      UnsentFirst(q);
    }
  }

  method SendSome(w: Writer, r: Receiver, want: int, ghost all: seq<Cache>) returns (sent: seq<Byte>)
    requires Fits(w, r) && w.Valid() && IsTail(w.que, all)
    modifies w, w.que
    ensures Fits(w, r) && w.Valid() && IsTail(w.que, all) && old(Unsent(w.que)) == sent + Unsent(w.que)
    ensures old(Apart(w, r)) ==> Apart(w, r)
    ensures old(NoneEmpty(w.que)) ==> NoneEmpty(w.que)
    ensures old(NoneEmpty(w.que) && w.que != []) && want > 0 ==> sent != []
  {
    hide Unsent, Ready, Distinct;
    ghost var before := w.que;
    var ret;
    ghost var k, front;
    ret, sent, k, front := w.SendQue(want);
    assert forall i :: 0 <= i < |before| ==> before[i] in before;
    TailOfAll(w.que, before, all);
  }

  method ReadSome(w: Writer, r: Receiver, chunk: seq<Byte>)
    requires Fits(w, r) && w.Valid() && r.Valid() && !Frame(r.Pending() + chunk).bad
    requires Apart(w, r)
    modifies r, r.hdr, r.rcv, if r.rcv != null then {r.rcv.data} else {}
    ensures Fits(w, r) && w.Valid() && Apart(w, r) && Unsent(w.que) == old(Unsent(w.que)) && w.que == old(w.que)
    ensures r.Valid() && r.got == old(r.got) + Frame(old(r.Pending()) + chunk).msgs
    ensures r.Pending() == Frame(old(r.Pending()) + chunk).rest
    ensures r.rcv == null || r.rcv == old(r.rcv) || (fresh(r.rcv) && fresh(r.rcv.data))
  {
    hide Frame, Unsent;
    var ret := r.Parse(chunk);
  }

  lemma TailOfAll(q: seq<Cache>, mid: seq<Cache>, all: seq<Cache>)
    requires IsTail(q, mid) && IsTail(mid, all)
    ensures IsTail(q, all)
  {
  }

  lemma Nothing(u: seq<Byte>)
    ensures Frame([]) == Frames([], [], false) && [] + ([] + u) == u
  {
  }

  lemma ReadOn(frames: seq<seq<Byte>>, seen: seq<Byte>, wire: seq<Byte>, left: seq<Byte>, k: nat)
    requires (forall f :: f in frames ==> IsFrame(f)) && k <= |wire| && Flat(frames) == seen + (wire + left)
    ensures Flat(frames) == (seen + wire[..k]) + (wire[k..] + left)
    ensures !Frame(seen + wire[..k]).bad
  {
    hide Frame, Flat, IsFrame;
    Split(wire, k);
    Assoc(wire[..k], wire[k..], left);
    Assoc(seen, wire[..k], wire[k..] + left);
    FrameOfPrefix(frames, seen + wire[..k]);
  }

  lemma Reached(frames: seq<seq<Byte>>, seen: seq<Byte>, wire: seq<Byte>, left: seq<Byte>)
    requires (forall f :: f in frames ==> IsFrame(f)) && Flat(frames) == seen + (wire + left)
    ensures Frame(seen).msgs <= frames
    ensures wire == [] && left == [] ==> Frame(seen) == Frames(frames, [], false)
  {
    hide Frame, Flat, IsFrame;
    FrameOfPrefix(frames, seen);
    if wire == [] && left == [] {
      assert seen + (wire + left) == seen;
      FrameOfFlat(frames);
    }
  }
}
