/** The frames of the byte stream between two nodes, as one pass over the whole stream. */
module Framing {
  const HEADER: nat := 20
  const MAX_MSG_SIZE: nat := 0x500000
  const MSG_VER: nat := 0x0814

  type Byte = x: int | 0 <= x < 256

  // struct MsgHdr, packed, little-endian: m_size at 0, m_seq at 4, m_crc at 8, m_retcode at 12,
  // m_version at 16, m_cmd at 18.

  function Word32(b: seq<Byte>, i: nat): nat
    requires i + 4 <= |b|
  {
    b[i] as int + 0x100 * (b[i + 1] as int) + 0x1_0000 * (b[i + 2] as int) + 0x100_0000 * (b[i + 3] as int)
  }

  function Word16(b: seq<Byte>, i: nat): nat
    requires i + 2 <= |b|
  {
    b[i] as int + 0x100 * (b[i + 1] as int)
  }

  /** m_size is a signed number. */
  function SizeOf(h: seq<Byte>): int
    requires |h| >= HEADER
  {
    var w := Word32(h, 0);
    if w < 0x8000_0000 then w else w - 0x1_0000_0000
  }

  /** chkHeader. */
  predicate GoodHeader(h: seq<Byte>)
    requires |h| >= HEADER
  {
    HEADER < SizeOf(h) < MAX_MSG_SIZE && Word16(h, 16) == MSG_VER && Word32(h, 8) == 0
  }

  /** A whole frame. */
  predicate IsFrame(f: seq<Byte>) {
    |f| >= HEADER && GoodHeader(f) && |f| == SizeOf(f)
  }

  /** What a stream holds: its whole frames, the bytes after them, and whether these begin with a header
      that is refused. */
  datatype Frames = Frames(msgs: seq<seq<Byte>>, rest: seq<Byte>, bad: bool)

  /** The stream starts with a whole frame. */
  predicate Whole(s: seq<Byte>) {
    |s| >= HEADER && GoodHeader(s[..HEADER]) && |s| >= SizeOf(s[..HEADER])
  }

  function First(s: seq<Byte>): (n: nat)
    requires Whole(s)
    ensures HEADER < n <= |s|
  {
    SizeOf(s[..HEADER])
  }

  function Frame(s: seq<Byte>): Frames
    decreases |s|
  {
    if Whole(s) then
      var more := Frame(s[First(s)..]);
      Frames([s[..First(s)]] + more.msgs, more.rest, more.bad)
    else Frames([], s, |s| >= HEADER && !GoodHeader(s[..HEADER]))
  }

  function Flat(q: seq<seq<Byte>>): seq<Byte> {
    if q == [] then [] else q[0] + Flat(q[1..])
  }

  lemma Assoc<T>(a: seq<T>, b: seq<T>, c: seq<T>)
    ensures a + (b + c) == (a + b) + c
  {
  }

  lemma Split<T>(s: seq<T>, n: nat)
    requires n <= |s|
    ensures s[..n] + s[n..] == s
  {
  }

  lemma {:induction false} FlatAppend(a: seq<seq<Byte>>, b: seq<seq<Byte>>)
    ensures Flat(a + b) == Flat(a) + Flat(b)
  {
    if a == [] {
      assert a + b == b;
    } else {
      FlatAppend(a[1..], b);
      assert (a + b)[1..] == a[1..] + b;
      Assoc(a[0], Flat(a[1..]), Flat(b));
    }
  }

  lemma FlatOne(f: seq<Byte>)
    ensures Flat([f]) == f
  {
    assert [f][1..] == [];
  }

  lemma SameHeader(a: seq<Byte>, b: seq<Byte>)
    requires |a| >= HEADER && |b| >= HEADER && a[..HEADER] == b[..HEADER]
    ensures SizeOf(a) == SizeOf(b) && GoodHeader(a) == GoodHeader(b)
  {
    assert forall i :: 0 <= i < HEADER ==> a[i] == a[..HEADER][i];
    assert forall i :: 0 <= i < HEADER ==> b[i] == b[..HEADER][i];
  }

  lemma FirstIsFrame(s: seq<Byte>)
    requires Whole(s)
    ensures IsFrame(s[..First(s)])
  {
    assert s[..First(s)][..HEADER] == s[..HEADER];
    SameHeader(s[..First(s)], s[..HEADER]);
  }

  /** A whole frame at the start stays there when the stream goes on. */
  lemma WholeStays(a: seq<Byte>, b: seq<Byte>)
    requires |a| >= HEADER
    ensures GoodHeader((a + b)[..HEADER]) == GoodHeader(a[..HEADER])
    ensures Whole(a) ==> Whole(a + b) && First(a + b) == First(a)
    ensures Whole(a) ==> (a + b)[..First(a)] == a[..First(a)] && (a + b)[First(a)..] == a[First(a)..] + b
  {
    assert (a + b)[..HEADER] == a[..HEADER];
  }

  /** Nothing is lost: the frames and the rest are the stream, each message is a frame, and the rest
      holds no whole frame. */
  lemma {:induction false} FrameKeepsAll(s: seq<Byte>)
    ensures Flat(Frame(s).msgs) + Frame(s).rest == s
    ensures forall f :: f in Frame(s).msgs ==> IsFrame(f)
    ensures !Whole(Frame(s).rest)
    ensures Frame(s).bad <==> |Frame(s).rest| >= HEADER && !GoodHeader(Frame(s).rest[..HEADER])
    decreases |s|
  {
    if Whole(s) {
      var n, more := First(s), Frame(s[First(s)..]);
      assert Frame(s) == Frames([s[..n]] + more.msgs, more.rest, more.bad);
      hide Frame, Whole, GoodHeader, Flat, First;
      FrameKeepsAll(s[n..]);
      FirstIsFrame(s);
      FlatCons(s[..n], more.msgs);
      Assoc(s[..n], Flat(more.msgs), more.rest);
      Split(s, n);
    }
  }

  lemma FlatCons(f: seq<Byte>, q: seq<seq<Byte>>)
    ensures Flat([f] + q) == f + Flat(q)
  {
    assert ([f] + q)[1..] == q;
  }

  /** The frames of a, then those of b. */
  function Then(a: Frames, b: Frames): Frames {
    Frames(a.msgs + b.msgs, b.rest, b.bad)
  }

  /** Reading on: the frames of a longer stream are the frames so far, then those of the rest with what
      is added; a refused header ends it for good. */
  lemma {:induction false} FrameAppend(a: seq<Byte>, b: seq<Byte>)
    ensures Frame(a).bad ==> Frame(a + b) == Frames(Frame(a).msgs, Frame(a).rest + b, true)
    ensures !Frame(a).bad ==> Frame(a + b) == Then(Frame(a), Frame(Frame(a).rest + b))
    decreases |a|, 1
  {
    if Whole(a) {
      WholeAppend(a, b);
    } else {
      hide GoodHeader;
      if |a| >= HEADER {
        WholeStays(a, b);
      }
      NoneBefore(Frame(a + b));
    }
  }

  lemma NoneBefore(f: Frames)
    ensures Then(Frames([], [], false), f) == f
  {
    assert [] + f.msgs == f.msgs;
  }

  lemma {:induction false} WholeAppend(a: seq<Byte>, b: seq<Byte>)
    requires Whole(a)
    ensures Frame(a).bad ==> Frame(a + b) == Frames(Frame(a).msgs, Frame(a).rest + b, true)
    ensures !Frame(a).bad ==> Frame(a + b) == Then(Frame(a), Frame(Frame(a).rest + b))
    decreases |a|, 0
  {
    var n := First(a);
    WholeStays(a, b);
    var f, g := Frame(a[n..]), Frame(a[n..] + b);
    assert Frame(a) == Frames([a[..n]] + f.msgs, f.rest, f.bad);
    assert Frame(a + b) == Frames([a[..n]] + g.msgs, g.rest, g.bad);
    hide Frame, Whole, GoodHeader, First;
    FrameAppend(a[n..], b);
    Assoc([a[..n]], f.msgs, Frame(f.rest + b).msgs);
  }

  /** Round trip: the frames of a stream of frames are those frames. */
  lemma {:induction false} FrameOfFlat(q: seq<seq<Byte>>)
    requires forall f :: f in q ==> IsFrame(f)
    ensures Frame(Flat(q)) == Frames(q, [], false)
  {
    if q != [] {
      FrameOfFlat(q[1..]);
      FrameFirst(q[0], Flat(q[1..]));
      assert q == [q[0]] + q[1..];
    }
  }

  lemma FrameFirst(f: seq<Byte>, s: seq<Byte>)
    requires IsFrame(f)
    ensures Whole(f + s) && First(f + s) == |f| && (f + s)[..|f|] == f && (f + s)[|f|..] == s
  {
    SameHeader(f, f[..HEADER]);
    assert (f + s)[..HEADER] == f[..HEADER];
  }

  /** At every moment of the transfer of a stream of frames what has been read is a prefix of the frames,
      and no header is refused. */
  lemma FrameOfPrefix(q: seq<seq<Byte>>, s: seq<Byte>)
    requires (forall f :: f in q ==> IsFrame(f)) && s <= Flat(q)
    ensures !Frame(s).bad && Frame(s).msgs <= q
  {
    hide Frame;
    FrameOfFlat(q);
    FrameAppend(s, Flat(q)[|s|..]);
    assert s + Flat(q)[|s|..] == Flat(q);
  }
}
