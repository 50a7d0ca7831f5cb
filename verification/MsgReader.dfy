/** The incremental parser of a node: whatever the chunks, it dispatches the frames of the stream. */
module MsgReader {
  import opened Framing
  import opened MsgCenter

  /** The receive side of a node: m_rdlen, the header buffer, the message being received, and the contents
      of the messages dispatched so far. */
  class Receiver {
    var rdlen: nat
    const hdr: array<Byte>
    var rcv: Cache?
    ghost var got: seq<seq<Byte>>

    /** No message is being received; rdlen bytes of a header are in the buffer. */
    ghost predicate Idle()
      reads this
    {
      hdr.Length == HEADER && rcv == null && rdlen < HEADER
    }

    /** A message with an accepted header is there, at least its header. */
    ghost predicate Taking()
      reads this, rcv, if rcv == null then {} else {rcv.data}
    {
      && hdr.Length == HEADER && rcv != null && rcv.data != hdr && rcv.Valid()
      && HEADER <= rcv.pos && rdlen == HEADER
      && GoodHeader(rcv.data[..HEADER]) && SizeOf(rcv.data[..HEADER]) == rcv.data.Length
    }

    /** It is not complete yet. */
    ghost predicate Busy()
      reads this, rcv, if rcv == null then {} else {rcv.data}
    {
      Taking() && rcv.pos < rcv.data.Length
    }

    ghost predicate Valid()
      reads this, rcv, if rcv == null then {} else {rcv.data}
    {
      Idle() || Busy()
    }

    /** The bytes received after the last message dispatched. */
    ghost function Pending(): seq<Byte>
      requires Valid()
      reads this, hdr, rcv, if rcv == null then {} else {rcv.data}
    {
      if rcv == null then hdr[..rdlen] else rcv.data[..rcv.pos]
    }

    constructor ()
      ensures Valid() && fresh(hdr) && Pending() == [] && got == [] && rcv == null
    {
      rdlen, rcv, got := 0, null, [];
      hdr := new Byte[HEADER](_ => 0);
    }

    /** The header is checked and a buffer of its size created. */
    method ParseHeader(h: seq<Byte>) returns (ret: int)
      requires |h| >= HEADER
      modifies `rcv
      ensures ret == 0 <==> GoodHeader(h[..HEADER])
      ensures ret == 0 ==> rcv != null && fresh(rcv) && fresh(rcv.data) && rcv.Valid() && rcv.pos == 0
                           && rcv.data.Length == SizeOf(h[..HEADER]) > HEADER
      ensures ret != 0 ==> rcv == old(rcv)
    {
      if GoodHeader(h[..HEADER]) {
        rcv := new Cache(SizeOf(h[..HEADER]));
        ret := 0;
      } else {
        ret := -1;
      }
    }

    method Dispatch()
      requires rcv != null ==> rcv.Valid()
      modifies `rcv, `rdlen, `got, rcv
      ensures old(rcv) == null ==> got == old(got) && rdlen == old(rdlen) && rcv == null
      ensures old(rcv) != null ==> got == old(got) + [old(rcv.data[..rcv.pos])] && rdlen == 0 && rcv == null
    {
      if rcv != null {
        rcv.Flip();
        got := got + [rcv.Unused()];
        rcv := null;
        rdlen := 0;
      }
    }

    /** Whole frames are taken straight from the chunk; what is left of it starts the next message. */
    method ParseNextBody(chunk: seq<Byte>) returns (ret: int)
      requires Idle() && rdlen == 0
      modifies this, hdr
      ensures got == old(got) + Frame(chunk).msgs
      ensures ret == 0 <==> !Frame(chunk).bad
      ensures ret == 0 ==> Valid() && Pending() == Frame(chunk).rest
      ensures rcv == null || (fresh(rcv) && fresh(rcv.data))
    {
      hide GoodHeader, Frame, Whole, SizeOf;
      var buf := chunk;
      ghost var msgs: seq<seq<Byte>> := [];
      NoneYet(chunk);
      while 0 < |buf|
        invariant Idle() && rdlen == 0
        invariant got == old(got) + msgs
        invariant Frame(chunk) == Then(Frames(msgs, [], false), Frame(buf))
        decreases |buf|
      {
        if HEADER <= |buf| {
          assert rcv == null;  // no message is overwritten
          ret := ParseHeader(buf);
          if ret == 0 {
            var left := rcv.Left();
            if left <= |buf| {
              WholeFirst(buf, left);
              rcv.Append(buf[..left]);
              assert rcv.data[..rcv.pos] == buf[..left];
              msgs := msgs + [buf[..left]];
              OneMore(chunk, msgs, buf, left);
              buf := buf[left..];
              Dispatch();
            } else {
              TooShort(buf);
              rcv.Append(buf);
              assert rcv.data[..rcv.pos] == buf && rcv.data[..HEADER] == buf[..HEADER];
              rdlen := HEADER;
              return 0;
            }
          } else {
            Refused(buf);
            return;
          }
        } else {
          TooShort(buf);
          forall i | 0 <= i < |buf| {
            hdr[i] := buf[i];
          }
          rdlen := |buf|;
          assert hdr[..rdlen] == buf;
          return 0;
        }
      }
      TooShort(buf);
      return 0;
    }

    /** The message being received is filled up; what is left of the chunk follows it. */
    method ParseBody(buf: seq<Byte>) returns (ret: int)
      requires Taking()
      modifies this, hdr, rcv, rcv.data
      ensures got == old(got) + Frame(old(rcv.data[..rcv.pos]) + buf).msgs
      ensures ret == 0 <==> !Frame(old(rcv.data[..rcv.pos]) + buf).bad
      ensures ret == 0 ==> Valid() && Pending() == Frame(old(rcv.data[..rcv.pos]) + buf).rest
      ensures rcv == null || rcv == old(rcv) || (fresh(rcv) && fresh(rcv.data))
    {
      hide GoodHeader, Frame, Whole, SizeOf;
      ghost var part := rcv.data[..rcv.pos];
      assert part[..HEADER] == rcv.data[..HEADER];
      var left := rcv.Left();
      if 0 < left {
        if left <= |buf| {
          Filled(part, buf, left);
          rcv.Append(buf[..left]);
          assert rcv.data[..rcv.pos] == part + buf[..left];
          Dispatch();
          ret := ParseNextBody(buf[left..]);
          Assoc(old(got), [part + buf[..left]], Frame(buf[left..]).msgs);
        } else {
          Unfilled(part, buf);
          rcv.Append(buf);
          assert rcv.data[..rcv.pos] == part + buf;
          assert rcv.data[..HEADER] == old(rcv.data[..HEADER]) by {
            assert rcv.data[..HEADER] == rcv.data[..rcv.pos][..HEADER] == part[..HEADER];
          }
          ret := 0;
        }
      } else {
        Filled(part, buf, 0);
        assert part + buf[..0] == part && buf[0..] == buf;
        Dispatch();
        ret := ParseNextBody(buf);
        Assoc(old(got), [part], Frame(buf).msgs);
      }
    }

    /** A chunk: the messages dispatched and what is pending are the frames and the rest of what was
        pending followed by the chunk; the chunk is refused exactly when a header of it is. */
    method Parse(chunk: seq<Byte>) returns (ret: int)
      requires Valid()
      modifies this, hdr, rcv, if rcv != null then {rcv.data} else {}
      ensures got == old(got) + Frame(old(Pending()) + chunk).msgs
      ensures ret == 0 <==> !Frame(old(Pending()) + chunk).bad
      ensures ret == 0 ==> Valid() && Pending() == Frame(old(Pending()) + chunk).rest
      ensures rcv == null || rcv == old(rcv) || (fresh(rcv) && fresh(rcv.data))
    {
      hide GoodHeader, Frame, Whole;
      if rdlen < HEADER {
        ghost var part := Pending();
        var buf, left := chunk, HEADER - rdlen;
        if left <= |buf| {
          Copy(buf[..left]);
          buf := buf[left..];
          assert part + chunk == hdr[..] + buf;
          assert (hdr[..] + buf)[..HEADER] == hdr[..] == hdr[..][..HEADER];
          assert rcv == null;  // no message is overwritten
          ret := ParseHeader(hdr[..]);
          if ret == 0 {
            rcv.Append(hdr[..]);
            assert rcv.data[..rcv.pos] == hdr[..] && rcv.data[..HEADER] == hdr[..];
            assert hdr[..][..HEADER] == hdr[..];
            ret := ParseBody(buf);
          } else {
            Refused(part + chunk);
          }
        } else {
          TooShort(part + chunk);
          Copy(buf);
          ret := 0;
        }
      } else {
        ret := ParseBody(chunk);
      }
    }

    /** memcpy behind the part of a header that is there. */
    method Copy(b: seq<Byte>)
      requires hdr.Length == HEADER && rdlen + |b| <= HEADER
      modifies `rdlen, hdr
      ensures rdlen == old(rdlen) + |b| && hdr[..rdlen] == old(hdr[..rdlen]) + b
    {
      forall i | 0 <= i < |b| {
        hdr[rdlen + i] := b[i];
      }
      rdlen := rdlen + |b|;
    }

    /** The chunks of a stream one after the other, until one is refused: however the stream is cut, the
        messages, the pending bytes and the verdict are those of the whole stream. */
    method ReadAll(chunks: seq<seq<Byte>>) returns (ok: bool)
      requires Valid()
      modifies this, hdr, rcv, if rcv != null then {rcv.data} else {}
      ensures got == old(got) + Frame(old(Pending()) + Flat(chunks)).msgs
      ensures ok <==> !Frame(old(Pending()) + Flat(chunks)).bad
      ensures ok ==> Valid() && Pending() == Frame(old(Pending()) + Flat(chunks)).rest
    {
      hide Frame, GoodHeader;
      var i := 0;
      ok := true;
      ghost var start := Pending();
      PendingIsRest();
      assert start + Flat(chunks[..0]) == start;
      assert old(got) + [] == got;
      while i < |chunks| && ok
        invariant 0 <= i <= |chunks|
        invariant got == old(got) + Frame(start + Flat(chunks[..i])).msgs
        invariant ok <==> !Frame(start + Flat(chunks[..i])).bad
        invariant ok ==> Valid() && Pending() == Frame(start + Flat(chunks[..i])).rest
        invariant rcv == null || rcv == old(rcv) || (fresh(rcv) && fresh(rcv.data))
      {
        ghost var before := start + Flat(chunks[..i]);
        FrameAppend(before, chunks[i]);
        NextChunk(start, chunks, i);
        Assoc(old(got), Frame(before).msgs, Frame(Frame(before).rest + chunks[i]).msgs);
        var ret := Parse(chunks[i]);
        ok := ret == 0;
        i := i + 1;
      }
      LastChunk(start, chunks, i);
    }

    lemma PendingIsRest()
      requires Valid()
      ensures Frame(Pending()) == Frames([], Pending(), false)
    {
      if rcv != null {
        assert Pending()[..HEADER] == rcv.data[..HEADER];
      }
      TooShort(Pending());
    }
  }

  // The frames of a chunk that is worked off from its front.

  lemma NoneYet(chunk: seq<Byte>)
    ensures Frame(chunk) == Then(Frames([], [], false), Frame(chunk))
  {
    NoneBefore(Frame(chunk));
  }

  lemma WholeFirst(buf: seq<Byte>, left: nat)
    requires |buf| >= HEADER && GoodHeader(buf[..HEADER]) && left == SizeOf(buf[..HEADER]) <= |buf|
    ensures Whole(buf) && First(buf) == left
    ensures Frame(buf) == Then(Frames([buf[..left]], [], false), Frame(buf[left..]))
  {
  }

  lemma OneMore(chunk: seq<Byte>, msgs: seq<seq<Byte>>, buf: seq<Byte>, left: nat)
    requires msgs != [] && left <= |buf|
    requires Frame(chunk) == Then(Frames(msgs[..|msgs| - 1], [], false), Frame(buf))
    requires Frame(buf) == Then(Frames([msgs[|msgs| - 1]], [], false), Frame(buf[left..]))
    ensures Frame(chunk) == Then(Frames(msgs, [], false), Frame(buf[left..]))
  {
    hide Frame;
    Assoc(msgs[..|msgs| - 1], [msgs[|msgs| - 1]], Frame(buf[left..]).msgs);
    assert msgs[..|msgs| - 1] + [msgs[|msgs| - 1]] == msgs;
  }

  lemma TooShort(buf: seq<Byte>)
    requires |buf| < HEADER || (GoodHeader(buf[..HEADER]) && |buf| < SizeOf(buf[..HEADER]))
    ensures Frame(buf) == Frames([], buf, false)
  {
  }

  lemma Refused(buf: seq<Byte>)
    requires |buf| >= HEADER && !GoodHeader(buf[..HEADER])
    ensures Frame(buf) == Frames([], buf, true)
  {
  }

  lemma Filled(part: seq<Byte>, buf: seq<Byte>, left: nat)
    requires |part| >= HEADER && GoodHeader(part[..HEADER]) && left <= |buf|
    requires |part| + left == SizeOf(part[..HEADER])
    ensures Frame(part + buf) == Then(Frames([part + buf[..left]], [], false), Frame(buf[left..]))
  {
    hide GoodHeader, Frame, SizeOf;
    assert (part + buf)[..HEADER] == part[..HEADER];
    CutAfter(part, buf, left);
    WholeFirst(part + buf, |part| + left);
  }

  lemma CutAfter<T>(a: seq<T>, b: seq<T>, n: nat)
    requires n <= |b|
    ensures (a + b)[..|a| + n] == a + b[..n] && (a + b)[|a| + n..] == b[n..]
  {
  }

  lemma Unfilled(part: seq<Byte>, buf: seq<Byte>)
    requires |part| >= HEADER && GoodHeader(part[..HEADER]) && |part| + |buf| < SizeOf(part[..HEADER])
    ensures Frame(part + buf) == Frames([], part + buf, false)
  {
    hide GoodHeader, Frame, SizeOf;
    assert (part + buf)[..HEADER] == part[..HEADER];
    TooShort(part + buf);
  }

  lemma NextChunk(start: seq<Byte>, chunks: seq<seq<Byte>>, i: nat)
    requires i < |chunks|
    ensures start + Flat(chunks[..i + 1]) == (start + Flat(chunks[..i])) + chunks[i]
  {
    assert chunks[..i + 1] == chunks[..i] + [chunks[i]];
    FlatAppend(chunks[..i], [chunks[i]]);
    FlatOne(chunks[i]);
    Assoc(start, Flat(chunks[..i]), chunks[i]);
  }

  /** A refused header decides the whole stream. */
  lemma LastChunk(start: seq<Byte>, chunks: seq<seq<Byte>>, i: nat)
    requires i <= |chunks| && (i == |chunks| || Frame(start + Flat(chunks[..i])).bad)
    ensures var f, g := Frame(start + Flat(chunks[..i])), Frame(start + Flat(chunks));
      f.msgs == g.msgs && f.bad == g.bad && (i == |chunks| ==> f.rest == g.rest)
  {
    hide Frame;
    if i == |chunks| {
      assert chunks[..i] == chunks;
    } else {
      FlatAppend(chunks[..i], chunks[i..]);
      Split(chunks, i);
      Assoc(start, Flat(chunks[..i]), Flat(chunks[i..]));
      FrameAppend(start + Flat(chunks[..i]), Flat(chunks[i..]));
    }
  }
}
