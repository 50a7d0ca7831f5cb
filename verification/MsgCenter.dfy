/** Message buffers with their cursor, and the building of messages. */
module MsgCenter {
  import opened Framing

  const DELIM: Byte := 0xAC

  // Bytes of a number, low byte first.

  function Bytes32(n: nat): seq<Byte>
    requires n < 0x1_0000_0000
  {
    [n % 0x100, n / 0x100 % 0x100, n / 0x1_0000 % 0x100, n / 0x100_0000]
  }

  function Bytes16(n: nat): seq<Byte>
    requires n < 0x1_0000
  {
    [n % 0x100, n / 0x100]
  }

  lemma Word32OfBytes(b: seq<Byte>, n: nat)
    requires n < 0x1_0000_0000 && |b| >= 4 && b[..4] == Bytes32(n)
    ensures Word32(b, 0) == n
  {
    assert b[0] == b[..4][0] && b[1] == b[..4][1] && b[2] == b[..4][2] && b[3] == b[..4][3];
    FourDigits(n);
  }

  lemma FourDigits(n: nat)
    requires n < 0x1_0000_0000
    ensures n == n % 0x100 + n / 0x100 % 0x100 * 0x100 + n / 0x1_0000 % 0x100 * 0x1_0000 + n / 0x100_0000 * 0x100_0000
  {
    var q := n / 0x100;
    assert n / 0x1_0000 == q / 0x100;
    assert n / 0x100_0000 == q / 0x100 / 0x100;
  }

  /** A header, field by field in the order of struct MsgHdr. */
  function Header(size: nat, seqno: nat, crc: nat, retcode: nat, version: nat, cmd: nat): (h: seq<Byte>)
    requires size < 0x1_0000_0000 && seqno < 0x1_0000_0000 && crc < 0x1_0000_0000 && retcode < 0x1_0000_0000
    requires version < 0x1_0000 && cmd < 0x1_0000
    ensures |h| == 20 && h[..4] == Bytes32(size) && h[8..12] == Bytes32(crc) && h[16..18] == Bytes16(version)
  {
    Bytes32(size) + Bytes32(seqno) + Bytes32(crc) + Bytes32(retcode) + Bytes16(version) + Bytes16(cmd)
  }

  lemma ReadsHeader(h: seq<Byte>, size: nat, crc: nat, version: nat)
    requires |h| == 20 && size < 0x1_0000_0000 && crc < 0x1_0000_0000 && version < 0x1_0000
    requires h[..4] == Bytes32(size) && h[8..12] == Bytes32(crc) && h[16..18] == Bytes16(version)
    ensures Word32(h, 0) == size && Word32(h, 8) == crc && Word16(h, 16) == version
  {
    Word32OfBytes(h, size);
    Word32OfBytes(h[8..12], crc);
    assert h[8..12][..4] == h[8..12];
    assert h[8] == h[8..12][0] && h[9] == h[8..12][1] && h[10] == h[8..12][2] && h[11] == h[8..12][3];
    assert h[16] == h[16..18][0] && h[17] == h[16..18][1];
  }

  /** What the receiver accepts: a size above that of the header and below 5 MB, the version 0x0814 and no m_crc,
      whatever m_seq, m_retcode and m_cmd are. With the bytes that m_size asks for it is then one message. */
  lemma HeaderMeans(size: nat, seqno: nat, crc: nat, retcode: nat, version: nat, cmd: nat, body: seq<Byte>)
    requires size < 0x1_0000_0000 && seqno < 0x1_0000_0000 && crc < 0x1_0000_0000 && retcode < 0x1_0000_0000
    requires version < 0x1_0000 && cmd < 0x1_0000
    ensures var h := Header(size, seqno, crc, retcode, version, cmd);
      && (Frame(h).bad <==> !(20 < size < 0x50_0000 && version == 0x0814 && crc == 0))
      && (!Frame(h).bad ==> (Frame(h + body).msgs == [] <==> |body| < size - 20))
      && (!Frame(h).bad && |body| == size - 20 ==> Frame(h + body) == Frames([h + body], [], false))
  {
    hide Frame, Bytes32, Bytes16, Header, Word32, Word16;
    var h := Header(size, seqno, crc, retcode, version, cmd);
    ReadsHeader(h, size, crc, version);
    FrameOfHeader(h, body);
  }

  lemma FrameOfHeader(h: seq<Byte>, body: seq<Byte>)
    requires |h| == HEADER
    ensures Frame(h).bad == !GoodHeader(h)
    ensures GoodHeader(h) ==> (Frame(h + body).msgs == [] <==> HEADER + |body| < SizeOf(h))
    ensures GoodHeader(h) && HEADER + |body| == SizeOf(h) ==> Frame(h + body) == Frames([h + body], [], false)
  {
    hide GoodHeader, SizeOf;
    assert h[..HEADER] == h && (h + body)[..HEADER] == h;
    if GoodHeader(h) && HEADER + |body| == SizeOf(h) {
      assert (h + body)[..SizeOf(h)] == h + body && (h + body)[SizeOf(h)..] == [];
    }
  }

  /** A buffer of CacheCenter: its bytes, how many of them hold data, and the cursor. */
  class Cache {
    const data: array<Byte>
    var size: nat
    var pos: nat

    ghost predicate Valid()
      reads this
    {
      pos <= data.Length && size <= data.Length
    }

    /** The data not used yet. */
    ghost function Unused(): seq<Byte>
      requires Valid()
      reads this, data
    {
      if pos <= size then data[pos..size] else []
    }

    /** MsgCenter::creat: an empty buffer whose header holds its size and the version. */
    constructor (capacity: nat)
      requires HEADER <= capacity < 0x8000_0000
      ensures Valid() && fresh(data) && data.Length == capacity && size == 0 && pos == 0
      ensures data[..HEADER] == Bytes32(capacity) + seq(12, _ => 0) + Bytes16(MSG_VER) + [0, 0]
    {
      var h := Bytes32(capacity) + seq(12, _ => 0) + Bytes16(MSG_VER) + [0, 0];
      data := new Byte[capacity](i => if 0 <= i < HEADER then h[i] else 0);
      size, pos := 0, 0;
      new;
      assert data[..HEADER] == h;
    }

    /** left: the space still to fill. */
    function Left(): (n: nat)
      requires Valid()
      reads this
      ensures n == 0 <==> pos == data.Length
    {
      data.Length - pos
    }

    /** remain: how much data is not used yet. */
    function Remain(): (n: int)
      requires Valid() && pos <= size
      reads this, data
      ensures n == |Unused()|
    {
      size - pos
    }

    method Append(chunk: seq<Byte>)
      requires Valid() && |chunk| <= Left()
      modifies `pos, data
      ensures Valid() && pos == old(pos) + |chunk|
      ensures data[..pos] == old(data[..pos]) + chunk
      ensures data[pos..] == old(data[pos + |chunk|..])
    {
      forall i | 0 <= i < |chunk| {
        data[pos + i] := chunk[i];
      }
      pos := pos + |chunk|;
    }

    /** flip: what was filled becomes the data, to be used from its start. */
    method Flip()
      requires Valid()
      modifies `size, `pos
      ensures Valid() && pos == 0 && size == old(pos) && Unused() == old(data[..pos])
    {
      size := pos;
      pos := 0;
    }

    method Skip(n: nat)
      requires Valid() && n <= Left()
      modifies `pos
      ensures Valid() && pos == old(pos) + n
      ensures old(pos) + n <= size ==> old(Unused()) == data[old(pos)..pos] + Unused()
    {
      pos := pos + n;
      assert old(pos) + n <= size ==> data[old(pos)..size] == data[old(pos)..pos] + data[pos..size];
    }
  }

  /** DefSockCb::creatMsg: a message of header, data and one delimiter. */
  method CreatMsg(cmd: nat, data: seq<Byte>) returns (msg: Cache)
    requires cmd < 0x1_0000 && HEADER + 1 + |data| < 0x8000_0000
    ensures fresh(msg) && fresh(msg.data) && msg.Valid() && msg.pos == 0
    ensures msg.Unused() == Header(21 + |data|, 0, 0, 0, 0x0814, cmd) + (data + [0xAC])
    ensures IsFrame(msg.Unused()) <==> 21 + |data| < 0x50_0000
  {
    hide IsFrame, GoodHeader, SizeOf, Bytes32, Bytes16, Header;
    msg := new Cache(HEADER + 1 + |data|);
    ghost var h := msg.data[..HEADER];
    msg.data[18], msg.data[19] := cmd % 0x100, cmd / 0x100;
    assert msg.data[..18] == h[..18];
    msg.Skip(HEADER);
    ghost var d := msg.data[..HEADER];
    msg.Append(data);
    assert msg.data[..HEADER + |data|] == d + data;
    msg.Append([DELIM]);
    assert msg.data[..] == d + (data + [DELIM]);
    msg.Flip();
    BuiltMessage(msg.Unused(), d, h, cmd, data);
  }

  lemma BuiltMessage(f: seq<Byte>, d: seq<Byte>, h: seq<Byte>, cmd: nat, data: seq<Byte>)
    requires HEADER + 1 + |data| < 0x8000_0000 && |d| == |h| == HEADER && d[..18] == h[..18]
    requires cmd < 0x1_0000 && d[18] == cmd % 0x100 && d[19] == cmd / 0x100
    requires h == Bytes32(HEADER + 1 + |data|) + seq(12, _ => 0) + Bytes16(MSG_VER) + [0, 0]
    requires f == d + (data + [DELIM])
    ensures f == Header(21 + |data|, 0, 0, 0, 0x0814, cmd) + (data + [0xAC])
    ensures IsFrame(f) <==> 21 + |data| < 0x50_0000
  {
    hide IsFrame, GoodHeader, SizeOf, Bytes32, Bytes16, Header;
    BuiltHeader(d, h, cmd, HEADER + 1 + |data|);
    FrameIfSmall(d, data + [DELIM]);
  }

  lemma BuiltHeader(d: seq<Byte>, h: seq<Byte>, cmd: nat, n: nat)
    requires HEADER <= n < 0x8000_0000 && |d| == |h| == HEADER && d[..18] == h[..18]
    requires cmd < 0x1_0000 && d[18] == cmd % 0x100 && d[19] == cmd / 0x100
    requires h == Bytes32(n) + seq(12, _ => 0) + Bytes16(MSG_VER) + [0, 0]
    ensures d == Header(n, 0, 0, 0, MSG_VER, cmd)
    ensures SizeOf(d) == n && (GoodHeader(d) <==> HEADER < n < MAX_MSG_SIZE)
  {
    assert forall i :: 0 <= i < 18 ==> d[i] == d[..18][i] && h[i] == h[..18][i];
    ReadsHeader(d, n, 0, MSG_VER);
  }

  lemma FrameIfSmall(d: seq<Byte>, body: seq<Byte>)
    requires |d| == HEADER && SizeOf(d) == HEADER + |body|
    ensures IsFrame(d + body) <==> GoodHeader(d)
  {
    hide GoodHeader, SizeOf;
    assert (d + body)[..HEADER] == d[..HEADER];
    SameHeader(d + body, d);
  }
}
