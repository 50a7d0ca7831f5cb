/** The bit operations of the task gate on real 32-bit words, and what they mean.

    `Decode` reads a word as the pair of bit sets of module Gate. The lemmas show that the C
    expressions of BitDoor decide exactly what the set functions of Gate decide, so every result
    about Gate holds of the 32-bit code. */
module BitTool {
  import opened Gate

  // The tables m_low_bits and m_high_bits of BitDoor.

  function LowBit(ev: nat): bv32
    requires ev < EV_MAX
  {
    if ev < 8 then
      if ev < 4 then if ev == 0 then 0x1 else if ev == 1 then 0x2 else if ev == 2 then 0x4 else 0x8
      else if ev == 4 then 0x10 else if ev == 5 then 0x20 else if ev == 6 then 0x40 else 0x80
    else
      if ev < 12 then if ev == 8 then 0x100 else if ev == 9 then 0x200 else if ev == 10 then 0x400 else 0x800
      else if ev == 12 then 0x1000 else if ev == 13 then 0x2000 else if ev == 14 then 0x4000 else 0x8000
  }

  function HighBit(ev: nat): bv32
    requires ev < EV_MAX
  {
    LowBit(ev) << 16
  }

  // The tests of BitDoor::checkin, checkout and isEof. `low` and `high` are the two table entries of
  // the event; their union is the entry of m_mask_bits.

  function Cut(w: bv32, m: bv32): bv32 { w & m }

  predicate Meets(w: bv32, m: bv32) { Cut(w, m) != 0 }

  predicate IsMember(state: bv32, n: bv32) { n == n & state }

  function Join(w: bv32, n: bv32): bv32 { w | n }

  predicate OnlyHigh(was: bv32, low: bv32, high: bv32) { high == was & (low | high) }

  predicate OnlyLow(was: bv32, low: bv32, high: bv32) { low == was & (low | high) }

  function Missing(h: bv32, w: bv32): bv32 { h ^ (w & h) }

  function EndDiff(was: bv32): bv32 { Missing(was >> 16, was) }

  predicate CheckinTest(was: bv32, ev: nat)
    requires ev < EV_MAX
  {
    was == 0 || OnlyHigh(was, LowBit(ev), HighBit(ev))
  }

  predicate CheckinEndTest(was: bv32) {
    was == 0 || EndDiff(was) != 0
  }

  predicate CheckoutTest(was: bv32, ev: nat)
    requires ev < EV_MAX
  {
    !OnlyLow(was, LowBit(ev), HighBit(ev))
  }

  // The abstract value of a word.

  predicate LowOn(w: bv32, e: nat)
    requires e < EV_MAX
  {
    Meets(w, LowBit(e))
  }

  predicate HighOn(w: bv32, e: nat)
    requires e < EV_MAX
  {
    Meets(w >> 16, LowBit(e))
  }

  function Decode(w: bv32): Word {
    Word(set e: nat | e < EV_MAX && LowOn(w, e), set e: nat | e < EV_MAX && HighOn(w, e))
  }

  // Facts about words and one-bit masks of the low half, with no event number in them.

  predicate LowMask(m: bv32) {
    m != 0 && m & (m - 1) == 0 && m & 0xFFFF_0000 == 0
  }

  lemma OrMeets(w: bv32, n: bv32, m: bv32)
    ensures Meets(w | n, m) <==> Meets(w, m) || Meets(n, m)
  {
    hide Cut;
    OrDistributes(w, n, m);
    OrZero(Cut(w, m), Cut(n, m));
  }

  lemma OrDistributes(w: bv32, n: bv32, m: bv32)
    ensures Cut(w | n, m) == Cut(w, m) | Cut(n, m)
  {
  }

  lemma OrZero(a: bv32, b: bv32)
    ensures a | b != 0 <==> a != 0 || b != 0
  {
  }

  lemma ShiftOr(w: bv32, n: bv32)
    ensures (w | n) >> 16 == (w >> 16) | (n >> 16)
  {
  }

  lemma XorMeets(w: bv32, n: bv32, m: bv32)
    requires LowMask(m)
    ensures Meets(w ^ n, m) <==> (Meets(w, m) <==> !Meets(n, m))
    ensures Meets((w ^ n) >> 16, m) <==> (Meets(w >> 16, m) <==> !Meets(n >> 16, m))
  {
  }

  lemma EndDiffMeets(was: bv32, m: bv32)
    requires LowMask(m)
    ensures Meets(EndDiff(was), m) <==> Meets(was >> 16, m) && !Meets(was, m)
  {
    hide Meets, LowMask, Missing;
    MissingMeets(was >> 16, was, m);
  }

  lemma MissingMeets(h: bv32, w: bv32, m: bv32)
    requires LowMask(m)
    ensures Meets(Missing(h, w), m) <==> Meets(h, m) && !Meets(w, m)
  {
    hide LowMask, Missing, Cut;
    OneBit(h, m);
    OneBit(w, m);
    MissingDistributes(h, w, m);
    MissingCases(Cut(h, m), Cut(w, m), m);
  }

  lemma OneBit(x: bv32, m: bv32)
    requires LowMask(m)
    ensures m != 0 && (Cut(x, m) == 0 || Cut(x, m) == m)
  {
  }

  lemma MissingDistributes(h: bv32, w: bv32, m: bv32)
    ensures Cut(Missing(h, w), m) == Missing(Cut(h, m), Cut(w, m))
  {
  }

  lemma MissingCases(h: bv32, w: bv32, m: bv32)
    requires m != 0 && (h == 0 || h == m) && (w == 0 || w == m)
    ensures Missing(h, w) != 0 <==> h != 0 && w == 0
  {
  }

  lemma EndDiffSmall(was: bv32, m: bv32)
    requires LowMask(m)
    ensures !Meets(EndDiff(was) >> 16, m)
  {
  }

  lemma OnlyHighMeets(was: bv32, m: bv32)
    requires LowMask(m)
    ensures OnlyHigh(was, m, m << 16) <==> Meets(was >> 16, m) && !Meets(was, m)
  {
  }

  lemma OnlyLowMeets(was: bv32, m: bv32)
    requires LowMask(m)
    ensures OnlyLow(was, m, m << 16) <==> Meets(was, m) && !Meets(was >> 16, m)
  {
  }

  lemma MemberMeets(was: bv32, m: bv32)
    requires LowMask(m)
    ensures IsMember(was, m) <==> Meets(was, m)
  {
  }

  lemma MasksMeet(m: bv32, n: bv32)
    requires LowMask(m) && LowMask(n)
    ensures Meets(m, n) <==> m == n
    ensures Meets((m << 16) >> 16, n) <==> m == n
    ensures !Meets(m >> 16, n) && !Meets(m << 16, n)
    ensures !Meets(0, n) && !Meets(0 >> 16, n) && Meets(0xFFFF, n) && !Meets(0xFFFF >> 16, n)
  {
  }

  lemma XorZero(w: bv32, v: bv32)
    requires w ^ v == 0
    ensures w == v
  {
  }

  // The table holds the sixteen one-bit masks.

  lemma TableMask(e: nat)
    requires e < EV_MAX
    ensures LowMask(LowBit(e))
  {
  }

  /** The tables as the constructor of BitDoor fills them. */
  lemma TableEntries(ev: nat)
    requires ev < EV_MAX
    ensures LowBit(ev) == (0x1 as bv32) << ev && HighBit(ev) == (0x1_0000 as bv32) << ev
  {
  }

  lemma TableInjective(e: nat, f: nat)
    requires e < EV_MAX && f < EV_MAX
    ensures LowBit(e) == LowBit(f) <==> e == f
  {
  }

  lemma NoBitNoWord(w: bv32)
    requires forall e: nat | e < EV_MAX :: !LowOn(w, e)
    requires forall e: nat | e < EV_MAX :: !HighOn(w, e)
    ensures w == 0
  {
    assert !LowOn(w, 0) && !LowOn(w, 1) && !LowOn(w, 2) && !LowOn(w, 3);
    assert !LowOn(w, 4) && !LowOn(w, 5) && !LowOn(w, 6) && !LowOn(w, 7);
    assert !LowOn(w, 8) && !LowOn(w, 9) && !LowOn(w, 10) && !LowOn(w, 11);
    assert !LowOn(w, 12) && !LowOn(w, 13) && !LowOn(w, 14) && !LowOn(w, 15);
    assert !HighOn(w, 0) && !HighOn(w, 1) && !HighOn(w, 2) && !HighOn(w, 3);
    assert !HighOn(w, 4) && !HighOn(w, 5) && !HighOn(w, 6) && !HighOn(w, 7);
    assert !HighOn(w, 8) && !HighOn(w, 9) && !HighOn(w, 10) && !HighOn(w, 11);
    assert !HighOn(w, 12) && !HighOn(w, 13) && !HighOn(w, 14) && !HighOn(w, 15);
  }

  // The same facts about event numbers.

  lemma ClearIsZero(w: bv32)
    requires Decode(w) == ZERO
    ensures w == 0
  {
    hide LowOn, HighOn;
    forall e: nat | e < EV_MAX
      ensures !LowOn(w, e) && !HighOn(w, e)
    {
      assert e !in Decode(w).low && e !in Decode(w).high;
    }
    NoBitNoWord(w);
  }

  /** Or-ing two words joins their bits. */
  lemma DecodeOr(w: bv32, n: bv32)
    ensures Decode(w | n) == Or(Decode(w), Decode(n))
  {
    hide LowOn, HighOn;
    forall e: nat | e < EV_MAX
      ensures LowOn(w | n, e) <==> LowOn(w, e) || LowOn(n, e)
      ensures HighOn(w | n, e) <==> HighOn(w, e) || HighOn(n, e)
    {
      OnOr(w, n, e);
    }
  }

  lemma OnOr(w: bv32, n: bv32, e: nat)
    requires e < EV_MAX
    ensures LowOn(w | n, e) <==> LowOn(w, e) || LowOn(n, e)
    ensures HighOn(w | n, e) <==> HighOn(w, e) || HighOn(n, e)
  {
    hide Meets, LowBit;
    OrMeets(w, n, LowBit(e));
    OrMeets(w >> 16, n >> 16, LowBit(e));
    ShiftOr(w, n);
  }

  /** Different words have different meanings, so a CAS on words is a CAS on meanings. */
  lemma DecodeInjective(w: bv32, v: bv32)
    requires Decode(w) == Decode(v)
    ensures w == v
  {
    hide Meets, LowBit, LowMask;
    var x := w ^ v;
    forall e: nat | e < EV_MAX
      ensures !LowOn(x, e) && !HighOn(x, e)
    {
      assert e in Decode(w).low <==> e in Decode(v).low;
      assert e in Decode(w).high <==> e in Decode(v).high;
      TableMask(e);
      XorMeets(w, v, LowBit(e));
    }
    NoBitNoWord(x);
    XorZero(w, v);
  }

  lemma DecodeZero()
    ensures Decode(0) == ZERO && Decode(0xFFFF) == ENDING
  {
    hide Meets, LowBit, LowMask;
    forall e: nat | e < EV_MAX
      ensures !LowOn(0, e) && !HighOn(0, e) && LowOn(0xFFFF, e) && !HighOn(0xFFFF, e)
    {
      TableMask(e);
      MasksMeet(LowBit(e), LowBit(e));
    }
  }

  lemma DecodeTable(ev: nat)
    requires ev < EV_MAX
    ensures Decode(LowBit(ev)) == Low(ev) && Decode(HighBit(ev)) == High(ev)
  {
    hide Meets, LowBit, LowMask;
    forall e: nat | e < EV_MAX
      ensures LowOn(LowBit(ev), e) <==> e == ev
      ensures HighOn(HighBit(ev), e) <==> e == ev
      ensures !HighOn(LowBit(ev), e) && !LowOn(HighBit(ev), e)
    {
      TableMask(ev);
      TableMask(e);
      TableInjective(ev, e);
      MasksMeet(LowBit(ev), LowBit(e));
    }
  }

  lemma EndTestMeaning(was: bv32)
    ensures EndDiff(was) == 0 <==> Decode(was).high <= Decode(was).low
  {
    hide Meets, LowBit, LowMask, EndDiff;
    forall e: nat | e < EV_MAX
      ensures LowOn(EndDiff(was), e) <==> e in Decode(was).high && e !in Decode(was).low
      ensures !HighOn(EndDiff(was), e)
    {
      TableMask(e);
      EndDiffMeets(was, LowBit(e));
      EndDiffSmall(was, LowBit(e));
    }
    if Decode(was).high <= Decode(was).low {
      NoBitNoWord(EndDiff(was));
    } else {
      var e :| e in Decode(was).high && e !in Decode(was).low;
      assert LowOn(EndDiff(was), e);
      TableMask(e);
      MasksMeet(LowBit(e), LowBit(e));
    }
  }

  /** The C tests mean what Gate says: who wins a checkin, who wins the END checkin, whether
      checkout leaves the queue; and isEof reads the END bit. */
  lemma TestsMeanGate(was: bv32, ev: nat)
    requires ev < EV_MAX
    ensures CheckinTest(was, ev) <==> Wins(Decode(was), ev)
    ensures CheckinEndTest(was) <==> EndWins(Decode(was))
    ensures CheckoutTest(was, ev) <==> Leaves(Decode(was), ev)
    ensures IsMember(was, LowBit(ev)) <==> ev in Decode(was).low
  {
    hide Meets, LowBit, LowMask, EndDiff, OnlyHigh, OnlyLow, IsMember;
    DecodeZero();
    if Decode(was) == ZERO {
      ClearIsZero(was);
    }
    TableMask(ev);
    OnlyHighMeets(was, LowBit(ev));
    OnlyLowMeets(was, LowBit(ev));
    MemberMeets(was, LowBit(ev));
    EndTestMeaning(was);
  }

  /** An `unsigned int` shared between threads. */
  class Cell {
    var value: bv32

    constructor ()
      ensures value == 0
    {
      value := 0;
    }

    /** CMPXCHG: one atomic step. */
    method CompareExchange(test: bv32, val: bv32) returns (was: bv32)
      modifies this
      ensures was == old(value)
      ensures value == if was == test then val else was
    {
      was := value;
      if was == test {
        value := val;
      }
    }

    /** ATOMIC_SET: one atomic step. */
    method Exchange(val: bv32) returns (was: bv32)
      modifies this
      ensures was == old(value) && value == val
    {
      was := value;
      value := val;
    }
  }

  /** What the cell holds at the k-th CMPXCHG: what another thread has left there, or else what it held before. */
  function At(seen: seq<bv32>, others: seq<bv32>, first: bv32, k: nat): bv32
    requires k <= |seen|
  {
    if k < |others| then others[k] else if k == 0 then first else seen[k - 1]
  }

  /** `seen` are values the cell held, one at each CMPXCHG. */
  ghost predicate Held(seen: seq<bv32>, others: seq<bv32>, first: bv32) {
    forall k :: 0 <= k < |seen| ==> seen[k] == At(seen, others, first, k)
  }

  lemma HeldNone(others: seq<bv32>, first: bv32)
    ensures Held([], others, first)
  {
  }

  lemma HeldNext(seen: seq<bv32>, others: seq<bv32>, first: bv32, v: bv32)
    requires Held(seen, others, first)
    requires v == At(seen, others, first, |seen|)
    ensures Held(seen + [v], others, first)
  {
    var next := seen + [v];
    forall k | 0 <= k < |next|
      ensures next[k] == At(next, others, first, k)
    {
      assert k < |seen| ==> next[k] == seen[k];
    }
  }

  /** The CAS loop. `others[k]` is what the other threads have left in the cell when the k-th CMPXCHG
      happens; they stop interfering when the list is used up. `seen[k]` and `wrote[k]` are the value
      of the cell just before and just after that CMPXCHG.

      Only the last CMPXCHG has an effect, and at that instant the loop is an atomic fetch-or: the
      result is the value of the cell, which becomes `was | n`. */
  method AddBit(cell: Cell, n: bv32, others: seq<bv32>)
    returns (was: bv32, ghost seen: seq<bv32>, ghost wrote: seq<bv32>)
    modifies cell
    ensures |seen| == |wrote|
    ensures n == 0 ==> was == 0 && seen == [] && cell.value == old(cell.value)
    ensures n != 0 ==> seen != [] && was == seen[|seen| - 1]
    ensures n != 0 ==> wrote[|wrote| - 1] == cell.value == Join(was, n)
    ensures forall k :: 0 <= k < |seen| - 1 ==> wrote[k] == seen[k]
    ensures Held(seen, others, old(cell.value))
    ensures seen != [] && others == [] ==> was == old(cell.value)
  {
    hide IsMember, Join, Held;
    var retval := 0;
    var k := 0;
    seen, wrote := [], [];
    HeldNone(others, cell.value);
    while true
      invariant |seen| == |wrote| == k
      invariant forall i :: 0 <= i < k ==> wrote[i] == seen[i]
      invariant Held(seen, others, old(cell.value))
      invariant k == 0 ==> retval == 0 && cell.value == old(cell.value)
      invariant k > 0 ==> retval == cell.value == seen[k - 1] && n != 0
      invariant others == [] ==> cell.value == old(cell.value)
      decreases if k < |others| then |others| - k else 0, if k > 0 && retval == cell.value then 0 else 1
    {
      was := retval;
      ZeroMember(n);
      if IsMember(was, n) {
        if k > 0 {
          MemberAbsorbed(was, n);
        }
        return;
      }
      var newval := Join(was, n);
      if k < |others| {
        cell.value := others[k];
      }
      ghost var before := cell.value;
      retval := cell.CompareExchange(was, newval);
      HeldNext(seen, others, old(cell.value), before);
      seen := seen + [before];
      if retval == was {
        wrote := wrote + [cell.value];
        return;
      }
      wrote := wrote + [cell.value];
      k := k + 1;
    }
  }

  lemma MemberAbsorbed(w: bv32, n: bv32)
    requires IsMember(w, n)
    ensures Join(w, n) == w
  {
  }

  lemma ZeroMember(n: bv32)
    ensures IsMember(0, n) <==> n == 0
  {
  }

  /** BitDoor::checkin. `was` is the value of the word at the instant the bits went in, the last one seen. */
  method Checkin(cell: Cell, ev: nat, others: seq<bv32>) returns (ok: bool, ghost was: bv32, ghost seen: seq<bv32>)
    modifies cell
    ensures UserEvent(ev) ==> seen != [] && was == seen[|seen| - 1] && Held(seen, others, old(cell.value))
    ensures UserEvent(ev) ==> Decode(cell.value) == Or(Decode(was), Low(ev)) && (ok <==> Wins(Decode(was), ev))
    ensures ev == EV_END ==> Decode(cell.value) == ENDING && was == old(cell.value) && (ok <==> EndWins(Decode(was)))
    ensures !UserEvent(ev) && ev != EV_END ==> !ok && cell.value == old(cell.value)
    ensures others == [] && (UserEvent(ev) || ev == EV_END) ==> was == old(cell.value)
  {
    ok, was, seen := false, 0, [];
    if EV_NORM <= ev && EV_END > ev {
      TableMask(ev);
      ghost var wrote;
      var state;
      state, seen, wrote := AddBit(cell, LowBit(ev), others);
      DecodeOr(state, LowBit(ev));
      DecodeTable(ev);
      TestsMeanGate(state, ev);
      ok, was := CheckinTest(state, ev), state;
    } else if EV_END == ev {
      var state := cell.Exchange(0xFFFF);
      DecodeZero();
      TestsMeanGate(state, ev);
      ok, was := CheckinEndTest(state), state;
    }
  }

  /** BitDoor::checkout. */
  method Checkout(cell: Cell, ev: nat, others: seq<bv32>) returns (ok: bool, ghost was: bv32, ghost seen: seq<bv32>)
    requires ev < EV_MAX
    modifies cell
    ensures seen != [] && was == seen[|seen| - 1] && Held(seen, others, old(cell.value))
    ensures Decode(cell.value) == Or(Decode(was), High(ev)) && (ok <==> Leaves(Decode(was), ev))
    ensures others == [] ==> was == old(cell.value)
  {
    HighNonZero(ev);
    ghost var wrote;
    var state;
    state, seen, wrote := AddBit(cell, HighBit(ev), others);
    DecodeOr(state, HighBit(ev));
    DecodeTable(ev);
    TestsMeanGate(state, ev);
    ok, was := CheckoutTest(state, ev), state;
  }

  lemma HighNonZero(ev: nat)
    requires ev < EV_MAX
    ensures HighBit(ev) != 0
  {
  }

  /** BitDoor::lock. */
  method LockWord(cell: Cell) returns (was: bv32)
    modifies cell
    ensures was == old(cell.value) && Decode(cell.value) == LOCKED
  {
    was := cell.Exchange(LowBit(EV_LOCK));
    DecodeTable(EV_LOCK);
  }

  /** BitDoor::release. */
  method ReleaseWord(cell: Cell) returns (ok: bool)
    modifies cell
    ensures ok <==> Decode(old(cell.value)) == LOCKED
    ensures Decode(cell.value) == if ok then ZERO else Decode(old(cell.value))
  {
    var was := cell.CompareExchange(LowBit(EV_LOCK), 0);
    ok := was == LowBit(EV_LOCK);
    DecodeZero();
    DecodeTable(EV_LOCK);
    if Decode(was) == LOCKED {
      DecodeInjective(was, LowBit(EV_LOCK));
    }
  }
}
