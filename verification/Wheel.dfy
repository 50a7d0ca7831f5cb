/** When a timer fires: the deadline of an interval armed at a given tick. Ticks are counted here without
    wrap-around; module TickTimer keeps the 32-bit counter. */
module Wheel {
  const SIZE: nat := 256
  const ROUND: nat := 65536
  const WRAP: nat := 0x1_0000_0000

  type Uint32 = x: nat | x < WRAP

  /** The deadline of a timer armed at tick t with interval i: the next time the wheel comes by its slot.
      A short interval goes into the first level, a long one into the second, whose slot number is all
      that is left of the tick it expires at. */
  function Due(t: nat, i: nat): nat {
    if i == 0 then t + SIZE
    else if i < SIZE then t + i
    else
      var turns := (t + i) / SIZE - t / SIZE;
      t + i - (turns - 1) / SIZE * ROUND
  }

  /** k is how long a long timer waits: it agrees with the interval modulo a full round of the second
      level and reaches past the end of the current turn of the first. */
  predicate Waits(t: nat, i: nat, k: int) {
    k % ROUND == i % ROUND && k > 255 - t % SIZE
  }

  /** A timer armed with a long interval fires after the least such k. */
  lemma LongInterval(t: nat, i: nat)
    requires i >= SIZE
    ensures Waits(t, i, Due(t, i) - t)
    ensures forall k :: Waits(t, i, k) ==> Due(t, i) - t <= k
    ensures t / SIZE < Due(t, i) / SIZE <= t / SIZE + SIZE
    ensures Due(t, i) % ROUND == (t + i) % ROUND
  {
    var b, d := t % SIZE, (t + i) % SIZE;
    var turns := (t + i) / SIZE - t / SIZE;
    var q, r := (turns - 1) / SIZE, (turns - 1) % SIZE;
    var k := i - q * ROUND;
    assert Due(t, i) == t + k;
    assert k == (r + 1) * SIZE + d - b;
    assert t + k == (t / SIZE + r + 1) * SIZE + d;
    SameRound(i, q);
    SameRound(t + i, q);
    forall k' | Waits(t, i, k')
      ensures k <= k'
    {
      Congruent(k', k);
    }
  }

  lemma SameRound(x: int, q: int)
    ensures (x - q * ROUND) % ROUND == x % ROUND
  {
  }

  lemma Congruent(x: int, y: int)
    requires x % ROUND == y % ROUND
    ensures x < y ==> x + ROUND <= y
  {
  }

  /** No timer is late, and it is exact if and only if the interval fits. */
  lemma NeverLate(t: nat, i: nat)
    requires i >= 1
    ensures t < Due(t, i) <= t + i
    ensures Due(t, i) == t + i <==> i <= 65791 - t % SIZE
  {
    if i >= SIZE {
      LongInterval(t, i);
      var turns := (t + i) / SIZE - t / SIZE;
      assert (turns - 1) / SIZE == 0 <==> turns <= SIZE;
    }
  }

  /** Intervals up to a full round are exact whenever they are armed. */
  lemma RoundIsExact(t: nat, i: nat)
    requires 1 <= i <= ROUND
    ensures Due(t, i) == t + i
  {
    NeverLate(t, i);
  }

  /** The longest interval that is exact at every tick is a full round: one more is not. */
  lemma RoundIsSharp()
    ensures Due(255, ROUND + 1) == 255 + 1
  {
  }
}
