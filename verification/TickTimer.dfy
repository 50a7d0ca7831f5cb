/** The two-level timing wheel, and the plain map from timers to deadlines that it keeps. */
module TimerWheel {
  import opened Lists
  import opened Wheel

  /** Which list a timer is linked into: none, a slot of the first or of the second level, or the list
      that the running tick has taken out of its slot. */
  datatype Link = Off | In(second: bool, slot: nat) | Firing

  /** What the wheel knows of an armed timer: its deadline, and the values of its fields. */
  datatype Rec = Rec(due: nat, link: Link, expires: Uint32, interval: Uint32)

  function Without<T(==)>(q: seq<T>, x: T): seq<T> {
    if q == [] then [] else if q[0] == x then q[1..] else [q[0]] + Without(q[1..], x)
  }

  lemma WithoutHead<T>(q: seq<T>)
    requires q != []
    ensures Without(q, q[0]) == q[1..]
  {
  }

  lemma {:induction false} WithoutHas<T>(q: seq<T>, x: T, y: T)
    requires Distinct(q)
    ensures y in Without(q, x) <==> y in q && y != x
  {
    if q != [] {
      assert y in q <==> y == q[0] || y in q[1..];
      WithoutHas(q[1..], x, y);
      assert q[0] !in q[1..];
    }
  }

  lemma {:induction false} WithoutUnique<T>(q: seq<T>, x: T)
    requires Distinct(q)
    ensures Distinct(Without(q, x))
  {
    if q != [] && q[0] != x {
      WithoutUnique(q[1..], x);
      WithoutHas(q[1..], x, q[0]);
      assert q[0] !in q[1..];
    }
  }

  function TakenOut(recs: map<TimerEle, Rec>, q: seq<TimerEle>): map<TimerEle, Rec> {
    map e | e in recs && e !in q :: recs[e]
  }

  lemma TakenOutCount(recs: map<TimerEle, Rec>, q: seq<TimerEle>)
    requires Distinct(q) && forall e :: e in q ==> e in recs
    ensures |TakenOut(recs, q)| == |recs| - |q|
  {
    var gone := set e | e in q;
    UniqueCount(q, gone);
    assert TakenOut(recs, q).Keys == recs.Keys - gone;
  }

  lemma {:induction false} UniqueCount(q: seq<TimerEle>, all: set<TimerEle>)
    requires Distinct(q) && forall e :: e in q <==> e in all
    ensures |all| == |q|
  {
    if q != [] {
      assert q[0] !in q[1..];
      forall e
        ensures e in q[1..] <==> e in all - {q[0]}
      {
        assert e in q <==> e == q[0] || e in q[1..];
      }
      UniqueCount(q[1..], all - {q[0]});
    }
  }

  // One level of the wheel: each slot holds exactly the timers linked there, each once.

  ghost predicate Level(slots: seq<seq<TimerEle>>, recs: map<TimerEle, Rec>, second: bool) {
    && |slots| == SIZE
    && (forall j :: 0 <= j < SIZE ==> Distinct(slots[j]))
    && (forall j, e :: 0 <= j < SIZE && e in slots[j] ==> e in recs && recs[e].link == In(second, j))
    && (forall e :: e in recs && recs[e].link.In? && recs[e].link.second == second ==>
          recs[e].link.slot < SIZE && e in slots[recs[e].link.slot])
  }

  lemma LevelDel(slots: seq<seq<TimerEle>>, recs: map<TimerEle, Rec>, second: bool, e: TimerEle)
    requires Level(slots, recs, second) && e in recs && recs[e].link.In? && recs[e].link.second == second
    ensures recs[e].link.slot < SIZE
    ensures Level(slots[recs[e].link.slot := Without(slots[recs[e].link.slot], e)], recs - {e}, second)
  {
    var i := recs[e].link.slot;
    WithoutUnique(slots[i], e);
    var slots' := slots[i := Without(slots[i], e)];
    forall j, y | 0 <= j < SIZE && y in slots'[j]
      ensures y in recs - {e} && recs[y].link == In(second, j)
    {
      WithoutHas(slots[i], e, y);
      assert y in slots[j];
    }
    forall y | y in recs - {e} && recs[y].link.In? && recs[y].link.second == second
      ensures recs[y].link.slot < SIZE && y in slots'[recs[y].link.slot]
    {
      WithoutHas(slots[i], e, y);
    }
  }

  lemma LevelAdd(slots: seq<seq<TimerEle>>, recs: map<TimerEle, Rec>, second: bool, e: TimerEle, rec: Rec)
    requires Level(slots, recs, second) && e !in recs
    requires rec.link.In? && rec.link.second == second && rec.link.slot < SIZE
    ensures Level(slots[rec.link.slot := [e] + slots[rec.link.slot]], recs[e := rec], second)
  {
    var q := slots[rec.link.slot];
    assert e !in q;
    assert forall y :: y in [e] + q <==> y == e || y in q;
  }

  /** What happens to a timer of the other level does not matter. */
  lemma LevelOther(slots: seq<seq<TimerEle>>, recs: map<TimerEle, Rec>, second: bool, e: TimerEle, rec: Rec)
    requires Level(slots, recs, second)
    requires e in recs ==> !(recs[e].link.In? && recs[e].link.second == second)
    ensures Level(slots, recs - {e}, second)
    ensures !(rec.link.In? && rec.link.second == second) ==> Level(slots, recs[e := rec], second)
  {
  }

  lemma HasLink(slots: seq<seq<TimerEle>>, recs: map<TimerEle, Rec>, second: bool, j: nat, e: TimerEle)
    requires Level(slots, recs, second) && j < SIZE && e in slots[j]
    ensures e in recs && recs[e].link == In(second, j)
  {
  }

  lemma NoLink(slots: seq<seq<TimerEle>>, recs: map<TimerEle, Rec>, second: bool, j: nat)
    requires Level(slots, recs, second) && j < SIZE && slots[j] == []
    ensures forall e :: e in recs ==> recs[e].link != In(second, j)
  {
  }

  /** Emptying one slot of a level. */
  lemma LevelTake(slots: seq<seq<TimerEle>>, recs: map<TimerEle, Rec>, second: bool, j: nat)
    requires Level(slots, recs, second) && j < SIZE
    ensures Level(slots[j := []], TakenOut(recs, slots[j]), second)
    ensures Distinct(slots[j])
    ensures forall e :: e in recs ==> (e in slots[j] <==> recs[e].link == In(second, j))
    ensures forall e :: e in slots[j] ==> e in recs
  {
    var slots', recs' := slots[j := []], TakenOut(recs, slots[j]);
    forall k, e | 0 <= k < SIZE && e in slots'[k]
      ensures e in recs' && recs'[e].link == In(second, k)
    {
      assert k != j;
      HasLink(slots, recs, second, k, e);
      assert e !in slots[j];
    }
  }

  lemma LevelTakeOther(slots: seq<seq<TimerEle>>, recs: map<TimerEle, Rec>, second: bool, q: seq<TimerEle>)
    requires Level(slots, recs, second)
    requires forall e :: e in q ==> e in recs && !(recs[e].link.In? && recs[e].link.second == second)
    ensures Level(slots, TakenOut(recs, q), second)
  {
  }

  function Dues(recs: map<TimerEle, Rec>): map<TimerEle, nat> {
    map e | e in recs :: recs[e].due
  }

  lemma DuesPut(recs: map<TimerEle, Rec>, e: TimerEle, rec: Rec)
    ensures Dues(recs[e := rec]) == Dues(recs)[e := rec.due]
  {
  }

  lemma DuesSame(recs: map<TimerEle, Rec>, e: TimerEle, rec: Rec)
    requires e in recs && rec.due == recs[e].due
    ensures Dues(recs[e := rec]) == Dues(recs)
  {
  }

  lemma DeleteThenPut(recs: map<TimerEle, Rec>, e: TimerEle, rec: Rec)
    ensures (recs - {e})[e := rec] == recs[e := rec]
  {
  }

  /** A timer is where its deadline sends it, seen from tick t (first level) and tick u (second level). */
  ghost predicate Placed(rec: Rec, now: nat, t: int, u: int) {
    && rec.link.In?
    && (if rec.link.second
        then u / SIZE < rec.due / SIZE <= u / SIZE + SIZE && rec.link.slot == rec.due / SIZE % SIZE
             && rec.expires % SIZE == rec.due % SIZE
        else t < rec.due <= t + SIZE && rec.link.slot == rec.due % SIZE)
    && (1 <= rec.interval <= ROUND ==> rec.expires == rec.due % WRAP && rec.due <= now + ROUND)
  }

  ghost predicate AllPlaced(recs: map<TimerEle, Rec>, now: nat, t: int, u: int) {
    forall e :: e in recs ==> Placed(recs[e], now, t, u)
  }

  lemma PlacedLater(recs: map<TimerEle, Rec>, now: nat)
    requires AllPlaced(recs, now, now, now)
    ensures AllPlaced(recs, now + 1, now, now)
  {
  }

  /** At a tick that ends no turn nothing cascades. */
  lemma SameTurn(recs: map<TimerEle, Rec>, now: nat)
    requires now > 0 && now % SIZE != 0 && AllPlaced(recs, now, now - 1, now - 1)
    ensures AllPlaced(recs, now, now - 1, now)
  {
    assert (now - 1) / SIZE == now / SIZE;
  }

  /** While slot j of the second level cascades: its timers are still seen from the tick before. */
  ghost predicate Cascading(recs: map<TimerEle, Rec>, now: nat, j: nat) {
    forall e :: e in recs ==> Placed(recs[e], now, now - 1, if recs[e].link == In(true, j) then now - 1 else now)
  }

  lemma CascadeStarts(recs: map<TimerEle, Rec>, now: nat)
    requires now > 0 && now % SIZE == 0 && AllPlaced(recs, now, now - 1, now - 1)
    ensures Cascading(recs, now, now / SIZE % SIZE)
  {
    forall e | e in recs
      ensures var rec := recs[e];
        Placed(rec, now, now - 1, if rec.link == In(true, now / SIZE % SIZE) then now - 1 else now)
    {
      var rec := recs[e];
      assert (now - 1) / SIZE == now / SIZE - 1;
      if rec.link.second && rec.link.slot != now / SIZE % SIZE {
        assert rec.due / SIZE != now / SIZE;
      }
    }
  }

  /** A timer of the slot that cascades is due within the turn that starts. */
  lemma CascadeMoves(recs: map<TimerEle, Rec>, now: nat, e: TimerEle)
    requires now > 0 && now % SIZE == 0 && Cascading(recs, now, now / SIZE % SIZE)
    requires e in recs && recs[e].link == In(true, now / SIZE % SIZE)
    ensures Cascading(recs - {e}, now, now / SIZE % SIZE)
    ensures Cascading(recs[e := recs[e].(link := In(false, recs[e].expires % SIZE))], now, now / SIZE % SIZE)
  {
    var rec := recs[e];
    assert (now - 1) / SIZE == now / SIZE - 1;
    SameSlot(rec.due / SIZE, now / SIZE);
    assert rec.due / SIZE == now / SIZE;
    assert Placed(rec.(link := In(false, rec.expires % SIZE)), now, now - 1, now);
  }

  lemma SameSlot(a: nat, b: nat)
    requires a % SIZE == b % SIZE && b - 1 < a <= b - 1 + SIZE
    ensures a == b
  {
  }

  lemma CascadeEnds(recs: map<TimerEle, Rec>, now: nat, j: nat)
    requires Cascading(recs, now, j) && forall e :: e in recs ==> recs[e].link != In(true, j)
    ensures AllPlaced(recs, now, now - 1, now)
  {
    hide Placed;
  }

  /** The slot of the first level that the tick comes to holds the timers that are due, and only those. */
  lemma SlotIsDue(recs: map<TimerEle, Rec>, now: nat, q: seq<TimerEle>)
    requires now > 0 && AllPlaced(recs, now, now - 1, now)
    requires forall e :: e in recs ==> (e in q <==> recs[e].link == In(false, now % SIZE))
    ensures forall e :: e in recs ==> (e in q <==> recs[e].due == now)
    ensures AllPlaced(TakenOut(recs, q), now, now, now)
  {
    forall e | e in recs
      ensures e in q <==> recs[e].due == now
      ensures e !in q ==> Placed(recs[e], now, now, now)
    {
      if !recs[e].link.second && recs[e].due % SIZE == now % SIZE {
        SameSlot(recs[e].due, now);
      }
    }
  }

  lemma SlotFacts(
      slots1: seq<seq<TimerEle>>, slots2: seq<seq<TimerEle>>, recs: map<TimerEle, Rec>, now: nat, q: seq<TimerEle>)
    requires Level(slots1, recs, false) && Level(slots2, recs, true) && now > 0 && AllPlaced(recs, now, now - 1, now)
    requires q == slots1[now % SIZE]
    ensures Level(slots1[now % SIZE := []], TakenOut(recs, q), false) && Level(slots2, TakenOut(recs, q), true)
    ensures Distinct(q) && |TakenOut(recs, q)| == |recs| - |q| && AllPlaced(TakenOut(recs, q), now, now, now)
    ensures forall e :: e in recs ==> (e in q <==> recs[e].due == now)
    ensures forall e :: e in q ==> e in recs
  {
    hide AllPlaced, Distinct;
    LevelTake(slots1, recs, false, now % SIZE);
    LevelTakeOther(slots2, recs, true, q);
    hide Level;
    SlotIsDue(recs, now, q);
    TakenOutCount(recs, q);
  }

  /** For intervals up to a full round the deadline can be read off m_expires, wrapped as it is. */
  lemma ByExpires(recs: map<TimerEle, Rec>, now: nat)
    requires AllPlaced(recs, now, now, now)
    ensures forall e :: e in recs && 1 <= recs[e].interval <= ROUND ==>
              (recs[e].expires == (now + 1) % WRAP <==> recs[e].due == now + 1)
  {
    forall e | e in recs && 1 <= recs[e].interval <= ROUND && recs[e].expires == (now + 1) % WRAP
      ensures recs[e].due == now + 1
    {
      assert Placed(recs[e], now, now, now);
      assert now < recs[e].due;
      NoWrap(recs[e].due, now + 1);
    }
  }

  lemma NoWrap(a: nat, b: nat)
    requires a % WRAP == b % WRAP && b <= a < b + WRAP
    ensures a == b
  {
  }

  lemma TickMod(now: nat)
    ensures (now % WRAP + 1) % WRAP == (now + 1) % WRAP
  {
  }

  /** The record of a timer armed now. */
  function Armed(now: nat, interval: Uint32): Rec {
    var expires := (now % WRAP + interval) % WRAP;
    Rec(Due(now, interval),
        if interval < SIZE then In(false, expires % SIZE) else In(true, expires / SIZE % SIZE),
        expires, interval)
  }

  lemma ArmedIsPlaced(now: nat, interval: Uint32)
    ensures Placed(Armed(now, interval), now, now, now) && Armed(now, interval).link.slot < SIZE
  {
    var sum := now + interval;
    assert Armed(now, interval).expires == sum % WRAP by { ModSum(now, interval); }
    ModMod(sum);
    if interval >= SIZE {
      LongInterval(now, interval);
      SlotOf(Due(now, interval), sum);
    }
    if 1 <= interval <= ROUND {
      RoundIsExact(now, interval);
    }
  }

  lemma ArmedFields(now: nat, interval: Uint32)
    ensures var rec := Armed(now, interval);
      && rec.due == Due(now, interval) && rec.interval == interval
      && rec.expires == (now % WRAP + interval) % WRAP
      && rec.link == if interval < SIZE then In(false, rec.expires % SIZE) else In(true, rec.expires / SIZE % SIZE)
  {
  }

  lemma ModSum(a: nat, b: nat)
    ensures (a % WRAP + b) % WRAP == (a + b) % WRAP
  {
  }

  lemma ModMod(a: nat)
    ensures a % WRAP % SIZE == a % SIZE && a % WRAP / SIZE % SIZE == a / SIZE % SIZE
  {
  }

  lemma SlotOf(a: nat, b: nat)
    requires a % ROUND == b % ROUND
    ensures a / SIZE % SIZE == b / SIZE % SIZE && a % SIZE == b % SIZE
  {
    ModRound(a);
    ModRound(b);
  }

  lemma ModRound(a: nat)
    ensures a % ROUND % SIZE == a % SIZE && a % ROUND / SIZE == a / SIZE % SIZE
  {
  }

  class TimerEle {
    var interval: Uint32
    var expires: Uint32
    var link: Link
    var base: TickTimer?

    constructor ()
      ensures interval == 0 && expires == 0 && link == Off && base == null
    {
      interval, expires, link, base := 0, 0, Off, null;
    }
  }

  /** What doTimeout does with its timer: leave it, or set an interval and arm it again. */
  datatype Answer = Leave | Again(interval: Uint32)

  class TickTimer {
    var size: nat
    var tick: Uint32
    var time: Uint32
    const tv1: array<seq<TimerEle>>
    const tv2: array<seq<TimerEle>>

    /** The ticks so far, the armed timers, and the timers of the running tick not called yet. */
    ghost var now: nat
    ghost var recs: map<TimerEle, Rec>
    ghost var firing: seq<TimerEle>

    /** The fields of an armed timer are what its record says. */
    ghost predicate Tied(e: TimerEle)
      reads `recs, e
    {
      e in recs ==>
        e.link == recs[e].link && e.expires == recs[e].expires && e.interval == recs[e].interval && e.base == this
    }

    ghost predicate Waiting(e: TimerEle)
      reads `recs, e
    {
      e !in recs && e.link == Firing && e.base == this
    }

    ghost predicate Slots()
      reads `recs, tv1, tv2
    {
      && tv1.Length == SIZE && tv2.Length == SIZE && tv1 != tv2
      && Level(tv1[..], recs, false) && Level(tv2[..], recs, true)
    }

    ghost predicate Timers()
      reads `recs, `firing, recs.Keys, firing
    {
      && Distinct(firing)
      && (forall e :: e in recs ==> Tied(e))
      && (forall e :: e in firing ==> Waiting(e))
    }

    ghost predicate Seen(t: int, u: int)
      reads this, tv1, tv2, recs.Keys, firing
    {
      && Slots() && Timers() && AllPlaced(recs, now, t, u)
      && size == |recs| + |firing| && tick == now % WRAP
    }

    ghost predicate Valid()
      reads this, tv1, tv2, recs.Keys, firing
    {
      Seen(now, now)
    }

    /** The plain meaning of the wheel: each armed timer with its deadline. */
    ghost function Deadlines(): map<TimerEle, nat>
      reads this
    {
      Dues(recs)
    }

    /** A timer that this wheel may take: one of its own, or one that is in no list. */
    ghost predicate Mine(e: TimerEle)
      reads this, e
    {
      e in recs || (e.link == Off && e !in firing)
    }

    constructor ()
      ensures Valid() && Deadlines() == map[] && firing == [] && now == 0
      ensures size == 0 && time == 0 && fresh(tv1) && fresh(tv2)
    {
      size, tick, time := 0, 0, 0;
      tv1 := new seq<TimerEle>[SIZE](_ => []);
      tv2 := new seq<TimerEle>[SIZE](_ => []);
      now, recs, firing := 0, map[], [];
    }

    method DelTimer(ele: TimerEle)
      requires Valid() && Mine(ele)
      modifies this`size, this`recs, tv1, tv2, ele`link
      ensures Valid() && ele.link == Off
      ensures recs == old(recs) - {ele}
    {
      hide Level, Without, Distinct, Placed;
      assert Tied(ele) && (ele in recs ==> recs[ele].link.In?) by {
        if ele in recs {
          PlacedHere(recs, now, now, ele);
        }
      }
      if ele.link != Off {
        Drop(ele);
      } else {
        assert recs - {ele} == recs;
      }
    }

    /** A linked timer is taken off and counted out. */
    method Drop(ele: TimerEle)
      requires Valid() && ele in recs && ele.link == recs[ele].link && ele.link.In? && ele.base == this
      modifies this`size, this`recs, tv1, tv2, ele`link
      ensures Valid() && ele.link == Off && recs == old(recs) - {ele}
      ensures old(ele.link.slot) < SIZE
      ensures tv1[..] == if old(ele.link.second) then old(tv1[..])
                         else old(tv1[..])[old(ele.link.slot) := Without(old(tv1[..])[old(ele.link.slot)], ele)]
      ensures tv2[..] == if !old(ele.link.second) then old(tv2[..])
                         else old(tv2[..])[old(ele.link.slot) := Without(old(tv2[..])[old(ele.link.slot)], ele)]
    {
      hide Level, AllPlaced, Placed, Without, Distinct;
      FewerPlaced(recs, now, now, now, ele);
      OneLess(recs, ele);
      HlistDel(ele);
      if ele.base == this {
        size := size - 1;
      }
    }

    /** hlist_del: the timer leaves the slot it is in. */
    method HlistDel(ele: TimerEle)
      requires Slots() && Timers() && ele in recs && recs[ele].link.In? && ele.link == recs[ele].link
      modifies this`recs, tv1, tv2, ele`link
      ensures Slots() && Timers() && ele.link == Off
      ensures recs == old(recs) - {ele}
      ensures old(ele.link.slot) < SIZE
      ensures tv1[..] == if old(ele.link.second) then old(tv1[..])
                         else old(tv1[..])[old(ele.link.slot) := Without(old(tv1[..])[old(ele.link.slot)], ele)]
      ensures tv2[..] == if !old(ele.link.second) then old(tv2[..])
                         else old(tv2[..])[old(ele.link.slot) := Without(old(tv2[..])[old(ele.link.slot)], ele)]
    {
      hide Level, Without;
      assert Tied(ele);
      LevelDel(if ele.link.second then tv2[..] else tv1[..], recs, ele.link.second, ele);
      LevelOther(if ele.link.second then tv1[..] else tv2[..], recs, !ele.link.second, ele, recs[ele]);
      if ele.link.second {
        tv2[ele.link.slot] := Without(tv2[ele.link.slot], ele);
      } else {
        tv1[ele.link.slot] := Without(tv1[ele.link.slot], ele);
      }
      ele.link := Off;
      recs := recs - {ele};
      assert tv1[..] == if old(ele.link.second) then old(tv1[..])
                        else old(tv1[..])[old(ele.link.slot) := Without(old(tv1[..])[old(ele.link.slot)], ele)];
      assert tv2[..] == if !old(ele.link.second) then old(tv2[..])
                        else old(tv2[..])[old(ele.link.slot) := Without(old(tv2[..])[old(ele.link.slot)], ele)];
      forall e | e in recs
        ensures Tied(e)
      {
        assert old(Tied(e));
      }
    }

    /** hlist_add: the timer becomes the first of a slot. */
    method HlistAdd(ele: TimerEle, second: bool, slot: nat, ghost rec: Rec)
      requires Slots() && ele !in recs && slot < SIZE && rec.link == In(second, slot)
      modifies tv1, tv2, ele`link
      ensures ele.link == In(second, slot)
      ensures Level(tv1[..], recs[ele := rec], false) && Level(tv2[..], recs[ele := rec], true)
      ensures tv1[..] == if second then old(tv1[..]) else old(tv1[..])[slot := [ele] + old(tv1[..])[slot]]
      ensures tv2[..] == if second then old(tv2[..])[slot := [ele] + old(tv2[..])[slot]] else old(tv2[..])
    {
      hide Level;
      if second {
        LevelAdd(tv2[..], recs, true, ele, rec);
        LevelOther(tv1[..], recs, false, ele, rec);
        tv2[slot] := [ele] + tv2[slot];
      } else {
        LevelAdd(tv1[..], recs, false, ele, rec);
        LevelOther(tv2[..], recs, true, ele, rec);
        tv1[slot] := [ele] + tv1[slot];
      }
      ele.link := In(second, slot);
    }

    /** Arming a timer again replaces its deadline and no other. */
    method ModTimer(ele: TimerEle, timeout: Uint32)
      requires Valid() && Mine(ele)
      modifies this`size, this`recs, tv1, tv2, ele
      ensures Valid() && recs == old(recs)[ele := Armed(now, timeout)]
      ensures Deadlines() == old(Deadlines())[ele := Due(now, timeout)]
      ensures ele.base == this && ele.interval == timeout
    {
      hide Seen, Armed, Due, Dues;
      assert ele !in firing by { MineIsNotFiring(ele); }
      DelTimer(ele);
      Insert(ele, timeout);
      DeleteThenPut(old(recs), ele, Armed(now, timeout));
      DuesPut(old(recs), ele, Armed(now, timeout));
      ArmedFields(now, timeout);
    }

    lemma MineIsNotFiring(ele: TimerEle)
      requires Valid() && Mine(ele)
      ensures ele !in firing
    {
      hide Slots, AllPlaced, Distinct, Tied;
      assert ele in firing ==> Waiting(ele);
    }

    method Insert(ele: TimerEle, timeout: Uint32)
      requires Valid() && ele !in recs && ele !in firing
      modifies this`size, this`recs, tv1, tv2, ele
      ensures Valid() && recs == old(recs)[ele := Armed(now, timeout)]
      ensures ele.base == this && ele.interval == timeout
    {
      hide Level, AllPlaced, Placed, Armed, Due, Distinct;
      ele.interval := timeout;
      ele.expires := (tick + ele.interval) % WRAP;
      ghost var rec := Armed(now, timeout);
      ArmedFields(now, timeout);
      ArmedIsPlaced(now, timeout);
      MorePlaced(recs, now, ele, rec);
      Place(ele, timeout, rec);
      if ele.base != this {
        ele.base := this;
      }
      assert Timers() by {
        assert forall e :: e in recs ==> old(Tied(e)) && e != ele;
        assert forall e :: e in firing ==> old(Waiting(e)) && e != ele;
      }
      Count(ele, rec);
    }

    /** A short interval goes into the first level, a long one into the second. */
    method Place(ele: TimerEle, timeout: Uint32, ghost rec: Rec)
      requires Slots() && ele !in recs
      requires rec.link == if timeout < SIZE then In(false, ele.expires % SIZE) else In(true, ele.expires / SIZE % SIZE)
      modifies tv1, tv2, ele`link
      ensures ele.link == rec.link
      ensures Level(tv1[..], recs[ele := rec], false) && Level(tv2[..], recs[ele := rec], true)
    {
      hide Level;
      if timeout < SIZE {
        HlistAdd(ele, false, ele.expires % SIZE, rec);
      } else {
        HlistAdd(ele, true, ele.expires / SIZE % SIZE, rec);
      }
    }

    /** The timer is counted in. */
    method Count(ele: TimerEle, ghost rec: Rec)
      requires ele !in recs && ele.link == rec.link && ele.expires == rec.expires && ele.interval == rec.interval
      requires ele.base == this && ele !in firing
      requires tv1.Length == SIZE && tv2.Length == SIZE && tv1 != tv2
      requires Level(tv1[..], recs[ele := rec], false) && Level(tv2[..], recs[ele := rec], true)
      requires Timers() && AllPlaced(recs[ele := rec], now, now, now)
      requires size == |recs| + |firing| && tick == now % WRAP
      modifies this`size, this`recs
      ensures Valid() && recs == old(recs)[ele := rec]
    {
      hide Level, AllPlaced, Placed, Distinct;
      size := size + 1;
      recs := recs[ele := rec];
    }

    /** addTimer arms a timer with the interval it carries. */
    method AddTimer(ele: TimerEle)
      requires Valid() && Mine(ele)
      modifies this`size, this`recs, tv1, tv2, ele
      ensures Valid() && recs == old(recs)[ele := Armed(now, old(ele.interval))]
      ensures Deadlines() == old(Deadlines())[ele := Due(now, old(ele.interval))]
      ensures ele.base == this && ele.interval == old(ele.interval)
    {
      hide Seen, Armed, Due, Dues;
      ModTimer(ele, ele.interval);
    }

    /** A timer goes from its slot of the second level to one of the first. */
    method Lower(ele: TimerEle)
      requires Slots() && Timers() && ele in recs && recs[ele].link.In? && ele.link == recs[ele].link
      modifies this`recs, tv1, tv2, ele`link
      ensures Slots() && Timers()
      ensures recs == old(recs)[ele := old(recs)[ele].(link := In(false, ele.expires % SIZE))]
      ensures old(ele.link.slot) < SIZE
      ensures old(ele.link.second) ==>
                tv2[..] == old(tv2[..])[old(ele.link.slot) := Without(old(tv2[..])[old(ele.link.slot)], ele)]
    {
      hide Level, Distinct, Without;
      assert Tied(ele);
      ghost var rec := recs[ele].(link := In(false, ele.expires % SIZE));
      DeleteThenPut(recs, ele, rec);
      assert ele !in firing by { assert ele in firing ==> Waiting(ele); }
      HlistDel(ele);
      ghost var rest := recs;
      HlistAdd(ele, false, ele.expires % SIZE, rec);
      recs := rest[ele := rec];
      assert forall e :: e in rest ==> old(Tied(e));
    }

    /** At the start of a turn of the first level the slot of the second that holds the timers of this
        turn is spread over the first. */
    method Cascade(i2: nat)
      requires now > 0 && now % SIZE == 0 && i2 == now / SIZE % SIZE
      requires Seen(now - 1, now - 1)
      modifies this`recs, tv1, tv2, recs.Keys`link
      ensures Seen(now - 1, now) && Dues(recs) == old(Dues(recs)) && recs.Keys == old(recs.Keys)
    {
      hide Level, AllPlaced, Placed, Distinct, Cascading, Dues, Without;
      CascadeStarts(recs, now);
      var pos := tv2[i2];
      while pos != []
        invariant Slots() && Timers() && Cascading(recs, now, i2)
        invariant tv2[i2] == pos && recs.Keys == old(recs.Keys) && Dues(recs) == old(Dues(recs))
        decreases |pos|
      {
        var ele, n := pos[0], pos[1..];
        HasLink(tv2[..], recs, true, i2, ele);
        CascadeMoves(recs, now, ele);
        assert Tied(ele);
        DuesSame(recs, ele, recs[ele].(link := In(false, ele.expires % SIZE)));
        assert Without(pos, ele) == n by { WithoutHead(pos); }
        Lower(ele);
        pos := n;
      }
      NoLink(tv2[..], recs, true, i2);
      CascadeEnds(recs, now, i2);
      assert |recs| == |recs.Keys| == |old(recs).Keys| == |old(recs)|;
    }

    /** hlist_replace: the list of a slot is taken out, and the slot is empty. */
    method HlistReplace(i1: nat) returns (list: seq<TimerEle>)
      requires tv1.Length == SIZE && i1 < SIZE && tv1 != tv2
      modifies tv1, tv1[i1]`link
      ensures list == old(tv1[i1]) && tv1[..] == old(tv1[..])[i1 := []]
      ensures forall e :: e in list ==> e.link == Firing
    {
      list := tv1[i1];
      tv1[i1] := [];
      forall e | e in list {
        e.link := Firing;
      }
    }

    method TakeSlot(i1: nat) returns (list: seq<TimerEle>)
      requires now > 0 && i1 == now % SIZE && Seen(now - 1, now) && firing == []
      modifies this`recs, this`firing, tv1, recs.Keys`link
      ensures Valid() && firing == list && recs == TakenOut(old(recs), list)
      ensures Distinct(list) && forall e :: e in list ==> e in Dues(old(recs))
      ensures forall e :: e in Dues(old(recs)) ==> (e in list <==> Dues(old(recs))[e] == now)
    {
      hide Level, AllPlaced, Distinct;
      ghost var rest, q := TakenOut(recs, tv1[i1]), tv1[i1];
      SlotFacts(tv1[..], tv2[..], recs, now, q);
      assert forall e :: e in rest ==> e in recs && e !in q && rest[e] == recs[e];
      list := HlistReplace(i1);
      assert tv2[..] == old(tv2[..]);
      recs, firing := rest, q;
      assert Timers() by {
        hide Slots;
        assert forall e :: e in rest ==> e in old(recs) && old(Tied(e)) && e !in q;
        assert forall e :: e in q ==> e in old(recs) && old(Tied(e)) && e !in rest;
      }
    }

    /** What a call leaves of its timer, whose interval was `before`: a timer left alone is in no list and still
        has its interval and its wheel, so that updateTimer arms it again as it was. */
    ghost predicate Called(ele: TimerEle, answer: Answer, before: Uint32)
      reads ele
    {
      && ele.base == this && ele.interval == (if answer.Again? then answer.interval else before)
      && (answer.Leave? ==> ele.link == Off)
    }

    /** doTimeout, which may set the interval of its timer and pass it to updateTimer. */
    method DoTimer(ele: TimerEle, answer: Answer)
      requires Valid() && ele !in recs && ele !in firing && ele.link == Off && ele.base == this
      modifies this, tv1, tv2, ele
      ensures Valid() && recs == AfterCall(old(recs), ele, now, answer)
      ensures Called(ele, answer, old(ele.interval))
      ensures now == old(now) && firing == old(firing) && tick == old(tick) && time == old(time)
    {
      hide Slots, AllPlaced, Distinct, Armed, Timers;
      match answer
      case Leave =>
      case Again(interval) =>
        ele.interval := interval;
        UpdateTimer(ele);
    }

    /** The timers taken out are called one after the other. */
    method Fire(list: seq<TimerEle>, plan: TimerEle -> Answer)
      requires Valid() && firing == list
      modifies this, tv1, tv2, list
      ensures Valid() && firing == [] && recs == AfterCalls(old(recs), list, now, plan)
      ensures forall e :: e in list ==> Called(e, plan(e), old(e.interval))
      ensures now == old(now) && tick == old(tick) && time == old(time)
    {
      hide Slots, AllPlaced, Armed, Distinct, AfterCalls, AfterCall, Called;
      var pos := list;
      ghost var done: seq<TimerEle> := [];
      NoCalls(recs, now, plan);
      while pos != []
        invariant Valid() && firing == pos && list == done + pos
        invariant recs == AfterCalls(old(recs), done, now, plan)
        invariant forall e :: e in list ==>
                    if e in pos then e.interval == old(e.interval) else Called(e, plan(e), old(e.interval))
        invariant now == old(now) && tick == old(tick) && time == old(time)
        decreases |pos|
      {
        var ele, n := pos[0], pos[1..];
        assert ele == list[|done|] && forall e :: e in pos <==> e == ele || e in n;
        Unlist(ele);
        DoTimer(ele, plan(ele));
        OneMoreCall(old(recs), done, now, plan, ele);
        assert done + [ele] + n == list;
        done, pos := done + [ele], n;
      }
      assert done == list;
    }

    /** hlist_del of the first timer of the list. */
    method Unlist(ele: TimerEle)
      requires Valid() && firing != [] && ele == firing[0]
      modifies this`size, this`firing, ele`link
      ensures Valid() && firing == old(firing[1..])
      ensures ele !in recs && ele !in firing && ele.link == Off && ele.base == this
    {
      hide Slots, AllPlaced;
      assert Waiting(ele);
      ele.link, firing, size := Off, firing[1..], size - 1;
      assert forall e :: e in firing ==> old(Waiting(e)) && e != ele;
      assert forall e :: e in recs ==> old(Tied(e)) && e != ele;
    }

    /** The counters move on; the timers are now seen from the tick before. */
    method Advance(cnt: Uint32)
      requires Valid()
      modifies this`tick, this`now, this`time
      ensures now == old(now) + 1 && Seen(now - 1, now - 1) && time == (old(time) + cnt) % WRAP
      ensures tick % SIZE == now % SIZE && tick / SIZE % SIZE == now / SIZE % SIZE
    {
      hide Level, AllPlaced, Distinct;
      PlacedLater(recs, now);
      TickMod(now);
      tick := (tick + 1) % WRAP;
      now := now + 1;
      time := (time + cnt) % WRAP;
      ModMod(now);
    }

    /** The tick moves on, a slot of the second level is spread at the start of a turn, and the timers due are
        taken out of their slot. */
    method TakeDue(cnt: Uint32) returns (fired: seq<TimerEle>)
      requires Valid() && firing == []
      modifies this, tv1, tv2, recs.Keys`link
      ensures Valid() && firing == fired && now == old(now) + 1 && time == (old(time) + cnt) % WRAP
      ensures Distinct(fired) && forall e :: e in fired ==> e in old(recs)
      ensures forall e :: e in old(Deadlines()) ==> (e in fired <==> old(Deadlines())[e] == now)
      ensures exists mid :: Dues(mid) == old(Deadlines()) && recs == TakenOut(mid, fired)
    {
      hide Seen, Distinct, TakenOut, Dues;
      Advance(cnt);
      var i1 := tick % SIZE;
      if i1 == 0 {
        Cascade(tick / SIZE % SIZE);
      } else {
        Skip();
      }
      ghost var mid := recs;
      fired := TakeSlot(i1);
      DuesKeys(mid);
    }

    /** One tick: the timers due at it are called, each once, and no other; those whose callback arms
        them again get the new deadline. `plan` says what each callback does. For intervals up to a full
        round the timers called are those whose m_expires is the tick. Every timer keeps its interval and
        its wheel, but for the intervals that the callbacks set. */
    method Tick(cnt: Uint32, plan: TimerEle -> Answer) returns (fired: seq<TimerEle>)
      requires Valid() && firing == []
      modifies this, tv1, tv2, recs.Keys
      ensures Valid() && firing == [] && now == old(now) + 1 && time == (old(time) + cnt) % WRAP
      ensures Distinct(fired) && forall e :: e in fired ==> e in old(Deadlines())
      ensures forall e :: e in old(Deadlines()) ==> (e in fired <==> old(Deadlines())[e] == now)
      ensures Deadlines() == Rung(old(Deadlines()), now, plan)
      ensures forall e :: e in old(recs) && 1 <= old(recs)[e].interval <= ROUND ==>
                (e in fired <==> old(recs)[e].expires == tick)
      ensures forall e :: e in fired ==> Called(e, plan(e), old(e.interval))
      ensures forall e :: e in old(recs) && e !in fired ==> e.interval == old(e.interval) && e.base == this
    {
      hide Seen, Distinct, Rung, TakenOut, AfterCalls, Dues, Called;
      ghost var before := recs;
      assert forall e :: e in before && 1 <= before[e].interval <= ROUND ==>
               (before[e].expires == (now + 1) % WRAP <==> Dues(before)[e] == now + 1) by { DueNext(); }
      Bases();
      fired := TakeDue(cnt);
      ghost var mid :| Dues(mid) == Dues(before) && recs == TakenOut(mid, fired);
      DuesKeys(before);
      Fire(fired, plan);
      assert tick == now % WRAP by { SeenTick(); }
      RungAll(mid, fired, now, plan);
    }

    lemma Bases()
      requires Valid()
      ensures forall e :: e in recs ==> e.base == this
    {
      hide Slots, AllPlaced, Distinct;
      assert forall e :: e in recs ==> Tied(e);
    }

    lemma DueNext()
      requires Valid()
      ensures Dues(recs).Keys == recs.Keys
      ensures forall e :: e in recs && 1 <= recs[e].interval <= ROUND ==>
                (recs[e].expires == (now + 1) % WRAP <==> Dues(recs)[e] == now + 1)
    {
      hide Slots, Timers, AllPlaced;
      ByExpires(recs, now);
    }

    lemma Skip()
      requires now > 0 && now % SIZE != 0 && Seen(now - 1, now - 1)
      ensures Seen(now - 1, now)
    {
      hide Slots, Timers, AllPlaced;
      SameTurn(recs, now);
    }

    lemma SeenTick()
      requires Valid()
      ensures tick == now % WRAP
    {
      hide Slots, Timers, AllPlaced;
    }

    /** What is in a slot is armed and linked there. */
    lemma InSlot(second: bool, i: nat, ele: TimerEle)
      requires Valid() && i < SIZE && tv1.Length == tv2.Length == SIZE && ele in (if second then tv2[i] else tv1[i])
      ensures ele in recs && ele.link == recs[ele].link == In(second, i) && ele.base == this
    {
      hide Level, AllPlaced, Distinct;
      HasLink(if second then tv2[..] else tv1[..], recs, second, i, ele);
      assert Tied(ele);
    }

    lemma Lengths()
      requires Valid()
      ensures tv1.Length == tv2.Length == SIZE && tv1 != tv2
    {
    }

    /** Every timer of one slot is taken off. */
    method ClearSlot(second: bool, i: nat)
      requires Valid() && i < SIZE && firing == [] && tv1.Length == tv2.Length == SIZE
      modifies this`size, this`recs, tv1, tv2, recs.Keys
      ensures Valid() && recs.Keys <= old(recs.Keys)
      ensures tv1[..] == if second then old(tv1[..]) else old(tv1[..])[i := []]
      ensures tv2[..] == if second then old(tv2[..])[i := []] else old(tv2[..])
      ensures forall e :: e in old(recs) && e !in recs ==> e.link == Off
    {
      hide Seen, Without;
      var pos := if second then tv2[i] else tv1[i];
      while pos != []
        invariant Valid() && recs.Keys <= old(recs.Keys)
        invariant tv1[..] == if second then old(tv1[..]) else old(tv1[..])[i := pos]
        invariant tv2[..] == if second then old(tv2[..])[i := pos] else old(tv2[..])
        invariant forall e :: e in old(recs) && e !in recs ==> e.link == Off
        decreases |pos|
      {
        var ele, n := pos[0], pos[1..];
        assert (if second then tv2[..] else tv1[..])[i] == pos;
        InSlot(second, i, ele);
        WithoutHead(pos);
        Drop(ele);
        pos := n;
      }
    }

    /** stop takes every timer off: nothing stays armed. */
    method Stop()
      requires Valid() && firing == []
      modifies this`size, this`recs, tv1, tv2, recs.Keys
      ensures Valid() && Deadlines() == map[] && size == 0
      ensures forall e :: e in old(Deadlines()) ==> e.link == Off
    {
      hide Seen;
      Lengths();
      for i := 0 to SIZE
        invariant Valid() && recs.Keys <= old(recs.Keys)
        invariant forall j :: 0 <= j < i ==> tv1[..][j] == []
        invariant forall e :: e in old(recs) && e !in recs ==> e.link == Off
      {
        ClearSlot(false, i);
      }
      for i := 0 to SIZE
        invariant Valid() && recs.Keys <= old(recs.Keys)
        invariant forall j :: 0 <= j < SIZE ==> tv1[..][j] == []
        invariant forall j :: 0 <= j < i ==> tv2[..][j] == []
        invariant forall e :: e in old(recs) && e !in recs ==> e.link == Off
      {
        ClearSlot(true, i);
      }
      Nothing();
    }

    lemma Nothing()
      requires Valid() && firing == [] && tv1.Length == tv2.Length == SIZE
      requires forall j :: 0 <= j < SIZE ==> tv1[..][j] == [] && tv2[..][j] == []
      ensures recs == map[] && size == 0
    {
      hide Level, AllPlaced;
      NothingLinked(tv1[..], tv2[..], recs, now);
    }
  }

  /** updateTimer: a timer goes back to the wheel it was armed in last; without one nothing happens. */
  method UpdateTimer(ele: TimerEle)
    requires ele.base != null ==> ele.base.Valid() && ele.base.Mine(ele)
    modifies ele, ele.base, if ele.base != null then {ele.base.tv1, ele.base.tv2} else {}
    ensures ele.base == old(ele.base) && ele.interval == old(ele.interval)
    ensures ele.base != null ==>
      var w := ele.base;
      && w.Valid() && w.recs == old(w.recs)[ele := Armed(w.now, old(ele.interval))]
      && w.Deadlines() == old(w.Deadlines())[ele := Due(w.now, old(ele.interval))]
      && w.now == old(w.now) && w.firing == old(w.firing) && w.tick == old(w.tick) && w.time == old(w.time)
  {
    if ele.base != null {
      ele.base.AddTimer(ele);
    }
  }

  /** All of a wheel is as it should be but its count, which is one too high. */
  ghost predicate CountsOneTooMany(w: TickTimer)
    reads w, w.tv1, w.tv2, w.recs.Keys, w.firing
  {
    && w.Slots() && w.Timers() && AllPlaced(w.recs, w.now, w.now, w.now)
    && w.size == |w.recs| + |w.firing| + 1 && w.tick == w.now % WRAP
  }

  /** A linked timer leaves its slot and is not counted out. */
  method Unlink(owner: TickTimer, ele: TimerEle)
    requires owner.Valid() && ele in owner.recs
    modifies owner`recs, owner.tv1, owner.tv2, ele`link
    ensures ele.link == Off && owner.recs == old(owner.recs) - {ele} && CountsOneTooMany(owner)
    ensures ele.base == owner && ele !in owner.firing
  {
    hide Level, Without, Distinct, Placed;
    assert owner.Tied(ele) && owner.recs[ele].link.In? by {
      PlacedHere(owner.recs, owner.now, owner.now, ele);
    }
    assert ele in owner.firing ==> owner.Waiting(ele);
    FewerPlaced(owner.recs, owner.now, owner.now, owner.now, ele);
    OneLess(owner.recs, ele);
    hide AllPlaced;
    owner.HlistDel(ele);
  }

  lemma NotHere(w: TickTimer, ele: TimerEle)
    requires w.Valid() && ele.base != w
    ensures ele !in w.recs && ele !in w.firing
  {
    assert ele in w.recs ==> w.Tied(ele);
    assert ele in w.firing ==> w.Waiting(ele);
  }

  lemma BaseIs(owner: TickTimer, ele: TimerEle)
    requires owner.Valid() && ele in owner.recs
    ensures ele.base == owner && ele.link != Off
  {
    assert owner.Tied(ele);
    PlacedHere(owner.recs, owner.now, owner.now, ele);
  }

  /** delTimer of w for a timer that `owner` has linked: the timer leaves the slot of its owner, and neither
      wheel counts it out. */
  method DelElsewhere(w: TickTimer, owner: TickTimer, ele: TimerEle)
    requires w != owner && w.Valid() && owner.Valid() && ele in owner.recs
    requires {w.tv1, w.tv2} !! {owner.tv1, owner.tv2}
    modifies owner`recs, owner.tv1, owner.tv2, ele`link
    ensures ele.link == Off && owner.recs == old(owner.recs) - {ele} && CountsOneTooMany(owner)
    ensures w.Valid() && ele !in w.recs && ele !in w.firing && ele !in owner.firing
  {
    BaseIs(owner, ele);
    NotHere(w, ele);
    hide CountsOneTooMany, TickTimer.Seen;
    if ele.link != Off {
      Unlink(owner, ele);
      assert ele.base != w;  // the count of w stays, too
    }
  }

  /** modTimer of w for such a timer: it is armed in w, and its owner counts it for ever. */
  method ModElsewhere(w: TickTimer, owner: TickTimer, ele: TimerEle, timeout: Uint32)
    requires w != owner && w.Valid() && owner.Valid() && ele in owner.recs
    requires {w.tv1, w.tv2} !! {owner.tv1, owner.tv2}
    modifies w`size, w`recs, w.tv1, w.tv2, owner`recs, owner.tv1, owner.tv2, ele
    ensures w.Valid() && w.recs == old(w.recs)[ele := Armed(w.now, timeout)]
    ensures owner.recs == old(owner.recs) - {ele} && CountsOneTooMany(owner)
  {
    hide CountsOneTooMany, TickTimer.Seen, Armed;
    DelElsewhere(w, owner, ele);
    w.Insert(ele, timeout);
  }

  /** What one callback does to the armed timers. */
  function AfterCall(recs: map<TimerEle, Rec>, e: TimerEle, now: nat, answer: Answer): map<TimerEle, Rec> {
    if answer.Again? then recs[e := Armed(now, answer.interval)] else recs
  }

  function AfterCalls(recs: map<TimerEle, Rec>, q: seq<TimerEle>, now: nat, plan: TimerEle -> Answer)
    : map<TimerEle, Rec>
  {
    if q == [] then recs
    else AfterCall(AfterCalls(recs, q[..|q| - 1], now, plan), q[|q| - 1], now, plan(q[|q| - 1]))
  }

  /** The plain meaning of a tick: the timers whose deadline it is are armed again or gone. */
  function Rung(dues: map<TimerEle, nat>, now: nat, plan: TimerEle -> Answer): map<TimerEle, nat> {
    map e | e in dues && (dues[e] != now || plan(e).Again?) ::
      if dues[e] != now then dues[e] else Due(now, plan(e).interval)
  }

  lemma {:induction false} CallsOn(
      recs: map<TimerEle, Rec>, q: seq<TimerEle>, now: nat, plan: TimerEle -> Answer, e: TimerEle)
    ensures e in AfterCalls(recs, q, now, plan) <==> e in recs || (e in q && plan(e).Again?)
    ensures e in q && plan(e).Again? ==> AfterCalls(recs, q, now, plan)[e].due == Due(now, plan(e).interval)
    ensures e in recs && e !in q ==> AfterCalls(recs, q, now, plan)[e] == recs[e]
  {
    if q != [] {
      var n := |q| - 1;
      CallsOn(recs, q[..n], now, plan, e);
      assert e in q <==> e in q[..n] || e == q[n];
    }
  }

  lemma NoCalls(recs: map<TimerEle, Rec>, now: nat, plan: TimerEle -> Answer)
    ensures AfterCalls(recs, [], now, plan) == recs
  {
  }

  lemma OneMoreCall(recs: map<TimerEle, Rec>, q: seq<TimerEle>, now: nat, plan: TimerEle -> Answer, e: TimerEle)
    ensures AfterCalls(recs, q + [e], now, plan) == AfterCall(AfterCalls(recs, q, now, plan), e, now, plan(e))
  {
    assert (q + [e])[..|q|] == q;
  }

  lemma DuesKeys(recs: map<TimerEle, Rec>)
    ensures Dues(recs).Keys == recs.Keys
  {
  }

  lemma RungAll(recs: map<TimerEle, Rec>, fired: seq<TimerEle>, now: nat, plan: TimerEle -> Answer)
    requires forall e :: e in Dues(recs) ==> (e in fired <==> Dues(recs)[e] == now)
    requires forall e :: e in fired ==> e in Dues(recs)
    ensures Dues(AfterCalls(TakenOut(recs, fired), fired, now, plan)) == Rung(Dues(recs), now, plan)
  {
    var all := AfterCalls(TakenOut(recs, fired), fired, now, plan);
    assert forall e :: e in recs ==> e in Dues(recs) && Dues(recs)[e] == recs[e].due;
    forall e
      ensures e in all <==> e in recs && (recs[e].due != now || plan(e).Again?)
      ensures e in all ==> all[e].due == if recs[e].due != now then recs[e].due else Due(now, plan(e).interval)
    {
      CallsOn(TakenOut(recs, fired), fired, now, plan, e);
    }
    var left, right := Dues(all), Rung(Dues(recs), now, plan);
    assert left.Keys == right.Keys;
    assert forall e :: e in left ==> left[e] == right[e];
  }

  lemma MorePlaced(recs: map<TimerEle, Rec>, now: nat, e: TimerEle, rec: Rec)
    requires AllPlaced(recs, now, now, now) && Placed(rec, now, now, now)
    ensures AllPlaced(recs[e := rec], now, now, now)
  {
    hide Placed;
  }

  lemma PlacedHere(recs: map<TimerEle, Rec>, now: nat, t: int, e: TimerEle)
    requires AllPlaced(recs, now, t, t) && e in recs
    ensures recs[e].link.In?
  {
  }

  lemma FewerPlaced(recs: map<TimerEle, Rec>, now: nat, t: int, u: int, e: TimerEle)
    requires AllPlaced(recs, now, t, u)
    ensures AllPlaced(recs - {e}, now, t, u)
  {
    hide Placed;
  }

  lemma OneLess(recs: map<TimerEle, Rec>, e: TimerEle)
    requires e in recs
    ensures |recs - {e}| == |recs| - 1
  {
    assert (recs - {e})[e := recs[e]] == recs;
  }

  lemma NothingLinked(slots1: seq<seq<TimerEle>>, slots2: seq<seq<TimerEle>>, recs: map<TimerEle, Rec>, now: nat)
    requires Level(slots1, recs, false) && Level(slots2, recs, true) && AllPlaced(recs, now, now, now)
    requires forall j :: 0 <= j < SIZE ==> slots1[j] == [] && slots2[j] == []
    ensures recs == map[]
  {
    hide AllPlaced;
    forall e
      ensures e !in recs || !recs[e].link.In?
    {
    }
    AllLinked(recs, now);
  }

  lemma AllLinked(recs: map<TimerEle, Rec>, now: nat)
    requires AllPlaced(recs, now, now, now)
    ensures forall e :: e in recs ==> recs[e].link.In?
  {
  }

  // Runs of ticks, on the plain map.

  /** The deadlines after n ticks from tick t; plans(k) says what the callbacks of the tick t + k do. */
  ghost function After(dues: map<TimerEle, nat>, t: nat, n: nat, plans: nat -> TimerEle -> Answer): map<TimerEle, nat> {
    if n == 0 then dues else Rung(After(dues, t, n - 1, plans), t + n, plans(t + n))
  }

  /** A timer that always arms itself again with its interval is called at every multiple of it, without
      drift: after n ticks its deadline is the next multiple, q times the interval. */
  lemma {:induction false} Periodic(
      dues: map<TimerEle, nat>, t: nat, n: nat, plans: nat -> TimerEle -> Answer, e: TimerEle, i: Uint32)
      returns (q: nat)
    requires 1 <= i <= ROUND && e in dues && dues[e] == Due(t, i)
    requires forall k: nat :: plans(k)(e) == Again(i)
    ensures var d := After(dues, t, n, plans);
      e in d && d[e] == t + q * i && n < q * i <= n + i
  {
    hide Due, Rung;
    RoundIsExact(t, i);
    if n == 0 {
      q := 1;
    } else {
      q := Periodic(dues, t, n - 1, plans, e, i);
      RungOne(After(dues, t, n - 1, plans), t + n, plans(t + n), e);
      RoundIsExact(t + n, i);
      if q * i == n {
        assert (q + 1) * i == q * i + i;
        q := q + 1;
      }
    }
  }

  lemma RungOne(dues: map<TimerEle, nat>, now: nat, plan: TimerEle -> Answer, e: TimerEle)
    requires e in dues
    ensures e in Rung(dues, now, plan) <==> dues[e] != now || plan(e).Again?
    ensures e in Rung(dues, now, plan) ==>
              Rung(dues, now, plan)[e] == if dues[e] != now then dues[e] else Due(now, plan(e).interval)
  {
  }

  /** A timer whose callback leaves it is called once, at its deadline, and then it is not armed. */
  lemma {:induction false} OneShot(
      dues: map<TimerEle, nat>, t: nat, n: nat, plans: nat -> TimerEle -> Answer, e: TimerEle)
    requires e in dues && dues[e] > t && forall k: nat :: plans(k)(e) == Leave
    ensures var d := After(dues, t, n, plans); (e in d <==> t + n < dues[e]) && (e in d ==> d[e] == dues[e])
  {
    if n > 0 {
      OneShot(dues, t, n - 1, plans, e);
    }
  }
}
