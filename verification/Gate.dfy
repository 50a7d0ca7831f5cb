/** The gate of one task: the 32-bit state word that decides who may put the task in a queue.

    A word is kept as its two halves. `low` holds the numbers of the pending-event bits (0..15),
    `high` the numbers of the parked-on bits (bits 16..31). Module BitTool proves that the C
    expressions over `unsigned int` compute these set operations. */
module Gate {
  const EV_LOCK: nat := 0
  const EV_NORM: nat := 1
  const EV_CUSTOM: nat := 2
  const EV_READ: nat := 3
  const EV_WRITE: nat := 4
  const EV_ERROR: nat := 7
  const EV_END: nat := 15
  const EV_MAX: nat := 16
  const EV_IN: nat := 17

  datatype Word = Word(low: set<nat>, high: set<nat>)

  const ZERO := Word({}, {})
  const LOCKED := Word({EV_LOCK}, {})
  const FULL: set<nat> := set e: nat | e < EV_MAX
  const ENDING := Word(FULL, {})

  function Or(w: Word, n: Word): Word {
    Word(w.low + n.low, w.high + n.high)
  }

  predicate Has(w: Word, n: Word) {
    n.low <= w.low && n.high <= w.high
  }

  function Low(ev: nat): Word { Word({ev}, {}) }

  function High(ev: nat): Word { Word({}, {ev}) }

  /** One CMPXCHG of the addBit loop together with the tests around it. `Done(was, w)` leaves the
      loop with result `was` and word `w`; `Retry` goes round again with a new guess. */
  datatype Attempt = Done(was: Word, w: Word) | Retry(guess: Word)

  function Cas(w: Word, n: Word, guess: Word): Attempt {
    if w == guess then Done(guess, Or(guess, n))
    else if Has(w, n) then Done(w, w)
    else Retry(w)
  }

  /** The answer of checkin for an ordinary event, from the value addBit returned. */
  predicate Wins(was: Word, ev: nat) {
    was == ZERO || (ev in was.high && ev !in was.low)
  }

  /** The answer of checkin for the END event, from the value setBit returned. */
  predicate EndWins(was: Word) {
    was == ZERO || !(was.high <= was.low)
  }

  /** The answer of checkout: true when the task leaves the queue. */
  predicate Leaves(was: Word, ev: nat) {
    !(ev in was.low && ev !in was.high)
  }

  predicate UserEvent(ev: nat) { EV_NORM <= ev < EV_END }

  predicate CustomEvent(ev: nat) { EV_CUSTOM <= ev < EV_END }

  /** What procTask may return. */
  predicate TaskResult(ret: nat) {
    ret == EV_NORM || CustomEvent(ret) || ret == EV_IN
  }

  /** Where the task is. `Out`: in no list and nobody holds it. `Claimed`: a checkin returned true
      and the winner has not pushed it yet. `Queued`: in a list. `Running`: locked by the consumer,
      which read `seen` from the word. `Returned`: procTask has returned. */
  datatype Place = Out | Claimed | Queued | Running(seen: Word) | Returned(ret: nat)

  /** One task: its word, its place, and two history flags: END was requested, and procTaskEnd has been
      called. */
  datatype Slot = Slot(word: Word, place: Place, asked: bool, ended: bool)

  const FRESH := Slot(ZERO, Out, false, false)

  // The atomic steps on a task.

  function Hit(sl: Slot, ev: nat): Slot {
    sl.(word := Or(sl.word, Low(ev)), place := if Wins(sl.word, ev) then Claimed else sl.place)
  }

  function HitEnd(sl: Slot): Slot {
    sl.(word := ENDING, place := if EndWins(sl.word) then Claimed else sl.place, asked := true)
  }

  function Pushed(sl: Slot): Slot {
    sl.(place := Queued)
  }

  function Lock(sl: Slot): Slot {
    sl.(word := LOCKED, place := Running(sl.word))
  }

  predicate EndSeen(sl: Slot) {
    sl.place.Running? && EV_END in sl.place.seen.low
  }

  function CallEnd(sl: Slot): Slot {
    sl.(place := Out, ended := true)
  }

  function CallTask(sl: Slot, ret: nat): Slot {
    sl.(place := Returned(ret))
  }

  /** Release, checkout or keep, by the value procTask returned. */
  function Settle(sl: Slot, ret: nat): Slot {
    if ret == EV_NORM then
      if sl.word == LOCKED then sl.(word := ZERO, place := Out) else sl.(place := Queued)
    else if CustomEvent(ret) then
      sl.(word := Or(sl.word, High(ret)), place := if Leaves(sl.word, ret) then Out else Queued)
    else
      sl.(place := Queued)
  }

  /** A word that lets some checkin win: zero, or parked on an event that has not come. */
  predicate Open(w: Word) {
    w == ZERO || !(w.high <= w.low)
  }

  predicate Parked(w: Word, ev: nat) {
    CustomEvent(ev) && w.high == {ev} && ev !in w.low
  }

  ghost predicate WordShape(w: Word) {
    && w.low <= FULL
    && (forall e :: e in w.high ==> CustomEvent(e) && w.high == {e})
    && (w.high != {} ==> EV_LOCK in w.low)
    && (EV_END in w.low ==> w.low == FULL)
  }

  /** The inductive invariant of one task. */
  ghost predicate SlotInv(sl: Slot) {
    && WordShape(sl.word)
    && (sl.place.Running? || sl.place.Returned? || sl.ended ==> EV_LOCK in sl.word.low && sl.word.high == {})
    && (sl.place.Returned? ==> TaskResult(sl.place.ret))
    && (sl.ended ==> sl.asked && sl.place == Out)
    && (!sl.ended ==> (sl.place == Out <==> Open(sl.word)))
    && (sl.asked && !sl.ended ==> EV_END in sl.word.low || EndSeen(sl))
    && (EV_END in sl.word.low || EndSeen(sl) ==> sl.asked)
  }

  /** The steps a task can take. */
  datatype Move =
    | MHit(ev: nat) | MHitEnd | MPush | MLock | MCallEnd | MCallTask(ret: nat) | MSettle

  predicate CanMove(sl: Slot, m: Move) {
    match m
    case MHit(ev) => UserEvent(ev)
    case MHitEnd => true
    case MPush => sl.place == Claimed
    case MLock => sl.place == Queued
    case MCallEnd => EndSeen(sl)
    case MCallTask(ret) => sl.place.Running? && !EndSeen(sl) && TaskResult(ret)
    case MSettle => sl.place.Returned?
  }

  function Moved(sl: Slot, m: Move): Slot
    requires CanMove(sl, m)
  {
    match m
    case MHit(ev) => Hit(sl, ev)
    case MHitEnd => HitEnd(sl)
    case MPush => Pushed(sl)
    case MLock => Lock(sl)
    case MCallEnd => CallEnd(sl)
    case MCallTask(ret) => CallTask(sl, ret)
    case MSettle => Settle(sl, sl.place.ret)
  }

  lemma FreshInv()
    ensures SlotInv(FRESH)
  {
  }

  lemma MoveKeepsInv(sl: Slot, m: Move)
    requires SlotInv(sl) && CanMove(sl, m)
    ensures SlotInv(Moved(sl, m))
  {
    match m
    case MHit(ev) => HitKeepsInv(sl, ev);
    case MSettle => SettleKeepsInv(sl);
    case _ => assert EV_END in FULL && EV_LOCK in FULL;
  }

  lemma HitKeepsInv(sl: Slot, ev: nat)
    requires SlotInv(sl) && UserEvent(ev)
    ensures SlotInv(Hit(sl, ev))
  {
    assert ev in FULL;
  }

  lemma SettleKeepsInv(sl: Slot)
    requires SlotInv(sl) && sl.place.Returned?
    ensures SlotInv(Settle(sl, sl.place.ret))
  {
    assert forall e :: CustomEvent(e) ==> e in FULL;
  }

  /** How a move changes the place of a task and its end. */
  lemma MoveEffect(sl: Slot, m: Move)
    requires SlotInv(sl) && CanMove(sl, m)
    ensures Moved(sl, m).ended == (sl.ended || m.MCallEnd?)
    ensures m.MHit? || m.MHitEnd? ==>
              || (Moved(sl, m).place == Claimed && sl.place == Out && !sl.ended)
              || Moved(sl, m).place == sl.place
    ensures m.MHit? ==> (Wins(sl.word, m.ev) <==> sl.place == Out && Moved(sl, m).place == Claimed)
    ensures m.MHitEnd? ==> (EndWins(sl.word) <==> sl.place == Out && Moved(sl, m).place == Claimed)
    ensures m.MPush? ==> Moved(sl, m).place == Queued
    ensures m.MLock? ==> Moved(sl, m).place.Running?
    ensures m.MCallEnd? ==> Moved(sl, m).place == Out && !sl.ended
    ensures m.MCallTask? ==> Moved(sl, m).place == Returned(m.ret) && !sl.ended
    ensures m.MSettle? ==> Moved(sl, m).place == Out || Moved(sl, m).place == Queued
  {
  }

  /** No event is lost: an idle live task has state 0 or is parked on exactly one event, and any
      other pending bit of it is for a different event. */
  lemma IdleIsOpen(sl: Slot)
    requires SlotInv(sl) && !sl.ended
    ensures sl.place == Out <==> sl.word == ZERO || exists ev :: Parked(sl.word, ev)
  {
    if sl.place == Out && sl.word != ZERO {
      var ev :| ev in sl.word.high && ev !in sl.word.low;
      assert Parked(sl.word, ev);
    }
  }

  /** A checkin wins only on an idle live task, so nothing is ever claimed twice. */
  lemma WinnerFoundIdle(sl: Slot, ev: nat)
    requires SlotInv(sl) && UserEvent(ev)
    ensures Wins(sl.word, ev) ==> sl.place == Out && !sl.ended
    ensures EndWins(sl.word) ==> sl.place == Out && !sl.ended
    ensures sl.place == Out && !sl.ended ==> EndWins(sl.word)
    ensures sl.place == Out && !sl.ended ==>
              (Wins(sl.word, ev) <==> sl.word == ZERO || Parked(sl.word, ev))
  {
    if sl.place == Out && !sl.ended && sl.word != ZERO {
      IdleIsOpen(sl);
    }
  }

  /** Once END is asked for, the task is claimed, queued or running until procTaskEnd is called. */
  lemma EndIsNotForgotten(sl: Slot)
    requires SlotInv(sl) && sl.asked && !sl.ended
    ensures sl.place != Out
    ensures EV_END in sl.word.low || EndSeen(sl)
  {
    if EV_END in sl.word.low {
      assert sl.word.high <= FULL;
    }
  }
}
