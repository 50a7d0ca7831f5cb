/** Every request is served: in a fair run a task that was asked for is locked by the worker, or the worker
    is told to stop. The wakeups of module PoolWakeup are what makes this so. */
module PoolService {
  import opened Fairness
  import opened Gate
  import opened Lists
  import opened Pool
  import PoolSafety
  import opened PoolWakeup

  datatype Actor = Other(p: nat) | TheWorker

  /** The task was claimed or is queued, and has not been locked since. */
  predicate Wanted(s: State, t: nat) {
    t in s.slots && (s.slots[t].place == Claimed || s.slots[t].place == Queued)
  }

  /** stopRun has cleared m_running. */
  predicate Stopping(s: State) {
    s.worker != Fresh && !s.running
  }

  predicate Waits(s: State, t: nat) {
    Wanted(s, t) && !Stopping(s)
  }

  /** The CAS loop of checkout goes round again only when another event has come in between, and there are
      only so many. */
  function Retries(w: Word, guess: Word): nat {
    3 * |FULL - w.low| + (if guess == w then 0 else 1)
  }

  /** How far the worker is from leaving the task under the cursor. */
  function Pace(s: State): nat {
    match s.worker
    case Take(_) => 62
    case Run(_) => 61
    case Finish(_, _) => 60
    case Park(c, _, guess) => if c in s.slots then 2 + Retries(s.slots[c].word, guess) else 0
    case Decide(_, _) => 1
    case _ => 0
  }

  ghost predicate SomeKnock(s: State) {
    exists p :: p in s.threads && s.threads[p] == Login(ZERO)
  }

  /** How far the sleeping worker is from its alarm. */
  ghost function Ring(s: State): nat {
    if SomeAlarm(s) then 1 else if SomeFire(s) then 2 else if SomeKnock(s) then 3 else 4
  }

  ghost function RankOf(s: State, t: nat): Rank
    requires t in s.slots
  {
    if s.slots[t].place == Claimed then Rank(0, 11, 0)
    else if s.worker == Take(t) then Rank(0, 1, 0)
    else if t in s.rest then Rank(0, 2, 64 * (Index(s.rest, t) + 1) + Pace(s))
    else match s.worker
      case Fresh => Rank(0, 10, 0)
      case ReleaseDoor => Rank(0, 8, 0)
      case Sleep => if s.alarms > 0 then Rank(0, 6, 0) else Rank(0, 7, Ring(s))
      case LockDoor => Rank(0, 5, 0)
      case Test => Rank(0, 4, 0)
      case Splice => Rank(0, 3, 0)
      case Gone => Rank(0, 0, 0)
      case _ => Rank(0, 9, 64 * |s.rest| + Pace(s))
  }

  predicate Does(s: State, w: Actor, th: Thread) {
    w.Other? && w.p in s.threads && s.threads[w.p] == th
  }

  /** Whose turn it is. */
  ghost predicate Turn(s: State, t: nat, w: Actor)
    requires t in s.slots
  {
    if s.slots[t].place == Claimed then Does(s, w, Push(t))
    else if s.worker == Sleep && s.alarms == 0 then
      if SomeAlarm(s) then Does(s, w, Alarm)
      else if SomeFire(s) then Does(s, w, Fire)
      else if SomeKnock(s) then Does(s, w, Login(ZERO))
      else w.Other? && w.p in s.threads && s.threads[w.p].Login?
    else w == TheWorker
  }

  predicate Mine(l: Label, w: Actor) {
    match w
    case Other(p) => l == Step(p)
    case TheWorker => l.Work?
  }

  ghost predicate Progress(s: State, s': State, l: Label, t: nat)
    requires t in s.slots && t in s'.slots
  {
    || Below(RankOf(s', t), RankOf(s, t))
    || (RankOf(s', t) == RankOf(s, t) && forall w :: Turn(s, t, w) ==> Turn(s', t, w) && !Mine(l, w))
  }

  ghost predicate AllInv(s: State) {
    PoolSafety.Inv(s) && DoorInv(s) && (s.worker == Gone ==> !s.running)
  }

  // The other threads.

  /** What a step of thread p can do to the rest of the rank. */
  ghost predicate Beside(s: State, s': State, p: nat) {
    && p in s.threads && p in s'.threads && s'.threads == s.threads[p := s'.threads[p]]
    && s'.worker == s.worker && s'.rest == s.rest && s'.slots.Keys == s.slots.Keys
  }

  lemma StartProgress(s: State, l: Label, t: nat)
    requires AllInv(s) && Enabled(s, l) && Waits(s, t) && !l.Step? && !l.Work? && !l.Interrupt?
    ensures Progress(s, Apply(s, l), l, t)
  {
    hide PoolSafety.Inv, DoorInv, SomeAlarm, SomeFire, SomeKnock, Retries, Index;
    var s' := Apply(s, l);
    OthersRing(s, s', l.p);
    assert RankOf(s', t) == RankOf(s, t);
  }

  /** A thread that neither was nor is on its way to the alarm changes nothing there. */
  lemma OthersRing(s: State, s': State, p: nat)
    requires Beside(s, s', p)
    ensures !s.threads[p].Alarm? && !s'.threads[p].Alarm? ==> SomeAlarm(s') == SomeAlarm(s)
    ensures !s.threads[p].Fire? && !s'.threads[p].Fire? ==> SomeFire(s') == SomeFire(s)
    ensures !s.threads[p].Login? && !s'.threads[p].Login? ==> SomeKnock(s') == SomeKnock(s)
    ensures s'.threads[p].Alarm? ==> SomeAlarm(s')
    ensures s'.threads[p].Fire? ==> SomeFire(s')
    ensures s'.threads[p] == Login(ZERO) ==> SomeKnock(s')
    ensures SomeAlarm(s) && !s.threads[p].Alarm? ==> SomeAlarm(s')
    ensures SomeFire(s) && !s.threads[p].Fire? ==> SomeFire(s')
    ensures SomeKnock(s) && !s.threads[p].Login? ==> SomeKnock(s')
  {
    assert forall q :: q in s.threads && q != p ==> q in s'.threads && s'.threads[q] == s.threads[q];
  }

  lemma Fewer(a: set<nat>, b: set<nat>)
    requires a <= b
    ensures |a| <= |b| && (a != b ==> |a| < |b|)
  {
    assert b == a + (b - a);
  }

  /** Each event that comes in between uses up a bit, and with it some of the tries that are left. */
  lemma RetriesFall(w: Word, w': Word, guess: Word)
    requires w.low <= w'.low <= FULL && w.high == w'.high
    ensures Retries(w', guess) <= Retries(w, guess)
    ensures w != w' ==> Retries(w', guess) < Retries(w, guess)
  {
    Fewer(FULL - w'.low, FULL - w.low);
    if w.low != w'.low {
      var e :| e in w'.low && e !in w.low;
      assert e in FULL - w.low && e !in FULL - w'.low;
    }
  }

  /** A checkin on a task that is not idle leaves its place and adds pending bits. */
  lemma HitAdds(sl: Slot, move: Move)
    requires SlotInv(sl) && CanMove(sl, move) && (move.MHit? || move.MHitEnd?)
    ensures var sl' := Moved(sl, move);
      && (sl.place != Out ==> sl'.place == sl.place)
      && (sl.place.Returned? ==> sl.word.low <= sl'.word.low <= FULL && sl'.word.high == sl.word.high == {})
  {
    MoveKeepsInv(sl, move);
    MoveEffect(sl, move);
  }

  /** Thread p hits, or tries to hit, the word of a task, or pushes it. */
  lemma CheckinProgress(s: State, p: nat, t: nat)
    requires AllInv(s) && Enabled(s, Step(p)) && Waits(s, t) && OnTask(s.threads[p])
    ensures t in CheckinStep(s, p).slots && Progress(s, CheckinStep(s, p), Step(p), t)
  {
    hide DoorInv, SomeAlarm, SomeFire, SomeKnock, Retries, Index, PoolSafety.Inv, CheckinStep, Pace;
    var s' := CheckinStep(s, p);
    CheckinShape(s, p);
    OthersRing(s, s', p);
    CheckinPlace(s, p, t);
    CheckinPace(s, p);
    RestMeansWalking(s);
    if s.threads[p] == Push(t) {
      assert Below(RankOf(s', t), RankOf(s, t));
    } else {
      assert s'.slots[t].place == s.slots[t].place;
      assert Ring(s') <= Ring(s);
      assert RankOf(s', t) == RankOf(s, t) || Below(RankOf(s', t), RankOf(s, t));
      forall w | Turn(s, t, w)
        ensures !Mine(Step(p), w)
      {
      }
    }
  }

  lemma RestMeansWalking(s: State)
    requires PoolSafety.Inv(s)
    ensures s.rest != [] ==> PoolSafety.Walking(s.worker)
  {
    hide PoolSafety.GateInv, PoolSafety.ThreadInv, PoolSafety.LogInv, PoolSafety.PlaceInv, Distinct;
  }

  lemma CheckinShape(s: State, p: nat)
    requires Enabled(s, Step(p)) && OnTask(s.threads[p])
    ensures var s' := CheckinStep(s, p);
      && Beside(s, s', p) && s'.alarms == s.alarms && s'.running == s.running && s'.kept == s.kept
      && !s'.threads[p].Alarm? && !s'.threads[p].Fire? && !s'.threads[p].StopSet?
      && (s'.threads[p].Login? ==> s'.threads[p] == Login(ZERO))
  {
    hide Hit, HitEnd, Pushed, Wins, EndWins, Cas;
  }

  lemma CheckinPlace(s: State, p: nat, t: nat)
    requires PoolSafety.Inv(s) && Enabled(s, Step(p)) && OnTask(s.threads[p]) && Wanted(s, t)
    ensures t in CheckinStep(s, p).slots
    ensures CheckinStep(s, p).slots[t].place == if s.threads[p] == Push(t) then Queued else s.slots[t].place
    ensures s.threads[p] == Push(t) ==> s.slots[t].place == Claimed
  {
    hide PoolSafety.ListInv, PoolSafety.LogInv, PoolSafety.PlaceInv, SlotInv, Hit, HitEnd, Wins, EndWins, Cas;
    var u := s.threads[p].task;
    if !s.threads[p].Push? {
      HitAdds(s.slots[u], if s.threads[p].Adding? then MHit(s.threads[p].ev) else MHitEnd);
    }
  }

  lemma CheckinPace(s: State, p: nat)
    requires PoolSafety.Inv(s) && Enabled(s, Step(p)) && OnTask(s.threads[p])
    ensures Pace(CheckinStep(s, p)) <= Pace(s)
  {
    hide PoolSafety.ListInv, PoolSafety.LogInv, PoolSafety.PlaceInv, SlotInv, Hit, HitEnd, Wins, EndWins, Cas, Retries;
    var s', u := CheckinStep(s, p), s.threads[p].task;
    if s.worker.Park? && s.worker.cur == u && !s.threads[p].Push? {
      var move := if s.threads[p].Adding? then MHit(s.threads[p].ev) else MHitEnd;
      HitAdds(s.slots[u], move);
      if s'.slots[u] != s.slots[u] {
        assert s'.slots[u] == Moved(s.slots[u], move);
        RetriesFall(s.slots[u].word, s'.slots[u].word, s.worker.guess);
      }
    }
  }

  /** Thread p is on its way from its push to the alarm, or stops the pool. */
  lemma BellProgress(s: State, p: nat, t: nat)
    requires AllInv(s) && Enabled(s, Step(p)) && Waits(s, t) && !OnTask(s.threads[p])
    requires t in BellStep(s, p).slots && Waits(BellStep(s, p), t)
    ensures Progress(s, BellStep(s, p), Step(p), t)
  {
    hide DoorInv, SomeAlarm, SomeFire, SomeKnock, Retries, Index, PoolSafety.Inv, BellStep;
    var s' := BellStep(s, p);
    BellShape(s, p);
    RestMeansWalking(s);
    assert Pace(s') == Pace(s);
    if s.worker == Sleep && s.alarms == 0 && s.slots[t].place != Claimed {
      OthersRing(s, s', p);
      Ringing(s, p, t);
    }
  }

  lemma BellShape(s: State, p: nat)
    requires Enabled(s, Step(p)) && !OnTask(s.threads[p])
    ensures var s' := BellStep(s, p);
      && Beside(s, s', p) && s'.slots == s.slots && s'.kept == s.kept && s'.alarms >= s.alarms
      && (s.threads[p].Alarm? ==> s'.alarms > 0)
      && (s.threads[p].Fire? && s.running ==> s'.threads[p] == Alarm)
      && (s.threads[p].Login? && s.door == ZERO ==>
            if s.threads[p].guess == ZERO then s'.threads[p] == Fire else s'.threads[p] == Login(ZERO))
      && (s.threads[p].StopTest? || s.threads[p].StopSet? ==> !s'.threads[p].Fire? && !s'.threads[p].Login?)
  {
    hide Or;
  }

  /** While the worker sleeps on an empty counter, a thread on its way to the alarm brings it nearer. */
  lemma Ringing(s: State, p: nat, t: nat)
    requires AllInv(s) && Enabled(s, Step(p)) && Waits(s, t) && !OnTask(s.threads[p])
    requires s.worker == Sleep && s.alarms == 0 && Waits(BellStep(s, p), t)
    ensures BellStep(s, p).alarms > 0 || Ring(BellStep(s, p)) <= Ring(s)
    ensures BellStep(s, p).alarms == 0 && Ring(BellStep(s, p)) == Ring(s) ==>
              forall w :: s.slots[t].place != Claimed && Turn(s, t, w) ==> Turn(BellStep(s, p), t, w) && !Mine(Step(p), w)
  {
    hide SomeAlarm, SomeFire, SomeKnock, BellStep, PoolSafety.Inv;
    var s' := BellStep(s, p);
    BellShape(s, p);
    OthersRing(s, s', p);
    DoorIsOpen(s);
  }

  /** The door of a worker that sleeps on an empty counter is closed only when somebody is about to fire or to
      ring. */
  lemma DoorIsOpen(s: State)
    requires DoorInv(s) && s.worker == Sleep && s.alarms == 0 && s.running
    ensures s.door == ZERO || SomeAlarm(s) || SomeFire(s)
  {
    hide SomeAlarm, SomeFire, SomeLogin;
    if s.door != ZERO {
      assert s.door.low != {};
    }
  }

  lemma InterruptProgress(s: State, t: nat)
    requires AllInv(s) && Enabled(s, Interrupt) && Waits(s, t)
    ensures Progress(s, Apply(s, Interrupt), Interrupt, t)
  {
    hide DoorInv, SomeAlarm, SomeFire, SomeKnock, Retries, Index, PoolSafety.Inv;
    RestMeansWalking(s);
  }

  // The worker.

  lemma {:induction false} AtMost(a: set<nat>, n: nat)
    requires forall e :: e in a ==> e < n
    ensures |a| <= n
  {
    if a == {} {
    } else if n - 1 in a {
      AtMost(a - {n - 1}, n - 1);
    } else {
      AtMost(a, n - 1);
    }
  }

  lemma FewRetries(w: Word, guess: Word)
    ensures Retries(w, guess) <= 49
  {
    AtMost(FULL - w.low, EV_MAX);
  }

  /** Where a queued task is. */
  lemma QueuedIsLinked(s: State, t: nat)
    requires PoolSafety.Inv(s) && Wanted(s, t)
    ensures s.slots[t].place == Queued ==>
              t in s.lockQ || t in s.kept || t in s.rest || s.worker == Take(t) || s.worker == Decide(t, false)
    ensures OnCursor(s.worker) && s.worker.cur == t ==>
              s.worker == Take(t) || s.worker.Decide?
    ensures s.worker == Take(t) || s.worker == Decide(t, false) ==> s.slots[t].place == Queued
    ensures s.rest != [] ==> PoolSafety.Walking(s.worker)
  {
    hide SlotInv, Distinct, PoolSafety.ThreadInv, PoolSafety.LogInv;
  }

  lemma LoopProgress(s: State, ret: nat, t: nat)
    requires AllInv(s) && Enabled(s, Work(ret)) && Waits(s, t) && !OnCursor(s.worker)
    requires t in LoopStep(s, ret).slots && Waits(LoopStep(s, ret), t)
    ensures Progress(s, LoopStep(s, ret), Work(ret), t)
  {
    hide DoorInv, SomeAlarm, SomeFire, SomeKnock, Ring, Retries, PoolSafety.Inv, TaskResult;
    QueuedIsLinked(s, t);
    var s' := LoopStep(s, ret);
    if s.worker == Splice && s.slots[t].place != Claimed {
      assert t in s'.rest;
    }
  }

  lemma WalkProgress(s: State, ret: nat, t: nat)
    requires AllInv(s) && Enabled(s, Work(ret)) && Waits(s, t) && OnCursor(s.worker)
    requires t in WalkStep(s, ret).slots && Waits(WalkStep(s, ret), t)
    ensures Progress(s, WalkStep(s, ret), Work(ret), t)
  {
    hide DoorInv, SomeAlarm, SomeFire, SomeKnock, Ring, Retries, Index, PoolSafety.Inv, WalkStep, Pace, TaskResult;
    QueuedIsLinked(s, t);
    WalkShape(s, ret, t);
  }

  lemma WalkShape(s: State, ret: nat, t: nat)
    requires AllInv(s) && Enabled(s, Work(ret)) && t in s.slots && OnCursor(s.worker)
    ensures var s' := WalkStep(s, ret);
      && s'.threads == s.threads && s'.rest == s.rest && s'.alarms == s.alarms && s'.slots.Keys == s.slots.Keys
      && (s.worker.cur != t ==> s'.slots[t] == s.slots[t])
      && (s.worker == Take(t) ==> s'.slots[t].place != Queued && s'.slots[t].place != Claimed)
      && (s.worker.Decide? ==> s'.slots == s.slots)
      && (OnCursor(s'.worker) || s'.worker == Head) && (s'.worker.Take? ==> false)
      && Pace(s') < Pace(s)
  {
    hide DoorInv, SlotInv, Settle, Retries, TaskResult, PoolSafety.ListInv, PoolSafety.LogInv, PoolSafety.ThreadInv,
         PoolSafety.PlaceInv;
    if s.worker.Finish? {
      FewRetries(s.slots[s.worker.cur].word, ZERO);
    }
    if s.worker.Park? {
      RetryCounts(s.slots[s.worker.cur], s.worker.ret, s.worker.guess);
    }
  }

  /** A failed attempt of checkout has learnt the word. */
  lemma RetryCounts(sl: Slot, ret: nat, guess: Word)
    ensures Cas(sl.word, High(ret), guess).Retry? ==>
              Retries(sl.word, Cas(sl.word, High(ret), guess).guess) < Retries(sl.word, guess)
  {
  }

  lemma StepProgress(s: State, l: Label, t: nat)
    requires AllInv(s) && Enabled(s, l) && Waits(s, t) && t in Apply(s, l).slots && Waits(Apply(s, l), t)
    ensures Progress(s, Apply(s, l), l, t)
  {
    hide AllInv, Progress, Waits;
    if l.Work? {
      if OnCursor(s.worker) {
        WalkProgress(s, l.ret, t);
      } else {
        LoopProgress(s, l.ret, t);
      }
    } else if l.Interrupt? {
      InterruptProgress(s, t);
    } else if l.Step? {
      if OnTask(s.threads[l.p]) {
        CheckinProgress(s, l.p, t);
      } else {
        BellProgress(s, l.p, t);
      }
    } else {
      StartProgress(s, l, t);
    }
  }

  // Whose turn it is.

  predicate CanStep(s: State, w: Actor) {
    match w
    case Other(p) => Enabled(s, Step(p))
    case TheWorker => Enabled(s, Work(EV_NORM))
  }

  lemma SomeonesTurn(s: State, t: nat) returns (w: Actor)
    requires AllInv(s) && Waits(s, t)
    ensures Turn(s, t, w)
  {
    hide PoolSafety.GateInv, PoolSafety.ListInv, PoolSafety.LogInv, PoolSafety.PlaceInv, PoolSafety.WorkerInv;
    w := TheWorker;
    if s.slots[t].place == Claimed {
      var p :| p in s.threads && s.threads[p] == Push(t);
      w := Other(p);
    } else if s.worker == Sleep && s.alarms == 0 {
      var p := SomeoneRings(s, t);
      w := Other(p);
    }
  }

  /** No lost wakeup, once more: a wanted task has a thread on its way to the alarm. */
  lemma SomeoneRings(s: State, t: nat) returns (p: nat)
    requires AllInv(s) && Waits(s, t) && s.slots[t].place == Queued && s.worker == Sleep && s.alarms == 0
    ensures Turn(s, t, Other(p))
  {
    QueuedIsLinked(s, t);
    KeptIsEmpty(s);
    hide PoolSafety.Inv;
    if SomeAlarm(s) {
      p :| p in s.threads && s.threads[p] == Alarm;
    } else if SomeFire(s) {
      p :| p in s.threads && s.threads[p] == Fire;
    } else if SomeKnock(s) {
      p :| p in s.threads && s.threads[p] == Login(ZERO);
    } else {
      p :| p in s.threads && s.threads[p].Login?;
    }
  }

  lemma KeptIsEmpty(s: State)
    requires PoolSafety.Inv(s) && s.worker == Sleep
    ensures s.kept == []
  {
    hide SlotInv, Distinct, PoolSafety.ThreadInv, PoolSafety.LogInv, PoolSafety.PlaceInv;
  }

  lemma TurnCanStep(s: State, t: nat, w: Actor)
    requires AllInv(s) && Waits(s, t) && Turn(s, t, w)
    ensures CanStep(s, w)
  {
    hide SlotInv, Distinct, SomeAlarm, SomeFire, SomeKnock, PoolSafety.LogInv, PoolSafety.PlaceInv;
  }

  // The machine as told to module Fairness.

  ghost predicate Steps(s: State, l: Label, s': State) {
    Enabled(s, l) && s' == Apply(s, l)
  }

  ghost function Machine(): System<State, Label, Actor> {
    System(
      (s: State) => Init(s),
      (s: State, l: Label, s': State) => Steps(s, l, s'),
      (s: State, w: Actor) => CanStep(s, w),
      (l: Label, w: Actor) => Mine(l, w))
  }

  lemma {:induction false} FairRunInv(run: nat -> State, acts: nat -> Label, n: nat)
    requires FairRun(Machine(), run, acts)
    ensures AllInv(run(n))
  {
    hide PoolSafety.Inv, FairRun, DoorInv, Apply, Enabled;
    StepsFollow(Machine(), run, acts, 0);
    if n == 0 {
      StartsInv(run(0));
    } else {
      FairRunInv(run, acts, n - 1);
      StepsFollow(Machine(), run, acts, n - 1);
      if run(n) != run(n - 1) {
        PoolSafety.StepKeepsInv(run(n - 1), acts(n - 1));
        StepKeepsDoorInv(run(n - 1), acts(n - 1));
        GoneStays(run(n - 1), acts(n - 1));
      }
    }
  }

  /** A worker that has left its loop finds m_running cleared ever after. */
  lemma GoneStays(s: State, l: Label)
    requires Enabled(s, l) && (s.worker == Gone ==> !s.running)
    ensures Apply(s, l).worker == Gone ==> !Apply(s, l).running
  {
    hide CheckinStep, TaskResult, Settle, Lock, Gate.CallTask, Gate.CallEnd, Cas;
    if l.Step? && OnTask(s.threads[l.p]) {
      CheckinShape(s, l.p);
    }
  }

  lemma StartsInv(s: State)
    requires Init(s)
    ensures AllInv(s)
  {
    hide PoolSafety.Inv;
    PoolSafety.InitInv(s);
  }

  // Every request is served.

  ghost function FullRank(s: State, t: nat): Rank {
    if t in s.slots then RankOf(s, t) else Rank(0, 0, 0)
  }

  ghost predicate TurnOf(s: State, t: nat, w: Actor) {
    t in s.slots && Turn(s, t, w)
  }

  ghost function Serve(t: nat): Goal<State, Actor> {
    Goal((s: State) => !Waits(s, t), (s: State) => FullRank(s, t), (s: State, w: Actor) => TurnOf(s, t, w))
  }

  lemma ServeFalls(s: State, l: Label, s': State, t: nat)
    requires AllInv(s) && Follows(Machine(), s, l, s')
    ensures Falls(Machine(), Serve(t), s, l, s')
  {
    hide AllInv, Apply, Enabled, RankOf, Turn, Below, Mine, Waits;
    if Waits(s, t) && Waits(s', t) {
      WaitsIsThere(s, t);
      WaitsIsThere(s', t);
      if Steps(s, l, s') {
        StepProgress(s, l, t);
      }
    }
  }

  lemma WaitsIsThere(s: State, t: nat)
    requires Waits(s, t)
    ensures t in s.slots
  {
  }

  lemma ServeTurns(s: State, t: nat)
    requires AllInv(s)
    ensures Someones(Machine(), Serve(t), s)
  {
    hide AllInv, Turn, Waits, CanStep, FullRank;
    if Waits(s, t) {
      WaitsIsThere(s, t);
      var w := SomeonesTurn(s, t);
      assert Serve(t).turn(s, w);
      forall w | TurnOf(s, t, w)
        ensures CanStep(s, w)
      {
        TurnCanStep(s, t, w);
      }
    }
  }

  /** A wanted task stops being wanted only when the worker locks it. */
  lemma WantedUntilLocked(s: State, l: Label, t: nat)
    requires AllInv(s) && Enabled(s, l) && Wanted(s, t)
    ensures Wanted(Apply(s, l), t)
            || (Apply(s, l).worker == Run(t) && t in Apply(s, l).slots && Apply(s, l).slots[t] == Lock(s.slots[t])
                && s.slots[t].place == Queued)
  {
    hide PoolSafety.Inv, DoorInv, CheckinStep, WalkStep, BellStep, LoopStep, Lock;
    QueuedIsLinked(s, t);
    if l.Step? {
      if OnTask(s.threads[l.p]) {
        CheckinPlace(s, l.p, t);
      } else {
        BellShape(s, l.p);
      }
    } else if l.Work? {
      if OnCursor(s.worker) {
        WalkLocks(s, l.ret, t);
      } else {
        PoolSafety.LoopKeepsSlots(s, l.ret);
      }
    }
  }

  lemma WalkLocks(s: State, ret: nat, t: nat)
    requires Enabled(s, Work(ret)) && OnCursor(s.worker) && t in s.slots
    requires s.worker.cur == t ==> s.worker == Take(t) || s.worker.Decide?
    ensures t in WalkStep(s, ret).slots
    ensures if s.worker == Take(t) then WalkStep(s, ret).slots[t] == Lock(s.slots[t]) && WalkStep(s, ret).worker == Run(t)
            else WalkStep(s, ret).slots[t] == s.slots[t]
  {
    hide Settle, Lock, Gate.CallEnd, Gate.CallTask, Cas, TaskResult;
  }

  /** The worker has just locked the task, or the pool is being stopped. */
  predicate Answered(s: State, t: nat) {
    s.worker == Run(t) || Stopping(s)
  }

  lemma WaitsGoes(s: State, l: Label, s': State, t: nat)
    requires AllInv(s) && Follows(Machine(), s, l, s')
    ensures Waits(s, t) ==> Waits(s', t) || Answered(s', t)
  {
    hide AllInv, Apply, Enabled, Wanted;
    if Waits(s, t) && Steps(s, l, s') {
      WantedUntilLocked(s, l, t);
    }
  }

  /** Every request is served: in every fair run a task that a checkin has won, or that is queued, is locked
      by the worker later on, or the pool is told to stop. */
  lemma EveryRequestIsServed(run: nat -> State, acts: nat -> Label, n: nat, t: nat)
    requires FairRun(Machine(), run, acts) && Wanted(run(n), t)
    ensures exists k :: n <= k && (run(k).worker == Run(t) || Stopping(run(k)))
  {
    hide FairRun, Falls, Someones, Wanted, Stopping, AllInv;
    forall i: nat
      ensures Falls(Machine(), Serve(t), run(i), acts(i), run(i + 1)) && Someones(Machine(), Serve(t), run(i))
      ensures Waits(run(i), t) ==> Waits(run(i + 1), t) || Answered(run(i + 1), t)
    {
      FairRunInv(run, acts, i);
      StepsFollow(Machine(), run, acts, i);
      ServeFalls(run(i), acts(i), run(i + 1), t);
      ServeTurns(run(i), t);
      WaitsGoes(run(i), acts(i), run(i + 1), t);
    }
    var m := Reached(Machine(), Serve(t), run, acts, n);
    var k := First(run, n, m, (s: State) => Waits(s, t), (s: State) => Answered(s, t));
  }

  // Every END is delivered.

  /** END was asked for, procTaskEnd has not been called, and nobody stops the pool. */
  predicate EndDue(s: State, t: nat) {
    t in s.slots && s.slots[t].asked && !s.slots[t].ended && !Stopping(s)
  }

  /** First the call in progress comes to its end, then the task is locked once more, then procTaskEnd is
      called. */
  ghost function EndRank(s: State, t: nat): Rank {
    if t !in s.slots then Rank(0, 0, 0)
    else if Wanted(s, t) then RankOf(s, t).(stage := 1)
    else if EndSeen(s.slots[t]) then Rank(0, 0, 0)
    else Rank(2, 0, Pace(s))
  }

  ghost predicate EndTurn(s: State, t: nat, w: Actor) {
    t in s.slots && if Wanted(s, t) then Turn(s, t, w) else w == TheWorker
  }

  ghost function Deliver(t: nat): Goal<State, Actor> {
    Goal((s: State) => !EndDue(s, t), (s: State) => EndRank(s, t), (s: State, w: Actor) => EndTurn(s, t, w))
  }

  /** A task whose END is due and that is not wanted is in the hands of the worker. */
  lemma DueIsHeld(s: State, t: nat)
    requires AllInv(s) && EndDue(s, t)
    ensures !Wanted(s, t) ==> OnCursor(s.worker) && s.worker.cur == t && !s.worker.Take? && !s.worker.Decide?
    ensures !Wanted(s, t) ==> s.slots[t].place.Running? || s.slots[t].place.Returned?
    ensures EndSeen(s.slots[t]) ==> s.worker == Run(t)
    ensures Wanted(s, t) ==> EV_END in s.slots[t].word.low
  {
    hide Distinct, PoolSafety.ThreadInv, PoolSafety.LogInv, PoolSafety.ListInv, DoorInv;
    EndIsNotForgotten(s.slots[t]);
  }

  lemma DueProgress(s: State, l: Label, t: nat)
    requires AllInv(s) && Enabled(s, l) && EndDue(s, t) && EndDue(Apply(s, l), t)
    ensures var s' := Apply(s, l);
      || Below(EndRank(s', t), EndRank(s, t))
      || (EndRank(s', t) == EndRank(s, t) && forall w :: EndTurn(s, t, w) ==> EndTurn(s', t, w) && !Mine(l, w))
  {
    hide AllInv, Turn, RankOf, Pace, Enabled, Apply;
    DueIsHeld(s, t);
    var s' := Apply(s, l);
    if Wanted(s, t) {
      if Wanted(s', t) {
        StepProgress(s, l, t);
        NoStage(s, t);
        NoStage(s', t);
      } else {
        WantedUntilLocked(s, l, t);
        assert EndSeen(s'.slots[t]);
      }
    } else if l.Work? {
      HeldWorks(s, l.ret, t);
    } else {
      HeldWaits(s, l, t);
    }
  }

  lemma NoStage(s: State, t: nat)
    requires t in s.slots
    ensures RankOf(s, t).stage == 0
  {
  }

  /** A step of the worker on the task in its hands. */
  lemma HeldWorks(s: State, ret: nat, t: nat)
    requires AllInv(s) && Enabled(s, Work(ret)) && EndDue(s, t) && !Wanted(s, t)
    requires OnCursor(s.worker) && s.worker.cur == t && !s.worker.Take? && !s.worker.Decide?
    requires EndSeen(s.slots[t]) ==> s.worker == Run(t)
    requires EndDue(Apply(s, Work(ret)), t)
    ensures !EndSeen(s.slots[t]) && Below(EndRank(Apply(s, Work(ret)), t), EndRank(s, t))
  {
    hide AllInv, Pace, RankOf, TaskResult, Settle, Cas;
    WalkShape(s, ret, t);
  }

  /** A step of anybody else leaves the task in the worker's hands, and the worker no farther from letting go. */
  lemma HeldWaits(s: State, l: Label, t: nat)
    requires AllInv(s) && Enabled(s, l) && EndDue(s, t) && !Wanted(s, t) && !l.Work?
    requires OnCursor(s.worker) && s.worker.cur == t
    requires s.slots[t].place.Running? || s.slots[t].place.Returned?
    ensures var s' := Apply(s, l);
      t in s'.slots && s'.slots[t].place == s.slots[t].place && s'.worker == s.worker && Pace(s') <= Pace(s)
  {
    hide PoolSafety.Inv, DoorInv, CheckinStep, BellStep;
    if l.Step? {
      if OnTask(s.threads[l.p]) {
        CheckinShape(s, l.p);
        CheckinPace(s, l.p);
        CheckinOnHeld(s, l.p, t);
      } else {
        BellShape(s, l.p);
      }
    }
  }

  lemma CheckinOnHeld(s: State, p: nat, t: nat)
    requires PoolSafety.Inv(s) && Enabled(s, Step(p)) && OnTask(s.threads[p]) && t in s.slots
    requires s.slots[t].place.Running? || s.slots[t].place.Returned?
    ensures t in CheckinStep(s, p).slots && CheckinStep(s, p).slots[t].place == s.slots[t].place
  {
    hide PoolSafety.ListInv, PoolSafety.LogInv, PoolSafety.PlaceInv, SlotInv, Hit, HitEnd, Wins, EndWins, Cas;
    var u := s.threads[p].task;
    if !s.threads[p].Push? {
      HitAdds(s.slots[u], if s.threads[p].Adding? then MHit(s.threads[p].ev) else MHitEnd);
    }
  }

  lemma DeliverFalls(s: State, l: Label, s': State, t: nat)
    requires AllInv(s) && Follows(Machine(), s, l, s')
    ensures Falls(Machine(), Deliver(t), s, l, s')
  {
    hide AllInv, Apply, Enabled, EndRank, EndTurn, Below, Mine, EndDue;
    if EndDue(s, t) && EndDue(s', t) && Steps(s, l, s') {
      DueProgress(s, l, t);
    }
  }

  lemma DeliverTurns(s: State, t: nat)
    requires AllInv(s)
    ensures Someones(Machine(), Deliver(t), s)
  {
    hide AllInv, Turn, CanStep, EndRank;
    if EndDue(s, t) {
      DueIsHeld(s, t);
      var w := TheWorker;
      if Wanted(s, t) {
        w := SomeonesTurn(s, t);
      }
      assert Deliver(t).turn(s, w);
      forall w | EndTurn(s, t, w)
        ensures CanStep(s, w)
      {
        if Wanted(s, t) {
          TurnCanStep(s, t, w);
        } else {
          HeldCanStep(s, t);
        }
      }
    }
  }

  lemma HeldCanStep(s: State, t: nat)
    requires AllInv(s) && OnCursor(s.worker) && s.worker.cur == t && t in s.slots
    ensures CanStep(s, TheWorker)
  {
    hide SlotInv, Distinct, PoolSafety.LogInv, PoolSafety.PlaceInv, DoorInv;
  }

  lemma {:induction false} AskedStays(run: nat -> State, acts: nat -> Label, n: nat, m: nat, t: nat)
    requires FairRun(Machine(), run, acts) && n <= m && t in run(n).slots && run(n).slots[t].asked
    ensures t in run(m).slots && run(m).slots[t].asked
    decreases m - n
  {
    hide FairRun, AllInv, Apply, Enabled;
    if n < m {
      AskedStays(run, acts, n, m - 1, t);
      FairRunInv(run, acts, m - 1);
      StepsFollow(Machine(), run, acts, m - 1);
      if Steps(run(m - 1), acts(m - 1), run(m)) {
        StepKeepsAsked(run(m - 1), acts(m - 1), t);
      }
    }
  }

  lemma StepKeepsAsked(s: State, l: Label, t: nat)
    requires AllInv(s) && Enabled(s, l) && t in s.slots && s.slots[t].asked
    ensures t in Apply(s, l).slots && Apply(s, l).slots[t].asked
  {
    hide AllInv, Apply, Enabled, Moved, CanMove;
    InvOnly(s);
    PoolSafety.StepIsMove(s, l, t);
    var sl, sl' := s.slots[t], Apply(s, l).slots[t];
    if sl' != sl {
      var move :| CanMove(sl, move) && sl' == Moved(sl, move);
      MoveKeepsAsked(sl, move);
    }
  }

  lemma InvOnly(s: State)
    requires AllInv(s)
    ensures PoolSafety.Inv(s)
  {
  }

  lemma MoveKeepsAsked(sl: Slot, move: Move)
    requires CanMove(sl, move) && sl.asked
    ensures Moved(sl, move).asked
  {
  }

  /** Every END is delivered: in every fair run, once it was asked for, procTaskEnd is called later on, or the
      pool is told to stop. */
  lemma EveryEndIsDelivered(run: nat -> State, acts: nat -> Label, n: nat, t: nat)
    requires FairRun(Machine(), run, acts) && t in run(n).slots && run(n).slots[t].asked
    ensures exists k :: n <= k && t in run(k).slots && (run(k).slots[t].ended || Stopping(run(k)))
  {
    hide FairRun, Falls, Someones, Stopping, AllInv;
    forall i: nat
      ensures Falls(Machine(), Deliver(t), run(i), acts(i), run(i + 1)) && Someones(Machine(), Deliver(t), run(i))
    {
      FairRunInv(run, acts, i);
      StepsFollow(Machine(), run, acts, i);
      DeliverFalls(run(i), acts(i), run(i + 1), t);
      DeliverTurns(run(i), t);
    }
    var m := Reached(Machine(), Deliver(t), run, acts, n);
    AskedStays(run, acts, n, m, t);
  }
}
