/** The worker runs until it is told to stop, sleeps when there is nothing to do, and is not woken more often than
    it sleeps. */
module PoolSleep {
  import opened Fairness
  import opened Gate
  import opened Lists
  import opened Pool
  import PoolSafety
  import opened PoolWakeup
  import opened PoolService

  // m_running.

  /** Nobody is about to clear m_running. */
  predicate NobodyStops(s: State) {
    forall p :: p in s.threads ==> s.threads[p] != StopSet
  }

  lemma RunningStays(s: State, l: Label)
    requires Enabled(s, l) && NobodyStops(s) && (s.worker == Fresh || s.running)
    ensures Apply(s, l).worker == Fresh || Apply(s, l).running
  {
    hide CheckinStep, TaskResult, Settle, Lock, Gate.CallTask, Gate.CallEnd, Cas;
    if l.Step? && OnTask(s.threads[l.p]) {
      CheckinShape(s, l.p);
    }
  }

  /** In every run in which nobody stops the pool m_running is set from the start of the worker on. */
  lemma {:induction false} RunsUntilStopped(states: seq<State>, i: nat)
    requires IsRun(states) && i < |states| && forall j :: 0 <= j < i ==> NobodyStops(states[j])
    ensures states[i].worker == Fresh || states[i].running
  {
    hide NobodyStops;
    if i > 0 {
      RunsUntilStopped(states, i - 1);
      var s := states[i - 1];
      assert Next(s, states[i]);
      var l :| Enabled(s, l) && states[i] == Apply(s, l);
      RunningStays(s, l);
    }
  }

  lemma StartsFresh(s: State)
    requires Init(s)
    ensures s.worker == Fresh
  {
  }

  lemma {:induction false} NeverStopping(run: nat -> State, acts: nat -> Label, n: nat)
    requires FairRun(Machine(), run, acts) && forall i: nat :: NobodyStops(run(i))
    ensures !Stopping(run(n))
  {
    hide FairRun, NobodyStops, Init, Apply, Enabled;
    StepsFollow(Machine(), run, acts, 0);
    if n == 0 {
      StartsFresh(run(0));
    } else {
      NeverStopping(run, acts, n - 1);
      StepsFollow(Machine(), run, acts, n - 1);
      if Steps(run(n - 1), acts(n - 1), run(n)) {
        RunningStays(run(n - 1), acts(n - 1));
      }
    }
  }

  /** Where nobody stops the pool every request is served: the task is locked by the worker later on. */
  lemma ServedUnlessStopped(run: nat -> State, acts: nat -> Label, n: nat, t: nat)
    requires FairRun(Machine(), run, acts) && Wanted(run(n), t) && forall i: nat :: NobodyStops(run(i))
    ensures exists k :: n <= k && run(k).worker == Run(t)
  {
    hide FairRun, Wanted, NobodyStops, Stopping;
    EveryRequestIsServed(run, acts, n, t);
    var k :| n <= k && (run(k).worker == Run(t) || Stopping(run(k)));
    NeverStopping(run, acts, k);
  }

  // Rings.

  predicate Rings(s: State, s': State) {
    s'.alarms > s.alarms
  }

  predicate FallsAsleep(s: State, s': State) {
    s.worker == ReleaseDoor && s'.worker == Sleep
  }

  ghost predicate Stops(s: State, s': State) {
    exists p :: p in s.threads && p in s'.threads && s.threads[p] == StopSet && s'.threads[p] != StopSet
  }

  function One(b: bool): nat { if b then 1 else 0 }

  /** How often the counter was written, the worker fell asleep, and m_running was cleared. */
  function RingCount(states: seq<State>): nat {
    if |states| <= 1 then 0
    else RingCount(states[..|states| - 1]) + One(Rings(states[|states| - 2], states[|states| - 1]))
  }

  function SleepCount(states: seq<State>): nat {
    if |states| <= 1 then 0
    else SleepCount(states[..|states| - 1]) + One(FallsAsleep(states[|states| - 2], states[|states| - 1]))
  }

  ghost function StopCount(states: seq<State>): nat {
    if |states| <= 1 then 0
    else StopCount(states[..|states| - 1]) + One(Stops(states[|states| - 2], states[|states| - 1]))
  }

  /** The threads about to ring. */
  function Ringers(s: State): set<nat> {
    set p | p in s.threads && (s.threads[p].Fire? || s.threads[p].Alarm?)
  }

  /** What a step adds on the left it takes away there, or adds on the right. */
  ghost predicate FewRings(s: State, s': State) {
    One(Rings(s, s')) + |Ringers(s')| + One(s'.door == ZERO)
    <= |Ringers(s)| + One(s.door == ZERO) + One(FallsAsleep(s, s')) + One(Stops(s, s'))
  }

  lemma SameThreads(s: State, s': State)
    requires s'.threads == s.threads
    ensures Ringers(s') == Ringers(s)
  {
  }

  lemma WalkRings(s: State, ret: nat)
    requires Enabled(s, Work(ret)) && OnCursor(s.worker)
    ensures var s' := WalkStep(s, ret);
      s'.threads == s.threads && s'.door == s.door && s'.alarms == s.alarms && s'.worker != Sleep
  {
    hide Settle, Lock, Gate.CallTask, Gate.CallEnd, Cas, TaskResult;
  }

  lemma LoopRings(s: State, ret: nat)
    requires Enabled(s, Work(ret)) && !OnCursor(s.worker)
    ensures var s' := LoopStep(s, ret);
      s'.threads == s.threads && s'.alarms <= s.alarms && (s'.door == ZERO ==> s.door == ZERO || FallsAsleep(s, s'))
  {
    hide TaskResult;
  }

  /** Only the worker opens the door, to sleep. */
  lemma WorkRings(s: State, ret: nat)
    requires Enabled(s, Work(ret))
    ensures FewRings(s, Apply(s, Work(ret)))
  {
    hide Ringers, Stops, WalkStep, LoopStep;
    if OnCursor(s.worker) {
      WalkRings(s, ret);
    } else {
      LoopRings(s, ret);
    }
    SameThreads(s, Apply(s, Work(ret)));
  }

  predicate MayRing(th: Thread) {
    th.Fire? || th.Alarm?
  }

  lemma LoginRings(s: State, p: nat)
    requires Enabled(s, Step(p)) && s.threads[p].Login?
    ensures var s' := BellStep(s, p);
      && p in s'.threads && s'.threads == s.threads[p := s'.threads[p]]
      && s'.alarms == s.alarms && s'.worker == s.worker && s'.threads[p] != StopSet
      && One(MayRing(s'.threads[p])) + One(s'.door == ZERO) <= One(s.door == ZERO)
  {
    assert 1 in Or(s.door, LOGIN).low && 1 !in ZERO.low;
    assert Has(s.door, LOGIN) ==> 1 in s.door.low by { assert 1 in LOGIN.low; }
  }

  lemma OtherRings(s: State, p: nat)
    requires Enabled(s, Step(p)) && !s.threads[p].Login?
    ensures var s' := ThreadStep(s, p);
      && p in s'.threads && s'.threads == s.threads[p := s'.threads[p]]
      && s'.worker == s.worker && s'.door == s.door
      && (s.threads[p] == StopSet ==> s'.threads[p] != StopSet)
      && One(s'.alarms > s.alarms) + One(MayRing(s'.threads[p]))
         <= One(MayRing(s.threads[p])) + One(s.threads[p] == StopSet)
  {
    hide CheckinStep;
    if OnTask(s.threads[p]) {
      CheckinShape(s, p);
      CheckinKeepsDoor(s, p);
    }
  }

  lemma CheckinKeepsDoor(s: State, p: nat)
    requires Enabled(s, Step(p)) && OnTask(s.threads[p])
    ensures CheckinStep(s, p).door == s.door
  {
    hide Hit, HitEnd, Pushed, Wins, EndWins, Cas;
  }

  lemma ThreadRings(s: State, p: nat)
    requires Enabled(s, Step(p))
    ensures FewRings(s, Apply(s, Step(p)))
  {
    hide ThreadStep, BellStep;
    var s' := Apply(s, Step(p));
    if s.threads[p].Login? {
      LoginRings(s, p);
      assert s' == BellStep(s, p) by { BellIsStep(s, p); }
    } else {
      OtherRings(s, p);
    }
    OneChanges(Ringers(s), Ringers(s'), p);
  }

  lemma BellIsStep(s: State, p: nat)
    requires Enabled(s, Step(p)) && s.threads[p].Login?
    ensures ThreadStep(s, p) == BellStep(s, p)
  {
  }

  lemma StartRings(s: State, l: Label)
    requires Enabled(s, l) && !l.Work? && !l.Step?
    ensures FewRings(s, Apply(s, l))
  {
    hide ThreadStep, WorkerStep, Stops;
    var s' := Apply(s, l);
    if l.Interrupt? {
      SameThreads(s, s');
    } else {
      OneChanges(Ringers(s), Ringers(s'), l.p);
    }
  }

  /** A won login takes the open door away, and only the worker opens it, to sleep. */
  lemma StepRings(s: State, l: Label)
    requires Enabled(s, l)
    ensures FewRings(s, Apply(s, l))
  {
    hide ThreadStep, WorkerStep, FewRings;
    match l
    case Work(ret) => WorkRings(s, ret);
    case Step(p) => ThreadRings(s, p);
    case _ => StartRings(s, l);
  }

  /** Threads wake the worker no more often than needed: in every run the counter was written at most once for each
      time the worker fell asleep, once for each stop, and once for the start. */
  lemma RingsAreFew(states: seq<State>)
    requires IsRun(states)
    ensures RingCount(states) <= 1 + SleepCount(states) + StopCount(states)
  {
    RingsLeft(states);
  }

  lemma {:induction false} RingsLeft(states: seq<State>)
    requires IsRun(states)
    ensures RingCount(states) + |Ringers(states[|states| - 1])| + One(states[|states| - 1].door == ZERO)
         <= 1 + SleepCount(states) + StopCount(states)
    decreases |states|
  {
    hide Ringers, Rings, FallsAsleep, Stops, Apply, Enabled;
    var n := |states| - 1;
    if n == 0 {
      NobodyRings(states[0]);
    } else {
      RingsLeft(states[..n]);
      assert Next(states[n - 1], states[n]);
      var l :| Enabled(states[n - 1], l) && states[n] == Apply(states[n - 1], l);
      StepRings(states[n - 1], l);
    }
  }

  lemma NobodyRings(s: State)
    requires Init(s)
    ensures Ringers(s) == {}
  {
  }

  // After a stop.

  /** The threads that are past their test of m_running. */
  function Late(s: State): set<nat> {
    set p | p in s.threads && (s.threads[p] == StopSet || s.threads[p] == Alarm)
  }

  lemma LateStep(s: State, p: nat)
    requires Enabled(s, Step(p)) && !s.running
    ensures var s' := ThreadStep(s, p);
      && p in s'.threads && s'.threads == s.threads[p := s'.threads[p]] && s'.worker == s.worker && !s'.running
      && One(s'.alarms > s.alarms) + One(p in Late(s')) <= One(p in Late(s))
  {
    hide CheckinStep;
    if OnTask(s.threads[p]) {
      CheckinShape(s, p);
    }
  }

  lemma StopStays(s: State, l: Label)
    requires Enabled(s, l) && Stopping(s)
    ensures var s' := Apply(s, l); Stopping(s') && One(Rings(s, s')) + |Late(s')| <= |Late(s)|
  {
    hide ThreadStep, Late, Settle, Lock, Gate.CallTask, Gate.CallEnd, Cas, TaskResult;
    var s' := Apply(s, l);
    match l
    case Work(_) => SameLate(s, s');
    case Interrupt => SameLate(s, s');
    case Step(p) =>
      LateStep(s, p);
      LateOne(s, s', p);
    case _ => LateOne(s, s', l.p);
  }

  lemma SameLate(s: State, s': State)
    requires s'.threads == s.threads
    ensures Late(s') == Late(s)
  {
  }

  lemma LateOne(s: State, s': State, p: nat)
    requires p in s.threads && p in s'.threads && s'.threads == s.threads[p := s'.threads[p]]
    ensures |Late(s')| + One(p in Late(s)) == |Late(s)| + One(p in Late(s'))
    ensures p in Late(s) <==> s.threads[p] == StopSet || s.threads[p] == Alarm
    ensures p in Late(s') <==> s'.threads[p] == StopSet || s'.threads[p] == Alarm
  {
    OneChanges(Late(s), Late(s'), p);
  }

  /** Once m_running is cleared only those ring who were past their test of it: a thread that adds a task to a stopped
      pool rings nobody. */
  lemma {:induction false} NoRingsAfterStop(states: seq<State>, i: nat, j: nat)
    requires IsRun(states) && i <= j < |states| && Stopping(states[i])
    ensures Stopping(states[j])
    ensures RingCount(states[..j + 1]) + |Late(states[j])| <= RingCount(states[..i + 1]) + |Late(states[i])|
    decreases j - i
  {
    hide Late, Apply, Enabled, Rings, Stopping, Init;
    if i < j {
      NoRingsAfterStop(states, i, j - 1);
      assert Next(states[j - 1], states[j]);
      var l :| Enabled(states[j - 1], l) && states[j] == Apply(states[j - 1], l);
      StopStays(states[j - 1], l);
      assert states[..j + 1][..j] == states[..j];
    }
  }

  // Sleep.

  /** Every other thread is idle, and no task is on its way or in the worker's hands. */
  predicate NothingToDo(s: State) {
    && (forall p :: p in s.threads ==> s.threads[p] == Idle)
    && (forall t :: t in s.slots ==> s.slots[t].place == Out)
  }

  /** Nobody begins a call, and no signal interrupts the wait. */
  predicate Undisturbed(l: Label) {
    l.Work? || l.Step?
  }

  lemma FirstIn(q: seq<nat>)
    ensures q == [] || q[0] in q
  {
  }

  lemma ListsAreEmpty(s: State)
    requires PoolSafety.Inv(s) && NothingToDo(s)
    ensures s.lockQ == s.kept == s.rest == []
    ensures OnCursor(s.worker) ==> s.worker.Decide? && s.worker.done
  {
    hide SlotInv, Distinct, PoolSafety.ThreadInv, PoolSafety.LogInv;
    FirstIn(s.lockQ);
    FirstIn(s.kept);
    FirstIn(s.rest);
  }

  /** It sleeps on an empty counter, or has left its loop. */
  predicate AtRest(s: State) {
    s.worker == Gone || (s.worker == Sleep && s.alarms == 0)
  }

  /** A round of the loop; a login from before makes one more. */
  function Round(s: State): nat {
    match s.worker
    case Fresh => 12
    case LockDoor => 10
    case Sleep => 1
    case Gone => 0
    case _ =>
      (if s.door == DOOR_LOCKED then 0 else 20)
      + match s.worker
        case Test => 6
        case Splice => 5
        case Head => 3
        case ReleaseDoor => 2
        case _ => 4
  }

  function RestRank(s: State): Rank {
    Rank(One(s.alarms > 0), Round(s), 0)
  }

  ghost function Alone(): System<State, Label, Actor> {
    System(
      (s: State) => AllInv(s) && NothingToDo(s),
      (s: State, l: Label, s': State) => Steps(s, l, s') && Undisturbed(l),
      (s: State, w: Actor) => CanStep(s, w),
      (l: Label, w: Actor) => Mine(l, w))
  }

  ghost function ToRest(): Goal<State, Actor> {
    Goal((s: State) => AtRest(s), (s: State) => RestRank(s), (s: State, w: Actor) => w == TheWorker)
  }

  lemma OnlyWorker(s: State, l: Label)
    requires NothingToDo(s) && Enabled(s, l) && Undisturbed(l)
    ensures l.Work?
  {
  }

  lemma RoundFalls(s: State, ret: nat)
    requires AllInv(s) && NothingToDo(s) && !AtRest(s) && Enabled(s, Work(ret))
    ensures var s' := Apply(s, Work(ret)); NothingToDo(s') && (AtRest(s') || Below(RestRank(s'), RestRank(s)))
  {
    hide PoolSafety.Inv, DoorInv, Settle, Lock, Gate.CallTask, Gate.CallEnd, Cas, TaskResult;
    ListsAreEmpty(s);
  }

  lemma RestFalls(s: State, l: Label, s': State)
    requires AllInv(s) && NothingToDo(s) && Follows(Alone(), s, l, s')
    ensures Falls(Alone(), ToRest(), s, l, s') && NothingToDo(s')
  {
    hide AllInv, NothingToDo, Apply, RestRank, AtRest, Below, Undisturbed;
    if Steps(s, l, s') && Undisturbed(l) {
      OnlyWorker(s, l);
      if AtRest(s) {
        RestStays(s, l);
      } else {
        RoundFalls(s, l.ret);
      }
    }
  }

  lemma RestTurns(s: State)
    requires AllInv(s) && NothingToDo(s)
    ensures Someones(Alone(), ToRest(), s)
  {
    hide PoolSafety.Inv, DoorInv, NothingToDo, RestRank;
    if !AtRest(s) {
      ListsAreEmpty(s);
      if OnCursor(s.worker) {
        CursorIsTask(s);
      }
      assert Mine(Work(EV_NORM), TheWorker) && Enabled(s, Work(EV_NORM));
      assert ToRest().turn(s, TheWorker);
    }
  }

  lemma CursorIsTask(s: State)
    requires PoolSafety.Inv(s) && OnCursor(s.worker)
    ensures s.worker.cur in s.slots
  {
    hide SlotInv, Distinct, PoolSafety.ThreadInv, PoolSafety.LogInv;
  }

  /** A worker asleep on an empty counter, or gone, takes no step when nobody else does. */
  lemma RestStays(s: State, l: Label)
    requires NothingToDo(s) && AtRest(s) && Undisturbed(l)
    ensures !Enabled(s, l)
  {
  }

  lemma {:induction false} AloneInv(run: nat -> State, acts: nat -> Label, n: nat)
    requires FairRun(Alone(), run, acts)
    ensures AllInv(run(n)) && NothingToDo(run(n))
  {
    hide FairRun, AllInv, NothingToDo, Apply, Enabled, Undisturbed, Falls;
    if n == 0 {
      StepsFollow(Alone(), run, acts, 0);
    } else {
      AloneInv(run, acts, n - 1);
      StepsFollow(Alone(), run, acts, n - 1);
      RestFalls(run(n - 1), acts(n - 1), run(n));
      if run(n) != run(n - 1) {
        AllInvKept(run(n - 1), acts(n - 1));
      }
    }
  }

  lemma AllInvKept(s: State, l: Label)
    requires AllInv(s) && Enabled(s, l)
    ensures AllInv(Apply(s, l))
  {
    hide PoolSafety.Inv, DoorInv, Apply, Enabled;
    PoolSafety.StepKeepsInv(s, l);
    StepKeepsDoorInv(s, l);
    GoneStays(s, l);
  }

  /** With nothing to do the worker sleeps: in every fair run, once the other threads and all tasks are idle and
      nobody begins a call, the worker falls asleep on an empty counter for good, unless it has been stopped. */
  lemma GoesToSleep(run: nat -> State, acts: nat -> Label, n: nat) returns (m: nat)
    requires FairRun(Machine(), run, acts) && NothingToDo(run(n))
    requires forall i: nat :: n <= i ==> Undisturbed(acts(i))
    ensures n <= m && forall k: nat :: m <= k ==> AtRest(run(k))
  {
    hide FairRun, AllInv, NothingToDo, Steps, CanStep, Undisturbed, Mine, Falls, Someones, AtRest, RestRank;
    var late: nat -> State := (i: nat) => run(n + i);
    var lateActs: nat -> Label := (i: nat) => acts(n + i);
    FairRunInv(run, acts, n);
    LaterRun(Machine(), Alone(), run, acts, n, late, lateActs);
    forall i: nat
      ensures Falls(Alone(), ToRest(), late(i), lateActs(i), late(i + 1)) && Someones(Alone(), ToRest(), late(i))
    {
      AloneInv(late, lateActs, i);
      StepsFollow(Alone(), late, lateActs, i);
      RestFalls(late(i), lateActs(i), late(i + 1));
      RestTurns(late(i));
    }
    var i := Reached(Alone(), ToRest(), late, lateActs, 0);
    m := n + i;
    forall k: nat | m <= k
      ensures AtRest(run(k))
    {
      RestLasts(late, lateActs, i, k - n);
    }
  }

  lemma {:induction false} RestLasts(run: nat -> State, acts: nat -> Label, m: nat, k: nat)
    requires FairRun(Alone(), run, acts) && m <= k && AtRest(run(m))
    ensures AtRest(run(k))
    decreases k - m
  {
    hide FairRun, AllInv, NothingToDo, AtRest, Undisturbed, Enabled, Apply;
    if m < k {
      RestLasts(run, acts, m, k - 1);
      AloneInv(run, acts, k - 1);
      StepsFollow(Alone(), run, acts, k - 1);
      if Steps(run(k - 1), acts(k - 1), run(k)) && Undisturbed(acts(k - 1)) {
        RestStays(run(k - 1), acts(k - 1));
      }
    }
  }
}
