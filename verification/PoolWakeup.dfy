/** The worker never sleeps through work: module Pool, the door and the event counter. */
module PoolWakeup {
  import opened Gate
  import opened Pool
  import PoolSafety

  /** The worker is past the splice of this round of the loop. */
  predicate Spliced(w: Worker) {
    PoolSafety.Walking(w) || w.ReleaseDoor? || w.Sleep?
  }

  /** The worker is past the test of m_running in this round of the loop. */
  predicate Looping(w: Worker) {
    w.Splice? || Spliced(w)
  }

  ghost predicate SomeLogin(s: State) {
    exists p :: p in s.threads && s.threads[p].Login?
  }

  ghost predicate SomeFire(s: State) {
    exists p :: p in s.threads && s.threads[p].Fire?
  }

  ghost predicate SomeAlarm(s: State) {
    exists p :: p in s.threads && s.threads[p].Alarm?
  }

  ghost predicate DoorInv(s: State) {
    && s.door.high == {} && s.door.low <= {0, 1}
    && (s.worker.Test? || (Looping(s.worker) && !s.worker.Sleep?) ==> 0 in s.door.low)
    && (s.worker.Sleep? ==> 0 !in s.door.low)
    // what was pushed since the splice is announced, or its thread is on the way to the door
    && (Spliced(s.worker) && s.lockQ != [] && 1 !in s.door.low ==> SomeLogin(s))
    // an announcement the sleeping worker has not seen will ring
    && (s.worker.Sleep? && 1 in s.door.low ==> s.alarms > 0 || SomeAlarm(s) || (SomeFire(s) && s.running))
    // so will a stop
    && (Looping(s.worker) && !s.running ==> s.alarms > 0 || SomeAlarm(s))
    && (forall p :: p in s.threads && s.threads[p].StopSet? ==> s.worker != Fresh)
    && (s.worker == Fresh ==> !s.running)
  }

  lemma OthersStay(s: State, s': State, p: nat)
    requires p in s.threads && p in s'.threads && s'.threads == s.threads[p := s'.threads[p]]
    ensures SomeLogin(s) && !s.threads[p].Login? ==> SomeLogin(s')
    ensures SomeFire(s) && !s.threads[p].Fire? ==> SomeFire(s')
    ensures SomeAlarm(s) && !s.threads[p].Alarm? ==> SomeAlarm(s')
    ensures s'.threads[p].Login? ==> SomeLogin(s')
    ensures s'.threads[p].Fire? ==> SomeFire(s')
    ensures s'.threads[p].Alarm? ==> SomeAlarm(s')
  {
    assert forall q :: q in s.threads && q != p ==> q in s'.threads && s'.threads[q] == s.threads[q];
  }

  lemma LoginKeepsDoorInv(s: State, p: nat)
    requires DoorInv(s) && Enabled(s, Step(p)) && s.threads[p].Login?
    ensures DoorInv(BellStep(s, p))
  {
    hide SomeLogin, SomeFire, SomeAlarm;
    OthersStay(s, BellStep(s, p), p);
  }

  lemma BellKeepsDoorInv(s: State, p: nat)
    requires DoorInv(s) && Enabled(s, Step(p))
    requires s.threads[p].Fire? || s.threads[p].Alarm? || s.threads[p].StopTest? || s.threads[p].StopSet?
    ensures DoorInv(BellStep(s, p))
  {
    hide SomeLogin, SomeFire, SomeAlarm;
    OthersStay(s, BellStep(s, p), p);
  }

  lemma TaskStepKeepsDoorInv(s: State, p: nat)
    requires DoorInv(s) && Enabled(s, Step(p)) && OnTask(s.threads[p])
    ensures DoorInv(CheckinStep(s, p))
  {
    hide SomeLogin, SomeFire, SomeAlarm, Hit, HitEnd, Cas, Wins, EndWins, Pushed;
    OthersStay(s, CheckinStep(s, p), p);
  }

  lemma StartKeepsDoorInv(s: State, l: Label)
    requires DoorInv(s) && Enabled(s, l) && !l.Work? && !l.Step?
    ensures DoorInv(Apply(s, l))
  {
    hide SomeLogin, SomeFire, SomeAlarm, ThreadStep, WorkerStep;
    if !l.Interrupt? {
      OthersStay(s, Apply(s, l), l.p);
    }
  }

  lemma LoopKeepsDoorInv(s: State, ret: nat)
    requires DoorInv(s) && Enabled(s, Work(ret)) && !OnCursor(s.worker)
    ensures DoorInv(LoopStep(s, ret))
  {
    hide LoopStep, DoorInv;
    if s.worker.Splice? || s.worker.Head? {
      QueuesKeepDoorInv(s, ret);
    } else {
      DoorKeepsDoorInv(s, ret);
    }
  }

  lemma QueuesKeepDoorInv(s: State, ret: nat)
    requires DoorInv(s) && Enabled(s, Work(ret)) && (s.worker.Splice? || s.worker.Head?)
    ensures DoorInv(LoopStep(s, ret))
  {
    hide SomeLogin, SomeFire, SomeAlarm, TaskResult;
    WorkerLeavesThreads(s, LoopStep(s, ret));
  }

  lemma DoorKeepsDoorInv(s: State, ret: nat)
    requires DoorInv(s) && Enabled(s, Work(ret)) && !OnCursor(s.worker) && !s.worker.Splice? && !s.worker.Head?
    ensures DoorInv(LoopStep(s, ret))
  {
    hide SomeLogin, SomeFire, SomeAlarm, TaskResult;
    WorkerLeavesThreads(s, LoopStep(s, ret));
  }

  lemma WalkKeepsDoorInv(s: State, ret: nat)
    requires DoorInv(s) && Enabled(s, Work(ret)) && OnCursor(s.worker)
    ensures DoorInv(WalkStep(s, ret))
  {
    hide SomeLogin, SomeFire, SomeAlarm, Settle, Cas, Leaves, TaskResult, Gate.CallTask, Gate.CallEnd, Lock;
    WorkerLeavesThreads(s, WalkStep(s, ret));
  }

  lemma WorkerLeavesThreads(s: State, s': State)
    requires s'.threads == s.threads
    ensures SomeLogin(s') == SomeLogin(s) && SomeFire(s') == SomeFire(s) && SomeAlarm(s') == SomeAlarm(s)
  {
  }

  lemma StepKeepsDoorInv(s: State, l: Label)
    requires DoorInv(s) && Enabled(s, l)
    ensures DoorInv(Apply(s, l))
  {
    hide DoorInv, CheckinStep, BellStep, WalkStep, LoopStep;
    if l.Work? && OnCursor(s.worker) {
      WalkKeepsDoorInv(s, l.ret);
    } else if l.Work? {
      LoopKeepsDoorInv(s, l.ret);
    } else if !l.Step? {
      StartKeepsDoorInv(s, l);
    } else if OnTask(s.threads[l.p]) {
      TaskStepKeepsDoorInv(s, l.p);
    } else if s.threads[l.p].Login? {
      LoginKeepsDoorInv(s, l.p);
    } else {
      BellKeepsDoorInv(s, l.p);
    }
  }

  lemma {:induction false} RunDoorInv(states: seq<State>, i: nat)
    requires IsRun(states) && i < |states|
    ensures DoorInv(states[i])
  {
    if i > 0 {
      RunDoorInv(states, i - 1);
      var s := states[i - 1];
      assert Next(s, states[i]);
      var l :| Enabled(s, l) && states[i] == Apply(s, l);
      StepKeepsDoorInv(s, l);
    }
  }

  /** No lost wakeup. While the worker sleeps with a task in m_lock_root, the event counter is
      positive or some thread is between its push and its alarm. */
  lemma NoLostWakeup(states: seq<State>, i: nat)
    requires IsRun(states) && i < |states|
    requires states[i].worker == Sleep && states[i].lockQ != []
    ensures states[i].alarms > 0 || SomeLogin(states[i]) || SomeFire(states[i]) || SomeAlarm(states[i])
  {
    RunDoorInv(states, i);
  }

  /** A stop reaches the sleeping worker. */
  lemma NoLostStop(states: seq<State>, i: nat)
    requires IsRun(states) && i < |states|
    requires states[i].worker == Sleep && !states[i].running
    ensures states[i].alarms > 0 || SomeAlarm(states[i])
  {
    RunDoorInv(states, i);
  }

  /** When every other thread is idle and the worker sleeps on an empty counter, nothing was left
      behind: both lists are empty, every live task is at state 0 or parked, and every task whose END
      was asked for has had it. */
  lemma AsleepMeansDone(states: seq<State>, i: nat)
    requires IsRun(states) && i < |states|
    requires states[i].worker == Sleep && states[i].alarms == 0
    requires forall p :: p in states[i].threads ==> states[i].threads[p] == Idle
    ensures states[i].lockQ == states[i].kept == states[i].rest == [] && states[i].running
    ensures forall t :: t in states[i].slots ==>
              var sl := states[i].slots[t];
              && (sl.asked ==> sl.ended)
              && (!sl.ended ==> sl.word == ZERO || exists ev :: Parked(sl.word, ev))
  {
    var s := states[i];
    RunDoorInv(states, i);
    PoolSafety.RunInv(states, i);
    if s.lockQ != [] {
      NoLostWakeup(states, i);
    }
    forall t | t in s.slots
      ensures s.slots[t].asked ==> s.slots[t].ended
      ensures !s.slots[t].ended ==> s.slots[t].word == ZERO || exists ev :: Parked(s.slots[t].word, ev)
    {
      PoolSafety.BusyIsPlaced(s, t);
      if !s.slots[t].ended {
        PoolSafety.NoEventIsLost(states, i, t);
        if s.slots[t].asked {
          PoolSafety.EndIsDelivered(states, i, t);
        }
      }
    }
  }
}
