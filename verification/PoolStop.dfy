/** stopRun stops the worker: in a fair run it leaves its loop, wherever it is and whatever waits in its lists. */
module PoolStop {
  import opened Fairness
  import opened Gate
  import opened Pool
  import PoolSafety
  import opened PoolWakeup
  import opened PoolService

  // From the call of stopRun to m_running cleared.

  /** Thread p is in stopRun and has not cleared m_running. */
  predicate Calls(s: State, p: nat) {
    p in s.threads && (s.threads[p] == StopTest || s.threads[p] == StopSet) && s.running
  }

  ghost function Clear(p: nat): Goal<State, Actor> {
    Goal(
      (s: State) => !Calls(s, p),
      (s: State) => if p in s.threads && s.threads[p] == StopTest then Rank(0, 1, 0) else Rank(0, 0, 0),
      (s: State, w: Actor) => w == Other(p))
  }

  /** The call goes on by its own steps, and ends with m_running cleared. */
  lemma CallGoesOn(s: State, l: Label, p: nat)
    requires AllInv(s) && Enabled(s, l) && Calls(s, p)
    ensures var s' := Apply(s, l);
      && p in s'.threads
      && if l == Step(p)
         then (if s.threads[p] == StopTest then s'.threads[p] == StopSet && s'.running else Stopping(s'))
         else s'.threads[p] == s.threads[p] && (s'.running || Stopping(s'))
  {
    hide PoolSafety.Inv, CheckinStep, WalkStep;
    if l.Step? && OnTask(s.threads[l.p]) {
      CheckinShape(s, l.p);
    } else if l.Work? && OnCursor(s.worker) {
      WalkKeepsThreads(s, l.ret);
    }
  }

  lemma WalkKeepsThreads(s: State, ret: nat)
    requires Enabled(s, Work(ret)) && OnCursor(s.worker)
    ensures var s' := WalkStep(s, ret); s'.threads == s.threads && s'.running == s.running && s'.worker != Fresh
  {
    hide Settle, Lock, Gate.CallTask, Gate.CallEnd, Cas, TaskResult;
  }

  lemma ClearFalls(s: State, l: Label, s': State, p: nat)
    requires AllInv(s) && Follows(Machine(), s, l, s')
    ensures Falls(Machine(), Clear(p), s, l, s') && Someones(Machine(), Clear(p), s)
    ensures Calls(s, p) ==> Calls(s', p) || Stopping(s')
  {
    hide AllInv, Apply;
    if Calls(s, p) {
      assert Clear(p).turn(s, Other(p)) && CanStep(s, Other(p));
      if Steps(s, l, s') {
        CallGoesOn(s, l, p);
      }
    }
  }

  /** Once called on a running worker, stopRun clears m_running, or another call of it has. */
  lemma StopIsHeard(run: nat -> State, acts: nat -> Label, n: nat, p: nat) returns (k: nat)
    requires FairRun(Machine(), run, acts) && Calls(run(n), p)
    ensures n <= k && Stopping(run(k))
  {
    hide FairRun, Falls, Someones, Calls, Stopping, AllInv;
    forall i: nat
      ensures Falls(Machine(), Clear(p), run(i), acts(i), run(i + 1)) && Someones(Machine(), Clear(p), run(i))
      ensures Calls(run(i), p) ==> Calls(run(i + 1), p) || Stopping(run(i + 1))
    {
      FairRunInv(run, acts, i);
      StepsFollow(Machine(), run, acts, i);
      ClearFalls(run(i), acts(i), run(i + 1), p);
    }
    var m := Reached(Machine(), Clear(p), run, acts, n);
    k := First(run, n, m, (s: State) => Calls(s, p), (s: State) => Stopping(s));
  }

  // From there to the end of the worker's loop.

  predicate Leaving(s: State) {
    Stopping(s) && s.worker != Gone
  }

  /** How far the worker is from its next test of m_running. */
  function ExitRank(s: State): Rank {
    match s.worker
    case Fresh => Rank(0, 0, 0)
    case Gone => Rank(0, 0, 0)
    case Test => Rank(0, 1, 0)
    case LockDoor => Rank(0, 2, 0)
    case Sleep => if s.alarms > 0 then Rank(0, 3, 0) else Rank(0, 4, 0)
    case ReleaseDoor => Rank(0, 5, 0)
    case Splice => Rank(0, 7, 0)
    case _ => Rank(0, 6, 64 * |s.rest| + Pace(s))
  }

  /** The worker's, or that of the thread about to wake it. */
  predicate ExitTurn(s: State, w: Actor) {
    if s.worker == Sleep && s.alarms == 0 then Does(s, w, Alarm) else w == TheWorker
  }

  ghost function Exit(): Goal<State, Actor> {
    Goal((s: State) => !Leaving(s), (s: State) => ExitRank(s), (s: State, w: Actor) => ExitTurn(s, w))
  }

  ghost predicate Exits(s: State, l: Label, s': State) {
    || Below(ExitRank(s'), ExitRank(s))
    || (ExitRank(s') == ExitRank(s) && forall w :: ExitTurn(s, w) ==> ExitTurn(s', w) && !Mine(l, w))
  }

  lemma WorkExits(s: State, ret: nat)
    requires AllInv(s) && Enabled(s, Work(ret)) && Leaving(s)
    ensures var s' := Apply(s, Work(ret)); Stopping(s') && (Leaving(s') ==> Exits(s, Work(ret), s'))
  {
    hide AllInv, WalkStep, Pace, TaskResult;
    if OnCursor(s.worker) {
      WalkKeepsThreads(s, ret);
      WalkShape(s, ret, s.worker.cur);
    } else {
      PaceOf(s);
      PaceOf(LoopStep(s, ret));
    }
  }

  lemma PaceOf(s: State)
    ensures Pace(s) <= 62 || s.worker.Park?
    ensures !OnCursor(s.worker) ==> Pace(s) == 0
  {
  }

  /** Nobody but the worker takes the alarm away, and nobody takes the worker back. */
  lemma OthersExit(s: State, l: Label)
    requires AllInv(s) && Enabled(s, l) && Leaving(s) && !l.Work?
    ensures var s' := Apply(s, l); Stopping(s') && (Leaving(s') ==> Exits(s, l, s'))
  {
    hide PoolSafety.Inv, DoorInv, CheckinStep;
    if l.Step? {
      if OnTask(s.threads[l.p]) {
        CheckinShape(s, l.p);
        CheckinPace(s, l.p);
      } else {
        BellShape(s, l.p);
      }
    }
  }

  lemma ExitFalls(s: State, l: Label, s': State)
    requires AllInv(s) && Follows(Machine(), s, l, s')
    ensures Falls(Machine(), Exit(), s, l, s')
    ensures Stopping(s) ==> Stopping(s')
  {
    hide AllInv, Apply, ExitRank, ExitTurn, Mine, Below;
    if Stopping(s) && Steps(s, l, s') {
      if s.worker == Gone {
        GoneStopped(s, l);
      } else if l.Work? {
        WorkExits(s, l.ret);
      } else {
        OthersExit(s, l);
      }
    }
  }

  lemma GoneStopped(s: State, l: Label)
    requires Enabled(s, l) && s.worker == Gone && !s.running
    ensures Stopping(Apply(s, l))
  {
    hide CheckinStep;
    if l.Step? && OnTask(s.threads[l.p]) {
      CheckinShape(s, l.p);
    }
  }

  lemma ExitTurns(s: State)
    requires AllInv(s)
    ensures Someones(Machine(), Exit(), s)
  {
    hide PoolSafety.Inv;
    if Leaving(s) {
      if s.worker == Sleep && s.alarms == 0 {
        assert SomeAlarm(s);
        var p :| p in s.threads && s.threads[p].Alarm?;
        assert Exit().turn(s, Other(p));
      } else {
        assert Exit().turn(s, TheWorker);
        WorkerCanStep(s);
      }
    }
  }

  lemma WorkerCanStep(s: State)
    requires AllInv(s) && Leaving(s) && (s.worker == Sleep ==> s.alarms > 0)
    ensures CanStep(s, TheWorker)
  {
    hide SlotInv, PoolSafety.LogInv, PoolSafety.ThreadInv, DoorInv;
  }

  /** Once m_running is cleared the worker leaves its loop. */
  lemma StoppedIsGone(run: nat -> State, acts: nat -> Label, n: nat)
    requires FairRun(Machine(), run, acts) && Stopping(run(n))
    ensures exists m :: n <= m && run(m).worker == Gone
  {
    hide FairRun, Falls, Someones, Stopping, AllInv;
    forall i: nat
      ensures Falls(Machine(), Exit(), run(i), acts(i), run(i + 1)) && Someones(Machine(), Exit(), run(i))
      ensures Stopping(run(i)) ==> Stopping(run(i + 1))
    {
      FairRunInv(run, acts, i);
      StepsFollow(Machine(), run, acts, i);
      ExitFalls(run(i), acts(i), run(i + 1));
      ExitTurns(run(i));
    }
    var m := Reached(Machine(), Exit(), run, acts, n);
    Stays(run, n, m);
  }

  lemma {:induction false} Stays(run: nat -> State, n: nat, m: nat)
    requires n <= m && Stopping(run(n)) && forall i: nat :: Stopping(run(i)) ==> Stopping(run(i + 1))
    ensures Stopping(run(m))
    decreases m - n
  {
    hide Stopping;
    if n < m {
      Stays(run, n + 1, m);
    }
  }

  /** stopRun stops the pool: in every fair run, once a thread has called it on a running worker, the worker leaves
      its loop, asleep or busy, and m_running stays cleared. */
  lemma StopCompletes(run: nat -> State, acts: nat -> Label, n: nat, p: nat)
    requires FairRun(Machine(), run, acts)
    requires p in run(n).threads && run(n).threads[p] == StopTest && run(n).running
    ensures exists m :: n <= m && run(m).worker == Gone && !run(m).running
  {
    hide FairRun, AllInv;
    var k := StopIsHeard(run, acts, n, p);
    StoppedIsGone(run, acts, k);
    var m :| k <= m && run(m).worker == Gone;
    FairRunInv(run, acts, m);
    GoneIsStopped(run(m));
  }

  lemma GoneIsStopped(s: State)
    requires AllInv(s) && s.worker == Gone
    ensures !s.running
  {
    hide PoolSafety.Inv, DoorInv;
  }
}
