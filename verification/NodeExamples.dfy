/** A run in which a worker is still about to call addTask on a node that has been freed. */
module NodeExamples {
  import opened Gate
  import opened Node
  import opened NodeSafety
  import opened NodeSteps
  import opened Paths
  import NodeLateCalls

  ghost predicate Reachable(s: State) {
    ReachableBy((s: State) => Init(s), (s: State, s': State) => Next(s, s'), s)
  }

  lemma Goes(s: State, l: Label)
    requires Reachable(s) && Enabled(s, l)
    ensures Reachable(Apply(s, l))
  {
    hide Enabled, Apply, Init, ReachableBy;
    assert Next(s, Apply(s, l));
    ReachedNext((s: State) => Init(s), (s: State, s': State) => Next(s, s'), s, Apply(s, l));
  }

  lemma RunTo(s: State) returns (run: seq<State>)
    requires Reachable(s)
    ensures IsRun(run) && run != [] && run[|run| - 1] == s
  {
    run := PathTo((s: State) => Init(s), (s: State, s': State) => Next(s, s'), s);
  }

  const JOBS: map<Who, Job> :=
    map[Thread(0) := Nothing, Worker(Rd) := Nothing, Worker(Wr) := Nothing, Worker(Deal) := Nothing,
        Worker(Dir) := Nothing]

  const AT_START := State(map[Rd := NEW, Wr := NEW, Deal := NEW, Dir := NEW], JOBS, NORMAL, true, [])

  const ANY_PICK := Pick(EV_NORM, 0, false)

  lemma StartReached()
    ensures Reachable(AT_START) && Complete(AT_START)
    ensures forall r: Role :: AT_START.at[r] == NEW
  {
    forall r: Role
      ensures r in AT_START.at && AT_START.at[r] == NEW && Worker(r) in AT_START.jobs
    {
      match r
      case Rd => case Wr => case Deal => case Dir =>
    }
    assert Complete(AT_START) && Init(AT_START);
    ReachedFirst((s: State) => Init(s), (s: State, s': State) => Next(s, s'), AT_START);
  }

  // The director at rest, asked to run, and past a command, with the messages in its two queues.

  predicate DirIs(s: State, slot: Slot, stage: Stage, que: seq<Msg>, tmp: seq<Msg>)
    requires Complete(s)
  {
    s.at[Dir].slot == slot && s.at[Dir].stage == stage && s.at[Dir].que == que && s.at[Dir].tmp == tmp
  }

  const QUEUED := Slot(Low(EV_NORM), Queued, false, false)
  const RUNNING := Slot(LOCKED, Running(Low(EV_NORM)), false, false)

  /** Only the stations of r and of the director have changed. */
  predicate OthersSame(s: State, s': State, r: Role)
    requires Complete(s) && Complete(s')
  {
    forall q: Role :: q != r && q != Dir ==> s'.at[q] == s.at[q]
  }

  /** addTask for the director, who is at rest. */
  lemma Calls(s: State, w: Who) returns (s': State)
    requires Reachable(s) && Complete(s) && w in s.jobs && s.jobs[w] == Add(Dir, EV_NORM)
    requires DirIs(s, FRESH, Rest, [], s.at[Dir].tmp)
    ensures Reachable(s') && Complete(s') && DirIs(s', QUEUED, Rest, [], s.at[Dir].tmp)
    ensures OthersSame(s, s', Dir) && s'.jobs == s.jobs[w := Nothing]
    ensures s'.status == s.status
  {
    hide Reachable;
    assert Hit(FRESH, EV_NORM) == Slot(Low(EV_NORM), Claimed, false, false) by {
      assert Or(ZERO, Low(EV_NORM)) == Low(EV_NORM);
    }
    Goes(s, Act(w));
    var s1 := Apply(s, Act(w));
    Goes(s1, Act(w));
    s' := Apply(s1, Act(w));
  }

  /** The director locks its task and splices. */
  lemma Drains(s: State, m: Msg) returns (s': State)
    requires Reachable(s) && Complete(s) && s.jobs[Worker(Dir)] == Nothing && DirIs(s, QUEUED, Rest, [], [m])
    ensures Reachable(s') && Complete(s') && DirIs(s', RUNNING, Drained, [m], [])
    ensures OthersSame(s, s', Dir) && s'.jobs == s.jobs && s'.status == s.status
  {
    hide Reachable, Freed, DealCmd, Written, Settle;
    var l := Work(Dir, ANY_PICK);
    Goes(s, l);
    var s1 := Apply(s, l);
    assert DirIs(s1, RUNNING, Start, [], [m]);
    Goes(s1, l);
    s' := Apply(s1, l);
  }

  /** It takes the message and handles it. */
  lemma Handles(s: State, m: Msg, j: Job) returns (s': State)
    requires Reachable(s) && Complete(s) && s.jobs[Worker(Dir)] == Nothing && DirIs(s, RUNNING, Drained, [m], [])
    requires || (m == Stop(CLOSING) && j == EndOf(Rd) && s.status < CLOSING)
             || (exists k: Role :: k != Dir && m == StopOf(k) && j == EndOf(After(k)))
    ensures Reachable(s') && Complete(s') && DirIs(s', RUNNING, Drained, [], [])
    ensures OthersSame(s, s', Dir) && s'.jobs == s.jobs[Worker(Dir) := j]
  {
    hide Reachable, Freed, Spliced, Settle, DealCmd;
    var l := Work(Dir, ANY_PICK);
    Goes(s, l);
    var s1 := Apply(s, l);
    assert DirIs(s1, RUNNING, Hand(m), [], []) && s1.jobs == s.jobs && s1.status == s.status;
    Goes(s1, l);
    s' := Apply(s1, l);
    CmdDone(s1, m, j);
  }

  lemma CmdDone(s: State, m: Msg, j: Job)
    requires Complete(s)
    requires || (m == Stop(CLOSING) && j == EndOf(Rd) && s.status < CLOSING)
             || (exists k: Role :: k != Dir && m == StopOf(k) && j == EndOf(After(k)))
    ensures var s' := DealCmd(s, m, ANY_PICK);
      s'.at == s.at[Dir := s.at[Dir].(stage := Drained)] && s'.jobs == s.jobs[Worker(Dir) := j]
  {
  }

  /** The first request to close, up to the director's answer. */
  lemma Closes() returns (s': State)
    ensures Reachable(s') && Complete(s') && DirIs(s', RUNNING, Drained, [], [])
    ensures s'.jobs == JOBS[Worker(Dir) := EndOf(Rd)] && forall r: Role :: r != Dir ==> s'.at[r] == NEW
  {
    hide Reachable, Apply;
    var s := Requested();
    var s1 := Calls(s, Thread(0));
    var s2 := Drains(s1, Stop(CLOSING));
    s' := Handles(s2, Stop(CLOSING), EndOf(Rd));
  }

  lemma Requested() returns (s': State)
    ensures Reachable(s') && Complete(s') && DirIs(s', FRESH, Rest, [], [Stop(CLOSING)]) && s'.status < CLOSING
    ensures Thread(0) in s'.jobs && s'.jobs[Thread(0)] == Add(Dir, EV_NORM) && s'.jobs[Thread(0) := Nothing] == JOBS
    ensures forall r: Role :: r != Dir ==> s'.at[r] == NEW
  {
    hide Reachable;
    StartReached();
    var s := AT_START;
    Goes(s, Begin(0, Put(Dir, Stop(CLOSING))));
    var s1 := Apply(s, Begin(0, Put(Dir, Stop(CLOSING))));
    Goes(s1, Act(Thread(0)));
    s' := Apply(s1, Act(Thread(0)));
  }

  /** A run to eof in which the dealer's worker has queued its STOP message and not called addTask yet. A second
      request to close, which a failing sender makes after a failing reader, has woken the director once too
      often. The addTask that follows is on a freed node. */
  lemma LateCall() returns (run: seq<State>)
    ensures IsRun(run)
    ensures var s := run[|run| - 1];
      Complete(s) && s.at[Dir].slot.ended && s.jobs[Worker(Deal)] == Add(Dir, EV_NORM)
  {
    hide Reachable, IsRun, NodeLateCalls.Onward, Inv;
    var s := Closes();
    var l := Begin(0, Put(Dir, Stop(CLOSING)));
    Goes(s, l);
    var s1 := Apply(s, l);
    assert s1.jobs[Thread(0)] == Put(Dir, Stop(CLOSING));
    assert Inv(s1) by {
      var path := RunTo(s1);
      RunInv(path);
    }
    var s' := NodeLateCalls.LateCallFrom(s1);
    GoesOn(s1, s');
    run := RunTo(s');
  }

  lemma GoesOn(s: State, s': State)
    requires Reachable(s) && NodeLateCalls.Onward(s, s')
    ensures Reachable(s')
  {
    hide Reachable;
    var path :| NodeLateCalls.Path(path) && path[0] == s && path[|path| - 1] == s';
    PathReaches(path);
  }

  lemma {:induction false} PathReaches(path: seq<State>)
    requires NodeLateCalls.Path(path) && Reachable(path[0])
    ensures Reachable(path[|path| - 1])
    decreases |path|
  {
    hide Reachable, Apply, Enabled;
    var n := |path| - 1;
    if n > 0 {
      PathReaches(path[..n]);
      assert NodeLateCalls.Goes(path[n - 1], path[n]);
      var l :| NodeLateCalls.Spares(l) && Enabled(path[n - 1], l) && path[n] == Apply(path[n - 1], l);
      Goes(path[n - 1], l);
    }
  }
}
