/** One worker with its pooler and its waiter, as a machine of atomic steps.

    Any number of threads call addTask, endTask and stopRun while the worker runs
    Tasker::run, doTasks and consume. Every step is at most one atomic operation: a CMPXCHG, an
    exchange, a CAS, one locked critical section, one read or write of m_running, or one use of the
    event counter. */
module Pool {
  import opened Gate

  // The two bits of BinaryDoor.

  const DOOR_LOCKED := Low(0)
  const LOGIN := Low(1)

  /** Where another thread is. `Push`: its checkin returned true and the task must be pushed.
      `Login`: pushed, inside resume() on the door. `Fire`: login returned true, m_running is read
      next. `Alarm`: the event counter is written next. */
  datatype Thread =
    | Idle
    | Adding(task: nat, ev: nat, guess: Word)
    | Ending(task: nat)
    | Push(task: nat)
    | Login(guess: Word)
    | Fire
    | Alarm
    | StopTest
    | StopSet

  /** Where the worker is. `Head` to `Decide` is the walk of consume. */
  datatype Worker =
    | Fresh
    | LockDoor
    | Test
    | Splice
    | Head
    | Take(cur: nat)
    | Run(cur: nat)
    | Finish(cur: nat, ret: nat)
    | Park(cur: nat, ret: nat, guess: Word)
    | Decide(cur: nat, done: bool)
    | ReleaseDoor
    | Sleep
    | Gone

  /** A call of procTask or procTaskEnd that has started. */
  datatype Call = CallTask(task: nat) | CallEnd(task: nat)

  /** `lockQ` is the list of m_lock_root. m_safe_root holds `kept`, then the task under the cursor
      while it is not erased, then `rest`. */
  datatype State = State(
    slots: map<nat, Slot>,
    threads: map<nat, Thread>,
    lockQ: seq<nat>,
    kept: seq<nat>,
    rest: seq<nat>,
    worker: Worker,
    door: Word,
    running: bool,
    alarms: nat,
    log: seq<Call>)

  datatype Label =
    | StartAdd(p: nat, task: nat, ev: nat)
    | StartEnd(p: nat, task: nat)
    | StartStop(p: nat)
    | Step(p: nat)
    | Work(ret: nat)
    | Interrupt

  predicate Enabled(s: State, l: Label) {
    match l
    case StartAdd(p, t, ev) => p in s.threads && s.threads[p].Idle? && t in s.slots && UserEvent(ev)
    case StartEnd(p, t) => p in s.threads && s.threads[p].Idle? && t in s.slots
    case StartStop(p) => p in s.threads && s.threads[p].Idle?
    case Step(p) =>
      && p in s.threads && !s.threads[p].Idle?
      && (OnTask(s.threads[p]) ==> s.threads[p].task in s.slots)
    case Work(ret) =>
      && TaskResult(ret)
      && (OnCursor(s.worker) ==> s.worker.cur in s.slots)
      && (s.worker.Run? ==> s.slots[s.worker.cur].place.Running?)
      && (s.worker.Sleep? ==> s.alarms > 0)
      && (s.worker.Head? && s.rest != [] ==> s.rest[0] in s.slots)
      && !s.worker.Gone?
    case Interrupt => s.worker.Sleep?
  }

  predicate OnTask(th: Thread) {
    th.Adding? || th.Ending? || th.Push?
  }

  predicate OnCursor(w: Worker) {
    w.Take? || w.Run? || w.Finish? || w.Park? || w.Decide?
  }

  function Apply(s: State, l: Label): State
    requires Enabled(s, l)
  {
    match l
    case StartAdd(p, t, ev) => s.(threads := s.threads[p := Adding(t, ev, ZERO)])
    case StartEnd(p, t) => s.(threads := s.threads[p := Ending(t)])
    case StartStop(p) => s.(threads := s.threads[p := StopTest])
    case Step(p) => ThreadStep(s, p)
    case Work(ret) => WorkerStep(s, ret)
    case Interrupt => s.(worker := LockDoor)
  }

  function ThreadStep(s: State, p: nat): State
    requires Enabled(s, Step(p))
  {
    if OnTask(s.threads[p]) then CheckinStep(s, p) else BellStep(s, p)
  }

  /** A thread inside Pooler::add. */
  function CheckinStep(s: State, p: nat): State
    requires Enabled(s, Step(p)) && OnTask(s.threads[p])
  {
    var t := s.threads[p].task;
    match s.threads[p]
    case Adding(_, ev, guess) =>
      (match Cas(s.slots[t].word, Low(ev), guess)
       case Retry(seen) => s.(threads := s.threads[p := Adding(t, ev, seen)])
       case Done(was, _) =>
         s.(slots := s.slots[t := Hit(s.slots[t], ev)],
            threads := s.threads[p := if Wins(was, ev) then Push(t) else Idle]))
    case Ending(_) =>
      s.(slots := s.slots[t := HitEnd(s.slots[t])],
         threads := s.threads[p := if EndWins(s.slots[t].word) then Push(t) else Idle])
    case Push(_) =>
      s.(slots := s.slots[t := Pushed(s.slots[t])],
         threads := s.threads[p := Login(ZERO)],
         lockQ := s.lockQ + [t])
  }

  /** A thread inside resume or stopRun. */
  function BellStep(s: State, p: nat): State
    requires Enabled(s, Step(p)) && !OnTask(s.threads[p])
  {
    match s.threads[p]
    case Login(guess) =>
      (match Cas(s.door, LOGIN, guess)
       case Retry(seen) => s.(threads := s.threads[p := Login(seen)])
       case Done(was, w) =>
         s.(door := w, threads := s.threads[p := if was == ZERO then Fire else Idle]))
    case Fire => s.(threads := s.threads[p := if s.running then Alarm else Idle])
    case Alarm => s.(threads := s.threads[p := Idle], alarms := s.alarms + 1)
    case StopTest => s.(threads := s.threads[p := if s.running then StopSet else Idle])
    case StopSet => s.(threads := s.threads[p := Alarm], running := false)
  }

  function WorkerStep(s: State, ret: nat): State
    requires Enabled(s, Work(ret))
  {
    if OnCursor(s.worker) then WalkStep(s, ret) else LoopStep(s, ret)
  }

  /** The worker in Tasker::run, or at the head of the loop of consume. */
  function LoopStep(s: State, ret: nat): State
    requires Enabled(s, Work(ret)) && !OnCursor(s.worker)
  {
    match s.worker
    case Fresh => s.(running := true, worker := LockDoor)
    case LockDoor => s.(door := DOOR_LOCKED, worker := Test)
    case Test => s.(worker := if s.running then Splice else Gone)
    case Splice => s.(rest := s.kept + s.lockQ, kept := [], lockQ := [], worker := Head)
    case Head =>
      if s.rest == [] then s.(worker := if s.kept == [] then ReleaseDoor else LockDoor)
      else s.(worker := Take(s.rest[0]), rest := s.rest[1..])
    case ReleaseDoor =>
      if s.door == DOOR_LOCKED then s.(door := ZERO, worker := Sleep) else s.(worker := LockDoor)
    case Sleep => s.(alarms := 0, worker := LockDoor)
  }

  /** The worker in the body of the loop of consume. */
  function WalkStep(s: State, ret: nat): State
    requires Enabled(s, Work(ret)) && OnCursor(s.worker)
  {
    var t := s.worker.cur;
    match s.worker
    case Take(_) => s.(slots := s.slots[t := Lock(s.slots[t])], worker := Run(t))
    case Run(_) =>
      if EndSeen(s.slots[t]) then
        s.(slots := s.slots[t := Gate.CallEnd(s.slots[t])], worker := Decide(t, true), log := s.log + [CallEnd(t)])
      else
        s.(slots := s.slots[t := Gate.CallTask(s.slots[t], ret)], worker := Finish(t, ret), log := s.log + [CallTask(t)])
    case Finish(_, r) =>
      if CustomEvent(r) then s.(worker := Park(t, r, ZERO))
      else
        s.(slots := s.slots[t := Settle(s.slots[t], r)],
           worker := Decide(t, r == EV_NORM && s.slots[t].word == LOCKED))
    case Park(_, r, guess) =>
      (match Cas(s.slots[t].word, High(r), guess)
       case Retry(seen) => s.(worker := Park(t, r, seen))
       case Done(was, _) =>
         s.(slots := s.slots[t := Settle(s.slots[t], r)], worker := Decide(t, Leaves(was, r))))
    case Decide(_, done) =>
      if done then s.(worker := Head) else s.(kept := s.kept + [t], worker := Head)
  }

  ghost predicate Init(s: State) {
    && (forall t :: t in s.slots ==> s.slots[t] == FRESH)
    && (forall p :: p in s.threads ==> s.threads[p] == Idle)
    && s.lockQ == s.kept == s.rest == []
    && s.worker == Fresh && s.door == ZERO && !s.running && s.log == []
  }

  ghost predicate Next(s: State, s': State) {
    exists l :: Enabled(s, l) && s' == Apply(s, l)
  }

  /** A finite run from an initial state, with any interleaving. */
  ghost predicate IsRun(states: seq<State>) {
    && states != [] && Init(states[0])
    && forall i :: 0 < i < |states| ==> Next(states[i - 1], states[i])
  }

  ghost predicate IsPath(path: seq<State>) {
    path != [] && forall i :: 0 < i < |path| ==> Next(path[i - 1], path[i])
  }

  ghost predicate Reaches(s: State, s': State) {
    exists path :: IsPath(path) && path[0] == s && path[|path| - 1] == s'
  }

  lemma ReachesHere(s: State)
    ensures Reaches(s, s)
  {
    assert IsPath([s]);
  }

  lemma ReachesStep(s: State, s1: State, l: Label)
    requires Reaches(s, s1) && Enabled(s1, l)
    ensures Reaches(s, Apply(s1, l))
  {
    var path :| IsPath(path) && path[0] == s && path[|path| - 1] == s1;
    var longer := path + [Apply(s1, l)];
    forall i | 0 < i < |longer|
      ensures Next(longer[i - 1], longer[i])
    {
      if i < |path| {
        assert Next(path[i - 1], path[i]);
      }
    }
    assert IsPath(longer);
  }

  lemma ReachesJoin(s: State, s1: State, s2: State)
    requires Reaches(s, s1) && Reaches(s1, s2)
    ensures Reaches(s, s2)
  {
    var p :| IsPath(p) && p[0] == s && p[|p| - 1] == s1;
    var q :| IsPath(q) && q[0] == s1 && q[|q| - 1] == s2;
    var path := p + q[1..];
    forall i | 0 < i < |path|
      ensures Next(path[i - 1], path[i])
    {
      if i < |p| {
        assert Next(p[i - 1], p[i]);
      } else {
        assert Next(q[i - |p|], q[i - |p| + 1]);
        assert path[i - 1] == q[i - |p|];
      }
    }
    assert IsPath(path);
  }
}
