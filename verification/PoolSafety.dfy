/** What every interleaving of the pool keeps: each task is claimed, queued or run at most once at a
    time, no event and no END is lost, and nothing of a task starts after its procTaskEnd. */
module PoolSafety {
  import opened Gate
  import opened Lists
  import opened Pool

  /** The cursor's task is still in m_safe_root and still the worker's. */
  predicate Held(w: Worker, t: nat) {
    w == Take(t) || w == Decide(t, false)
  }

  predicate AtCursor(w: Worker, t: nat) {
    OnCursor(w) && w.cur == t
  }

  predicate Walking(w: Worker) {
    w.Head? || OnCursor(w)
  }

  /** The task under the cursor has not been let go yet. */
  predicate OwnsCursor(s: State) {
    OnCursor(s.worker) && (s.worker.Decide? ==> !s.worker.done)
  }

  ghost predicate GateInv(s: State) {
    forall t :: t in s.slots ==> SlotInv(s.slots[t])
  }

  ghost predicate ThreadsOk(s: State) {
    && (forall p :: p in s.threads && OnTask(s.threads[p]) ==> s.threads[p].task in s.slots)
    && (forall p :: p in s.threads && s.threads[p].Adding? ==> UserEvent(s.threads[p].ev))
  }

  /** Each claimed task has exactly one thread that is about to push it. */
  ghost predicate PushersOk(s: State) {
    && (forall p :: p in s.threads && s.threads[p].Push? ==>
          s.threads[p].task in s.slots && s.slots[s.threads[p].task].place == Claimed)
    && (forall p, q :: p in s.threads && q in s.threads && p != q && s.threads[p].Push? ==> s.threads[p] != s.threads[q])
    && (forall t :: t in s.slots && s.slots[t].place == Claimed ==> exists p :: p in s.threads && s.threads[p] == Push(t))
  }

  ghost predicate ThreadInv(s: State) {
    ThreadsOk(s) && PushersOk(s)
  }

  ghost predicate ListInv(s: State) {
    && Distinct(s.lockQ) && Distinct(s.kept) && Distinct(s.rest)
    && (forall t :: t in s.lockQ ==> t in s.slots && t !in s.kept && t !in s.rest && !Held(s.worker, t))
    && (forall t :: t in s.kept ==> t in s.slots && t !in s.rest && !AtCursor(s.worker, t))
    && (forall t :: t in s.rest ==> t in s.slots && !AtCursor(s.worker, t))
    && (s.rest != [] ==> Walking(s.worker))
    && (s.worker in {ReleaseDoor, Sleep} ==> s.kept == [])
  }

  ghost predicate WorkerInv(s: State) {
    && (OnCursor(s.worker) ==> s.worker.cur in s.slots)
    && (s.worker.Run? ==> s.slots[s.worker.cur].place.Running?)
    && (s.worker.Finish? || s.worker.Park? ==> s.slots[s.worker.cur].place == Returned(s.worker.ret))
    && (s.worker.Park? ==> CustomEvent(s.worker.ret))
  }

  /** Where the place of a task says it is, it is. */
  ghost predicate PlaceInv(s: State) {
    forall t :: t in s.slots ==>
      && (s.slots[t].place == Queued <==> t in s.lockQ || t in s.kept || t in s.rest || Held(s.worker, t))
      && (s.slots[t].place.Running? ==> s.worker == Run(t))
      && (s.slots[t].place.Returned? ==> (s.worker.Finish? || s.worker.Park?) && s.worker.cur == t)
  }

  ghost predicate LogInv(s: State) {
    && (forall c :: c in s.log ==> c.task in s.slots)
    && (forall t :: t in s.slots ==> (s.slots[t].ended <==> CallEnd(t) in s.log))
    && (forall i, j :: 0 <= i < j < |s.log| && s.log[i].CallEnd? ==> s.log[j].task != s.log[i].task)
  }

  ghost predicate Inv(s: State) {
    GateInv(s) && ThreadInv(s) && ListInv(s) && WorkerInv(s) && PlaceInv(s) && LogInv(s)
  }

  lemma InitInv(s: State)
    requires Init(s)
    ensures Inv(s)
  {
    FreshInv();
  }

  // Which move of which task a step makes.

  ghost predicate Moves(s: State, s': State, t: nat, m: Move) {
    && t in s.slots && CanMove(s.slots[t], m)
    && s'.slots == s.slots[t := Moved(s.slots[t], m)]
  }

  lemma MoveKeepsGateInv(s: State, s': State, t: nat, m: Move)
    requires GateInv(s) && Moves(s, s', t, m)
    ensures GateInv(s')
  {
    hide SlotInv, Moved;
    MoveKeepsInv(s.slots[t], m);
  }

  /** Nothing that matters to the lists or the places changes. */
  ghost predicate SamePlaces(s: State, s': State) {
    && s'.slots.Keys == s.slots.Keys
    && (forall t :: t in s.slots ==> s'.slots[t].place == s.slots[t].place && s'.slots[t].ended == s.slots[t].ended)
  }

  ghost predicate SameLists(s: State, s': State) {
    s'.lockQ == s.lockQ && s'.kept == s.kept && s'.rest == s.rest && s'.log == s.log
  }

  ghost predicate SamePushers(s: State, s': State) {
    && s'.threads.Keys == s.threads.Keys
    && (forall p :: p in s.threads ==> s'.threads[p] == s.threads[p] || (!s'.threads[p].Push? && !s.threads[p].Push?))
  }

  lemma StutterKeepsPushers(s: State, s': State)
    requires PushersOk(s) && SamePlaces(s, s') && SamePushers(s, s')
    ensures PushersOk(s')
  {
    forall t | t in s'.slots && s'.slots[t].place == Claimed
      ensures exists p :: p in s'.threads && s'.threads[p] == Push(t)
    {
      var p :| p in s.threads && s.threads[p] == Push(t);
      assert s'.threads[p] == Push(t);
    }
  }

  lemma WorkerKeepsThreadInv(s: State, s': State)
    requires ThreadInv(s) && s'.slots == s.slots && s'.threads == s.threads
    ensures ThreadInv(s')
  {
    hide UserEvent;
    StutterKeepsPushers(s, s');
  }

  lemma StutterKeepsRest(s: State, s': State)
    requires ListInv(s) && WorkerInv(s) && PlaceInv(s) && LogInv(s)
    requires SamePlaces(s, s') && SameLists(s, s') && s'.worker == s.worker
    ensures ListInv(s') && WorkerInv(s') && PlaceInv(s') && LogInv(s')
  {
  }

  /** The worker moves from one place outside the walk to another. */
  lemma RestKeepsInv(s: State, s': State)
    requires Inv(s) && !Walking(s.worker) && !Walking(s'.worker)
    requires s'.slots == s.slots && s'.threads == s.threads && SameLists(s, s')
    requires s'.worker in {ReleaseDoor, Sleep} ==> s.kept == []
    ensures Inv(s')
  {
    hide SlotInv, ThreadInv, Distinct;
    WorkerKeepsThreadInv(s, s');
  }

  lemma StartKeepsThreadInv(s: State, s': State, p: nat, th: Thread)
    requires ThreadInv(s) && p in s.threads && s.threads[p] == Idle
    requires s'.slots == s.slots && s'.threads == s.threads[p := th] && !th.Push?
    requires OnTask(th) ==> th.task in s.slots
    requires th.Adding? ==> UserEvent(th.ev)
    ensures ThreadInv(s')
  {
    hide PushersOk, UserEvent;
    StutterKeepsPushers(s, s');
  }

  lemma StartKeepsInv(s: State, l: Label)
    requires Inv(s) && Enabled(s, l) && !l.Step? && !l.Work?
    ensures Inv(Apply(s, l))
  {
    hide SlotInv, ThreadInv, ListInv, WorkerInv, PlaceInv, LogInv, ThreadStep, WorkerStep;
    var s' := Apply(s, l);
    if l.Interrupt? {
      RestKeepsInv(s, s');
    } else {
      StartKeepsThreadInv(s, s', l.p, s'.threads[l.p]);
      StutterKeepsRest(s, s');
    }
  }

  /** A checkin, won or lost. */
  lemma HitKeepsInv(s: State, s': State, p: nat, t: nat, m: Move)
    requires Inv(s) && p in s.threads && !s.threads[p].Push?
    requires Moves(s, s', t, m) && (m.MHit? || m.MHitEnd?)
    requires SameLists(s, s') && s'.worker == s.worker
    requires s'.threads == s.threads[p := if s.slots[t].place == Out && s'.slots[t].place == Claimed then Push(t) else Idle]
    ensures Inv(s')
  {
    hide SlotInv, Moved, CanMove, UserEvent, Distinct, ThreadInv, GateInv, ListInv, WorkerInv, PlaceInv, LogInv;
    assert SlotInv(s.slots[t]) by { SlotAt(s, t); }
    MoveEffect(s.slots[t], m);
    MoveKeepsGateInv(s, s', t, m);
    HitKeepsThreadInv(s, s', p, t);
    HitKeepsPlaces(s, s', t);
  }

  lemma SlotAt(s: State, t: nat)
    requires GateInv(s) && t in s.slots
    ensures SlotInv(s.slots[t])
  {
    hide SlotInv;
  }

  lemma HitKeepsPlaces(s: State, s': State, t: nat)
    requires ListInv(s) && WorkerInv(s) && PlaceInv(s) && LogInv(s) && SameLists(s, s') && s'.worker == s.worker
    requires t in s.slots && t in s'.slots && s'.slots == s.slots[t := s'.slots[t]]
    requires s'.slots[t].place == s.slots[t].place || (s.slots[t].place == Out && s'.slots[t].place == Claimed)
    requires s'.slots[t].ended == s.slots[t].ended
    ensures ListInv(s') && WorkerInv(s') && PlaceInv(s') && LogInv(s')
  {
    hide Distinct;
  }

  lemma HitKeepsThreadInv(s: State, s': State, p: nat, t: nat)
    requires ThreadInv(s) && p in s.threads && !s.threads[p].Push? && t in s.slots
    requires t in s'.slots && s'.slots == s.slots[t := s'.slots[t]]
    requires s'.slots[t].place == s.slots[t].place || (s.slots[t].place == Out && s'.slots[t].place == Claimed)
    requires s'.threads == s.threads[p := if s.slots[t].place == Out && s'.slots[t].place == Claimed then Push(t) else Idle]
    ensures ThreadInv(s')
  {
    hide UserEvent;
    forall u | u in s'.slots && s'.slots[u].place == Claimed
      ensures exists q :: q in s'.threads && s'.threads[q] == Push(u)
    {
      if s.slots[u].place == Claimed {
        var q :| q in s.threads && s.threads[q] == Push(u);
        assert s'.threads[q] == Push(u);
      } else {
        assert s'.threads[p] == Push(u);
      }
    }
  }

  lemma PushKeepsThreadInv(s: State, s': State, p: nat, t: nat)
    requires ThreadInv(s) && p in s.threads && s.threads[p] == Push(t) && t in s.slots
    requires t in s'.slots && s'.slots == s.slots[t := s'.slots[t]] && s'.slots[t].place == Queued
    requires s'.threads == s.threads[p := Login(ZERO)]
    ensures ThreadInv(s')
  {
    hide UserEvent;
    forall u | u in s'.slots && s'.slots[u].place == Claimed
      ensures exists q :: q in s'.threads && s'.threads[q] == Push(u)
    {
      var q :| q in s.threads && s.threads[q] == Push(u);
      assert s'.threads[q] == Push(u);
    }
  }

  lemma PushStepKeepsInv(s: State, p: nat)
    requires Inv(s) && Enabled(s, Step(p)) && s.threads[p].Push?
    ensures Inv(ThreadStep(s, p))
  {
    hide BellStep, Cas, SlotInv, UserEvent, Distinct, ListInv, PlaceInv, LogInv, WorkerInv;
    var t := s.threads[p].task;
    var s' := ThreadStep(s, p);
    MoveKeepsGateInv(s, s', t, MPush);
    PushKeepsThreadInv(s, s', p, t);
    PushKeepsLists(s, s', t);
  }

  lemma PushKeepsLists(s: State, s': State, t: nat)
    requires ListInv(s) && WorkerInv(s) && PlaceInv(s) && LogInv(s)
    requires t in s.slots && s.slots[t].place == Claimed
    requires s'.slots == s.slots[t := Pushed(s.slots[t])] && s'.lockQ == s.lockQ + [t]
    requires s'.kept == s.kept && s'.rest == s.rest && s'.log == s.log && s'.worker == s.worker
    ensures ListInv(s') && WorkerInv(s') && PlaceInv(s') && LogInv(s')
  {
    hide Distinct;
    PushKeepsLog(s, s', t);
    hide LogInv;
    assert forall u :: u in s'.lockQ <==> u in s.lockQ || u == t;
    assert t !in s.lockQ;
    DistinctJoin(s.lockQ, [t]) by { DistinctOne(t); }
    PushKeepsPlaces(s, s', t);
    hide PlaceInv;
  }

  lemma PushKeepsPlaces(s: State, s': State, t: nat)
    requires WorkerInv(s) && PlaceInv(s) && t in s.slots && s.slots[t].place == Claimed && s'.worker == s.worker
    requires s'.slots == s.slots[t := Pushed(s.slots[t])] && s'.kept == s.kept && s'.rest == s.rest
    requires forall u :: u in s'.lockQ <==> u in s.lockQ || u == t
    ensures PlaceInv(s')
  {
  }

  lemma PushKeepsLog(s: State, s': State, t: nat)
    requires LogInv(s) && t in s.slots && s'.slots == s.slots[t := Pushed(s.slots[t])] && s'.log == s.log
    ensures LogInv(s')
  {
  }

  lemma ThreadStepKeepsInv(s: State, p: nat)
    requires Inv(s) && Enabled(s, Step(p))
    ensures Inv(ThreadStep(s, p))
  {
    hide Inv, CheckinStep, BellStep;
    match s.threads[p]
    case Push(t) => PushStepKeepsInv(s, p);
    case Adding(_, _, _) => CheckinStepKeepsInv(s, p);
    case Ending(_) => CheckinStepKeepsInv(s, p);
    case _ => BellStepKeepsInv(s, p);
  }

  lemma CheckinStepKeepsInv(s: State, p: nat)
    requires Inv(s) && Enabled(s, Step(p)) && (s.threads[p].Adding? || s.threads[p].Ending?)
    ensures Inv(CheckinStep(s, p))
  {
    hide SlotInv, ListInv, PlaceInv, LogInv, WorkerInv, ThreadInv, Hit, HitEnd, Cas, Wins, EndWins, Distinct, UserEvent;
    var s' := CheckinStep(s, p);
    var th := s.threads[p];
    if th.Ending? {
      MoveEffect(s.slots[th.task], MHitEnd);
      HitKeepsInv(s, s', p, th.task, MHitEnd);
    } else if Cas(s.slots[th.task].word, Low(th.ev), th.guess).Done? {
      AddingInv(s, p);
      CasFindsWord(s.slots[th.task].word, Low(th.ev), th.guess);
      MoveEffect(s.slots[th.task], MHit(th.ev));
      HitKeepsInv(s, s', p, th.task, MHit(th.ev));
    } else {
      OneThreadMoves(s, s', p, s'.threads[p]);
      StutterKeepsRest(s, s');
    }
  }

  lemma BellStepKeepsInv(s: State, p: nat)
    requires Inv(s) && Enabled(s, Step(p)) && !OnTask(s.threads[p])
    ensures Inv(BellStep(s, p))
  {
    hide SlotInv, ListInv, PlaceInv, LogInv, WorkerInv, ThreadInv, Cas;
    var s' := BellStep(s, p);
    OneThreadMoves(s, s', p, s'.threads[p]);
    StutterKeepsRest(s, s');
  }

  lemma AddingInv(s: State, p: nat)
    requires ThreadInv(s) && p in s.threads && s.threads[p].Adding?
    ensures UserEvent(s.threads[p].ev) && s.threads[p].task in s.slots
  {
  }

  lemma CasFindsWord(w: Word, n: Word, guess: Word)
    ensures Cas(w, n, guess).Done? ==> Cas(w, n, guess).was == w && Cas(w, n, guess).w == Or(w, n)
  {
    if Cas(w, n, guess).Done? && w != guess {
      assert w.low + n.low == w.low && w.high + n.high == w.high;
    }
  }

  lemma OneThreadMoves(s: State, s': State, p: nat, th: Thread)
    requires ThreadInv(s) && p in s.threads && !s.threads[p].Push? && !th.Push?
    requires s'.slots == s.slots && s'.threads == s.threads[p := th]
    requires OnTask(th) ==> OnTask(s.threads[p]) && th.task == s.threads[p].task
    requires th.Adding? ==> s.threads[p].Adding? && th.ev == s.threads[p].ev
    ensures ThreadInv(s')
  {
    hide UserEvent, PushersOk;
    StutterKeepsPushers(s, s');
  }

  lemma DistinctOne(t: nat)
    ensures Distinct([t])
  {
  }

  lemma DistinctTail(a: seq<nat>)
    requires Distinct(a) && a != []
    ensures Distinct(a[1..]) && forall t :: t in a[1..] <==> t in a && t != a[0]
  {
    assert a == [a[0]] + a[1..];
  }

  lemma SpliceKeepsInv(s: State, ret: nat)
    requires Inv(s) && Enabled(s, Work(ret)) && s.worker.Splice?
    ensures Inv(WorkerStep(s, ret))
  {
    hide WalkStep, SlotInv, ThreadInv, Distinct;
    var s' := WorkerStep(s, ret);
    DistinctJoin(s.kept, s.lockQ);
    assert forall t :: t in s'.rest <==> t in s.kept || t in s.lockQ;
    WorkerKeepsThreadInv(s, s');
  }

  lemma TakeKeepsInv(s: State, ret: nat)
    requires Inv(s) && Enabled(s, Work(ret)) && s.worker.Head?
    ensures Inv(WorkerStep(s, ret))
  {
    hide WalkStep, GateInv, LogInv, ThreadInv, ListInv, WorkerInv, PlaceInv;
    var s' := WorkerStep(s, ret);
    WorkerKeepsThreadInv(s, s');
    SlotsKeep(s, s');
    HeadKeepsPlaces(s, s');
  }

  lemma HeadKeepsPlaces(s: State, s': State)
    requires ListInv(s) && WorkerInv(s) && PlaceInv(s) && s.worker.Head?
    requires s'.slots == s.slots && s'.lockQ == s.lockQ && s'.kept == s.kept
    requires if s.rest == [] then s'.rest == [] && !OnCursor(s'.worker) && (s'.worker in {ReleaseDoor, Sleep} ==> s.kept == [])
             else s'.rest == s.rest[1..] && s'.worker == Take(s.rest[0])
    ensures ListInv(s') && WorkerInv(s') && PlaceInv(s')
  {
    hide Distinct;
    if s.rest != [] {
      DistinctTail(s.rest);
    }
  }

  lemma DecideKeepsInv(s: State, ret: nat)
    requires Inv(s) && Enabled(s, Work(ret)) && s.worker.Decide?
    ensures Inv(WorkerStep(s, ret))
  {
    hide LoopStep, GateInv, LogInv, ThreadInv, ListInv, WorkerInv, PlaceInv;
    var s' := WorkerStep(s, ret);
    WorkerKeepsThreadInv(s, s');
    SlotsKeep(s, s');
    DecideKeepsPlaces(s, s');
  }

  lemma SlotsKeep(s: State, s': State)
    requires GateInv(s) && LogInv(s) && s'.slots == s.slots && s'.log == s.log
    ensures GateInv(s') && LogInv(s')
  {
    hide SlotInv;
  }

  lemma DecideKeepsPlaces(s: State, s': State)
    requires ListInv(s) && WorkerInv(s) && PlaceInv(s) && s.worker.Decide? && s'.worker == Head
    requires s'.slots == s.slots && s'.lockQ == s.lockQ && s'.rest == s.rest
    requires s'.kept == if s.worker.done then s.kept else s.kept + [s.worker.cur]
    ensures ListInv(s') && WorkerInv(s') && PlaceInv(s')
  {
    hide Distinct;
    if !s.worker.done {
      DistinctOne(s.worker.cur);
      DistinctJoin(s.kept, [s.worker.cur]);
      assert forall t :: t in s'.kept <==> t in s.kept || t == s.worker.cur;
    }
  }

  /** The move a step of the walk makes on the task under the cursor. */
  function WalkMove(s: State, ret: nat): Move
    requires s.worker.Take? || s.worker.Run? || s.worker.Finish? || s.worker.Park?
    requires s.worker.cur in s.slots
  {
    match s.worker
    case Take(_) => MLock
    case Run(t) => if EndSeen(s.slots[t]) then MCallEnd else MCallTask(ret)
    case _ => MSettle
  }

  lemma WalkStepKeepsThreadInv(s: State, s': State, t: nat)
    requires ThreadInv(s) && t in s.slots && t in s'.slots && s'.slots == s.slots[t := s'.slots[t]] && s'.threads == s.threads
    requires s.slots[t].place != Claimed && s'.slots[t].place != Claimed
    ensures ThreadInv(s')
  {
    hide UserEvent;
    forall u | u in s'.slots && s'.slots[u].place == Claimed
      ensures exists q :: q in s'.threads && s'.threads[q] == Push(u)
    {
      assert s.slots[u].place == Claimed;
    }
  }

  /** The walk step that touches no task: into the CAS loop of checkout, or once more round it. */
  predicate Tries(s: State) {
    || (s.worker.Finish? && CustomEvent(s.worker.ret))
    || (s.worker.Park? && s.worker.cur in s.slots && Cas(s.slots[s.worker.cur].word, High(s.worker.ret), s.worker.guess).Retry?)
  }

  lemma TryKeepsInv(s: State, ret: nat)
    requires Inv(s) && Enabled(s, Work(ret)) && Tries(s)
    ensures Inv(WorkerStep(s, ret))
  {
    hide LoopStep, Settle, Cas, GateInv, LogInv, ThreadInv, ListInv, PlaceInv;
    var s' := WorkerStep(s, ret);
    WorkerKeepsThreadInv(s, s');
    SlotsKeep(s, s');
    TryKeepsPlaces(s, s');
  }

  lemma TryKeepsPlaces(s: State, s': State)
    requires ListInv(s) && WorkerInv(s) && PlaceInv(s) && (s.worker.Finish? || s.worker.Park?) && s'.worker.Park?
    requires s'.worker.cur == s.worker.cur && s'.worker.ret == s.worker.ret && CustomEvent(s.worker.ret)
    requires s'.slots == s.slots && s'.lockQ == s.lockQ && s'.kept == s.kept && s'.rest == s.rest
    ensures ListInv(s') && WorkerInv(s') && PlaceInv(s')
  {
    hide Distinct;
  }

  /** What a walk step that touches the task under the cursor does to its place. */
  ghost predicate Walked(s: State, s': State, t: nat) {
    && t in s.slots && t in s'.slots && s'.slots == s.slots[t := s'.slots[t]]
    && s'.lockQ == s.lockQ && s'.kept == s.kept && s'.rest == s.rest
    && OnCursor(s.worker) && !s.worker.Decide? && s.worker.cur == t
    && s'.slots[t].place != Claimed
    && (s'.slots[t].place == Queued ==> s'.worker == Decide(t, false))
    && (s'.slots[t].place == Out ==> s'.worker == Decide(t, true))
    && (s'.slots[t].place.Running? ==> s'.worker == Run(t))
    && (s'.slots[t].place.Returned? ==> s'.worker == Finish(t, s'.slots[t].place.ret))
  }

  lemma WalkKeepsPlaces(s: State, s': State, t: nat)
    requires ListInv(s) && WorkerInv(s) && PlaceInv(s) && Walked(s, s', t)
    ensures ListInv(s') && WorkerInv(s') && PlaceInv(s')
  {
    WalkKeepsLists(s, s', t);
    WalkKeepsRest(s, s', t);
  }

  lemma WalkKeepsLists(s: State, s': State, t: nat)
    requires ListInv(s) && WorkerInv(s) && PlaceInv(s) && Walked(s, s', t)
    ensures ListInv(s') && WorkerInv(s')
  {
    hide Distinct;
  }

  lemma WalkKeepsRest(s: State, s': State, t: nat)
    requires ListInv(s) && WorkerInv(s) && PlaceInv(s) && Walked(s, s', t)
    ensures PlaceInv(s')
  {
    hide Distinct;
  }

  lemma WalkStepKeepsInv(s: State, ret: nat)
    requires Inv(s) && Enabled(s, Work(ret)) && !Tries(s)
    requires s.worker.Take? || s.worker.Run? || s.worker.Finish? || s.worker.Park?
    ensures Inv(WorkerStep(s, ret))
  {
    hide SlotInv, WorkerStep, ThreadInv, ListInv, LogInv, Moved, Enabled, WorkerInv, PlaceInv;
    var t := s.worker.cur;
    var s' := WorkerStep(s, ret);
    WalkMoveEffect(s, ret);
    MoveKeepsGateInv(s, s', t, WalkMove(s, ret));
    WalkStepKeepsThreadInv(s, s', t);
    WalkKeepsPlaces(s, s', t);
    WalkStepKeepsLog(s, ret);
  }

  lemma WalkMoveEffect(s: State, ret: nat)
    requires Inv(s) && Enabled(s, Work(ret)) && !Tries(s)
    requires s.worker.Take? || s.worker.Run? || s.worker.Finish? || s.worker.Park?
    ensures var s' := WorkerStep(s, ret);
            var t := s.worker.cur;
            && Moves(s, s', t, WalkMove(s, ret)) && Walked(s, s', t)
            && s.slots[t].place != Claimed && s'.threads == s.threads
  {
    hide LoopStep, ThreadInv, ListInv, LogInv, SlotInv;
    var t := s.worker.cur;
    assert s.worker.Take? ==> Held(s.worker, t);
    if s.worker.Take? || s.worker.Run? {
      hide Inv, GateInv, PlaceInv, WorkerInv;
      CallEffect(s, ret);
    } else {
      hide Inv, GateInv, PlaceInv;
      SettleEffect(s, ret);
    }
  }

  lemma CallEffect(s: State, ret: nat)
    requires Enabled(s, Work(ret)) && (s.worker.Take? || s.worker.Run?) && s.worker.cur in s.slots
    requires if s.worker.Take? then s.slots[s.worker.cur].place == Queued else s.slots[s.worker.cur].place.Running?
    ensures var s' := WalkStep(s, ret);
            var t := s.worker.cur;
            Moves(s, s', t, WalkMove(s, ret)) && Walked(s, s', t) && s'.threads == s.threads
  {
  }

  lemma SettleEffect(s: State, ret: nat)
    requires Enabled(s, Work(ret)) && (s.worker.Finish? || s.worker.Park?) && !Tries(s)
    requires WorkerInv(s) && SlotInv(s.slots[s.worker.cur])
    ensures var s' := WalkStep(s, ret);
            var t := s.worker.cur;
            Moves(s, s', t, WalkMove(s, ret)) && Walked(s, s', t) && s'.threads == s.threads
  {
    if s.worker.Park? {
      CasFindsWord(s.slots[s.worker.cur].word, High(s.worker.ret), s.worker.guess);
    }
    MoveEffect(s.slots[s.worker.cur], WalkMove(s, ret));
  }

  lemma WalkStepKeepsLog(s: State, ret: nat)
    requires Inv(s) && Enabled(s, Work(ret)) && !Tries(s)
    requires s.worker.Take? || s.worker.Run? || s.worker.Finish? || s.worker.Park?
    ensures LogInv(WorkerStep(s, ret))
  {
    hide LoopStep, Cas, ThreadInv, ListInv, LogInv;
    var s' := WorkerStep(s, ret);
    var t := s.worker.cur;
    MoveEffect(s.slots[t], WalkMove(s, ret));
    if s.worker.Run? {
      CallKeepsLog(s, s', t, s'.log[|s.log|]);
    } else {
      NoCallKeepsLog(s, s', t);
    }
  }

  lemma NoCallKeepsLog(s: State, s': State, t: nat)
    requires LogInv(s) && s'.log == s.log
    requires t in s.slots && t in s'.slots && s'.slots == s.slots[t := s'.slots[t]] && s'.slots[t].ended == s.slots[t].ended
    ensures LogInv(s')
  {
  }

  lemma CallKeepsLog(s: State, s': State, t: nat, c: Call)
    requires LogInv(s) && s'.log == s.log + [c] && c.task == t
    requires t in s.slots && t in s'.slots && s'.slots == s.slots[t := s'.slots[t]]
    requires !s.slots[t].ended && (s'.slots[t].ended <==> c.CallEnd?)
    ensures LogInv(s')
  {
    assert forall d :: d in s'.log <==> d in s.log || d == c;
    forall i, j | 0 <= i < j < |s'.log| && s'.log[i].CallEnd?
      ensures s'.log[j].task != s'.log[i].task
    {
      assert s.log[i] in s.log;
    }
  }

  lemma LoopStepKeepsInv(s: State, ret: nat)
    requires Inv(s) && Enabled(s, Work(ret)) && !Walking(s.worker) && !s.worker.Splice?
    ensures Inv(WorkerStep(s, ret))
  {
    hide WalkStep, SlotInv, ThreadInv, WorkerInv, PlaceInv, LogInv, Distinct, Settle, Cas;
    RestKeepsInv(s, WorkerStep(s, ret));
  }

  lemma WorkerStepKeepsInv(s: State, ret: nat)
    requires Inv(s) && Enabled(s, Work(ret))
    ensures Inv(WorkerStep(s, ret))
  {
    hide Inv, Enabled, WorkerStep;
    if s.worker.Splice? {
      SpliceKeepsInv(s, ret);
    } else if s.worker.Head? {
      TakeKeepsInv(s, ret);
    } else if s.worker.Decide? {
      DecideKeepsInv(s, ret);
    } else if Tries(s) {
      TryKeepsInv(s, ret);
    } else if Walking(s.worker) {
      WalkStepKeepsInv(s, ret);
    } else {
      LoopStepKeepsInv(s, ret);
    }
  }

  lemma StepKeepsInv(s: State, l: Label)
    requires Inv(s) && Enabled(s, l)
    ensures Inv(Apply(s, l))
  {
    hide Inv, ThreadStep, WorkerStep;
    match l
    case Step(p) => ThreadStepKeepsInv(s, p);
    case Work(ret) => WorkerStepKeepsInv(s, ret);
    case _ => StartKeepsInv(s, l);
  }

  lemma NextKeepsInv(s: State, s': State)
    requires Inv(s) && Next(s, s')
    ensures Inv(s')
  {
    var l :| Enabled(s, l) && s' == Apply(s, l);
    StepKeepsInv(s, l);
  }

  lemma {:induction false} RunInv(states: seq<State>, i: nat)
    requires IsRun(states) && i < |states|
    ensures Inv(states[i])
  {
    if i == 0 {
      InitInv(states[0]);
    } else {
      RunInv(states, i - 1);
      NextKeepsInv(states[i - 1], states[i]);
    }
  }

  // The results.

  /** Queued, about to be pushed, or running. */
  ghost predicate Busy(s: State, t: nat) {
    || t in s.lockQ || t in s.kept || t in s.rest || Held(s.worker, t)
    || (AtCursor(s.worker, t) && !s.worker.Take? && !s.worker.Decide?)
    || exists p :: p in s.threads && s.threads[p] == Push(t)
  }

  lemma BusyIsPlaced(s: State, t: nat)
    requires Inv(s) && t in s.slots
    ensures Busy(s, t) <==> s.slots[t].place != Out
  {
    hide SlotInv, Distinct;
  }

  /** In every reachable state a live task that is not busy has state 0 or is parked on exactly one
      event whose low bit is clear, and a busy one has neither. So a pending event of an idle task is
      never the event that would wake it. */
  lemma NoEventIsLost(states: seq<State>, i: nat, t: nat)
    requires IsRun(states) && i < |states| && t in states[i].slots && !states[i].slots[t].ended
    ensures var s := states[i];
            !Busy(s, t) <==> s.slots[t].word == ZERO || exists ev :: Parked(s.slots[t].word, ev)
    ensures var s := states[i];
            forall ev :: UserEvent(ev) && ev in s.slots[t].word.low && !Busy(s, t) ==>
              exists other :: other != ev && Parked(s.slots[t].word, other)
  {
    RunInv(states, i);
    BusyIsPlaced(states[i], t);
    IdleIsOpen(states[i].slots[t]);
  }

  /** The nodes linked in the two lists: m_safe_root in walking order, then m_lock_root. */
  function Linked(s: State): seq<nat> {
    s.kept + (if OwnsCursor(s) then [s.worker.cur] else []) + s.rest + s.lockQ
  }

  /** In every reachable state no node is linked twice, and a thread that is about to push a node is
      the only one and finds it unlinked. */
  lemma LinkedOnce(states: seq<State>, i: nat)
    requires IsRun(states) && i < |states|
    ensures Distinct(Linked(states[i]))
    ensures forall p :: p in states[i].threads && states[i].threads[p].Push? ==>
              states[i].threads[p].task !in Linked(states[i])
    ensures forall p, q :: p in states[i].threads && q in states[i].threads && p != q && states[i].threads[p].Push? ==>
              states[i].threads[p] != states[i].threads[q]
  {
    RunInv(states, i);
    LinkedDistinct(states[i]);
    PushersFindUnlinked(states[i]);
  }

  lemma LinkedDistinct(s: State)
    requires Inv(s)
    ensures Distinct(Linked(s))
  {
    hide Distinct, SlotInv, ThreadInv, LogInv;
    var cur := if OwnsCursor(s) then [s.worker.cur] else [];
    if cur != [] {
      DistinctOne(s.worker.cur);
    } else {
      DistinctNone();
    }
    DistinctJoin(s.kept, cur);
    DistinctJoin(s.kept + cur, s.rest);
    forall t | t in s.kept + cur + s.rest
      ensures t !in s.lockQ
    {
      assert t in s.kept || t in cur || t in s.rest;
    }
    DistinctJoin(s.kept + cur + s.rest, s.lockQ);
  }

  lemma DistinctNone()
    ensures Distinct<nat>([])
  {
  }

  lemma PushersFindUnlinked(s: State)
    requires Inv(s)
    ensures forall p :: p in s.threads && s.threads[p].Push? ==> s.threads[p].task !in Linked(s)
    ensures PushersOk(s)
  {
    hide Distinct, SlotInv;
    forall p | p in s.threads && s.threads[p].Push?
      ensures s.threads[p].task !in Linked(s)
    {
      var t := s.threads[p].task;
      assert s.slots[t].place == Claimed;
      assert t !in s.kept && t !in s.rest && t !in s.lockQ;
    }
  }

  /** END is not forgotten: from the exchange in endTask until procTaskEnd is called, the task is
      queued, about to be pushed, or running. */
  lemma EndIsDelivered(states: seq<State>, i: nat, t: nat)
    requires IsRun(states) && i < |states| && t in states[i].slots
    requires states[i].slots[t].asked && !states[i].slots[t].ended
    ensures Busy(states[i], t)
  {
    RunInv(states, i);
    Gate.EndIsNotForgotten(states[i].slots[t]);
    BusyIsPlaced(states[i], t);
  }

  /** In every run procTaskEnd is called at most once for a task, only after END was asked for, and no
      call for the task starts after it. */
  lemma NothingAfterEnd(states: seq<State>, i: nat, k: nat)
    requires IsRun(states) && i < |states| && k < |states[i].log| && states[i].log[k].CallEnd?
    ensures var t := states[i].log[k].task;
            && t in states[i].slots && states[i].slots[t].asked
            && forall j :: 0 <= j < |states[i].log| && states[i].log[j] == Pool.CallEnd(t) ==> j == k
    ensures forall j :: k < j < |states[i].log| ==> states[i].log[j].task != states[i].log[k].task
  {
    RunInv(states, i);
    var s := states[i];
    assert s.log[k] in s.log;
    assert SlotInv(s.slots[s.log[k].task]);
  }

  /** After procTaskEnd of a task no checkin of any kind returns true for it. */
  lemma NoCheckinAfterEnd(states: seq<State>, i: nat, p: nat, t: nat)
    requires IsRun(states) && i + 1 < |states|
    requires p in states[i].threads && p in states[i + 1].threads
    requires states[i].threads[p] != Push(t) && states[i + 1].threads[p] == Push(t)
    ensures t in states[i].slots && !states[i].slots[t].ended && !states[i + 1].slots[t].ended
  {
    RunInv(states, i);
    RunInv(states, i + 1);
    var s, s' := states[i], states[i + 1];
    assert Next(states[i + 1 - 1], states[i + 1]);
    assert t in s'.slots && s'.slots[t].place == Claimed;
    assert SlotInv(s'.slots[t]);
    SlotsStay(s, s', t);
  }

  lemma SlotsStay(s: State, s': State, t: nat)
    requires Inv(s) && Next(s, s')
    ensures t in s.slots <==> t in s'.slots
    ensures t in s.slots && s.slots[t].ended ==> s'.slots[t].ended
  {
    hide SlotInv, Moved, CanMove, Apply, Enabled, ListInv, LogInv, PlaceInv, WorkerInv, ThreadInv;
    var l :| Enabled(s, l) && s' == Apply(s, l);
    SlotKeysStay(s, l);
    if t in s.slots {
      StepIsMove(s, l, t);
      if s'.slots[t] != s.slots[t] {
        var m :| CanMove(s.slots[t], m) && s'.slots[t] == Moved(s.slots[t], m);
        MoveEffect(s.slots[t], m);
      }
    }
  }

  lemma SlotKeysStay(s: State, l: Label)
    requires Enabled(s, l)
    ensures Apply(s, l).slots.Keys == s.slots.Keys
  {
    hide CheckinStep, BellStep, LoopStep, WalkStep;
    if l.Step? {
      ThreadKeysStay(s, l.p);
    } else if l.Work? {
      WorkerKeysStay(s, l.ret);
    }
  }

  lemma ThreadKeysStay(s: State, p: nat)
    requires Enabled(s, Step(p))
    ensures ThreadStep(s, p).slots.Keys == s.slots.Keys
  {
    hide Hit, HitEnd, Cas, Wins, EndWins, Pushed, BellStep;
    if !OnTask(s.threads[p]) {
      BellKeepsSlots(s, p);
    }
  }

  lemma WorkerKeysStay(s: State, ret: nat)
    requires Enabled(s, Work(ret))
    ensures WorkerStep(s, ret).slots.Keys == s.slots.Keys
  {
    hide Settle, Cas, Lock, LoopStep;
    if !OnCursor(s.worker) {
      LoopKeepsSlots(s, ret);
    }
  }

  /** No thread and no worker is ever stuck on the way: every thread that is doing something has its
      next step, and so has the worker unless it sleeps on an empty counter or has stopped. */
  lemma NothingBlocks(states: seq<State>, i: nat, p: nat, ret: nat)
    requires IsRun(states) && i < |states| && TaskResult(ret)
    ensures p in states[i].threads && states[i].threads[p] != Idle ==> Enabled(states[i], Step(p))
    ensures states[i].worker != Gone && (states[i].worker == Sleep ==> states[i].alarms > 0) ==>
              Enabled(states[i], Work(ret))
  {
    RunInv(states, i);
    hide SlotInv, Distinct;
  }

  /** Each step of a run is, for each task, one move of its gate or nothing: the pool is a product of
      gates. Module Node builds on this. */
  lemma PoolIsGates(states: seq<State>, i: nat, t: nat)
    requires IsRun(states) && i + 1 < |states| && t in states[i].slots
    ensures t in states[i + 1].slots
    ensures var sl, sl' := states[i].slots[t], states[i + 1].slots[t];
            sl' == sl || exists m :: CanMove(sl, m) && sl' == Moved(sl, m)
  {
    RunInv(states, i);
    assert Next(states[i + 1 - 1], states[i + 1]);
    var s := states[i];
    var l :| Enabled(s, l) && states[i + 1] == Apply(s, l);
    StepIsMove(s, l, t);
  }

  lemma StepIsMove(s: State, l: Label, t: nat)
    requires Inv(s) && Enabled(s, l) && t in s.slots
    ensures t in Apply(s, l).slots
    ensures var sl, sl' := s.slots[t], Apply(s, l).slots[t];
            sl' == sl || exists m :: CanMove(sl, m) && sl' == Moved(sl, m)
  {
    hide Inv, Moved, CanMove, Enabled, ThreadStep, WorkerStep;
    match l
    case Step(p) => ThreadStepIsMove(s, p, t);
    case Work(ret) => WorkerStepIsMove(s, ret, t);
    case _ =>
  }

  lemma ThreadStepIsMove(s: State, p: nat, t: nat)
    requires Inv(s) && Enabled(s, Step(p)) && t in s.slots
    ensures t in ThreadStep(s, p).slots
    ensures var sl, sl' := s.slots[t], ThreadStep(s, p).slots[t];
            sl' == sl || exists m :: CanMove(sl, m) && sl' == Moved(sl, m)
  {
    hide SlotInv, ListInv, LogInv, PlaceInv, Hit, HitEnd, Cas, Wins, EndWins, Pushed, BellStep;
    if OnTask(s.threads[p]) {
      var sl, sl' := s.slots[t], CheckinStep(s, p).slots[t];
      if sl' != sl {
        match s.threads[p]
        case Adding(_, ev, _) => assert CanMove(sl, MHit(ev)) && sl' == Moved(sl, MHit(ev));
        case Ending(_) => assert CanMove(sl, MHitEnd) && sl' == Moved(sl, MHitEnd);
        case Push(_) => assert CanMove(sl, MPush) && sl' == Moved(sl, MPush);
      }
    } else {
      BellKeepsSlots(s, p);
    }
  }

  lemma BellKeepsSlots(s: State, p: nat)
    requires Enabled(s, Step(p)) && !OnTask(s.threads[p])
    ensures BellStep(s, p).slots == s.slots
  {
  }

  lemma WorkerStepIsMove(s: State, ret: nat, t: nat)
    requires Inv(s) && Enabled(s, Work(ret)) && t in s.slots
    ensures t in WorkerStep(s, ret).slots
    ensures var sl, sl' := s.slots[t], WorkerStep(s, ret).slots[t];
            sl' == sl || exists m :: CanMove(sl, m) && sl' == Moved(sl, m)
  {
    hide SlotInv, ThreadInv, LogInv, ListInv, Settle, Cas, Distinct, Gate.CallTask, Gate.CallEnd, Lock, LoopStep;
    if OnCursor(s.worker) {
      var sl, sl' := s.slots[t], WorkerStep(s, ret).slots[t];
      if sl' != sl {
        var m := WalkMove(s, ret);
        assert CanMove(sl, m) && sl' == Moved(sl, m);
      }
    } else {
      LoopKeepsSlots(s, ret);
    }
  }

  lemma LoopKeepsSlots(s: State, ret: nat)
    requires Enabled(s, Work(ret)) && !OnCursor(s.worker)
    ensures LoopStep(s, ret).slots == s.slots
  {
  }
}
