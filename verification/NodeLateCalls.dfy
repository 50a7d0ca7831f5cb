/** When a worker uses the node after eof. A task that tells its end queues its STOP message for the director and
    then calls addTask. If something else makes the director run in between, he may handle the message, and in
    the end free the node, before that call. */
module NodeLateCalls {
  import opened Fairness
  import opened Gate
  import opened Node
  import opened NodeSafety
  import opened NodeSteps
  import opened NodeRank
  import opened NodeShutdown
  import opened Paths

  /** The director has handled the first request to close: he is about to ask for the reader's end. */
  predicate Heeds(s: State) {
    Complete(s) && s.jobs[Worker(Dir)] == EndOf(Rd) && !s.at[Rd].slot.asked
  }

  /** A call for the director's task: pushCmd. */
  predicate Calling(j: Job) {
    j != Nothing && j.role == Dir
  }

  /** Nobody but the workers of the node has such a call under way. */
  predicate NoneCalls(s: State) {
    forall w :: w in s.jobs && w.Thread? ==> !Calling(s.jobs[w])
  }

  /** The director has no wake-up to come: nothing is pending in his word, and no other thread is calling. */
  predicate Settled(s: State) {
    Complete(s) && s.at[Dir].slot.word == LOCKED && NoneCalls(s)
  }

  /** The workers have nothing left to do with the node. */
  predicate AllDone(s: State) {
    Complete(s) && forall r: Role :: s.jobs[Worker(r)] == Nothing
  }

  // What comes after a state, as long as no thread begins another call for the director.

  predicate Spares(l: Label) {
    l.Begin? ==> !Calling(l.job)
  }

  ghost predicate Goes(s: State, s': State) {
    exists l :: Spares(l) && Enabled(s, l) && s' == Apply(s, l)
  }

  ghost predicate Path(path: seq<State>) {
    IsPath((s: State, s': State) => Goes(s, s'), path)
  }

  ghost predicate Onward(s: State, s': State) {
    Leads((s: State, s': State) => Goes(s, s'), s, s')
  }

  // No late call from a settled moment.

  /** The director runs, or will. */
  predicate Awake(d: Station) {
    || d.slot.place == Claimed || d.slot.place == Queued || d.stage == Start
    || ((d.slot.place.Running? || d.slot.place.Returned?) && d.slot.word != LOCKED)
  }

  /** A STOP message has been queued for him. */
  predicate Rung(tmp: seq<Msg>) {
    exists k: Role :: k != Dir && StopOf(k) in tmp
  }

  /** Until his own END he wakes only for a STOP message, and takes it with the wake-up. */
  predicate DirCalm(d: Station) {
    !d.slot.asked ==> (Awake(d) ==> Rung(d.tmp)) && (d.stage == Start ==> d.slot.word == LOCKED)
  }

  /** The sender of a STOP message that has not called addTask yet: the message waits, and the director sleeps. */
  predicate AddCalm(s: State, r: Role)
    requires Complete(s)
  {
    r != Dir && s.jobs[Worker(r)] == Add(Dir, EV_NORM) ==>
      StopOf(r) in s.at[Dir].tmp && !s.at[Dir].slot.asked && !Awake(s.at[Dir])
  }

  ghost predicate Calm(s: State) {
    && Complete(s) && NoneCalls(s) && DirCalm(s.at[Dir])
    && forall r: Role :: AddCalm(s, r)
  }

  /** There is one copy of one STOP message at most, and none once the director's own END is asked for. */
  lemma CopyIsAlone(s: State, k: Role, j: Role)
    requires Inv(s) && Complete(s) && k != Dir && j != Dir && Copies(s, k) > 0
    ensures Copies(s, k) == 1 && !s.at[Dir].slot.asked && (j != k ==> Copies(s, j) == 0)
  {
    hide Inv, Copies, StationInv, TokenOk, Closing;
    OneToken(s);
    At(s, Dir, Worker(Dir));
    DirectorTellsNobody(s.at[Dir]);
    NoTokenAfterEof(s);
  }

  lemma NoTokenAfterEof(s: State)
    requires Inv(s) && Complete(s)
    ensures s.at[Dir].slot.ended ==> !Closing(s)
  {
    hide Inv;
  }

  lemma QueuedIsCopy(s: State, k: Role)
    requires Complete(s) && k != Dir
    ensures StopOf(k) in s.at[Dir].tmp ==> Held(s.at[Dir], k) > 0
    ensures Copies(s, k) == Sent(s.jobs[Worker(k)], k) + Held(s.at[Dir], k) + Asking(s.jobs[Worker(Dir)], k)
  {
  }

  lemma HeedsIsCalm(s: State)
    requires Inv(s) && Heeds(s) && Settled(s)
    ensures Calm(s)
  {
    hide Inv, SlotInv;
    At(s, Dir, Worker(Dir));
    forall r: Role
      ensures AddCalm(s, r)
    {
      At(s, r, Worker(r));
      if r != Dir && s.jobs[Worker(r)] != Nothing {
        ToldMeansAsked(s, r);
      }
    }
  }

  /** A task tells its end only after the reader was asked for its own. */
  lemma ToldMeansAsked(s: State, r: Role)
    requires Inv(s) && Complete(s) && r != Dir && s.at[r].stage == Told
    ensures s.at[Rd].slot.asked
  {
    hide Inv, SlotInv, Copies, PlainInv, HistoryInv;
    At(s, r, Worker(r));
    assert StationsInv(s) && TokenInv(s) by { InvHasTokens(s); }
    TokenAt(s, Rd);
    TokenAt(s, Wr);
    Chain(s, Rd);
    Chain(s, Wr);
    Chain(s, Deal);
  }

  // The steps of a calm node.

  /** A step that leaves the director alone. */
  lemma OthersKeepCalm(s: State, l: Label)
    requires Inv(s) && Calm(s) && Enabled(s, l) && Spares(l) && !IsEof(s, l) && TaskOf(s, l) != Dir
    ensures Calm(Apply(s, l))
  {
    hide Inv, Apply, DirCalm, Awake;
    var s', w := Apply(s, l), ActorOf(l);
    StepTouches(s, l);
    OthersJob(s, l);
    assert s'.at[Dir] == s.at[Dir];
    forall r: Role
      ensures AddCalm(s', r)
    {
      assert AddCalm(s, r);
    }
  }

  lemma OthersJob(s: State, l: Label)
    requires Inv(s) && Enabled(s, l) && Spares(l) && !IsEof(s, l) && TaskOf(s, l) != Dir
    ensures var w, s' := ActorOf(l), Apply(s, l);
      w in s'.jobs && (w.Thread? ==> !Calling(s'.jobs[w])) && s'.jobs[w] != Add(Dir, EV_NORM)
  {
    hide Inv, Settle, Hit, HitEnd, Wins, EndWins, Handled, Freed, DealCmd;
    StepTouches(s, l);
  }

  /** A step of the director's worker: awake for a STOP message he takes it, asleep he stays so. */
  lemma WorkKeepsCalm(s: State, pick: Pick)
    requires Inv(s) && Calm(s) && Enabled(s, Work(Dir, pick)) && !IsEof(s, Work(Dir, pick))
    ensures Calm(Apply(s, Work(Dir, pick)))
  {
    hide Inv, Apply, DirCalm, Awake;
    var l := Work(Dir, pick);
    var s' := Apply(s, l);
    StepTouches(s, l);
    At(s, Dir, Worker(Dir));
    WorkCalm(s, pick);
    forall r: Role
      ensures AddCalm(s', r)
    {
      assert AddCalm(s, r);
    }
  }

  lemma WorkCalm(s: State, pick: Pick)
    requires Enabled(s, Work(Dir, pick)) && !IsEof(s, Work(Dir, pick))
    requires StationInv(Dir, s.at[Dir]) && DirCalm(s.at[Dir])
    ensures var s' := Apply(s, Work(Dir, pick));
      && Complete(s') && DirCalm(s'.at[Dir])
      && (!Awake(s.at[Dir]) ==> !Awake(s'.at[Dir]) && s'.at[Dir].tmp == s.at[Dir].tmp)
      && s'.at[Dir].slot.asked == s.at[Dir].slot.asked
  {
    hide SlotInv, HistoryInv, Rung, Freed, DealCmd, EndSeen;
    var d := s.at[Dir];
    if d.slot.place.Running? {
      if d.stage.Hand? {
        CmdEffect(s, pick);
      }
    } else {
      assert d.slot.place.Returned? ==> d.slot.place.ret == EV_NORM;
    }
  }

  /** The STOP message is queued, and the director asleep or he would have another to come. */
  lemma PutKeepsCalm(s: State, r: Role)
    requires Inv(s) && Calm(s) && Enabled(s, Act(Worker(r))) && s.jobs[Worker(r)].Put? && s.jobs[Worker(r)].role == Dir
    ensures Calm(Apply(s, Act(Worker(r))))
  {
    hide Inv, Apply, Copies, Held, Sent;
    var s', d := Apply(s, Act(Worker(r))), s.at[Dir];
    StepTouches(s, Act(Worker(r)));
    At(s, r, Worker(r));
    PutIsAlone(s, r);
    PutDone(s, Worker(r));
    assert s'.at[Dir] == d.(tmp := d.tmp + [StopOf(r)], pushed := d.pushed + [StopOf(r)]);
    forall q: Role
      ensures AddCalm(s', q)
    {
      assert AddCalm(s, q);
    }
  }

  lemma PutDone(s: State, w: Who)
    requires Enabled(s, Act(w)) && s.jobs[w].Put?
    ensures var s', r, m := Apply(s, Act(w)), s.jobs[w].role, s.jobs[w].msg;
      && Complete(s') && w in s'.jobs && s'.jobs[w] == Add(r, EV_NORM)
      && s'.at[r] == s.at[r].(tmp := s.at[r].tmp + [m], pushed := s.at[r].pushed + [m])
  {
  }

  lemma PutIsAlone(s: State, r: Role)
    requires Inv(s) && Complete(s) && r != Dir && s.jobs[Worker(r)] == Put(Dir, StopOf(r))
    ensures !s.at[Dir].slot.asked && !Rung(s.at[Dir].tmp)
  {
    hide Inv, Copies, Held, Asking;
    QueuedIsCopy(s, r);
    CopyIsAlone(s, r, r);
    forall k: Role | k != Dir
      ensures StopOf(k) !in s.at[Dir].tmp
    {
      QueuedIsCopy(s, k);
      CopyIsAlone(s, r, k);
    }
  }

  /** The call that belongs to the one STOP message queued. */
  lemma AddKeepsCalm(s: State, r: Role)
    requires Inv(s) && Calm(s) && Enabled(s, Act(Worker(r))) && s.jobs[Worker(r)].Add? && s.jobs[Worker(r)].role == Dir
    ensures Calm(Apply(s, Act(Worker(r))))
  {
    hide Inv, Apply, Copies, Held, Sent;
    var s' := Apply(s, Act(Worker(r)));
    StepTouches(s, Act(Worker(r)));
    At(s, r, Worker(r));
    assert AddCalm(s, r);
    AddDone(s, Worker(r));
    forall q: Role
      ensures AddCalm(s', q)
    {
      assert AddCalm(s, q);
      if q != r && q != Dir && s.jobs[Worker(q)] == Add(Dir, EV_NORM) {
        QueuedIsCopy(s, r);
        QueuedIsCopy(s, q);
        CopyIsAlone(s, r, q);
      }
    }
  }

  lemma AddDone(s: State, w: Who)
    requires Enabled(s, Act(w)) && s.jobs[w].Add?
    ensures var s', r := Apply(s, Act(w)), s.jobs[w].role;
      && Complete(s') && w in s'.jobs && s'.jobs[w] in {Nothing, PushTo(r)}
      && s'.at[r].tmp == s.at[r].tmp && s'.at[r].stage == s.at[r].stage && s'.at[r].slot.asked == s.at[r].slot.asked
  {
    hide Wins, Or;
  }

  lemma PushKeepsCalm(s: State, w: Who)
    requires Inv(s) && Calm(s) && Enabled(s, Act(w)) && s.jobs[w] == PushTo(Dir)
    ensures Calm(Apply(s, Act(w)))
  {
    hide Inv, SlotInv, StationInv, Rung;
    var s' := Apply(s, Act(w));
    StepTouches(s, Act(w));
    At(s, Dir, w);
    forall r: Role
      ensures AddCalm(s', r)
    {
      assert AddCalm(s, r);
    }
  }

  /** The director asks for his own end: every STOP message has been handled by then. */
  lemma AskKeepsCalm(s: State, w: Who)
    requires Inv(s) && Calm(s) && Enabled(s, Act(w)) && s.jobs[w] == EndOf(Dir)
    ensures Calm(Apply(s, Act(w)))
  {
    hide Inv, SlotInv, StationInv, Copies, Held, Awake, EndWins;
    var s' := Apply(s, Act(w));
    StepTouches(s, Act(w));
    At(s, Dir, w);
    forall r: Role
      ensures AddCalm(s', r)
    {
      assert AddCalm(s, r);
      if r != Dir && s.jobs[Worker(r)] == Add(Dir, EV_NORM) {
        QueuedIsCopy(s, r);
        QueuedIsCopy(s, Deal);
        CopyIsAlone(s, Deal, r);
      }
    }
  }

  lemma EofKeepsCalm(s: State, l: Label)
    requires Inv(s) && Calm(s) && Enabled(s, l) && IsEof(s, l)
    ensures Calm(Apply(s, l))
  {
    hide Inv, Awake, Rung;
    AllTold(s);
    var s' := Apply(s, l);
    forall r: Role
      ensures AddCalm(s', r)
    {
      assert AddCalm(s, r);
    }
  }

  lemma StepKeepsCalm(s: State, l: Label)
    requires Inv(s) && Calm(s) && Enabled(s, l) && Spares(l)
    ensures Calm(Apply(s, l))
  {
    hide Inv, Apply, DirCalm, AddCalm;
    if IsEof(s, l) {
      EofKeepsCalm(s, l);
    } else if TaskOf(s, l) != Dir {
      OthersKeepCalm(s, l);
    } else if l.Work? {
      WorkKeepsCalm(s, l.pick);
    } else {
      var w := l.who;
      assert w.Worker?;
      match s.jobs[w]
      case Put(_, _) => PutKeepsCalm(s, w.role);
      case Add(_, _) => AddKeepsCalm(s, w.role);
      case PushTo(_) => PushKeepsCalm(s, w);
      case EndOf(_) => AskKeepsCalm(s, w);
    }
  }

  /** From a settled moment nobody is left with a call to make when eof has come. */
  lemma {:induction false} SettledEndsClean(path: seq<State>)
    requires Path(path) && Inv(path[0]) && Calm(path[0])
    ensures var s := path[|path| - 1]; Inv(s) && Calm(s) && (Ended(s) ==> AllDone(s))
    decreases |path|
  {
    hide Inv, Calm;
    var n := |path| - 1;
    if n > 0 {
      SettledEndsClean(path[..n]);
      assert Goes(path[n - 1], path[n]);
      var l :| Spares(l) && Enabled(path[n - 1], l) && path[n] == Apply(path[n - 1], l);
      StepKeepsInv(path[n - 1], l);
      StepKeepsCalm(path[n - 1], l);
    }
    if Ended(path[n]) {
      CalmEnd(path[n]);
    }
  }

  lemma CalmEnd(s: State)
    requires Inv(s) && Calm(s) && Ended(s)
    ensures AllDone(s)
  {
    hide Inv, Awake;
    EndedIsOver(s, Deal);
    forall r: Role
      ensures s.jobs[Worker(r)] == Nothing
    {
      assert AddCalm(s, r);
      JobsAtEof(s, r);
    }
  }

  // A late call from a moment that is not settled: every wake-up that is left over lets the director run once
  // before the call it should have waited for, and that call is the next wake-up too many.

  const ANY_PICK := Pick(EV_NORM, 0, false)

  lemma OnwardSelf(s: State)
    ensures Onward(s, s)
  {
    LeadsNowhere((s: State, s': State) => Goes(s, s'), s);
  }

  lemma Extends(s0: State, s: State, l: Label)
    requires Onward(s0, s) && Inv(s) && Enabled(s, l) && Spares(l)
    ensures Onward(s0, Apply(s, l)) && Inv(Apply(s, l)) && Complete(Apply(s, l))
  {
    hide Inv, Apply, Enabled, Spares, Leads;
    assert Goes(s, Apply(s, l));
    LeadsOn((s: State, s': State) => Goes(s, s'), s0, s, Apply(s, l));
    StepKeepsInv(s, l);
    InvHasTokens(Apply(s, l));
  }

  /** The next step of whose turn it is with the pending END of r. */
  lemma PendingTurn(s: State, r: Role) returns (w: Who, l: Label)
    requires Inv(s) && Complete(s) && EndPending(s.at[r])
    ensures Enabled(s, l) && !l.Begin? && Mine(l, w) && ActorOf(l) == w && Turn(s, Pending(r), w)
    ensures if s.at[r].slot.place == Claimed then s.jobs[w] == PushTo(r) else w == Worker(r)
    ensures r != Dir ==> TaskOf(s, l) == r && !IsEof(s, l)
  {
    hide Inv, SlotInv, PlainInv, HistoryInv, TokenOk, MailOk;
    At(s, r, Worker(r));
    EndIsNotForgotten(s.at[r].slot);
    w := if s.at[r].slot.place == Claimed then s.at[r].owner else Worker(r);
    l := if s.jobs[w] != Nothing then Act(w) else Work(r, ANY_PICK);
  }

  /** The worker of r runs its procTaskEnd as far as the queueing of its STOP message. */
  lemma {:induction false} Tells(s0: State, s: State, r: Role) returns (s': State)
    requires Onward(s0, s) && Inv(s) && Complete(s) && r != Dir && EndPending(s.at[r])
    ensures Onward(s0, s') && Inv(s') && Complete(s') && s'.at[Dir] == s.at[Dir]
    ensures s'.jobs[Worker(r)] == Put(Dir, StopOf(r))
    decreases RankOf(s, Pending(r)).stage, RankOf(s, Pending(r)).phase, RankOf(s, Pending(r)).work
  {
    hide Onward, Inv, Apply, RankOf, Turn, Mine, TaskOf, IsEof;
    var w, l := PendingTurn(s, r);
    s' := Apply(s, l);
    Extends(s0, s, l);
    StepTouches(s, l);
    FlagsGrow(s, l, r);
    if s'.at[r].told {
      TellMoment(s, l, r);
    } else {
      NotEndedYet(s', r);
      StepProgress(s, l, Pending(r));
      s' := Tells(s0, s', r);
    }
  }

  lemma NotEndedYet(s: State, r: Role)
    requires Inv(s) && Complete(s) && r != Dir && s.at[r].slot.asked && !s.at[r].told
    ensures EndPending(s.at[r])
  {
    hide Inv, SlotInv;
    At(s, r, Worker(r));
  }

  /** A task that tells its end now has its STOP message to queue. */
  lemma TellMoment(s: State, l: Label, r: Role)
    requires Enabled(s, l) && !l.Begin? && r != Dir && TaskOf(s, l) == r && !s.at[r].told
    requires Complete(Apply(s, l)) && Apply(s, l).at[r].told
    ensures Apply(s, l).jobs[Worker(r)] == Put(Dir, StopOf(r))
  {
    hide JobStep, WorkStep;
    match l
    case Act(w) => ActTellsNothing(s, w);
    case Work(_, pick) => WorkTells(s, r, pick);
  }

  lemma ActTellsNothing(s: State, w: Who)
    requires Enabled(s, Act(w))
    ensures var r, s' := s.jobs[w].role, JobStep(s, w); Complete(s') && s'.at[r].told == s.at[r].told
  {
    hide Hit, HitEnd, Wins, EndWins;
  }

  lemma WorkTells(s: State, r: Role, pick: Pick)
    requires Enabled(s, Work(r, pick)) && r != Dir && !s.at[r].told
    ensures var s' := WorkStep(s, r, pick);
      Complete(s') && (s'.at[r].told ==> s'.jobs[Worker(r)] == Put(Dir, StopOf(r)))
  {
    hide Settle, Lock, CallTask, CallEnd, EndSeen, Freed, DealCmd;
  }

  /** The director will find the STOP message of k without any further call. */
  predicate Finds(d: Station, k: Role)
    requires k != Dir
  {
    d.slot.place != Out && d.slot.place != Claimed && (StopOf(k) in d.tmp ==> Awake(d))
  }

  /** The STOP message of r is queued, and its sender has not called addTask. */
  predicate Unannounced(s: State, r: Role)
    requires Complete(s) && r != Dir
  {
    s.jobs[Worker(r)] == Add(Dir, EV_NORM) && s.at[r].told && !s.at[After(r)].slot.asked
  }

  /** The director handles the STOP message and asks for the next end, all before the call for it. */
  lemma {:induction false} Answers(s0: State, s: State, r: Role) returns (s': State)
    requires Onward(s0, s) && Inv(s) && Complete(s) && r != Dir && Unannounced(s, r) && Finds(s.at[Dir], r)
    ensures Onward(s0, s') && Inv(s') && Complete(s') && s'.jobs[Worker(r)] == Add(Dir, EV_NORM)
    ensures EndPending(s'.at[After(r)]) && s'.at[Dir].slot.place.Running?
    decreases RankOf(s, Copy(r)).stage, RankOf(s, Copy(r)).phase, RankOf(s, Copy(r)).work
  {
    hide Onward, Inv, Apply, Enabled, RankOf, Turn, Mine, Finds, EndPending, Stands;
    var w := Worker(Dir);
    var l := if s.jobs[w] != Nothing then Act(w) else Work(Dir, ANY_PICK);
    CopyTurn(s, r, l);
    s' := Apply(s, l);
    Extends(s0, s, l);
    StepTouches(s, l);
    FlagsGrow(s, l, r);
    if s'.at[After(r)].slot.asked {
      AskMoment(s, l, r);
    } else {
      StillFinds(s, l, r);
      CopyStands(s', r);
      StepProgress(s, l, Copy(r));
      s' := Answers(s0, s', r);
    }
  }

  lemma CopyStands(s: State, r: Role)
    requires Inv(s) && Complete(s) && r != Dir && Unannounced(s, r)
    ensures Stands(s, Copy(r)) && Sent(s.jobs[Worker(r)], r) == 0 && !s.at[Dir].slot.asked
  {
    hide Inv, Held, Asking;
    At(s, r, Worker(r));
    CopyIsAlone(s, r, r);
  }

  /** It is the turn of the director's worker. */
  lemma CopyTurn(s: State, r: Role, l: Label)
    requires Inv(s) && Complete(s) && r != Dir && Unannounced(s, r) && Finds(s.at[Dir], r)
    requires l == if s.jobs[Worker(Dir)] != Nothing then Act(Worker(Dir)) else Work(Dir, ANY_PICK)
    ensures Stands(s, Copy(r)) && Turn(s, Copy(r), Worker(Dir)) && Mine(l, Worker(Dir))
    ensures Enabled(s, l) && !IsEof(s, l) && ActorOf(l) == Worker(Dir)
  {
    hide Inv, Held, Asking, Awake, Stands;
    CopyStands(s, r);
    HolderIsIn(s, Copy(r));
  }

  lemma StillFinds(s: State, l: Label, r: Role)
    requires Inv(s) && Complete(s) && r != Dir && Unannounced(s, r) && Finds(s.at[Dir], r)
    requires Enabled(s, l) && !IsEof(s, l)
    requires l == if s.jobs[Worker(Dir)] != Nothing then Act(Worker(Dir)) else Work(Dir, ANY_PICK)
    requires Complete(Apply(s, l)) && !Apply(s, l).at[After(r)].slot.asked
    ensures Finds(Apply(s, l).at[Dir], r)
  {
    hide Inv, Held, Asking, Copies, Finds, JobStep, WorkStep;
    CopyStands(s, r);
    HolderIsIn(s, Copy(r));
    At(s, Dir, Worker(Dir));
    if l.Act? {
      if s.jobs[Worker(Dir)] == EndOf(Dir) {
        AskDone(s, Worker(Dir));
      }
      ActFinds(s, r);
    } else {
      CopyIsInMail(s, r);
      WorkFinds(s, r);
    }
  }

  /** Nobody else has it: the STOP message is in the mailbox or the hand of the director. */
  lemma CopyIsInMail(s: State, r: Role)
    requires Complete(s) && r != Dir && Copies(s, r) == 1
    requires Sent(s.jobs[Worker(r)], r) == 0 && s.jobs[Worker(Dir)] == Nothing
    ensures InMail(s.at[Dir], StopOf(r))
  {
  }

  lemma ActFinds(s: State, r: Role)
    requires Enabled(s, Act(Worker(Dir))) && r != Dir && Finds(s.at[Dir], r)
    requires JobOk(Worker(Dir), s.jobs[Worker(Dir)]) && PusherOk(s, Worker(Dir)) && SlotInv(s.at[Dir].slot)
    requires r == Deal ==> s.jobs[Worker(Dir)] != EndOf(Dir)
    ensures Complete(JobStep(s, Worker(Dir))) && Finds(JobStep(s, Worker(Dir)).at[Dir], r)
  {
    hide Wins, EndWins;
    if s.jobs[Worker(Dir)] == EndOf(Dir) {
      MoveEffect(s.at[Dir].slot, MHitEnd);
    }
  }

  lemma WorkFinds(s: State, r: Role)
    requires Enabled(s, Work(Dir, ANY_PICK)) && !IsEof(s, Work(Dir, ANY_PICK)) && r != Dir && Finds(s.at[Dir], r)
    requires StageInv(Dir, s.at[Dir]) && PlainInv(Dir, s.at[Dir]) && InMail(s.at[Dir], StopOf(r))
    ensures var s' := WorkStep(s, Dir, ANY_PICK); Complete(s') && Finds(s'.at[Dir], r)
  {
    hide Freed, DealCmd, EndSeen, StopOf;
    var d := s.at[Dir];
    if d.slot.place.Running? {
      if d.stage.Hand? {
        CmdEffect(s, ANY_PICK);
      }
    } else {
      PlainDirector(d);
    }
  }

  /** Only endTask asks for an end. */
  lemma AskedBy(s: State, l: Label, r: Role)
    requires Inv(s) && Enabled(s, l) && Complete(Apply(s, l)) && !s.at[r].slot.asked && Apply(s, l).at[r].slot.asked
    ensures l.Act? && s.jobs[l.who] == EndOf(r) && l.who == Worker(Dir)
  {
    hide Inv, Apply, SlotInv, Wins, EndWins, Or, Settle;
    NodeIsGates(s, l, r);
    var e := MoveOf(s, l, r);
    SettleAsksNothing(s.at[r].slot);
    assert e == Makes(MHitEnd);
    At(s, r, l.who);
  }

  lemma SettleAsksNothing(sl: Slot)
    ensures sl.place.Returned? ==> Settle(sl, sl.place.ret).asked == sl.asked
  {
  }

  lemma AskMoment(s: State, l: Label, r: Role)
    requires Inv(s) && Complete(s) && r != Dir && Unannounced(s, r) && Enabled(s, l)
    requires Complete(Apply(s, l)) && Apply(s, l).at[After(r)].slot.asked
    ensures var s' := Apply(s, l);
      && EndPending(s'.at[After(r)]) && s'.at[Dir].slot.place.Running? && s'.jobs[Worker(r)] == s.jobs[Worker(r)]
  {
    hide Inv, Apply, SlotInv, PlainInv, HistoryInv, TokenOk, MailOk, Wins, EndWins;
    AskedBy(s, l, After(r));
    var w := Worker(Dir);
    StepTouches(s, l);
    At(s, Dir, w);
    At(s, After(r), w);
    Parts(After(r), s.at[After(r)]);
    assert !s.at[After(r)].told && !s.at[After(r)].slot.ended by { NotAskedYet(s, After(r)); }
    AskDone(s, w);
  }

  lemma NotAskedYet(s: State, r: Role)
    requires Inv(s) && Complete(s) && !s.at[r].slot.asked
    ensures !s.at[r].told && !s.at[r].slot.ended
  {
    hide Inv;
    assert StationsInv(s) && TokenInv(s) by { InvHasTokens(s); }
    Chain(s, r);
  }

  lemma AskDone(s: State, w: Who)
    requires Enabled(s, Act(w)) && s.jobs[w].EndOf?
    ensures var s', r := Apply(s, Act(w)), s.jobs[w].role;
      && Complete(s') && s'.at[r].told == s.at[r].told && s'.at[r].slot.asked
      && s'.at[r].slot.ended == s.at[r].slot.ended
      && (s.at[r].slot.place.Running? && SlotInv(s.at[r].slot) ==> s'.at[r].slot.place == s.at[r].slot.place)
  {
    hide SlotInv, EndWins;
    if s.at[s.jobs[w].role].slot.place.Running? && SlotInv(s.at[s.jobs[w].role].slot) {
      MoveEffect(s.at[s.jobs[w].role].slot, MHitEnd);
    }
  }

  /** Eof, with everything else left as it is. */
  lemma {:induction false} Frees(s0: State, s: State) returns (s': State)
    requires Onward(s0, s) && Inv(s) && Complete(s) && EndPending(s.at[Dir]) && s.at[Dir].slot.place != Claimed
    ensures Onward(s0, s') && Inv(s') && Ended(s') && s'.jobs[Worker(Deal)] == s.jobs[Worker(Deal)]
    decreases RankOf(s, Pending(Dir)).stage, RankOf(s, Pending(Dir)).phase, RankOf(s, Pending(Dir)).work
  {
    hide Onward, Inv, Apply, RankOf, Turn, Mine;
    var w, l := PendingTurn(s, Dir);
    s' := Apply(s, l);
    Extends(s0, s, l);
    FlagsGrow(s, l, Dir);
    LeavesDealer(s, l);
    if !s'.at[Dir].slot.ended {
      StillUnclaimed(s, l);
      StepProgress(s, l, Pending(Dir));
      s' := Frees(s0, s');
    }
  }

  lemma LeavesDealer(s: State, l: Label)
    requires Enabled(s, l) && ActorOf(l) == Worker(Dir)
    ensures Complete(Apply(s, l)) && Apply(s, l).jobs[Worker(Deal)] == s.jobs[Worker(Deal)]
  {
    hide Apply;
    if IsEof(s, l) {
      EofIsGates(s, l, Dir);
      EofKeepsJobs(s, l);
    } else {
      StepTouches(s, l);
    }
  }

  lemma EofKeepsJobs(s: State, l: Label)
    requires Enabled(s, l) && IsEof(s, l)
    ensures Apply(s, l).jobs == s.jobs
  {
  }

  lemma StillUnclaimed(s: State, l: Label)
    requires Inv(s) && Complete(s) && Enabled(s, l) && EndPending(s.at[Dir]) && s.at[Dir].slot.place != Claimed
    requires Inv(Apply(s, l)) && Complete(Apply(s, l))
    requires !Apply(s, l).at[Dir].slot.ended && Apply(s, l).at[Dir].slot.asked
    ensures EndPending(Apply(s, l).at[Dir]) && Apply(s, l).at[Dir].slot.place != Claimed
  {
    hide Inv, Apply, SlotInv, PlainInv, HistoryInv, Moved, CanMove;
    NodeIsGates(s, l, Dir);
    At(s, Dir, Worker(Dir));
    EndIsNotForgotten(s.at[Dir].slot);
    var e := MoveOf(s, l, Dir);
    if e.Makes? {
      MoveEffect(s.at[Dir].slot, e.move);
    }
    DirTellsNothing(Apply(s, l));
  }

  lemma DirTellsNothing(s: State)
    requires Inv(s) && Complete(s)
    ensures !s.at[Dir].told
  {
    hide Inv, SlotInv;
    At(s, Dir, Worker(Dir));
  }

  /** One round: the end of r, its STOP message queued, and the director's answer to it. */
  lemma Round(s0: State, s: State, r: Role) returns (s': State)
    requires Onward(s0, s) && Inv(s) && Complete(s) && r != Dir && EndPending(s.at[r])
    requires s.at[Dir].slot.place.Running? && s.at[Dir].slot.word != LOCKED
    ensures Onward(s0, s') && Inv(s') && Complete(s') && s'.jobs[Worker(r)] == Add(Dir, EV_NORM)
    ensures EndPending(s'.at[After(r)]) && s'.at[Dir].slot.place.Running?
  {
    hide Onward, Inv, Apply, EndPending;
    var s1 := Tells(s0, s, r);
    var l := Act(Worker(r));
    Extends(s0, s1, l);
    var s2 := Apply(s1, l);
    PutDone(s1, Worker(r));
    StepTouches(s1, l);
    assert StopOf(r) in s1.at[Dir].tmp + [StopOf(r)];
    JustQueued(s2, r);
    s' := Answers(s0, s2, r);
  }

  lemma JustQueued(s: State, r: Role)
    requires Inv(s) && Complete(s) && r != Dir && s.jobs[Worker(r)] == Add(Dir, EV_NORM) && StopOf(r) in s.at[Dir].tmp
    ensures Unannounced(s, r)
  {
    hide Inv, Sent, Asking, Held, SlotInv, PlainInv, HistoryInv;
    QueuedIsCopy(s, r);
    At(s, r, Worker(r));
  }

  /** The call for a director who runs is a wake-up left over. */
  lemma Rings(s0: State, s: State, w: Who) returns (s': State)
    requires Onward(s0, s) && Inv(s) && Complete(s) && w in s.jobs && s.jobs[w].Add? && s.jobs[w].role == Dir
    requires s.at[Dir].slot.place.Running?
    ensures Onward(s0, s') && Inv(s') && Complete(s') && w in s'.jobs && s'.jobs == s.jobs[w := s'.jobs[w]]
    ensures s'.at[Dir].slot.place.Running? && s'.at[Dir].slot.word != LOCKED
    ensures forall r: Role :: r != Dir ==> s'.at[r] == s.at[r]
  {
    hide Onward, Inv, Apply;
    Extends(s0, s, Act(w));
    StepTouches(s, Act(w));
    At(s, Dir, w);
    s' := Apply(s, Act(w));
    AddWakes(s, w);
  }

  lemma AddWakes(s: State, w: Who)
    requires Enabled(s, Act(w)) && s.jobs[w].Add? && JobOk(w, s.jobs[w]) && SlotInv(s.at[s.jobs[w].role].slot)
    requires s.at[s.jobs[w].role].slot.place.Running?
    ensures var s', r := Apply(s, Act(w)), s.jobs[w].role;
      Complete(s') && s'.at[r].slot.place.Running? && s'.at[r].slot.word != LOCKED
  {
    var sl, ev := s.at[s.jobs[w].role].slot, s.jobs[w].ev;
    assert ev in Hit(sl, ev).word.low;
  }

  /** A moment that is not settled has a wake-up left over, or somebody about to leave one. */
  lemma WakesUp(s: State) returns (s': State)
    requires Inv(s) && Heeds(s) && !Settled(s)
    ensures Onward(s, s') && Inv(s') && Heeds(s') && s'.at[Dir].slot.place.Running? && s'.at[Dir].slot.word != LOCKED
  {
    hide Onward, Inv, Apply, SlotInv, PlainInv, HistoryInv;
    OnwardSelf(s);
    At(s, Dir, Worker(Dir));
    Parts(Dir, s.at[Dir]);
    s' := s;
    if s.at[Dir].slot.word == LOCKED {
      var w :| w in s.jobs && w.Thread? && Calling(s.jobs[w]);
      At(s, Dir, w);
      if s.jobs[w].Put? {
        Extends(s, s, Act(w));
        PutDone(s, w);
        StepTouches(s, Act(w));
        s' := Apply(s, Act(w));
      }
      s' := Rings(s, s', w);
    }
  }

  /** From every moment that is not settled eof can come before the dealer's worker has called addTask. */
  lemma LateCallFrom(s: State) returns (s': State)
    requires Inv(s) && Heeds(s) && !Settled(s)
    ensures Onward(s, s') && Inv(s') && Ended(s') && s'.jobs[Worker(Deal)] == Add(Dir, EV_NORM)
  {
    hide Onward, Inv, Apply, EndPending, Settled;
    var s1 := WakesUp(s);
    var l := Act(Worker(Dir));
    Extends(s, s1, l);
    var s2 := Apply(s1, l);
    FirstAsk(s1);
    var s3 := Round(s, s2, Rd);
    var s4 := Rings(s, s3, Worker(Rd));
    var s5 := Round(s, s4, Wr);
    var s6 := Rings(s, s5, Worker(Wr));
    var s7 := Round(s, s6, Deal);
    s' := Frees(s, s7);
  }

  lemma FirstAsk(s: State)
    requires Inv(s) && Heeds(s)
    ensures var s' := Apply(s, Act(Worker(Dir))); Complete(s') && EndPending(s'.at[Rd]) && s'.at[Dir] == s.at[Dir]
  {
    hide Inv, Apply;
    NotAskedYet(s, Rd);
    StepTouches(s, Act(Worker(Dir)));
    AskDone(s, Worker(Dir));
  }

  // The exact condition.

  /** In every run, at the moment the director has handled the first request to close: whatever comes, short of
      another call for him, leaves no worker with a call to make on the freed node, if and only if nothing is
      pending in his word and no other thread has a call for him under way. */
  lemma NoLateCall(states: seq<State>)
    requires IsRun(states) && Heeds(states[|states| - 1])
    ensures var s := states[|states| - 1];
      Settled(s) <==> forall s' :: Onward(s, s') && Ended(s') ==> AllDone(s')
  {
    hide IsRun, Inv, Onward, Settled, Ended, AllDone, Heeds;
    var s := states[LastOf(states)];
    RunInv(states);
    if Settled(s) {
      forall s' | Onward(s, s') && Ended(s')
        ensures AllDone(s')
      {
        CleanEnd(s, s');
      }
    } else {
      var s' := LateCallFrom(s);
      NotDone(s');
    }
  }

  lemma CleanEnd(s: State, s': State)
    requires Inv(s) && Heeds(s) && Settled(s) && Onward(s, s') && Ended(s')
    ensures AllDone(s')
  {
    hide Inv, Calm, Settled, AllDone, Ended, Goes, Heeds;
    var path :| IsPath((s: State, s': State) => Goes(s, s'), path) && path[0] == s && path[|path| - 1] == s';
    HeedsIsCalm(s);
    SettledEndsClean(path);
  }

  lemma NotDone(s: State)
    requires Ended(s) && s.jobs[Worker(Deal)] == Add(Dir, EV_NORM)
    ensures !AllDone(s)
  {
  }
}
