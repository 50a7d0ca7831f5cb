/** What m_fd_status says: how far the shutdown is, as long as no connector writes it back. */
module NodeStatus {
  import opened Gate
  import opened Node
  import opened NodeSafety
  import opened NodeSteps
  import opened NodeRank
  import opened NodeShutdown
  import opened Edge

  /** END of r has been asked for, or the director is about to. */
  predicate Begun(s: State, r: Role)
    requires Complete(s)
  {
    s.at[r].slot.asked || s.jobs[Worker(Dir)] == EndOf(r)
  }

  /** The status is the last stage that has begun. */
  predicate StatusOk(s: State)
    requires Complete(s)
  {
    && (s.status >= 5 <==> Begun(s, Rd))
    && (s.status >= 6 <==> Begun(s, Wr))
    && (s.status >= 7 <==> Begun(s, Deal))
    && (s.status >= 8 <==> Begun(s, Dir))
    && (s.status >= 9 <==> s.at[Dir].slot.ended)
  }

  /** A step that asks for no end and ends nothing the director has. */
  lemma SameStages(s: State, s': State)
    requires Complete(s) && Complete(s') && StatusOk(s) && s'.status == s.status
    requires forall r: Role :: Begun(s', r) == Begun(s, r)
    requires s'.at[Dir].slot.ended == s.at[Dir].slot.ended
    ensures StatusOk(s')
  {
  }

  /** Only endTask asks for an end, and only the director's end ends it. */
  lemma AskedBy(s: State, l: Label, r: Role)
    requires Inv(s) && Enabled(s, l)
    ensures Complete(Apply(s, l))
    ensures Apply(s, l).at[r].slot.asked == (s.at[r].slot.asked || MoveOf(s, l, r) == Makes(MHitEnd))
    ensures Apply(s, l).at[r].slot.ended == (s.at[r].slot.ended || MoveOf(s, l, r) == Makes(MCallEnd))
  {
    hide Inv, Apply, MoveOf, SlotInv;
    NodeIsGates(s, l, r);
    if MoveOf(s, l, r).Makes? {
      MarksBy(s.at[r].slot, MoveOf(s, l, r).move);
    }
  }

  lemma MarksBy(sl: Slot, m: Move)
    requires CanMove(sl, m)
    ensures Moved(sl, m).asked == (sl.asked || m == MHitEnd) && Moved(sl, m).ended == (sl.ended || m == MCallEnd)
  {
  }

  lemma BeginKeepsStatus(s: State, l: Label)
    requires Enabled(s, l) && l.Begin? && StatusOk(s)
    ensures Complete(Apply(s, l)) && StatusOk(Apply(s, l))
  {
  }

  lemma JobKeepsStatus(s: State, w: Who)
    requires Inv(s) && Enabled(s, Act(w)) && StatusOk(s)
    ensures Complete(Apply(s, Act(w))) && StatusOk(Apply(s, Act(w)))
  {
    hide Inv, StatusOk, JobStep, SlotInv, StationInv, MailOk, TokenOk, WorkOk, ClaimOk;
    var s' := Apply(s, Act(w));
    At(s, Rd, w);
    JobTouches(s, w);
    JobGivesJob(s, w);
    forall r: Role
      ensures Begun(s', r) == Begun(s, r)
    {
      AskedBy(s, Act(w), r);
    }
    AskedBy(s, Act(w), Dir);
    SameStages(s, s');
  }

  lemma JobGivesJob(s: State, w: Who)
    requires Enabled(s, Act(w))
    ensures w in JobStep(s, w).jobs && !JobStep(s, w).jobs[w].EndOf? && JobStep(s, w).status == s.status
  {
    hide Hit, HitEnd, Wins, EndWins;
  }

  /** A worker's step, but for the director's handling of a command and his end. */
  lemma WorkKeepsStatus(s: State, r: Role, pick: Pick)
    requires Inv(s) && Enabled(s, Work(r, pick)) && StatusOk(s)
    requires !Handles(s, Work(r, pick)) && !IsEof(s, Work(r, pick))
    ensures Complete(Apply(s, Work(r, pick))) && StatusOk(Apply(s, Work(r, pick)))
  {
    hide Inv, StatusOk, WorkStep, Handles;
    var l := Work(r, pick);
    var s' := Apply(s, l);
    WorkTouches(s, r, pick);
    WorkMakesNoRequest(s, r, pick);
    forall q: Role
      ensures Begun(s', q) == Begun(s, q)
    {
      AskedBy(s, l, q);
    }
    AskedBy(s, l, Dir);
    SameStages(s, s');
  }

  lemma WorkMakesNoRequest(s: State, r: Role, pick: Pick)
    requires Enabled(s, Work(r, pick)) && !Handles(s, Work(r, pick)) && !IsEof(s, Work(r, pick))
    ensures var s', l := WorkStep(s, r, pick), Work(r, pick);
      && Complete(s') && s'.status == s.status && s'.jobs[Worker(Dir)] == s.jobs[Worker(Dir)]
      && MoveOf(s, l, r) != Makes(MHitEnd) && (r == Dir ==> MoveOf(s, l, r) != Makes(MCallEnd))
  {
    hide Settle, Lock, Freed, DealCmd, Written, Spliced;
  }

  lemma EofKeepsStatus(s: State, pick: Pick)
    requires Inv(s) && Enabled(s, Work(Dir, pick)) && IsEof(s, Work(Dir, pick)) && StatusOk(s)
    ensures Complete(Apply(s, Work(Dir, pick))) && StatusOk(Apply(s, Work(Dir, pick)))
  {
    hide LogInv, TokenInv, MailInv, StationsInv, JobsInv, PushersInv, FreedInv, StationInv, WorkStep;
    AllTold(s);
    EofSets(s, pick);
    forall r: Role
      ensures Begun(Apply(s, Work(Dir, pick)), r)
    {
      Chain(s, r);
      AskedBy(s, Work(Dir, pick), r);
    }
  }

  lemma EofSets(s: State, pick: Pick)
    requires Enabled(s, Work(Dir, pick)) && IsEof(s, Work(Dir, pick))
    ensures var s' := WorkStep(s, Dir, pick); Complete(s') && s'.status == 9 && s'.at[Dir].slot.ended
  {
    hide DealCmd, EndSeen;
  }

  /** The STOP message in the director's hands is that of the last task that told its end. */
  lemma HandIsNext(s: State, k: Role)
    requires Inv(s) && k != Dir && s.at[Dir].stage == Hand(StopOf(k)) && s.jobs[Worker(Dir)] == Nothing
    ensures Begun(s, k) && !Begun(s, After(k)) && !s.at[Dir].slot.ended
    ensures After(k) != Dir ==> !Begun(s, After(After(k)))
    ensures !Begun(s, Dir)
  {
    hide StationsInv, StationInv, LogInv, MailInv, JobsInv, PushersInv, FreedInv, TokenInv;
    TokenAt(s, k);
    TokenAt(s, Wr);
    TokenAt(s, Deal);
    StationAt(s, Dir);
    Parts(Dir, s.at[Dir]);
    Chain(s, k);
    Chain(s, Rd);
    Chain(s, Wr);
    Chain(s, Deal);
    Chain(s, Dir);
  }

  lemma CmdKeepsStatus(s: State, pick: Pick)
    requires Inv(s) && Enabled(s, Work(Dir, pick)) && Handles(s, Work(Dir, pick)) && StatusOk(s)
    requires !JoinsSet(s, Work(Dir, pick))
    ensures Complete(Apply(s, Work(Dir, pick))) && StatusOk(Apply(s, Work(Dir, pick)))
  {
    hide Inv;
    var msg := s.at[Dir].stage.msg;
    if msg == StopOf(Rd) {
      HandIsNext(s, Rd);
    } else if msg == StopOf(Wr) {
      HandIsNext(s, Wr);
    } else if msg == StopOf(Deal) {
      HandIsNext(s, Deal);
    }
  }

  lemma StepKeepsStatus(s: State, l: Label)
    requires Inv(s) && Enabled(s, l) && StatusOk(s) && !JoinsSet(s, l)
    ensures Complete(Apply(s, l)) && StatusOk(Apply(s, l))
  {
    hide Inv, StatusOk, Apply, Handles, JoinsSet;
    match l
    case Begin(_, _) => BeginKeepsStatus(s, l);
    case Act(w) => JobKeepsStatus(s, w);
    case Work(r, pick) =>
      if IsEof(s, l) {
        EofKeepsStatus(s, pick);
      } else if Handles(s, l) {
        HandlesIsDirector(s, l);
        CmdKeepsStatus(s, pick);
      } else {
        WorkKeepsStatus(s, r, pick);
      }
  }

  lemma HandlesIsDirector(s: State, l: Label)
    requires Complete(s) && Handles(s, l)
    ensures l.Work? && l.role == Dir
  {
  }

  /** A step in which no connector becomes connected. */
  ghost predicate PlainNext(s: State, s': State) {
    exists l :: Enabled(s, l) && !JoinsSet(s, l) && s' == Apply(s, l)
  }

  /** In every run in which no connector writes the status back, it says how far the shutdown is: 5 from the handling
      of the first CLOSING on, 6, 7 and 8 from that of the STOP messages of reader, sender and dealer, 9 at eof. */
  lemma {:induction false} StatusIsStage(states: seq<State>, i: nat)
    requires i < |states| && Init(states[0])
    requires forall j :: 0 < j < |states| ==> PlainNext(states[j - 1], states[j])
    ensures Inv(states[i]) && Complete(states[i]) && StatusOk(states[i])
  {
    hide Inv, StatusOk, JoinsSet, Enabled, Apply, Init;
    if i == 0 {
      InitInv(states[0]);
      InitStatus(states[0]);
    } else {
      StatusIsStage(states, i - 1);
      assert PlainNext(states[i - 1], states[i]);
      var l :| Enabled(states[i - 1], l) && !JoinsSet(states[i - 1], l) && states[i] == Apply(states[i - 1], l);
      StepKeepsInv(states[i - 1], l);
      StepKeepsStatus(states[i - 1], l);
    }
  }

  lemma InitStatus(s: State)
    requires Init(s)
    ensures Complete(s) && StatusOk(s)
  {
  }
}
