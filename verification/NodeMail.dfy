/** No message is forgotten: what is put into the mailbox of the dealer or the director is taken out by its handler,
    and what is put into that of the sender gets to where it sends from. */
module NodeMail {
  import opened Fairness
  import opened Gate
  import opened Node
  import opened NodeSafety
  import opened NodeSteps
  import opened NodeRank
  import opened NodeLiveness

  /** The task is parked on an event. */
  predicate ParkedOut(st: Station) {
    st.slot.place == Out && st.slot.word.high != {}
  }

  /** The k-th message is in the private queue, or taken. */
  predicate Seen(st: Station, k: nat) {
    k < |st.taken| + |st.que|
  }

  /** The k-th message put into the mailbox of r has not been taken, and END has not been asked of r. The sender, who
      may have to wait for the peer, has not even seen it, and is not parked. */
  predicate Lies(s: State, r: Role, k: nat) {
    && Complete(s) && !s.at[r].slot.asked && |s.at[r].taken| <= k < |s.at[r].pushed|
    && (r == Wr ==> !Seen(s.at[r], k) && !ParkedOut(s.at[r]))
  }

  /** How far it is from the handler's hand. */
  function LieRank(s: State, r: Role, k: nat): Rank {
    if !Lies(s, r, k) then Rank(0, 0, 0)
    else
      var st, j := s.at[r], s.jobs[Worker(r)];
      if Seen(st, k) then Rank(0, 5, 4 * (k + 1 - |st.taken|) + HandWork(st) + JobWork(j))
      else match st.slot.place
        case Out => Rank(0, 9, 0)
        case Claimed => Rank(0, 8, 0)
        case Queued => Rank(0, 7, 0)
        case Returned(_) => Rank(0, 10, 0)
        case Running(_) => if st.stage == Start then Rank(0, 6, 0) else Rank(0, 11, Busy(st, j))
  }

  predicate LieTurn(s: State, r: Role, k: nat, w: Who) {
    Complete(s)
    && if !Seen(s.at[r], k) && s.at[r].slot.place == Claimed then Does(s, w, PushTo(r))
       else if !Seen(s.at[r], k) && s.at[r].slot.place == Out then Does(s, w, Add(r, EV_NORM))
       else w == Worker(r)
  }

  ghost predicate GoesOn(s: State, l: Label, s': State, r: Role, k: nat) {
    || Below(LieRank(s', r, k), LieRank(s, r, k))
    || (LieRank(s', r, k) == LieRank(s, r, k)
        && forall w :: LieTurn(s, r, k, w) ==> LieTurn(s', r, k, w) && !Mine(l, w))
  }

  /** What is known of a live mailbox. */
  lemma Whole(s: State, r: Role)
    requires Inv(s) && Complete(s) && r != Rd && !s.at[r].slot.asked
    ensures StationInv(r, s.at[r]) && StageInv(r, s.at[r]) && PlainInv(r, s.at[r]) && SlotInv(s.at[r].slot)
    ensures !s.at[r].slot.ended && !EndSeen(s.at[r].slot) && !EndSeen(s.at[Dir].slot)
    ensures s.at[r].pushed == s.at[r].taken + s.at[r].que + s.at[r].tmp
    ensures r != Dir ==> s.jobs[Worker(r)] == Nothing
    ensures s.jobs[Worker(r)] != Nothing ==> s.at[r].stage == Drained
  {
    hide LogInv, TokenInv, MailInv, StationsInv, JobsInv, PushersInv, FreedInv, Copies;
    Chain(s, r);
    StationAt(s, r);
    StationAt(s, Dir);
    if s.jobs[Worker(r)] != Nothing {
      BusyWorker(s, r);
    }
    WholeStation(s, r);
  }

  lemma WholeStation(s: State, r: Role)
    requires Inv(s) && Complete(s) && !s.at[r].slot.asked
    ensures s.at[r].pushed == s.at[r].taken + s.at[r].que + s.at[r].tmp
  {
    hide LogInv, TokenInv, MailInv, StationsInv, JobsInv, PushersInv, FreedInv, SlotInv;
    Chain(s, r);
    StationAt(s, r);
    UntoldIsWhole(s, r);
    assert s.at[r].taken + [] == s.at[r].taken;
  }

  /** A step of the worker of r. */
  lemma WorkTakes(s: State, r: Role, pick: Pick, k: nat)
    requires Inv(s) && Enabled(s, Work(r, pick)) && Lies(s, r, k) && r != Rd
    ensures var s' := WorkStep(s, r, pick);
      Complete(s') && (Lies(s', r, k) ==> Below(LieRank(s', r, k), LieRank(s, r, k)))
  {
    hide Inv, StationInv, SlotInv, Freed;
    Whole(s, r);
    WorkTouches(s, r, pick);
    if s.at[r].slot.place.Running? && r == Dir && s.at[r].stage.Hand? {
      CmdEffect(s, pick);
    }
  }

  /** An idle task that is not parked has nothing pending; dealer and director never park. */
  lemma IdleIsZero(r: Role, st: Station)
    requires SlotInv(st.slot) && PlainInv(r, st) && r != Rd && st.slot.place == Out && !st.slot.ended
    requires r == Wr ==> !ParkedOut(st)
    ensures st.slot.word == ZERO
  {
  }

  lemma AddTakes(s: State, w: Who, r: Role, k: nat)
    requires Inv(s) && Enabled(s, Act(w)) && Lies(s, r, k) && r != Rd && s.jobs[w].role == r
    requires s.jobs[w].Add?
    ensures var s' := JobStep(s, w); Complete(s') && GoesOn(s, Act(w), s', r, k)
  {
    hide Inv, StationInv, SlotInv, HistoryInv, PlainInv, StageInv, WorkOk, ClaimOk, PusherOk, TokenOk, MailOk;
    Whole(s, r);
    At(s, r, w);
    JobTouches(s, w);
    if s.at[r].slot.place == Out {
      IdleIsZero(r, s.at[r]);
    } else {
      WinnerFoundIdle(s.at[r].slot, s.jobs[w].ev);
    }
  }

  lemma AskedByEnd(sl: Slot)
    ensures HitEnd(sl).asked
  {
  }

  lemma PutTakes(s: State, w: Who, r: Role, k: nat)
    requires Inv(s) && Enabled(s, Act(w)) && Lies(s, r, k) && r != Rd && s.jobs[w].role == r
    requires !s.jobs[w].Add?
    ensures var s' := JobStep(s, w); Complete(s') && (Lies(s', r, k) ==> GoesOn(s, Act(w), s', r, k))
  {
    hide Inv, StationInv, SlotInv, HistoryInv, PlainInv, WorkOk, ClaimOk, TokenOk, MailOk, Hit, HitEnd, Wins, EndWins,
         EndSeen;
    Whole(s, r);
    assert HitEnd(s.at[r].slot).asked by { AskedByEnd(s.at[r].slot); }
    At(s, r, w);
    JobTouches(s, w);
  }

  /** A step of a call for r. */
  lemma CallTakes(s: State, w: Who, r: Role, k: nat)
    requires Inv(s) && Enabled(s, Act(w)) && Lies(s, r, k) && r != Rd && s.jobs[w].role == r
    ensures var s' := JobStep(s, w); Complete(s') && (Lies(s', r, k) ==> GoesOn(s, Act(w), s', r, k))
  {
    hide Inv, JobStep, GoesOn, Lies;
    if s.jobs[w].Add? {
      AddTakes(s, w, r, k);
    } else {
      PutTakes(s, w, r, k);
    }
  }

  /** A step on another task; the director's worker may be in the middle of asking for its end. */
  lemma OthersTake(s: State, l: Label, r: Role, k: nat)
    requires Inv(s) && Enabled(s, l) && Lies(s, r, k) && r != Rd && !IsEof(s, l)
    requires TaskOf(s, l) != r || l.Begin?
    ensures var s' := Apply(s, l); Complete(s') && (Lies(s', r, k) ==> GoesOn(s, l, s', r, k))
  {
    hide Inv, StationInv, SlotInv, JobStep, WorkStep, Foreign;
    Whole(s, r);
    StepTouches(s, l);
    OtherGives(s, l, r);
  }

  /** The next job of the one who steps. */
  lemma OtherGives(s: State, l: Label, r: Role)
    requires Inv(s) && Enabled(s, l) && r != Rd && !IsEof(s, l) && (TaskOf(s, l) != r || l.Begin?)
    ensures var s', w := Apply(s, l), ActorOf(l);
      && Complete(s') && w in s.jobs && w in s'.jobs && s'.at[r] == s.at[r]
      && !Does(s, w, PushTo(r)) && !Does(s, w, Add(r, EV_NORM))
      && (w == Worker(r) ==> l.Act? && JobWork(s'.jobs[w]) < JobWork(s.jobs[w]))
  {
    hide Inv, JobStep, WorkStep, Foreign;
    StepTouches(s, l);
    if l.Act? {
      JobFalls(s, l.who);
    }
  }

  lemma JobFalls(s: State, w: Who)
    requires Enabled(s, Act(w))
    ensures w in JobStep(s, w).jobs && JobWork(JobStep(s, w).jobs[w]) < JobWork(s.jobs[w])
  {
    hide Hit, HitEnd, Wins, EndWins;
  }

  lemma LieGoesOn(s: State, l: Label, r: Role, k: nat)
    requires Inv(s) && Enabled(s, l) && Lies(s, r, k) && r != Rd
    ensures var s' := Apply(s, l); Complete(s') && (Lies(s', r, k) ==> GoesOn(s, l, s', r, k))
  {
    hide Inv, JobStep, WorkStep, LieRank, LieTurn, Below, Foreign;
    Whole(s, r);
    if !l.Begin? && TaskOf(s, l) == r {
      if l.Work? {
        WorkTakes(s, r, l.pick, k);
      } else {
        CallTakes(s, l.who, r, k);
      }
    } else {
      OthersTake(s, l, r, k);
    }
  }

  // The whole run.

  ghost function Taken(r: Role, k: nat): Goal<State, Who> {
    Goal((s: State) => !Lies(s, r, k), (s: State) => LieRank(s, r, k), (s: State, w: Who) => LieTurn(s, r, k, w))
  }

  lemma LieFalls(s: State, l: Label, s': State, r: Role, k: nat)
    requires Inv(s) && Follows(Machine(), s, l, s') && r != Rd
    ensures Falls(Machine(), Taken(r, k), s, l, s')
  {
    hide Inv, Apply, Lies, LieRank, LieTurn, Mine, Below;
    if Lies(s, r, k) && Steps(s, l, s') {
      LieGoesOn(s, l, r, k);
    }
  }

  lemma LieTurns(s: State, r: Role, k: nat)
    requires Inv(s) && r != Rd
    ensures Someones(Machine(), Taken(r, k), s)
  {
    hide Inv, CanStep, LieRank, LieTurn, Lies;
    if Lies(s, r, k) {
      var w := SomeTaker(s, r, k);
      assert Taken(r, k).turn(s, w);
      forall w | LieTurn(s, r, k, w)
        ensures CanStep(s, w)
      {
        TakerCanStep(s, r, k, w);
      }
    }
  }

  lemma SomeTaker(s: State, r: Role, k: nat) returns (w: Who)
    requires Inv(s) && Lies(s, r, k) && r != Rd
    ensures LieTurn(s, r, k, w)
  {
    hide Inv, StationInv, SlotInv;
    Whole(s, r);
    At(s, r, Worker(r));
    w := Worker(r);
    if !Seen(s.at[r], k) && s.at[r].slot.place == Claimed {
      w := s.at[r].owner;
    } else if !Seen(s.at[r], k) && s.at[r].slot.place == Out {
      IdleIsZero(r, s.at[r]);
      assert AddPending(s, r);
      w :| w in s.jobs && s.jobs[w] == Add(r, EV_NORM);
    }
  }

  lemma TakerCanStep(s: State, r: Role, k: nat, w: Who)
    requires Inv(s) && Lies(s, r, k) && LieTurn(s, r, k, w) && r != Rd
    ensures CanStep(s, w)
  {
    hide Inv, StationInv, SlotInv;
    Whole(s, r);
    if w in s.jobs && s.jobs[w] != Nothing {
      assert Mine(Act(w), w) && Enabled(s, Act(w));
    } else {
      assert Mine(Work(r, Pick(EV_NORM, 0, false)), w) && Enabled(s, Work(r, Pick(EV_NORM, 0, false)));
    }
  }

  lemma {:induction false} PushedStays(run: nat -> State, acts: nat -> Label, r: Role, n: nat, m: nat)
    requires FairRun(Machine(), run, acts) && n <= m && Complete(run(n)) && r != Rd
    ensures Complete(run(m)) && |run(n).at[r].pushed| <= |run(m).at[r].pushed|
    decreases m - n
  {
    hide FairRun, Inv, Apply, Enabled;
    if n < m {
      PushedStays(run, acts, r, n, m - 1);
      StepsFollow(Machine(), run, acts, m - 1);
      if run(m) != run(m - 1) {
        PushedGrows(run(m - 1), acts(m - 1), r);
      }
    }
  }

  lemma PushedGrows(s: State, l: Label, r: Role)
    requires Enabled(s, l)
    ensures Complete(Apply(s, l)) && |s.at[r].pushed| <= |Apply(s, l).at[r].pushed|
  {
    hide JobStep, WorkStep;
    FlagsGrow(s, l, r);
    if IsEof(s, l) {
      EofPushes(s, l.pick, r);
    } else {
      StepTouches(s, l);
      if TaskOf(s, l) == r {
        match l
        case Begin(_, _) =>
        case Act(w) => JobPushes(s, w);
        case Work(_, pick) => WorkPushes(s, r, pick);
      }
    }
  }

  lemma EofPushes(s: State, pick: Pick, r: Role)
    requires Enabled(s, Work(Dir, pick)) && IsEof(s, Work(Dir, pick))
    ensures r in WorkStep(s, Dir, pick).at && WorkStep(s, Dir, pick).at[r].pushed == s.at[r].pushed
  {
    hide DealCmd, EndSeen, CallEnd;
  }

  lemma JobPushes(s: State, w: Who)
    requires Enabled(s, Act(w))
    ensures var r := s.jobs[w].role; r in JobStep(s, w).at && |s.at[r].pushed| <= |JobStep(s, w).at[r].pushed|
  {
    hide Hit, HitEnd, Wins, EndWins;
  }

  lemma WorkPushes(s: State, r: Role, pick: Pick)
    requires Enabled(s, Work(r, pick)) && !IsEof(s, Work(r, pick))
    ensures r in WorkStep(s, r, pick).at && WorkStep(s, r, pick).at[r].pushed == s.at[r].pushed
  {
    hide Settle, Lock, Freed, DealCmd, CallTask, CallEnd;
    if s.at[r].slot.place.Running? && !EndSeen(s.at[r].slot) && r == Dir && s.at[r].stage.Hand? {
      CmdEffect(s, pick);
    }
  }

  lemma LieEnds(run: nat -> State, acts: nat -> Label, n: nat, r: Role, k: nat) returns (m: nat)
    requires FairRun(Machine(), run, acts) && r != Rd && Complete(run(n)) && k < |run(n).at[r].pushed|
    ensures n <= m && Complete(run(m)) && k < |run(m).at[r].pushed| && !Lies(run(m), r, k)
  {
    hide FairRun, Falls, Someones, Inv, Lies;
    forall i: nat
      ensures Falls(Machine(), Taken(r, k), run(i), acts(i), run(i + 1)) && Someones(Machine(), Taken(r, k), run(i))
    {
      FairRunInv(run, acts, i);
      StepsFollow(Machine(), run, acts, i);
      LieFalls(run(i), acts(i), run(i + 1), r, k);
      LieTurns(run(i), r, k);
    }
    m := Reached(Machine(), Taken(r, k), run, acts, n);
    PushedStays(run, acts, r, n, m);
  }

  /** No message is forgotten: in every fair run each message put into the mailbox of the dealer or the director is
      taken out by its handler later on, unless the end of the task is asked for. */
  lemma EveryMessageIsTaken(run: nat -> State, acts: nat -> Label, n: nat, r: Role, k: nat)
    requires FairRun(Machine(), run, acts) && (r == Deal || r == Dir)
    requires Complete(run(n)) && k < |run(n).at[r].pushed|
    ensures exists m :: n <= m && Complete(run(m)) && (run(m).at[r].slot.asked || k < |run(m).at[r].taken|)
  {
    hide FairRun;
    var m := LieEnds(run, acts, n, r, k);
  }

  /** And each message put into the mailbox of the sender gets into the queue he sends from, unless he is parked, as
      on a full socket, or his end is asked for. */
  lemma EveryMessageIsSeen(run: nat -> State, acts: nat -> Label, n: nat, k: nat)
    requires FairRun(Machine(), run, acts) && Complete(run(n)) && k < |run(n).at[Wr].pushed|
    ensures exists m :: n <= m && Complete(run(m))
              && (run(m).at[Wr].slot.asked || Seen(run(m).at[Wr], k) || ParkedOut(run(m).at[Wr]))
  {
    hide FairRun;
    var m := LieEnds(run, acts, n, Wr, k);
  }
}
