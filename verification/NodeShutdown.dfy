/** The shutdown of a node over finite runs: in order, once, nothing after eof; and its mailboxes. */
module NodeShutdown {
  import opened Gate
  import opened Node
  import opened NodeSafety
  import opened NodeSteps
  import opened NodeRank

  // Safety.

  /** In every run the end of each task starts at most once, after the end of the task before it, and
      after it no call of that task starts; after the director's end nothing of the node starts at all. */
  lemma EndsInOrder(states: seq<State>)
    requires IsRun(states)
    ensures var log := states[|states| - 1].log;
      && (forall i, j :: 0 <= i < j < |log| && log[i].end ==> log[j].role != log[i].role)
      && (forall k: Role, j :: k != Dir && 0 <= j < |log| && log[j] == Call(After(k), true) ==>
            exists i :: 0 <= i < j && log[i] == Call(k, true))
      && (forall j :: 0 <= j < |log| && log[j] == Call(Dir, true) ==> j == |log| - 1)
  {
    hide Inv, IsRun;
    var s := states[LastOf(states)];
    RunInv(states);
    assert Complete(s) && LogInv(s) by { InvHasLog(s); }
    assert forall i, j :: 0 <= i < j < |s.log| && s.log[i].end ==> s.log[j].role != s.log[i].role;
    hide LogInv;
    forall k: Role, j | k != Dir && 0 <= j < |s.log| && s.log[j] == Call(After(k), true)
      ensures exists i :: 0 <= i < j && s.log[i] == Call(k, true)
    {
      var i := EndBefore(s, k, j);
    }
    forall j | 0 <= j < |s.log| && s.log[j] == Call(Dir, true)
      ensures j == |s.log| - 1
    {
      if j + 1 < |s.log| {
        var i := EndOfEach(s, s.log[j + 1].role, j);
      }
    }
  }

  function LastOf(states: seq<State>): nat
    requires IsRun(states)
  {
    |states| - 1
  }

  lemma InvHasLog(s: State)
    requires Inv(s)
    ensures Complete(s) && LogInv(s)
  {
    hide LogInv;
  }

  /** By the director's end every task has ended. */
  lemma EndOfEach(s: State, r: Role, j: nat) returns (i: nat)
    requires Complete(s) && LogInv(s) && j < |s.log| && s.log[j] == Call(Dir, true)
    ensures i <= j && s.log[i] == Call(r, true)
  {
    hide LogInv;
    i := j;
    if r != Dir {
      i := EndBefore(s, Deal, i);
    }
    if r == Rd || r == Wr {
      i := EndBefore(s, Wr, i);
    }
    if r == Rd {
      i := EndBefore(s, Rd, i);
    }
  }

  lemma EndBefore(s: State, k: Role, j: nat) returns (i: nat)
    requires Complete(s) && LogInv(s) && k != Dir && j < |s.log| && s.log[j] == Call(After(k), true)
    ensures i < j && s.log[i] == Call(k, true)
  {
    assert Call(k, true) in s.log[..j];
    i :| 0 <= i < j && s.log[..j][i] == Call(k, true);
  }

  predicate Ended(s: State) {
    Complete(s) && s.at[Dir].slot.ended
  }

  // The request to close.

  /** The socket is out of epoll exactly when END has been asked of the reader or is about to be, and a status
      of CLOSING or later says so too: a CLOSING that is ignored comes to a shutdown under way. */
  predicate CloseOk(s: State)
    requires Complete(s)
  {
    && (!s.watched <==> s.at[Rd].slot.asked || s.jobs[Worker(Dir)] == EndOf(Rd))
    && (s.status >= CLOSING ==> !s.watched)
  }

  lemma StepKeepsClose(s: State, l: Label)
    requires Inv(s) && CloseOk(s) && Enabled(s, l)
    ensures Complete(Apply(s, l)) && CloseOk(Apply(s, l))
  {
    hide Inv, WorkStep, JobStep, CloseOk;
    match l
    case Begin(_, _) => BeginKeepsClose(s, l);
    case Act(w) => JobKeepsClose(s, w);
    case Work(r, pick) => WorkKeepsClose(s, r, pick);
  }

  lemma BeginKeepsClose(s: State, l: Label)
    requires Enabled(s, l) && l.Begin? && CloseOk(s)
    ensures Complete(Apply(s, l)) && CloseOk(Apply(s, l))
  {
  }

  lemma JobKeepsClose(s: State, w: Who)
    requires Inv(s) && CloseOk(s) && Enabled(s, Act(w))
    ensures Complete(JobStep(s, w)) && CloseOk(JobStep(s, w))
  {
    hide Inv, SlotInv, StageInv, PlainInv, HistoryInv, MailOk, TokenOk, PusherOk, ClaimOk, WorkOk, Wins, EndWins;
    At(s, Rd, w);
  }

  lemma WorkKeepsClose(s: State, r: Role, pick: Pick)
    requires Inv(s) && CloseOk(s) && Enabled(s, Work(r, pick))
    ensures Complete(WorkStep(s, r, pick)) && CloseOk(WorkStep(s, r, pick))
  {
    hide Inv, SlotInv, Settle, LogInv, DealCmd;
    WorkAsksNothing(s, r, pick);
    if r == Dir && s.at[Dir].slot.place.Running? {
      if EndSeen(s.at[Dir].slot) {
        AllTold(s);
      } else if s.at[Dir].stage.Hand? {
        CmdKeepsClose(s, pick);
      }
    }
  }

  lemma WorkAsksNothing(s: State, r: Role, pick: Pick)
    requires Enabled(s, Work(r, pick))
    ensures Complete(WorkStep(s, r, pick)) && WorkStep(s, r, pick).at[Rd].slot.asked == s.at[Rd].slot.asked
  {
    hide WorkStep;
    if IsEof(s, Work(r, pick)) {
      EofAsksNothing(s, pick);
    } else if r != Rd {
      WorkTouches(s, r, pick);
    } else {
      ReaderAsksNothing(s, pick);
    }
  }

  lemma EofAsksNothing(s: State, pick: Pick)
    requires Enabled(s, Work(Dir, pick)) && IsEof(s, Work(Dir, pick))
    ensures Complete(WorkStep(s, Dir, pick)) && WorkStep(s, Dir, pick).at[Rd].slot == s.at[Rd].slot
  {
    hide Spliced, Written, DealCmd;
  }

  lemma ReaderAsksNothing(s: State, pick: Pick)
    requires Enabled(s, Work(Rd, pick))
    ensures Complete(WorkStep(s, Rd, pick)) && WorkStep(s, Rd, pick).at[Rd].slot.asked == s.at[Rd].slot.asked
  {
    hide Freed, DealCmd, Spliced, Written;
  }

  lemma CmdKeepsClose(s: State, pick: Pick)
    requires Inv(s) && Complete(s) && CloseOk(s) && s.at[Dir].stage.Hand? && s.jobs[Worker(Dir)] == Nothing
    ensures var s' := DealCmd(s, s.at[Dir].stage.msg, pick); Complete(s') && CloseOk(s')
  {
    hide Inv;
    if !s.at[Rd].slot.asked {
      HandIsTold(s);
    }
  }

  /** The director only ever holds the STOP message of a task that has told its end. */
  lemma HandIsTold(s: State)
    requires Inv(s) && s.at[Dir].stage.Hand? && !s.at[Rd].slot.asked
    ensures s.at[Dir].stage.msg !in {StopOf(Rd), StopOf(Wr), StopOf(Deal)}
  {
    hide StationsInv, StationInv, LogInv, MailInv, JobsInv, PushersInv, FreedInv, TokenInv;
    TokenAt(s, Rd);
    TokenAt(s, Wr);
    TokenAt(s, Deal);
    Chain(s, Rd);
    Chain(s, Wr);
    Chain(s, Deal);
  }

  // The mailboxes.

  /** In every run each mailbox keeps its messages in order: what was put in is what was taken out, then
      what was freed, then what is queued; nothing is freed before the director's end. A message still
      in the locked queue of a live task waits for a splice that will come. */
  lemma MailboxKeepsAll(states: seq<State>, r: Role)
    requires IsRun(states) && r != Rd
    ensures Complete(states[|states| - 1])
    ensures var s := states[|states| - 1];
      var st := s.at[r];
      && st.pushed == st.taken + st.freed + st.que + st.tmp
      && (!s.at[Dir].slot.ended ==> st.freed == [] && st.taken <= st.pushed)
      && (Live(st) && st.tmp != [] ==> AddPending(s, r) || Waiting(st))
  {
    hide IsRun, StationsInv, StationInv, FreedInv, JobsInv, PushersInv, TokenInv, MailInv, LogInv, Live, Waiting,
         AddPending;
    var s := states[LastOf(states)];
    RunInv(states);
    At(s, r, Worker(r));
    Parts(r, s.at[r]);
    assert FreedOk(s, r) by { FreedAt(s, r); }
  }

  lemma FreedAt(s: State, r: Role)
    requires Complete(s) && FreedInv(s)
    ensures FreedOk(s, r)
  {
    hide FreedOk;
  }

  /** An idle live task with a message in its locked queue is about to be checked in by the thread that
      put it there, or is the sender parked on an event that has not come. */
  lemma IdleMailbox(s: State, r: Role)
    requires Inv(s) && r != Rd && Live(s.at[r]) && s.at[r].slot.place == Out && s.at[r].tmp != []
    ensures AddPending(s, r) || (r == Wr && exists ev :: Parked(s.at[r].slot.word, ev))
  {
    hide StationsInv, StationInv, FreedInv, JobsInv, PushersInv, TokenInv, MailInv, LogInv, AddPending;
    At(s, r, Worker(r));
    Parts(r, s.at[r]);
    IdleIsOpen(s.at[r].slot);
  }

  /** At the director's end everything that was ever put in and not taken is freed, and nothing stays. */
  lemma EofFreesAll(s: State, pick: Pick, r: Role)
    requires Inv(s) && Enabled(s, Work(Dir, pick)) && EndSeen(s.at[Dir].slot)
    ensures Complete(Apply(s, Work(Dir, pick)))
    ensures var s' := Apply(s, Work(Dir, pick));
      var st := s'.at[r];
      && s'.at[Dir].slot.ended && s'.status == CLOSE_DIRECTOR
      && st.que == [] && st.tmp == [] && st.pushed == st.taken + st.freed
  {
    hide Inv, SlotInv, Freed, StageInv, PlainInv, HistoryInv;
    At(s, r, Worker(r));
    Parts(r, s.at[r]);
    FreedIsWhole(s, r);
  }

  lemma FreedIsWhole(s: State, r: Role)
    requires Complete(s) && HistoryInv(s.at[r])
    ensures Complete(Freed(s))
    ensures Freed(s).at[Dir].slot.ended && Freed(s).status == CLOSE_DIRECTOR
    ensures var st := Freed(s).at[r]; st.que == [] && st.tmp == [] && st.pushed == st.taken + st.freed
  {
    var st := s.at[r];
    assert st.taken + st.freed + st.que + st.tmp == st.taken + (st.freed + st.que + st.tmp);
  }

  // After eof.

  /** By eof every other task has sent its STOP message, and no handler runs that could do anything else. */
  lemma EndedIsOver(s: State, r: Role)
    requires Inv(s) && Ended(s)
    ensures !Live(s.at[r]) && s.at[r].stage !in {Start, Drained, Tell} && !s.at[r].stage.Hand?
    ensures if s.at[r].slot.place.Running? then r != Dir && s.at[r].stage == Told && EndSeen(s.at[r].slot)
            else s.at[r].slot.place == Out
    ensures r != Dir ==> s.at[r].told && s.at[After(r)].slot.asked
  {
    hide Inv, SlotInv, PlainInv, HistoryInv, TokenOk, Copies, MailOk;
    At(s, r, Worker(r));
    At(s, Dir, Worker(Dir));
    Parts(r, s.at[r]);
    assert Complete(s) && StationsInv(s) && TokenInv(s) by { InvHasTokens(s); }
    Chain(s, r);
    Chain(s, Dir);
    EndedIsOut(s.at[Dir].slot);
    if s.at[r].slot.place.Running? {
      QueuedIsLive(s.at[r].slot);
    } else {
      EndedIsOut(s.at[r].slot);
    }
    if r != Dir {
      Chain(s, After(r));
    }
  }

  lemma InvHasTokens(s: State)
    requires Inv(s)
    ensures Complete(s) && StationsInv(s) && TokenInv(s)
  {
    hide StationsInv, TokenInv, LogInv, MailInv, JobsInv, PushersInv, FreedInv;
  }

  lemma EndedIsOut(sl: Slot)
    requires SlotInv(sl) && sl.ended
    ensures sl.place == Out && sl.asked
  {
  }

  /** After eof the workers of reader, sender and dealer have nothing left to do but the addTask behind their
      STOP message. */
  lemma JobsAtEof(s: State, r: Role)
    requires Inv(s) && Ended(s)
    ensures s.jobs[Worker(r)] in {Nothing, Add(Dir, EV_NORM)} && (r == Dir ==> s.jobs[Worker(r)] == Nothing)
  {
    hide Inv, SlotInv, PlainInv, HistoryInv, MailOk, StageInv, Held;
    EndedIsOver(s, r);
    EndedIsOver(s, Deal);
    At(s, r, Worker(r));
    At(s, Dir, Worker(r));
    At(s, Dir, Worker(Dir));
    EndedIsOut(s.at[Dir].slot);
  }

  /** What has happened to a mailbox since an earlier moment: some messages pushed, and nothing else. */
  predicate OnlyPushed(st: Station, st': Station) {
    && st'.que == st.que && st'.taken == st.taken && st'.freed == st.freed && st'.stage in {st.stage, Rest}
    && st.pushed <= st'.pushed && st'.tmp == st.tmp + st'.pushed[|st.pushed|..]
  }

  /** After eof nothing of the node is touched but by threads that push to it. */
  lemma AfterEof(s: State, l: Label, r: Role)
    requires Inv(s) && Ended(s) && Enabled(s, l)
    ensures Ended(Apply(s, l)) && OnlyPushed(s.at[r], Apply(s, l).at[r])
  {
    hide Inv, SlotInv, Apply, OnlyPushed;
    FlagsGrow(s, l, Dir);
    EndedIsOver(s, r);
    EndedIsOver(s, TaskOf(s, l));
    StepTouches(s, l);
    if TaskOf(s, l) != r {
      assert OnlyPushed(s.at[r], s.at[r]) by { NothingPushed(s.at[r]); }
    } else {
      match l
      case Begin(_, _) =>
        BeginKeepsTasks(s, l);
        NothingPushed(s.at[r]);
      case Act(w) => JobOnlyPushes(s, w);
      case Work(_, pick) => LastStep(s, r, pick);
    }
  }

  lemma NothingPushed(st: Station)
    ensures OnlyPushed(st, st)
  {
  }

  lemma JobOnlyPushes(s: State, w: Who)
    requires Enabled(s, Act(w))
    ensures var s' := Apply(s, Act(w)); Complete(s') && OnlyPushed(s.at[s.jobs[w].role], s'.at[s.jobs[w].role])
  {
    hide Hit, HitEnd, Wins, EndWins;
  }

  lemma LastStep(s: State, r: Role, pick: Pick)
    requires Enabled(s, Work(r, pick)) && r != Dir && s.at[r].slot.place.Running?
    requires EndSeen(s.at[r].slot) && s.at[r].stage == Told
    ensures var s' := Apply(s, Work(r, pick)); Complete(s') && OnlyPushed(s.at[r], s'.at[r])
  {
    hide EndSeen, CallEnd, Settle, Lock;
    NothingPushed(s.at[r]);
  }
}
