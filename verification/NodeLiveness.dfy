/** What comes about in every fair infinite run of a node: the shutdown, once asked for, completes. */
module NodeLiveness {
  import opened Fairness
  import opened Gate
  import opened Node
  import opened NodeSafety
  import opened NodeSteps
  import opened NodeRank
  import opened NodeShutdown

  // The machine as told to module Fairness.

  /** Some step of w is enabled. */
  ghost predicate CanStep(s: State, w: Who) {
    exists l :: Mine(l, w) && Enabled(s, l)
  }

  ghost predicate Steps(s: State, l: Label, s': State) {
    Enabled(s, l) && s' == Apply(s, l)
  }

  ghost function Machine(): System<State, Label, Who> {
    System(
      (s: State) => Init(s),
      (s: State, l: Label, s': State) => Steps(s, l, s'),
      (s: State, w: Who) => CanStep(s, w),
      (l: Label, w: Who) => Mine(l, w))
  }

  lemma {:induction false} FairRunInv(run: nat -> State, acts: nat -> Label, n: nat)
    requires FairRun(Machine(), run, acts)
    ensures Inv(run(n)) && Complete(run(n)) && CloseOk(run(n))
  {
    hide FairRun, Inv, Apply, Enabled, CloseOk;
    if n == 0 {
      StepsFollow(Machine(), run, acts, 0);
      InitInv(run(0));
      StartsOpen(run(0));
    } else {
      FairRunInv(run, acts, n - 1);
      StepsFollow(Machine(), run, acts, n - 1);
      if run(n) != run(n - 1) {
        StepKeepsInv(run(n - 1), acts(n - 1));
        StepKeepsClose(run(n - 1), acts(n - 1));
      }
    }
  }

  lemma StartsOpen(s: State)
    requires Init(s)
    ensures Complete(s) && CloseOk(s)
  {
  }

  // Whose turn it is.

  lemma SomeonesTurn(s: State, t: Token) returns (w: Who)
    requires Inv(s) && Stands(s, t)
    ensures Turn(s, t, w)
  {
    hide LogInv, TokenInv, MailInv, StationsInv, JobsInv, PushersInv, FreedInv, SlotInv, StageInv, PlainInv, MailOk, Sent;
    HolderIsIn(s, t);
    At(s, Holder(t), Worker(Dir));
    var r := Holder(t);
    if t.Copy? && Sent(s.jobs[Worker(t.role)], t.role) == 1 {
      w := Worker(t.role);
    } else if s.at[r].slot.place == Claimed {
      w := s.at[r].owner;
    } else if !t.Pending? && s.at[Dir].slot.place == Out {
      PlainDirector(s.at[Dir]);
      w := Adder(s);
    } else {
      w := Worker(r);
    }
  }

  /** An idle director with a message in its mailbox has an addTask on the way. */
  lemma Adder(s: State) returns (w: Who)
    requires Complete(s) && s.at[Dir].slot.place == Out && s.at[Dir].tmp != []
    requires SlotInv(s.at[Dir].slot) && PlainInv(Dir, s.at[Dir]) && MailOk(s, Dir) && Live(s.at[Dir])
    requires StageInv(Dir, s.at[Dir])
    ensures Does(s, w, Add(Dir, EV_NORM))
  {
    assert AddPending(s, Dir);
    w :| w in s.jobs && s.jobs[w] == Add(Dir, EV_NORM);
  }

  lemma TurnCanStep(s: State, t: Token, w: Who)
    requires Inv(s) && Stands(s, t) && Turn(s, t, w)
    ensures CanStep(s, w)
  {
    hide LogInv, TokenInv, MailInv, StationsInv, JobsInv, PushersInv, FreedInv, SlotInv, StageInv, PlainInv, MailOk;
    HolderIsIn(s, t);
    if w in s.jobs && s.jobs[w] != Nothing {
      assert Mine(Act(w), w) && Enabled(s, Act(w));
    } else {
      var l := Work(w.role, Pick(EV_NORM, 0, false));
      assert Mine(l, w) && Enabled(s, l);
    }
  }

  /** A call in progress goes on only by its own steps. */
  lemma JobStays(s: State, l: Label, w: Who)
    requires Enabled(s, l) && w in s.jobs && s.jobs[w] != Nothing && l != Act(w)
    ensures w in Apply(s, l).jobs && Apply(s, l).jobs[w] == s.jobs[w]
  {
    hide Settle, Hit, HitEnd, Wins, EndWins, EndSeen;
  }

  /** And in every fair run it does go on. */
  lemma {:induction false} JobComes(run: nat -> State, acts: nat -> Label, n: nat, m: nat, w: Who) returns (k: nat)
    requires FairRun(Machine(), run, acts) && n <= m && Served(Machine(), run, acts, w, m)
    requires w in run(n).jobs && run(n).jobs[w] != Nothing
    ensures n <= k && w in run(k).jobs && run(k).jobs[w] == run(n).jobs[w] && Steps(run(k), Act(w), run(k + 1))
    decreases m - n
  {
    hide FairRun, Apply, Inv;
    FairRunInv(run, acts, n);
    StepsFollow(Machine(), run, acts, n);
    var s := run(n);
    if acts(n) == Act(w) && Steps(s, Act(w), run(n + 1)) {
      k := n;
    } else {
      if Steps(s, acts(n), run(n + 1)) {
        JobStays(s, acts(n), w);
      }
      if n == m {
        assert Mine(Act(w), w) && Enabled(s, Act(w));
        OwnStep(s, acts(n), w);
      }
      k := JobComes(run, acts, n + 1, m, w);
    }
  }

  lemma OwnStep(s: State, l: Label, w: Who)
    requires Enabled(s, l) && Mine(l, w) && w in s.jobs && s.jobs[w] != Nothing
    ensures l == Act(w)
  {
  }

  // From the request for the reader's end to eof.

  predicate Under(s: State) {
    Complete(s) && Closing(s)
  }

  /** The milestones to come, then the rank of the token. */
  function FullRank(s: State): Rank {
    if Complete(s) then RankOf(s, TokenOf(s)).(stage := Ahead(s)) else Rank(0, 0, 0)
  }

  predicate TurnOf(s: State, w: Who) {
    Complete(s) && Turn(s, TokenOf(s), w)
  }

  ghost function Eof(): Goal<State, Who> {
    Goal((s: State) => !Under(s), (s: State) => FullRank(s), (s: State, w: Who) => TurnOf(s, w))
  }

  lemma OneStep(s: State, l: Label, s': State)
    requires Inv(s) && Under(s) && Inv(s') && (Steps(s, l, s') || s' == s)
    ensures Ended(s') || Under(s')
    ensures Under(s') ==>
              || Below(FullRank(s'), FullRank(s))
              || (FullRank(s') == FullRank(s)
                  && forall w :: TurnOf(s, w) ==> TurnOf(s', w) && !(Steps(s, l, s') && Mine(l, w)))
  {
    hide Apply, TokenOf, RankOf, Turn, Stands, Mine, LogInv, TokenInv, MailInv, StationsInv, JobsInv, PushersInv,
         FreedInv, Ahead;
    TokenIsThere(s);
    if Steps(s, l, s') {
      forall r: Role
        ensures Grown(s.at[r], s'.at[r])
      {
        FlagsGrow(s, l, r);
      }
      assert Grown(s.at[Rd], s'.at[Rd]) && Grown(s.at[Dir], s'.at[Dir]);
      SameStage(s, s');
      if Ahead(s') == Ahead(s) && Closing(s') {
        TokenIsThere(s');
        StepProgress(s, l, TokenOf(s));
        RankHasNoStage(s, TokenOf(s));
        RankHasNoStage(s', TokenOf(s));
      }
    }
  }

  lemma EofFalls(s: State, l: Label, s': State)
    requires Inv(s) && Inv(s') && Follows(Machine(), s, l, s')
    ensures Falls(Machine(), Eof(), s, l, s')
  {
    hide Inv, Under, FullRank, TurnOf, Ended, Steps, Mine, Below;
    if Under(s) {
      OneStep(s, l, s');
    }
  }

  lemma EofTurns(s: State)
    requires Inv(s)
    ensures Someones(Machine(), Eof(), s)
  {
    hide Inv, Turn, TokenOf, Stands, CanStep, FullRank;
    if Under(s) {
      TokenIsThere(s);
      var w := SomeonesTurn(s, TokenOf(s));
      assert Eof().turn(s, w);
      forall w | TurnOf(s, w)
        ensures CanStep(s, w)
      {
        TurnCanStep(s, TokenOf(s), w);
      }
    }
  }

  lemma {:induction false} AskedStays(run: nat -> State, acts: nat -> Label, n: nat, m: nat)
    requires FairRun(Machine(), run, acts) && n <= m && Complete(run(n)) && run(n).at[Rd].slot.asked
    ensures Complete(run(m)) && run(m).at[Rd].slot.asked
    decreases m - n
  {
    hide FairRun, Apply, Enabled;
    if n < m {
      AskedStays(run, acts, n, m - 1);
      StepsFollow(Machine(), run, acts, m - 1);
      if run(m) != run(m - 1) {
        FlagsGrow(run(m - 1), acts(m - 1), Rd);
      }
    }
  }

  /** The shutdown always completes: in every fair run, from any moment at which END has been asked of
      the reader, the director's end comes. */
  lemma {:induction false} ShutdownCompletes(run: nat -> State, acts: nat -> Label, n: nat)
    requires FairRun(Machine(), run, acts) && Complete(run(n)) && run(n).at[Rd].slot.asked
    ensures exists m :: n <= m && Ended(run(m))
  {
    hide FairRun, Falls, Someones, Inv;
    forall i: nat
      ensures Falls(Machine(), Eof(), run(i), acts(i), run(i + 1)) && Someones(Machine(), Eof(), run(i))
    {
      FairRunInv(run, acts, i);
      FairRunInv(run, acts, i + 1);
      StepsFollow(Machine(), run, acts, i);
      EofFalls(run(i), acts(i), run(i + 1));
      EofTurns(run(i));
    }
    var m := Reached(Machine(), Eof(), run, acts, n);
    AskedStays(run, acts, n, m);
    assert Ended(run(m));
  }

  /** The status of a node is CLOSING or later, or its socket out of epoll, only when its shutdown runs, and
      then in every fair run the director's end comes. */
  lemma {:induction false} CloseCompletes(run: nat -> State, acts: nat -> Label, n: nat)
    requires FairRun(Machine(), run, acts) && (run(n).status >= CLOSING || !run(n).watched)
    ensures exists m :: n <= m && Ended(run(m))
  {
    hide Inv, FairRun, Served;
    FairRunInv(run, acts, n);
    if run(n).at[Rd].slot.asked {
      ShutdownCompletes(run, acts, n);
    } else {
      var i := EveryoneHeard(Machine(), run, acts, Worker(Dir), n);
      var k := JobComes(run, acts, n, i, Worker(Dir));
      AsksReader(run(k));
      ShutdownCompletes(run, acts, k + 1);
      var m :| k + 1 <= m && Ended(run(m));
    }
  }

  lemma AsksReader(s: State)
    requires Enabled(s, Act(Worker(Dir))) && s.jobs[Worker(Dir)] == EndOf(Rd)
    ensures var s' := Apply(s, Act(Worker(Dir))); Complete(s') && s'.at[Rd].slot.asked
  {
  }

  // From a request to close to the request for the reader's end.

  const CLOSE := Stop(CLOSING)

  /** The request is in the director's mailbox, and no shutdown has begun. */
  predicate Noted(s: State) {
    Complete(s) && !s.at[Rd].slot.asked && s.status < CLOSING && InMail(s.at[Dir], CLOSE)
  }

  predicate Begun(s: State) {
    Complete(s) && (s.at[Rd].slot.asked || s.status >= CLOSING)
  }

  function NoteRank(s: State): Rank {
    if Complete(s) then RankOf(s, Note(CLOSE)) else Rank(0, 0, 0)
  }

  predicate NoteTurn(s: State, w: Who) {
    Complete(s) && Turn(s, Note(CLOSE), w)
  }

  ghost function Heeded(): Goal<State, Who> {
    Goal((s: State) => !Noted(s), (s: State) => NoteRank(s), (s: State, w: Who) => NoteTurn(s, w))
  }

  lemma NotedStands(s: State)
    requires Inv(s) && Noted(s)
    ensures Stands(s, Note(CLOSE))
  {
    hide StationsInv, StationInv, LogInv, MailInv, JobsInv, PushersInv, FreedInv, TokenInv, InMail;
    Chain(s, Rd);
  }

  /** A message stays in the director's mailbox until he has handled it, and handling a request to close makes
      the status CLOSING. */
  lemma NotedStays(s: State, l: Label)
    requires Inv(s) && Enabled(s, l) && Noted(s)
    ensures Noted(Apply(s, l)) || Begun(Apply(s, l))
    ensures Noted(Apply(s, l)) && l.Work? && l.role == Dir ==> s.at[Dir].stage != Hand(CLOSE)
  {
    hide Inv, SlotInv, Settle, InMail, JobStep, WorkStep, StageInv, PlainInv, MailOk, WorkOk;
    FlagsGrow(s, l, Rd);
    NotedStands(s);
    HolderIsIn(s, Note(CLOSE));
    match l
    case Begin(_, _) =>
    case Act(w) => JobKeepsNote(s, w);
    case Work(r, pick) =>
      if r != Dir {
        OtherKeepsNote(s, r, pick);
      } else if s.at[Dir].slot.place.Running? {
        HandlerKeepsNote(s, pick);
      } else {
        RestKeepsNote(s, pick);
      }
  }

  lemma JobKeepsNote(s: State, w: Who)
    requires Complete(s) && Enabled(s, Act(w)) && InMail(s.at[Dir], CLOSE)
    ensures var s' := JobStep(s, w); Complete(s') && InMail(s'.at[Dir], CLOSE) && s'.status == s.status
  {
    hide Hit, HitEnd, Wins, EndWins;
  }

  lemma RestKeepsNote(s: State, pick: Pick)
    requires Complete(s) && Enabled(s, Work(Dir, pick)) && InMail(s.at[Dir], CLOSE) && !s.at[Dir].slot.place.Running?
    requires StageInv(Dir, s.at[Dir])
    ensures var s' := WorkStep(s, Dir, pick);
      Complete(s') && InMail(s'.at[Dir], CLOSE) && s'.status == s.status && s.at[Dir].stage != Hand(CLOSE)
  {
    hide Settle;
  }

  lemma HandlerKeepsNote(s: State, pick: Pick)
    requires Complete(s) && Enabled(s, Work(Dir, pick)) && s.at[Dir].slot.place.Running? && !EndSeen(s.at[Dir].slot)
    requires Noted(s) && StageInv(Dir, s.at[Dir]) && PlainInv(Dir, s.at[Dir])
    ensures var s' := WorkStep(s, Dir, pick);
      && Complete(s') && s'.at[Rd] == s.at[Rd]
      && (if s.at[Dir].stage == Hand(CLOSE) then s'.status >= CLOSING else InMail(s'.at[Dir], CLOSE))
  {
    var d := s.at[Dir];
    if d.que != [] {
      assert d.que == [d.que[0]] + d.que[1..];
    }
  }

  lemma OtherKeepsNote(s: State, r: Role, pick: Pick)
    requires Complete(s) && Enabled(s, Work(r, pick)) && r != Dir
    ensures var s' := WorkStep(s, r, pick); Complete(s') && s'.at[Dir] == s.at[Dir] && s'.status == s.status
  {
    hide Settle;
  }

  lemma NoteFalls(s: State, l: Label, s': State)
    requires Inv(s) && Inv(s') && Follows(Machine(), s, l, s')
    ensures Falls(Machine(), Heeded(), s, l, s')
  {
    hide Inv, Noted, Turn, RankOf, Mine, Stands, Apply, Enabled, Below;
    if Noted(s) && Noted(s') {
      NotedStands(s);
      NotedStands(s');
      NotedIsComplete(s);
      NotedIsComplete(s');
      if Steps(s, l, s') {
        NotedStays(s, l);
        StepProgress(s, l, Note(CLOSE));
      }
    }
  }

  lemma NotedIsComplete(s: State)
    requires Noted(s)
    ensures Complete(s)
  {
  }

  lemma NoteTurns(s: State)
    requires Inv(s)
    ensures Someones(Machine(), Heeded(), s)
  {
    hide Inv, Turn, Stands, CanStep, RankOf, InMail;
    if Noted(s) {
      NotedStands(s);
      var w := SomeonesTurn(s, Note(CLOSE));
      assert Heeded().turn(s, w);
      forall w | NoteTurn(s, w)
        ensures CanStep(s, w)
      {
        TurnCanStep(s, Note(CLOSE), w);
      }
    }
  }

  lemma NotedGoes(run: nat -> State, acts: nat -> Label, i: nat)
    requires FairRun(Machine(), run, acts)
    ensures Noted(run(i)) ==> Noted(run(i + 1)) || Begun(run(i + 1))
  {
    hide FairRun, Inv, Apply, Enabled, Noted, Begun;
    FairRunInv(run, acts, i);
    StepsFollow(Machine(), run, acts, i);
    if Noted(run(i)) && Steps(run(i), acts(i), run(i + 1)) {
      NotedStays(run(i), acts(i));
    }
  }

  /** Every request to close is heeded: in every fair run, once a thread has begun to send one, eof comes. */
  lemma {:induction false} RequestCompletes(run: nat -> State, acts: nat -> Label, n: nat, w: Who)
    requires FairRun(Machine(), run, acts) && w in run(n).jobs && run(n).jobs[w] == Put(Dir, CLOSE)
    ensures exists m :: n <= m && Ended(run(m))
  {
    hide FairRun, Falls, Someones, Inv, Served, Noted, Begun;
    forall i: nat
      ensures Falls(Machine(), Heeded(), run(i), acts(i), run(i + 1)) && Someones(Machine(), Heeded(), run(i))
      ensures Noted(run(i)) ==> Noted(run(i + 1)) || Begun(run(i + 1))
    {
      FairRunInv(run, acts, i);
      FairRunInv(run, acts, i + 1);
      StepsFollow(Machine(), run, acts, i);
      NoteFalls(run(i), acts(i), run(i + 1));
      NoteTurns(run(i));
      NotedGoes(run, acts, i);
    }
    var i := EveryoneHeard(Machine(), run, acts, w, n);
    var j := JobComes(run, acts, n, i, w);
    PutNotes(run(j), w);
    var h := Reached(Machine(), Heeded(), run, acts, j + 1);
    var k := First(run, j + 1, h, Noted, Begun);
    BegunCloses(run, acts, k);
    var m :| k <= m && Ended(run(m));
  }

  lemma PutNotes(s: State, w: Who)
    requires Enabled(s, Act(w)) && s.jobs[w] == Put(Dir, CLOSE)
    ensures Noted(Apply(s, Act(w))) || Begun(Apply(s, Act(w)))
  {
  }

  lemma BegunCloses(run: nat -> State, acts: nat -> Label, k: nat)
    requires FairRun(Machine(), run, acts) && Begun(run(k))
    ensures exists m :: k <= m && Ended(run(m))
  {
    hide FairRun;
    if run(k).at[Rd].slot.asked {
      ShutdownCompletes(run, acts, k);
    } else {
      CloseCompletes(run, acts, k);
    }
  }
}
