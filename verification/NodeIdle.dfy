/** A task that is left alone goes idle: once nobody begins a new call for the reader or the sender of a node, and
    its handler does not ask to be called again, the task leaves the queue for good. */
module NodeIdle {
  import opened Fairness
  import opened Gate
  import opened Lists
  import opened Node
  import opened NodeSafety
  import opened NodeSteps
  import opened NodeRank
  import opened NodeLiveness

  /** The step is the answer of the handler of r. */
  predicate Answers(s: State, l: Label, r: Role)
    requires Complete(s)
  {
    && l.Work? && l.role == r && s.at[r].slot.place.Running? && !EndSeen(s.at[r].slot)
    && (r == Rd || s.at[r].stage != Start)
  }

  predicate BeginsCall(l: Label, r: Role) {
    l.Begin? && l.job != Nothing && l.job.role == r
  }

  /** Nobody begins a new call for r, and its handler does not ask to be called again. */
  predicate Quiet(s: State, l: Label, r: Role)
    requires Complete(s)
  {
    !BeginsCall(l, r) && (Answers(s, l, r) ==> l.pick.ret != EV_IN)
  }

  // The calls under way.

  predicate IsPut(j: Job, r: Role) {
    j.Put? && j.role == r
  }

  predicate IsCall(j: Job, r: Role) {
    (j.Put? || j.Add?) && j.role == r
  }

  function Putters(s: State, r: Role): set<Who> {
    set w | w in s.jobs && IsPut(s.jobs[w], r)
  }

  function Callers(s: State, r: Role): set<Who> {
    set w | w in s.jobs && IsCall(s.jobs[w], r)
  }

  /** The steps that the calls for r still take. */
  function CallsLeft(s: State, r: Role): nat {
    |Callers(s, r)| + |Putters(s, r)|
  }

  function Weight(j: Job, r: Role): nat {
    One(IsCall(j, r)) + One(IsPut(j, r))
  }

  lemma CallsChange(s: State, s': State, w: Who, r: Role)
    requires w in s.jobs && w in s'.jobs && s'.jobs == s.jobs[w := s'.jobs[w]]
    ensures CallsLeft(s', r) + Weight(s.jobs[w], r) == CallsLeft(s, r) + Weight(s'.jobs[w], r)
  {
    hide IsPut, IsCall;
    OneChanges(Callers(s, r), Callers(s', r), w);
    OneChanges(Putters(s, r), Putters(s', r), w);
  }

  // How far the task is from being idle.

  /** Its end has been asked for, or the task is in no queue and nobody is about to put it there. */
  predicate AtRest(s: State, r: Role) {
    Complete(s) && (s.at[r].slot.asked || (s.at[r].slot.place == Out && Callers(s, r) == {}))
  }

  predicate Astir(s: State, r: Role) {
    Complete(s) && !AtRest(s, r)
  }

  /** A word other than LOCKED at the answer makes one more round. */
  function Phase(st: Station): nat {
    match st.slot.place
    case Out => 0
    case Claimed => 8
    case Queued => 4
    case Running(_) => (if st.slot.word == LOCKED then 2 else 6) + One(st.stage == Start)
    case Returned(ret) => if st.slot.word == LOCKED && ret != EV_IN then 1 else 5
  }

  function RestRank(s: State, r: Role): Rank {
    if Complete(s) then Rank(CallsLeft(s, r), Phase(s.at[r]), 0) else Rank(0, 0, 0)
  }

  predicate RestTurn(s: State, r: Role, w: Who) {
    Complete(s) && match s.at[r].slot.place
    case Out => w in Callers(s, r)
    case Claimed => Does(s, w, PushTo(r))
    case _ => w == Worker(r)
  }

  ghost predicate GoesOn(s: State, l: Label, s': State, r: Role) {
    || Below(RestRank(s', r), RestRank(s, r))
    || (RestRank(s', r) == RestRank(s, r) && forall w :: RestTurn(s, r, w) ==> RestTurn(s', r, w) && !Mine(l, w))
  }

  /** A step that has nothing to do with the task. */
  lemma OthersGoOn(s: State, l: Label, s': State, r: Role)
    requires Complete(s) && Complete(s') && s'.at[r] == s.at[r]
    requires var w := ActorOf(l); w in s.jobs && w in s'.jobs && s'.jobs == s.jobs[w := s'.jobs[w]]
    requires Weight(s.jobs[ActorOf(l)], r) == 0 && Weight(s'.jobs[ActorOf(l)], r) == 0
    requires !Does(s, ActorOf(l), PushTo(r))
    requires ActorOf(l) == Worker(r) ==> s.at[r].slot.place == Out || s.at[r].slot.place == Claimed
    ensures GoesOn(s, l, s', r)
  {
    hide CallsLeft, Phase;
    CallsChange(s, s', ActorOf(l), r);
  }

  /** A step of one of the calls for r. */
  lemma CallGoesOn(s: State, w: Who, r: Role)
    requires Inv(s) && Enabled(s, Act(w)) && s.jobs[w].role == r
    ensures var s' := JobStep(s, w); Complete(s') && (s'.at[r].slot.asked || Below(RestRank(s', r), RestRank(s, r)))
  {
    hide LogInv, TokenInv, MailInv, StationsInv, JobsInv, PushersInv, FreedInv, CallsLeft, StationInv, SlotInv, Hit,
         Wins, EndWins, WorkOk, TokenOk, MailOk;
    var s' := JobStep(s, w);
    At(s, r, w);
    JobTouches(s, w);
    CallsChange(s, s', w, r);
    if s.jobs[w].Add? {
      assert Weight(s'.jobs[w], r) == 0;
    }
  }

  /** A step of the worker on the task. */
  lemma WorkGoesOn(s: State, r: Role, pick: Pick)
    requires Inv(s) && Enabled(s, Work(r, pick)) && Quiet(s, Work(r, pick), r) && Astir(s, r) && (r == Rd || r == Wr)
    ensures var s' := WorkStep(s, r, pick); Complete(s') && Below(RestRank(s', r), RestRank(s, r))
  {
    hide LogInv, TokenInv, MailInv, StationsInv, JobsInv, PushersInv, FreedInv, CallsLeft, StationInv,
         WorkOk, TokenOk, MailOk, Callers;
    var s' := WorkStep(s, r, pick);
    At(s, r, Worker(r));
    Parts(r, s.at[r]);
    WorkTouches(s, r, pick);
    CallsChange(s, s', Worker(r), r);
  }

  lemma LivesOn(s: State, r: Role)
    requires Inv(s) && Complete(s) && !s.at[r].slot.asked && r != Dir
    ensures s.jobs[Worker(r)] == Nothing && !EndSeen(s.at[r].slot) && !EndSeen(s.at[Dir].slot)
  {
    hide LogInv, TokenInv, MailInv, StationsInv, JobsInv, PushersInv, FreedInv, StationInv, Copies;
    Chain(s, r);
    StationAt(s, r);
    StationAt(s, Dir);
    if s.jobs[Worker(r)] != Nothing {
      BusyWorker(s, r);
    }
  }

  lemma StepGoesOn(s: State, l: Label, r: Role)
    requires Inv(s) && Enabled(s, l) && Quiet(s, l, r) && Astir(s, r) && (r == Rd || r == Wr)
    ensures var s' := Apply(s, l); Complete(s') && (Astir(s', r) ==> GoesOn(s, l, s', r))
  {
    hide Inv, JobStep, WorkStep, RestRank, RestTurn, Quiet;
    LivesOn(s, r);
    StepTouches(s, l);
    var s' := Apply(s, l);
    if l.Work? && l.role == r {
      WorkGoesOn(s, r, l.pick);
    } else if l.Act? && s.jobs[l.who].role == r {
      CallGoesOn(s, l.who, r);
    } else {
      OtherJob(s, l, r);
      OthersGoOn(s, l, s', r);
    }
  }

  lemma OtherJob(s: State, l: Label, r: Role)
    requires Inv(s) && Enabled(s, l) && Quiet(s, l, r) && !IsEof(s, l) && (r == Rd || r == Wr)
    requires TaskOf(s, l) != r || l.Begin?
    ensures var s', w := Apply(s, l), ActorOf(l);
      && Complete(s') && s'.at[r] == s.at[r] && w in s.jobs && w in s'.jobs
      && Weight(s.jobs[w], r) == 0 && Weight(s'.jobs[w], r) == 0
      && !Does(s, w, PushTo(r)) && (w == Worker(r) ==> l.Act?)
  {
    hide Inv, JobStep, WorkStep, Answers;
    StepTouches(s, l);
    match l
    case Begin(_, _) =>
    case Act(w) => JobGoesTo(s, w, r);
    case Work(q, pick) => WorkGivesJob(s, q, pick, r);
  }

  /** The next job of somebody busy with another task is not a call for r. */
  lemma JobGoesTo(s: State, w: Who, r: Role)
    requires Enabled(s, Act(w)) && s.jobs[w].role != r
    ensures var s' := JobStep(s, w);
      w in s'.jobs && Weight(s.jobs[w], r) == 0 && Weight(s'.jobs[w], r) == 0
  {
    hide Hit, HitEnd, Wins, EndWins;
  }

  /** A worker takes no call for the reader or the sender upon itself. */
  lemma WorkGivesJob(s: State, q: Role, pick: Pick, r: Role)
    requires Enabled(s, Work(q, pick)) && !IsEof(s, Work(q, pick)) && (r == Rd || r == Wr)
    ensures var s' := WorkStep(s, q, pick); Worker(q) in s'.jobs && Weight(s'.jobs[Worker(q)], r) == 0
  {
    hide Settle, Lock, Freed, Handled;
  }

  // The whole run.

  /** The node, when nobody begins a new call for r and its handler does not ask to be called again. */
  ghost function Quietly(r: Role): System<State, Label, Who> {
    System(
      (s: State) => Inv(s),
      (s: State, l: Label, s': State) => Steps(s, l, s') && Quiet(s, l, r),
      (s: State, w: Who) => CanStep(s, w),
      (l: Label, w: Who) => Mine(l, w))
  }

  ghost function Rested(r: Role): Goal<State, Who> {
    Goal((s: State) => !Astir(s, r), (s: State) => RestRank(s, r), (s: State, w: Who) => RestTurn(s, r, w))
  }

  lemma RestFalls(s: State, l: Label, s': State, r: Role)
    requires Inv(s) && Follows(Quietly(r), s, l, s') && (r == Rd || r == Wr)
    ensures Falls(Quietly(r), Rested(r), s, l, s')
  {
    hide Inv, Apply, Astir, RestRank, RestTurn, Mine, Below, Quiet;
    if Astir(s, r) && Steps(s, l, s') && Quiet(s, l, r) {
      StepGoesOn(s, l, r);
    }
  }

  lemma RestTurns(s: State, r: Role)
    requires Inv(s) && (r == Rd || r == Wr)
    ensures Someones(Quietly(r), Rested(r), s)
  {
    hide LogInv, TokenInv, MailInv, StationsInv, JobsInv, PushersInv, FreedInv, StationInv, SlotInv, IsCall, RestRank,
         CanStep, MailOk, TokenOk, WorkOk;
    if Astir(s, r) {
      At(s, r, Worker(r));
      var w := SomeCaller(s, r);
      assert Rested(r).turn(s, w);
      forall w | RestTurn(s, r, w)
        ensures CanStep(s, w)
      {
        RestCanStep(s, r, w);
      }
    }
  }

  lemma SomeCaller(s: State, r: Role) returns (w: Who)
    requires Complete(s) && Astir(s, r) && ClaimOk(s, r)
    ensures RestTurn(s, r, w)
  {
    hide IsCall;
    match s.at[r].slot.place
    case Out => w :| w in Callers(s, r);
    case Claimed => w := s.at[r].owner;
    case _ => w := Worker(r);
  }

  lemma RestCanStep(s: State, r: Role, w: Who)
    requires Inv(s) && Astir(s, r) && RestTurn(s, r, w) && (r == Rd || r == Wr)
    ensures CanStep(s, w)
  {
    hide Inv, CanMove;
    if s.at[r].slot.place == Out || s.at[r].slot.place == Claimed {
      assert Mine(Act(w), w) && Enabled(s, Act(w));
    } else {
      LivesOn(s, r);
      assert Mine(Work(r, ANY), w) && Enabled(s, Work(r, ANY));
    }
  }

  const ANY := Pick(EV_NORM, 0, false)

  /** An idle task that nobody calls stays idle. */
  lemma RestStays(s: State, l: Label, r: Role)
    requires Inv(s) && Enabled(s, l) && Quiet(s, l, r) && AtRest(s, r) && (r == Rd || r == Wr)
    ensures AtRest(Apply(s, l), r)
  {
    hide Inv, JobStep, WorkStep, Quiet, IsCall, Apply;
    FlagsGrow(s, l, r);
    if !s.at[r].slot.asked {
      LivesOn(s, r);
      StepTouches(s, l);
      if l.Begin? || TaskOf(s, l) != r {
        OtherJob(s, l, r);
        CallsChange(s, Apply(s, l), ActorOf(l), r);
      } else {
        OnlyEnds(s, l, r);
      }
    }
  }

  /** On an idle task that nobody calls only endTask can step. */
  lemma OnlyEnds(s: State, l: Label, r: Role)
    requires Inv(s) && Enabled(s, l) && AtRest(s, r) && !s.at[r].slot.asked && !l.Begin? && TaskOf(s, l) == r
    ensures l.Act? && s.jobs[l.who] == EndOf(r) && Complete(Apply(s, l)) && Apply(s, l).at[r].slot.asked
  {
    hide LogInv, TokenInv, MailInv, StationsInv, JobsInv, PushersInv, FreedInv, StationInv, SlotInv, WorkStep;
    if l.Act? {
      At(s, r, l.who);
      assert l.who !in Callers(s, r);
    }
  }

  lemma {:induction false} QuietInv(run: nat -> State, acts: nat -> Label, r: Role, n: nat)
    requires FairRun(Quietly(r), run, acts)
    ensures Inv(run(n)) && Complete(run(n))
  {
    hide FairRun, Inv, Apply, Enabled, Quiet;
    if n == 0 {
      StepsFollow(Quietly(r), run, acts, 0);
      InvIsComplete(run(0));
    } else {
      QuietInv(run, acts, r, n - 1);
      StepsFollow(Quietly(r), run, acts, n - 1);
      if run(n) != run(n - 1) {
        StepKeepsInv(run(n - 1), acts(n - 1));
        InvIsComplete(run(n));
      }
    }
  }

  lemma InvIsComplete(s: State)
    requires Inv(s)
    ensures Complete(s)
  {
  }

  lemma RestComes(run: nat -> State, acts: nat -> Label, r: Role) returns (m: nat)
    requires FairRun(Quietly(r), run, acts) && (r == Rd || r == Wr)
    ensures forall k: nat :: m <= k ==> AtRest(run(k), r)
  {
    hide FairRun, Falls, Someones, Inv, AtRest;
    forall i: nat
      ensures Falls(Quietly(r), Rested(r), run(i), acts(i), run(i + 1)) && Someones(Quietly(r), Rested(r), run(i))
    {
      QuietInv(run, acts, r, i);
      StepsFollow(Quietly(r), run, acts, i);
      RestFalls(run(i), acts(i), run(i + 1), r);
      RestTurns(run(i), r);
    }
    m := Reached(Quietly(r), Rested(r), run, acts, 0);
    QuietInv(run, acts, r, m);
    forall k: nat | m <= k
      ensures AtRest(run(k), r)
    {
      RestLasts(run, acts, r, m, k);
    }
  }

  lemma {:induction false} RestLasts(run: nat -> State, acts: nat -> Label, r: Role, m: nat, k: nat)
    requires FairRun(Quietly(r), run, acts) && (r == Rd || r == Wr) && m <= k && AtRest(run(m), r)
    ensures AtRest(run(k), r)
    decreases k - m
  {
    hide FairRun, Inv, AtRest, Apply, Quiet, Enabled;
    if m < k {
      RestLasts(run, acts, r, m, k - 1);
      QuietInv(run, acts, r, k - 1);
      StepsFollow(Quietly(r), run, acts, k - 1);
      if Steps(run(k - 1), acts(k - 1), run(k)) && Quiet(run(k - 1), acts(k - 1), r) {
        RestStays(run(k - 1), acts(k - 1), r);
      }
    }
  }

  /** In every fair run, once nobody begins a new call for the reader or the sender and its handler does not ask to
      be called again, it goes idle and stays so, unless its end is asked for. */
  lemma GoesIdle(run: nat -> State, acts: nat -> Label, n: nat, r: Role) returns (m: nat)
    requires FairRun(Machine(), run, acts) && (r == Rd || r == Wr)
    requires forall i: nat :: n <= i && Steps(run(i), acts(i), run(i + 1)) ==> Quiet(run(i), acts(i), r)
    ensures n <= m && forall k: nat :: m <= k ==> AtRest(run(k), r)
  {
    hide FairRun, AtRest, Steps, CanStep, Quiet, Mine, Inv;
    FairRunInv(run, acts, n);
    var late: nat -> State := (i: nat) => run(n + i);
    var lateActs: nat -> Label := (i: nat) => acts(n + i);
    LaterRun(Machine(), Quietly(r), run, acts, n, late, lateActs);
    var i := RestComes(late, lateActs, r);
    m := n + i;
    forall k: nat | m <= k
      ensures AtRest(run(k), r)
    {
      assert AtRest(late(k - n), r);
    }
  }
}
