/** The shutdown always gets on: a rank that no step of anybody raises and that every step of the one
    whose turn it is lowers. */
module NodeRank {
  import opened Fairness
  import opened Gate
  import opened Lists
  import opened Node
  import opened NodeSafety
  import opened NodeSteps

  /** Where the shutdown stands: END of a task asked for and not yet told, or a STOP message under way. `Note`
      is any message on its way to the director; the request to close is one. */
  datatype Token = Pending(role: Role) | Copy(role: Role) | Note(msg: Msg)

  function TokenOf(s: State): (t: Token)
    requires Complete(s)
    ensures !t.Note? && t != Copy(Dir)
  {
    if !s.at[Rd].told then Pending(Rd)
    else if !s.at[Wr].slot.asked then Copy(Rd)
    else if !s.at[Wr].told then Pending(Wr)
    else if !s.at[Deal].slot.asked then Copy(Wr)
    else if !s.at[Deal].told then Pending(Deal)
    else if !s.at[Dir].slot.asked then Copy(Deal)
    else Pending(Dir)
  }

  /** END was asked for and procTaskEnd has not sent its STOP message (the director: has not returned). */
  predicate EndPending(st: Station) {
    st.slot.asked && !st.told && !st.slot.ended
  }

  /** The shutdown has started and eof has not come. */
  predicate Closing(s: State)
    requires Complete(s)
  {
    s.at[Rd].slot.asked && !s.at[Dir].slot.ended
  }

  predicate Stands(s: State, t: Token)
    requires Complete(s)
  {
    match t
    case Pending(r) => EndPending(s.at[r])
    case Copy(k) => k != Dir && Copies(s, k) == 1 && s.at[k].told && !s.at[Dir].slot.asked
    case Note(m) => InMail(s.at[Dir], m) && !s.at[Dir].slot.asked
  }

  /** The message is in the director's mailbox or hands. */
  predicate InMail(d: Station, m: Msg) {
    m in d.tmp || m in d.que || d.stage == Hand(m)
  }

  lemma TokenIsThere(s: State)
    requires Inv(s) && Closing(s)
    ensures Stands(s, TokenOf(s))
  {
    hide StationInv, StationsInv, TokenInv, Copies, LogInv, MailInv, JobsInv, PushersInv, FreedInv, Live;
    forall r: Role
      ensures s.at[r].slot.ended ==> r == Dir || s.at[r].told
    {
      StationAt(s, r);
      if s.at[r].slot.ended {
        EndedIsTold(r, s.at[r]);
      }
    }
    StationAt(s, Dir);
    DirectorTellsNobody(s.at[Dir]);
    Chain(s, Wr);
    Chain(s, Deal);
    TokenAt(s, Rd);
    TokenAt(s, Wr);
    TokenAt(s, Deal);
  }

  lemma EndedIsTold(r: Role, st: Station)
    requires StationInv(r, st) && st.slot.ended
    ensures r == Dir || st.told
  {
  }

  /** How many tokens there are. */
  function Tokens(s: State): nat
    requires Complete(s)
  {
    One(EndPending(s.at[Rd])) + Copies(s, Rd) + One(EndPending(s.at[Wr])) + Copies(s, Wr)
    + One(EndPending(s.at[Deal])) + Copies(s, Deal) + One(EndPending(s.at[Dir]))
  }

  /** From the moment END is asked of the reader until eof there is exactly one token, otherwise none. */
  lemma OneToken(s: State)
    requires Inv(s)
    ensures Tokens(s) == One(Closing(s))
  {
    hide StationInv, StationsInv, TokenInv, Copies, LogInv, MailInv, JobsInv, PushersInv, FreedInv, Live;
    forall r: Role
      ensures s.at[r].slot.ended ==> r == Dir || s.at[r].told
      ensures s.at[r].told || s.at[r].slot.ended ==> s.at[r].slot.asked
    {
      StationAt(s, r);
      if s.at[r].slot.ended {
        EndedIsTold(r, s.at[r]);
      }
      Chain(s, r);
    }
    StationAt(s, Dir);
    DirectorTellsNobody(s.at[Dir]);
    TokenAt(s, Rd);
    TokenAt(s, Wr);
    TokenAt(s, Deal);
  }

  lemma DirectorTellsNobody(st: Station)
    requires StationInv(Dir, st)
    ensures !st.told
  {
  }

  // The rank.

  /** How many of the seven milestones of the shutdown are still to come. */
  function Ahead(s: State): nat
    requires Complete(s)
  {
    One(!s.at[Rd].told) + One(!s.at[Wr].slot.asked) + One(!s.at[Wr].told) + One(!s.at[Deal].slot.asked)
    + One(!s.at[Deal].told) + One(!s.at[Dir].slot.asked) + One(!s.at[Dir].slot.ended)
  }

  function JobWork(j: Job): nat {
    match j
    case Nothing => 0
    case PushTo(_) => 1
    case Add(_, _) => 2
    case EndOf(_) => 2
    case Put(_, _) => 3
  }

  function HandWork(st: Station): nat {
    if st.stage.Hand? then 3 else 0
  }

  function Busy(st: Station, j: Job): nat {
    4 * |st.que| + HandWork(st) + JobWork(j)
  }

  /** How far a task with a pending END is from the end of its procTaskEnd. */
  function PendingRank(st: Station, j: Job): Rank {
    match st.slot.place
    case Out => Rank(0, 0, 0)
    case Claimed => Rank(0, 4, 0)
    case Queued => Rank(0, 3, 0)
    case Returned(_) => Rank(0, 5, 0)
    case Running(_) =>
      if EndSeen(st.slot) then Rank(0, if st.stage == Start then 2 else 1, 0)
      else if st.stage == Start then Rank(0, 7, 0)
      else Rank(0, 6, Busy(st, j))
  }

  /** How far a message of the director d is from his hands; jd is his job. */
  function MailRank(d: Station, jd: Job, m: Msg): Rank {
    if d.stage == Hand(m) then Rank(0, 4, 0)
    else if m in d.que then Rank(0, 5, 4 * Index(d.que, m) + HandWork(d) + JobWork(jd))
    else match d.slot.place
      case Out => Rank(0, 9, 0)
      case Claimed => Rank(0, 8, 0)
      case Queued => Rank(0, 7, 0)
      case Returned(_) => Rank(0, 10, 0)
      case Running(_) => if d.stage == Start then Rank(0, 6, 0) else Rank(0, 11, Busy(d, jd))
  }

  /** How far the STOP message of k is from the next endTask; jk is the job of its sender. */
  function CopyRank(jk: Job, d: Station, jd: Job, k: Role): Rank
    requires k != Dir
  {
    if Sent(jk, k) == 1 then Rank(0, 12, 0)
    else if Asking(jd, k) == 1 then Rank(0, 3, 0)
    else MailRank(d, jd, StopOf(k))
  }

  function RankOf(s: State, t: Token): Rank
    requires Complete(s) && t != Copy(Dir)
  {
    match t
    case Pending(r) => PendingRank(s.at[r], s.jobs[Worker(r)])
    case Copy(k) => CopyRank(s.jobs[Worker(k)], s.at[Dir], s.jobs[Worker(Dir)], k)
    case Note(m) => MailRank(s.at[Dir], s.jobs[Worker(Dir)], m)
  }

  /** Whose turn it is. */
  predicate Turn(s: State, t: Token, w: Who)
    requires Complete(s)
  {
    match t
    case Pending(r) => if s.at[r].slot.place == Claimed then Does(s, w, PushTo(r)) else w == Worker(r)
    case Copy(k) =>
      if k == Dir then false
      else if Sent(s.jobs[Worker(k)], k) == 1 then w == Worker(k)
      else MailTurn(s, w)
    case Note(_) => MailTurn(s, w)
  }

  predicate MailTurn(s: State, w: Who)
    requires Complete(s)
  {
    if s.at[Dir].slot.place == Claimed then Does(s, w, PushTo(Dir))
    else if s.at[Dir].slot.place == Out then Does(s, w, Add(Dir, EV_NORM))
    else w == Worker(Dir)
  }

  predicate Does(s: State, w: Who, j: Job) {
    w in s.jobs && s.jobs[w] == j
  }

  /** The label is a step of what w is doing; the begin of something new is nobody's duty. */
  predicate Mine(l: Label, w: Who) {
    match l
    case Begin(_, _) => false
    case Act(v) => w == v
    case Work(r, _) => w == Worker(r)
  }

  /** The flags that mark the milestones are never taken back. */
  predicate Grown(st: Station, st': Station) {
    (st.told ==> st'.told) && (st.slot.asked ==> st'.slot.asked) && (st.slot.ended ==> st'.slot.ended)
  }

  lemma FlagsGrow(s: State, l: Label, r: Role)
    requires Enabled(s, l)
    ensures Complete(Apply(s, l)) && Grown(s.at[r], Apply(s, l).at[r])
  {
    match l
    case Begin(_, _) =>
    case Act(w) =>
    case Work(q, pick) =>
      match s.at[q].slot.place {
        case Queued =>
        case Returned(_) =>
          hide Settle;
          SettleGrows(s.at[q].slot, s.at[q].slot.place.ret);
        case Running(_) =>
          if EndSeen(s.at[q].slot) {
            EndGrows(s, q, pick, r);
          } else {
            HandlerGrows(s, q, pick, r);
          }
      }
  }

  lemma SettleGrows(sl: Slot, ret: nat)
    ensures Settle(sl, ret).asked == sl.asked && Settle(sl, ret).ended == sl.ended
  {
  }

  lemma FreedGrows(s: State, r: Role)
    requires Complete(s)
    ensures Complete(Freed(s)) && Grown(s.at[r], Freed(s).at[r])
  {
  }

  lemma EndGrows(s: State, q: Role, pick: Pick, r: Role)
    requires Complete(s) && Enabled(s, Work(q, pick)) && EndSeen(s.at[q].slot)
    ensures Complete(EndStep(s, q, pick)) && Grown(s.at[r], EndStep(s, q, pick).at[r])
  {
    hide EndSeen, StopOf, Enabled, Freed;
    if q == Dir {
      FreedGrows(s, r);
    } else if q != r {
      assert EndStep(s, q, pick).at[r] == s.at[r];
    }
  }

  lemma HandlerGrows(s: State, q: Role, pick: Pick, r: Role)
    requires Complete(s) && Enabled(s, Work(q, pick)) && s.at[q].slot.place.Running?
    ensures Complete(HandlerStep(s, q, pick)) && Grown(s.at[r], HandlerStep(s, q, pick).at[r])
  {
    hide Enabled, DealCmd;
    if q == Dir && s.at[Dir].stage.Hand? {
      CmdEffect(s, pick);
    }
  }

  lemma SameStage(s: State, s': State)
    requires Complete(s) && Complete(s') && forall r: Role :: Grown(s.at[r], s'.at[r])
    ensures Ahead(s') <= Ahead(s)
    ensures Ahead(s') == Ahead(s) ==> TokenOf(s') == TokenOf(s) && s'.at[Dir].slot.ended == s.at[Dir].slot.ended
  {
    assert Grown(s.at[Rd], s'.at[Rd]) && Grown(s.at[Wr], s'.at[Wr]) && Grown(s.at[Deal], s'.at[Deal]);
  }

  /** The rank of the token does not rise, and falls when the step is one of those whose turn it is. */
  ghost predicate Progress(s: State, s': State, l: Label, t: Token)
    requires Complete(s) && Complete(s') && t != Copy(Dir)
  {
    || Below(RankOf(s', t), RankOf(s, t))
    || (RankOf(s', t) == RankOf(s, t) && forall w :: Turn(s, t, w) ==> Turn(s', t, w) && !Mine(l, w))
  }

  lemma BeginProgress(s: State, p: nat, job: Job, t: Token)
    requires Inv(s) && Enabled(s, Begin(p, job)) && Stands(s, t)
    ensures Progress(s, Apply(s, Begin(p, job)), Begin(p, job), t)
  {
    hide Inv, PendingRank, CopyRank, MailRank, Sent, Copies, EndPending, InMail;
  }

  // The steps of jobs. A step of a thread outside the workers of the token changes no rank but that of
  // a task it claims or pushes.

  /** A worker with a job is the director in the middle of its queue, or has told its end. */
  lemma BusyWorker(s: State, r: Role)
    requires Inv(s) && s.jobs[Worker(r)] != Nothing
    ensures if r == Dir then s.at[r].slot.place.Running? && !EndSeen(s.at[r].slot) && s.at[r].stage == Drained
            else s.at[r].told
  {
    hide StationInv, SlotInv, LogInv, TokenInv, MailInv, StationsInv, JobsInv, PushersInv, FreedInv, EndSeen;
    At(s, r, Worker(r));
    Parts(r, s.at[r]);
  }

  // Ranks of unchanged and of busier tasks.

  predicate SameShape(st: Station, st': Station) {
    st'.slot.place == st.slot.place && st'.stage == st.stage && st'.que == st.que
  }

  lemma PendingJob(st: Station, st': Station, j: Job, j': Job)
    requires SameShape(st, st') && (j' == j || (JobWork(j') < JobWork(j) && st.slot.place.Running?))
    ensures PendingRank(st', j') == PendingRank(st, j) || Below(PendingRank(st', j'), PendingRank(st, j))
    ensures JobWork(j') < JobWork(j) && !EndSeen(st.slot) && st.stage != Start ==>
              Below(PendingRank(st', j'), PendingRank(st, j))
  {
  }

  lemma MailJob(d: Station, d': Station, jd: Job, jd': Job, m: Msg)
    requires SameShape(d, d')
    requires jd' == jd || (JobWork(jd') < JobWork(jd) && d.slot.place.Running? && d.stage == Drained)
    ensures if jd' == jd then MailRank(d', jd', m) == MailRank(d, jd, m)
            else Below(MailRank(d', jd', m), MailRank(d, jd, m))
  {
    hide Index;
  }

  lemma CopyJob(jk: Job, jk': Job, d: Station, d': Station, jd: Job, jd': Job, k: Role)
    requires k != Dir && SameShape(d, d') && Asking(jd, k) == Asking(jd', k)
    requires Sent(jk', k) == Sent(jk, k) || Sent(jk', k) == 0
    requires jd' == jd || (JobWork(jd') < JobWork(jd) && d.slot.place.Running? && d.stage == Drained)
    ensures CopyRank(jk', d', jd', k) == CopyRank(jk, d, jd, k)
            || Below(CopyRank(jk', d', jd', k), CopyRank(jk, d, jd, k))
    ensures Sent(jk', k) < Sent(jk, k) || (jd' != jd && Sent(jk, k) == 0 && Asking(jd, k) == 0) ==>
              Below(CopyRank(jk', d', jd', k), CopyRank(jk, d, jd, k))
  {
    MailJob(d, d', jd, jd', StopOf(k));
    MailLow(d', jd', StopOf(k));
    hide MailRank, StopOf, After;
  }

  lemma MailLow(d: Station, jd: Job, m: Msg)
    ensures 4 <= MailRank(d, jd, m).phase < 12 && MailRank(d, jd, m).stage == 0
  {
  }

  /** The task whose place the rank of the token depends on. */
  function Holder(t: Token): Role {
    if t.Pending? then t.role else Dir
  }

  /** A step of a job that leaves the token's task as it is. */
  lemma JobProgress(s: State, s': State, w: Who, t: Token)
    requires Inv(s) && Enabled(s, Act(w)) && Complete(s') && Stands(s, t) && Stands(s', t)
    requires SameShape(s.at[Holder(t)], s'.at[Holder(t)]) && s'.at[Holder(t)].owner == s.at[Holder(t)].owner
    requires w in s'.jobs && s'.jobs == s.jobs[w := s'.jobs[w]]
    requires JobWork(s'.jobs[w]) < JobWork(s.jobs[w]) && !s'.jobs[w].EndOf? && !s'.jobs[w].Put?
    requires s.jobs[w] != PushTo(Holder(t)) && (t.Copy? ==> s.jobs[w] != EndOf(After(t.role)))
    requires !t.Pending? && s.jobs[w] == Add(Dir, EV_NORM) ==> s.at[Dir].slot.place != Out
    ensures Progress(s, s', Act(w), t)
  {
    hide Inv, PendingRank, CopyRank, MailRank, Held, EndSeen;
    if w.Worker? {
      BusyWorker(s, w.role);
    }
    match t
    case Pending(r) =>
      PendingJob(s.at[r], s'.at[r], s.jobs[Worker(r)], s'.jobs[Worker(r)]);
    case Copy(k) =>
      CopyJob(s.jobs[Worker(k)], s'.jobs[Worker(k)], s.at[Dir], s'.at[Dir], s.jobs[Worker(Dir)], s'.jobs[Worker(Dir)], k);
    case Note(m) =>
      MailJob(s.at[Dir], s'.at[Dir], s.jobs[Worker(Dir)], s'.jobs[Worker(Dir)], m);
  }

  /** The end of a task that was asked for keeps the task claimed, queued or running; the director that
      has a STOP message in its hands, or in its own queue, is running. */
  lemma HolderIsIn(s: State, t: Token)
    requires Inv(s) && Stands(s, t)
    ensures t.Pending? ==> s.at[t.role].slot.place != Out && SlotInv(s.at[t.role].slot)
    ensures !t.Pending? ==>
              && SlotInv(s.at[Dir].slot) && StageInv(Dir, s.at[Dir]) && PlainInv(Dir, s.at[Dir])
              && WorkOk(s, Dir) && MailOk(s, Dir) && !s.at[Dir].slot.ended && !EndSeen(s.at[Dir].slot)
  {
    hide StationInv, LogInv, TokenInv, MailInv, StationsInv, JobsInv, PushersInv, FreedInv, Copies, StageInv, PlainInv,
         MailOk, WorkOk;
    At(s, Holder(t), Worker(Dir));
    Parts(Holder(t), s.at[Holder(t)]);
  }

  lemma PlacedProgress(s: State, w: Who, t: Token)
    requires Inv(s) && Enabled(s, Act(w)) && Stands(s, t) && Stands(JobStep(s, w), t)
    requires s.jobs[w] == PushTo(Holder(t))
    ensures Progress(s, JobStep(s, w), Act(w), t)
  {
    hide Inv, Held, Index, SlotInv, MailOk, PlainInv, PendingRank;
    HolderIsIn(s, t);
    At(s, Holder(t), w);
    var st := s.at[Holder(t)];
    assert st.slot.place == Claimed;
    if t.Pending? {
      hide CopyRank, MailRank;
      PushedRank(st, s.jobs[Worker(t.role)], JobStep(s, w).jobs[Worker(t.role)]);
    } else {
      PlainDirector(s.at[Dir]);
    }
  }

  lemma PushedRank(st: Station, j: Job, j': Job)
    requires st.slot.place == Claimed
    ensures Below(PendingRank(st.(slot := Pushed(st.slot)), j'), PendingRank(st, j))
  {
  }

  lemma PlainDirector(d: Station)
    requires StageInv(Dir, d) && PlainInv(Dir, d) && !d.slot.place.Running?
    ensures d.que == [] && d.stage == Rest
  {
  }

  lemma ClaimProgress(s: State, w: Who, t: Token)
    requires Inv(s) && Enabled(s, Act(w)) && Stands(s, t) && Stands(JobStep(s, w), t)
    requires (s.jobs[w].Add? || s.jobs[w].EndOf?) && s.jobs[w].role == Holder(t)
    requires s.at[Holder(t)].slot.place == Out
    ensures Progress(s, JobStep(s, w), Act(w), t)
  {
    hide Inv, Held, Index, SlotInv, TokenOk, ClaimOk, MailOk, PlainInv, Hit, HitEnd, Wins, EndWins;
    HolderIsIn(s, t);
    At(s, Dir, w);
    PlainDirector(s.at[Dir]);
    OpenDirector(s.at[Dir], s.jobs[w]);
    if w.Worker? {
      BusyWorker(s, w.role);
    }
  }

  /** Any checkin of the idle director wins. */
  lemma OpenDirector(d: Station, j: Job)
    requires SlotInv(d.slot) && PlainInv(Dir, d) && d.slot.place == Out && !d.slot.ended
    ensures forall ev: nat :: Wins(d.slot.word, ev) && Hit(d.slot, ev).place == Claimed
    ensures EndWins(d.slot.word) && HitEnd(d.slot).place == Claimed
  {
  }

  lemma ActProgress(s: State, s': State, w: Who, t: Token)
    requires Inv(s) && Enabled(s, Act(w)) && s' == JobStep(s, w) && Complete(s') && Stands(s, t) && Stands(s', t)
    ensures Progress(s, s', Act(w), t)
  {
    var j, r := s.jobs[w], s.jobs[w].role;
    hide Inv, Held, SlotInv, MailOk, Progress, PlainInv, StageInv, WorkOk, JobStep, Stands;
    HolderIsIn(s, t);
    if j == PushTo(Holder(t)) {
      PlacedProgress(s, w, t);
    } else if !j.Put? && !j.PushTo? && r == Holder(t) && s.at[r].slot.place == Out {
      ClaimProgress(s, w, t);
    } else {
      NotAsking(s, w, t);
      JobShape(s, w, t);
      JobProgress(s, s', w, t);
    }
  }

  /** The step that asks for the next end is not one that leaves the copy where it stands. */
  lemma NotAsking(s: State, w: Who, t: Token)
    requires Inv(s) && Enabled(s, Act(w)) && Complete(JobStep(s, w)) && Stands(s, t) && Stands(JobStep(s, w), t)
    ensures t.Copy? ==> s.jobs[w] != EndOf(After(t.role))
  {
    hide Inv, SlotInv, HitEnd, EndWins, Held;
    if t.Copy? && s.jobs[w] == EndOf(After(t.role)) {
      At(s, Dir, w);
      SlotKeepsHeld(s.at[Dir], JobStep(s, w).at[Dir], t.role);
    }
  }

  lemma JobShape(s: State, w: Who, t: Token)
    requires Inv(s) && Enabled(s, Act(w)) && s.jobs[w] != PushTo(Holder(t))
    requires s.jobs[w].Add? || s.jobs[w].EndOf? ==> s.jobs[w].role != Holder(t) || s.at[Holder(t)].slot.place != Out
    ensures var s', h := JobStep(s, w), Holder(t);
      && SameShape(s.at[h], s'.at[h]) && s'.at[h].owner == s.at[h].owner
      && w in s'.jobs && s'.jobs == s.jobs[w := s'.jobs[w]]
      && JobWork(s'.jobs[w]) < JobWork(s.jobs[w]) && !s'.jobs[w].EndOf? && !s'.jobs[w].Put?
  {
    hide Inv, StationInv, SlotInv, WorkOk, ClaimOk, PusherOk, MailOk, TokenOk, Hit, HitEnd, Wins, EndWins, SameShape;
    At(s, s.jobs[w].role, w);
    if s.jobs[w].Add? || s.jobs[w].EndOf? {
      CheckinShape(s, w);
    }
    ShapeIsSame(s.at[Holder(t)], JobStep(s, w).at[Holder(t)]);
  }

  lemma ShapeIsSame(st: Station, st': Station)
    ensures st'.slot.place == st.slot.place && st'.stage == st.stage && st'.que == st.que ==> SameShape(st, st')
  {
  }

  lemma CheckinShape(s: State, w: Who)
    requires Inv(s) && Enabled(s, Act(w)) && (s.jobs[w].Add? || s.jobs[w].EndOf?)
    requires SlotInv(s.at[s.jobs[w].role].slot) && JobOk(w, s.jobs[w])
    ensures var st, st' := s.at[s.jobs[w].role], JobStep(s, w).at[s.jobs[w].role];
      st.slot.place != Out ==> SameShape(st, st') && st'.owner == st.owner
  {
    hide Inv, SlotInv, Wins, EndWins;
    var r := s.jobs[w].role;
    var move := if s.jobs[w].Add? then MHit(s.jobs[w].ev) else MHitEnd;
    assert CanMove(s.at[r].slot, move);
    MoveEffect(s.at[r].slot, move);
  }

  // The steps of workers.

  /** The worker of a task that does not hold the token. */
  lemma OtherWorkProgress(s: State, s': State, q: Role, pick: Pick, t: Token)
    requires Inv(s) && Enabled(s, Work(q, pick)) && s' == WorkStep(s, q, pick) && Complete(s')
    requires Stands(s, t) && Stands(s', t) && q != Holder(t)
    ensures Progress(s, s', Work(q, pick), t)
  {
    hide Inv, PendingRank, CopyRank, WorkStep, Stands;
    OtherWorkEffect(s, s', q, pick, t);
    assert forall w, j: Job :: Does(s, w, j) && j != Nothing ==> Does(s', w, j) && !Mine(Work(q, pick), w);
  }

  lemma OtherWorkEffect(s: State, s': State, q: Role, pick: Pick, t: Token)
    requires Inv(s) && Enabled(s, Work(q, pick)) && s' == WorkStep(s, q, pick) && Complete(s')
    requires Stands(s, t) && Stands(s', t) && q != Holder(t)
    ensures s'.at[Holder(t)] == s.at[Holder(t)] && s'.jobs == s.jobs[Worker(q) := s'.jobs[Worker(q)]]
    ensures s'.jobs[Worker(Holder(t))] == s.jobs[Worker(Holder(t))]
    ensures t.Copy? ==> s'.jobs[Worker(t.role)] == s.jobs[Worker(t.role)]
  {
    hide Inv, SlotInv, Copies, DealCmd, Freed, Settle, HistoryInv, PlainInv, StopOf;
    At(s, q, Worker(q));
    Parts(q, s.at[q]);
    if q == Dir && EndSeen(s.at[Dir].slot) {
      AllTold(s);
    } else if q == Dir && s.at[Dir].slot.place.Running? && s.at[Dir].stage.Hand? {
      CmdEffect(s, pick);
    }
  }

  lemma PendingWorkProgress(s: State, s': State, r: Role, pick: Pick)
    requires Inv(s) && Enabled(s, Work(r, pick)) && s' == WorkStep(s, r, pick) && Complete(s')
    requires Stands(s, Pending(r)) && Stands(s', Pending(r))
    ensures Progress(s, s', Work(r, pick), Pending(r))
  {
    hide Inv, SlotInv, Settle, EndStep, HandlerStep;
    var st := s.at[r];
    HolderIsIn(s, Pending(r));
    match st.slot.place
    case Returned(ret) =>
      SettleEffect(st.slot);
    case Queued =>
      AskedIsSeen(st.slot);
    case Running(_) =>
      At(s, r, Worker(r));
      Parts(r, st);
      if EndSeen(st.slot) {
        PendingEndProgress(s, s', r, pick);
      } else {
        PendingRunProgress(s, s', r, pick);
      }
    case _ =>
  }

  lemma AskedIsSeen(sl: Slot)
    requires SlotInv(sl) && sl.asked && sl.place == Queued
    ensures EndSeen(Lock(sl))
  {
  }

  lemma PendingEndProgress(s: State, s': State, r: Role, pick: Pick)
    requires Enabled(s, Work(r, pick)) && EndSeen(s.at[r].slot) && s' == EndStep(s, r, pick) && Complete(s')
    requires StageInv(r, s.at[r]) && Stands(s, Pending(r)) && Stands(s', Pending(r))
    ensures Below(RankOf(s', Pending(r)), RankOf(s, Pending(r)))
  {
    hide Freed, Busy;
    if r == Dir {
      FreedEnds(s);
    }
  }

  lemma FreedEnds(s: State)
    requires Complete(s)
    ensures Complete(Freed(s)) && Freed(s).at[Dir].slot.ended
  {
  }

  lemma PendingRunProgress(s: State, s': State, r: Role, pick: Pick)
    requires Enabled(s, Work(r, pick)) && s.at[r].slot.place.Running? && s' == HandlerStep(s, r, pick) && Complete(s')
    requires StageInv(r, s.at[r]) && !EndSeen(s.at[r].slot)
    ensures Below(RankOf(s', Pending(r)), RankOf(s, Pending(r)))
  {
    if r == Dir && s.at[r].stage.Hand? {
      hide DealCmd;
      CmdEffect(s, pick);
    } else {
      hide DealCmd, JobWork, Enabled;
    }
  }

  // The director that has a message under way.

  lemma SpliceRank(d: Station, jd: Job, m: Msg)
    requires InMail(d, m) && d.stage == Start && d.slot.place.Running? && d.que == []
    ensures Below(MailRank(Spliced(d).(stage := Drained), jd, m), MailRank(d, jd, m))
  {
    hide Index;
  }

  lemma TakeRank(d: Station, jd: Job, m: Msg)
    requires InMail(d, m) && d.stage == Drained && d.slot.place.Running? && d.que != []
    ensures Below(MailRank(Written(d, 1).(stage := Hand(d.que[0])), jd, m), MailRank(d, jd, m))
  {
    assert d.que == [d.que[0]] + d.que[1..];
  }

  lemma ReturnRank(d: Station, jd: Job, m: Msg)
    requires InMail(d, m) && d.stage == Drained && d.slot.place.Running? && d.que == []
    ensures Below(MailRank(d.(slot := CallTask(d.slot, EV_NORM), stage := Rest), jd, m), MailRank(d, jd, m))
  {
  }

  /** The director goes on from another message. */
  lemma CmdRank(d: Station, jd': Job, m: Msg)
    requires InMail(d, m) && d.stage.Hand? && d.stage.msg != m && d.slot.place.Running?
    requires jd'.EndOf? || jd' == Nothing
    ensures Below(MailRank(d.(stage := Drained), jd', m), MailRank(d, Nothing, m))
  {
    hide Index;
  }

  /** A step of the director's handler brings a message of his nearer to his hands. */
  lemma MailRunProgress(s: State, s': State, pick: Pick, m: Msg)
    requires Complete(s) && Complete(s') && Enabled(s, Work(Dir, pick)) && s.at[Dir].slot.place.Running?
    requires s' == HandlerStep(s, Dir, pick)
    requires StageInv(Dir, s.at[Dir]) && PlainInv(Dir, s.at[Dir]) && WorkOk(s, Dir) && !EndSeen(s.at[Dir].slot)
    requires InMail(s.at[Dir], m) && s.at[Dir].stage != Hand(m)
    ensures Below(MailRank(s'.at[Dir], s'.jobs[Worker(Dir)], m), MailRank(s.at[Dir], s.jobs[Worker(Dir)], m))
  {
    hide MailRank, DealCmd, Written, InMail;
    var d, jd := s.at[Dir], s.jobs[Worker(Dir)];
    if d.stage == Start {
      SpliceRank(d, jd, m);
    } else if d.stage.Hand? {
      CmdEffect(s, pick);
      CmdRank(d, s'.jobs[Worker(Dir)], m);
    } else if d.que != [] {
      TakeRank(d, jd, m);
    } else {
      ReturnRank(d, jd, m);
    }
  }

  lemma CopyRunProgress(s: State, s': State, pick: Pick, k: Role)
    requires Complete(s) && Complete(s') && Enabled(s, Work(Dir, pick)) && s.at[Dir].slot.place.Running?
    requires s' == HandlerStep(s, Dir, pick) && k != Dir
    requires StageInv(Dir, s.at[Dir]) && PlainInv(Dir, s.at[Dir]) && WorkOk(s, Dir) && !EndSeen(s.at[Dir].slot)
    requires Sent(s.jobs[Worker(k)], k) == 0 && Asking(s.jobs[Worker(Dir)], k) == 0 && Held(s.at[Dir], k) == 1
    ensures Below(RankOf(s', Copy(k)), RankOf(s, Copy(k)))
  {
    hide MailRank, DealCmd, Written;
    var d, m := s.at[Dir], StopOf(k);
    assert InMail(d, m);
    MailLow(d, s.jobs[Worker(Dir)], m);
    if d.stage.Hand? {
      CmdEffect(s, pick);
    }
    if d.stage == Hand(m) {
      assert MailRank(d, s.jobs[Worker(Dir)], m).phase >= 4;
    } else {
      MailRunProgress(s, s', pick, m);
    }
  }

  lemma CopyWorkProgress(s: State, s': State, pick: Pick, k: Role)
    requires Inv(s) && Enabled(s, Work(Dir, pick)) && s' == WorkStep(s, Dir, pick) && Complete(s')
    requires Stands(s, Copy(k)) && Stands(s', Copy(k))
    ensures Progress(s, s', Work(Dir, pick), Copy(k))
  {
    hide Inv, SlotInv, Settle, HandlerStep, Index, Held, SameShape;
    var d := s.at[Dir];
    HolderIsIn(s, Copy(k));
    if Sent(s.jobs[Worker(k)], k) == 1 {
      SenderWaits(s, s', pick, k);
    } else if d.slot.place.Running? {
      CopyRunProgress(s, s', pick, k);
    } else {
      PlainDirector(d);
      if d.slot.place.Returned? {
        SettleEffect(d.slot);
      }
    }
  }

  lemma NoteWorkProgress(s: State, s': State, pick: Pick, m: Msg)
    requires Inv(s) && Enabled(s, Work(Dir, pick)) && s' == WorkStep(s, Dir, pick) && Complete(s')
    requires Stands(s, Note(m)) && Stands(s', Note(m)) && s.at[Dir].stage != Hand(m)
    ensures Progress(s, s', Work(Dir, pick), Note(m))
  {
    hide Inv, SlotInv, Settle, HandlerStep, Index, SameShape;
    var d := s.at[Dir];
    HolderIsIn(s, Note(m));
    if d.slot.place.Running? {
      MailRunProgress(s, s', pick, m);
    } else {
      PlainDirector(d);
      if d.slot.place.Returned? {
        SettleEffect(d.slot);
      }
    }
  }

  /** While the sender holds the message the director's steps do not matter. */
  lemma SenderWaits(s: State, s': State, pick: Pick, k: Role)
    requires Complete(s) && Complete(s') && Enabled(s, Work(Dir, pick)) && s' == WorkStep(s, Dir, pick)
    requires k != Dir && Sent(s.jobs[Worker(k)], k) == 1
    ensures RankOf(s', Copy(k)) == RankOf(s, Copy(k))
    ensures forall w :: Turn(s, Copy(k), w) ==> Turn(s', Copy(k), w) && w != Worker(Dir)
  {
    hide Settle, DealCmd, StopOf, Index;
    if s.at[Dir].slot.place.Running? && s.at[Dir].stage.Hand? {
      CmdEffect(s, pick);
    }
  }

  /** No step raises the rank of a token that stands, and the steps of those whose turn it is lower it. A note
      has arrived when the director goes on from it. */
  lemma StepProgress(s: State, l: Label, t: Token)
    requires Inv(s) && Enabled(s, l) && Stands(s, t) && Complete(Apply(s, l)) && Stands(Apply(s, l), t)
    requires t.Note? && l.Work? && l.role == Dir ==> s.at[Dir].stage != Hand(t.msg)
    ensures Progress(s, Apply(s, l), l, t)
  {
    hide Inv, Progress;
    match l
    case Begin(p, job) => BeginProgress(s, p, job, t);
    case Act(w) => ActProgress(s, Apply(s, l), w, t);
    case Work(q, pick) =>
      if q != Holder(t) {
        OtherWorkProgress(s, Apply(s, l), q, pick, t);
      } else if t.Pending? {
        PendingWorkProgress(s, Apply(s, l), q, pick);
      } else if t.Copy? {
        CopyWorkProgress(s, Apply(s, l), pick, t.role);
      } else {
        NoteWorkProgress(s, Apply(s, l), pick, t.msg);
      }
  }

  lemma RankHasNoStage(s: State, t: Token)
    requires Complete(s) && t != Copy(Dir)
    ensures RankOf(s, t).stage == 0
  {
  }
}
