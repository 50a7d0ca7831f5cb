/** Every step of a node keeps the invariant of module NodeSafety. */
module NodeSteps {
  import opened Gate
  import opened Node
  import opened NodeSafety

  /** The parts of the invariant, put together again after a step of w on the task r. */
  lemma Together(s: State, s': State, r: Role, w: Who)
    requires Inv(s) && Touch(s, s', r, w)
    requires StationInv(r, s'.at[r])
    requires s'.at[r].freed == s.at[r].freed && (s.at[r].slot.ended ==> s'.at[r].slot.ended)
    requires JobOk(w, s'.jobs[w]) && WorkOk(s', r) && (w.Worker? ==> WorkOk(s', w.role))
    requires s.jobs[w].PushTo? ==> s.jobs[w] == PushTo(r)
    requires PusherOk(s', w) && ClaimOk(s', r)
    requires s.at[r].slot.place == Claimed && s.at[r].owner != w ==>
               s'.at[r].slot.place == Claimed && s'.at[r].owner == s.at[r].owner
    requires TokenInv(s')
    requires s.jobs[w].Add? ==> s.jobs[w].role == r
    requires r != Rd ==> MailOk(s', r)
    requires LogInv(s')
    ensures Inv(s')
  {
    hide StationInv, StationsInv, FreedInv, JobsInv, PushersInv, TokenInv, MailInv, LogInv;
    hide JobOk, WorkOk, PusherOk, ClaimOk, MailOk;
    StationsKept(s, s', r, w);
    FreedKept(s, s', r, w);
    JobsKept(s, s', r, w);
    PushersKept(s, s', r, w);
    MailKept(s, s', r, w);
  }

  lemma At(s: State, r: Role, w: Who)
    requires Inv(s) && w in s.jobs
    ensures StationInv(r, s.at[r]) && SlotInv(s.at[r].slot) && WorkOk(s, r) && ClaimOk(s, r)
    ensures JobOk(w, s.jobs[w]) && PusherOk(s, w) && (w.Worker? ==> WorkOk(s, w.role))
    ensures r != Rd ==> MailOk(s, r)
    ensures r != Dir ==> TokenOk(s, r)
  {
    hide StationInv, SlotInv, JobOk, WorkOk, ClaimOk, PusherOk, MailOk, TokenOk, LogInv, FreedInv, StationsInv;
    StationAt(s, r);
  }

  // The steps of jobs.

  lemma BeginKeepsInv(s: State, p: nat, job: Job)
    requires Inv(s) && Enabled(s, Begin(p, job))
    ensures Inv(Apply(s, Begin(p, job)))
  {
    hide StationInv, SlotInv, LogInv, TokenInv, MailInv, Copies, StationsInv, JobsInv, PushersInv, FreedInv;
    var s', w := Apply(s, Begin(p, job)), Thread(p);
    At(s, Rd, w);
    assert s'.at == s.at[Rd := s.at[Rd]];
    CopiesKept(s, s', Rd, w);
    TokensKept(s, s', Rd, w);
    LogKept(s, s', Rd, w);
    Together(s, s', Rd, w);
  }

  lemma PutKeepsInv(s: State, w: Who)
    requires Inv(s) && Enabled(s, Act(w)) && s.jobs[w].Put?
    ensures Inv(JobStep(s, w))
  {
    hide StationInv, SlotInv, LogInv, TokenInv, MailInv, Copies, StationsInv, JobsInv, PushersInv, FreedInv, TokenOk;
    var s', r, m := JobStep(s, w), s.jobs[w].role, s.jobs[w].msg;
    At(s, r, w);
    PutKeepsStation(r, s.at[r], m);
    PutKeepsCopies(s, w);
    TokensKept(s, s', r, w);
    LogKept(s, s', r, w);
    assert s'.jobs[w] == Add(r, EV_NORM);
    Together(s, s', r, w);
  }

  lemma PutKeepsCopies(s: State, w: Who)
    requires Complete(s) && Enabled(s, Act(w)) && s.jobs[w].Put? && JobOk(w, s.jobs[w])
    ensures forall k: Role :: k != Dir ==> Copies(JobStep(s, w), k) == Copies(s, k)
  {
    forall k: Role | k != Dir
      ensures Copies(JobStep(s, w), k) == Copies(s, k)
    {
      var r, m := s.jobs[w].role, s.jobs[w].msg;
      assert Count(s.at[r].tmp + [m], StopOf(k)) == Count(s.at[r].tmp, StopOf(k)) + One(m == StopOf(k));
    }
  }

  /** addTask's checkin, and endTask's when `move` is MHitEnd. */
  lemma CheckinKeepsInv(s: State, w: Who, move: Move)
    requires Inv(s) && Enabled(s, Act(w))
    requires (s.jobs[w].Add? && move == MHit(s.jobs[w].ev)) || (s.jobs[w].EndOf? && move == MHitEnd)
    ensures Inv(JobStep(s, w))
  {
    hide StationInv, SlotInv, LogInv, TokenInv, MailInv, Copies, StationsInv, JobsInv, PushersInv, FreedInv,
         TokenOk, Waiting, Hit, HitEnd, Wins, EndWins, MailOk;
    var s', r := JobStep(s, w), s.jobs[w].role;
    At(s, r, w);
    CheckinKeepsStation(s, w, move);
    CheckinKeepsTokens(s, w);
    CheckinKeepsMail(s, w);
    LogKept(s, s', r, w);
    Together(s, s', r, w);
  }

  lemma CheckinKeepsStation(s: State, w: Who, move: Move)
    requires Complete(s) && Enabled(s, Act(w))
    requires (s.jobs[w].Add? && move == MHit(s.jobs[w].ev)) || (s.jobs[w].EndOf? && move == MHitEnd)
    requires JobOk(w, s.jobs[w]) && StationInv(s.jobs[w].role, s.at[s.jobs[w].role])
    ensures var r, s' := s.jobs[w].role, JobStep(s, w);
      && StationInv(r, s'.at[r])
      && (Live(s'.at[r]) <==> Live(s.at[r])) && s'.at[r].slot.ended == s.at[r].slot.ended
      && (if s'.at[r].slot.place != s.at[r].slot.place
          then s.at[r].slot.place == Out && s'.at[r].slot.place == Claimed && s'.jobs[w] == PushTo(r) && s'.at[r].owner == w
          else s'.jobs[w] == Nothing && s'.at[r].owner == s.at[r].owner)
  {
    hide StationInv, SlotInv;
    var r := s.jobs[w].role;
    var st := s.at[r];
    assert SlotInv(st.slot) && HistoryInv(st) by { Parts(r, st); }
    MoveEffect(st.slot, move);
    HitKeepsStation(r, st, move);
    var st' := st.(slot := Moved(st.slot, move));
    OwnerKeepsStation(r, st', if st'.slot.place != st.slot.place then w else st.owner);
  }

  lemma Parts(r: Role, st: Station)
    requires StationInv(r, st)
    ensures SlotInv(st.slot) && StageInv(r, st) && PlainInv(r, st) && HistoryInv(st)
  {
  }

  lemma OwnerKeepsStation(r: Role, st: Station, w: Who)
    requires StationInv(r, st)
    ensures StationInv(r, st.(owner := w))
  {
    hide SlotInv;
  }

  lemma CheckinKeepsTokens(s: State, w: Who)
    requires Inv(s) && Enabled(s, Act(w)) && (s.jobs[w].Add? || s.jobs[w].EndOf?)
    ensures TokenInv(JobStep(s, w))
  {
    hide StationInv, SlotInv, LogInv, MailInv, StationsInv, JobsInv, PushersInv, FreedInv, Wins, EndWins, Held;
    var s', r := JobStep(s, w), s.jobs[w].role;
    At(s, r, w);
    forall k: Role | k != Dir
      ensures TokenOk(s', k)
    {
      assert TokenOk(s, k);
      assert Held(s'.at[Dir], k) == Held(s.at[Dir], k) by { SlotKeepsHeld(s.at[Dir], s'.at[Dir], k); }
    }
  }

  lemma SlotKeepsHeld(d: Station, d': Station, k: Role)
    requires d'.tmp == d.tmp && d'.que == d.que && k != Dir
    requires d'.stage == Hand(StopOf(k)) <==> d.stage == Hand(StopOf(k))
    ensures Held(d', k) == Held(d, k)
  {
  }

  lemma CheckinKeepsMail(s: State, w: Who)
    requires Inv(s) && Enabled(s, Act(w)) && (s.jobs[w].Add? || s.jobs[w].EndOf?)
    ensures s.jobs[w].role != Rd ==> MailOk(JobStep(s, w), s.jobs[w].role)
  {
    hide StationInv, SlotInv, LogInv, MailInv, StationsInv, JobsInv, PushersInv, FreedInv, TokenInv, Wins, EndWins;
    var s', r := JobStep(s, w), s.jobs[w].role;
    At(s, r, w);
    if r != Rd && s.jobs[w] != Add(r, EV_NORM) {
      assert s'.jobs == s.jobs[w := s'.jobs[w]];
      AddKept(s, s', r, w, r);
      assert EV_NORM in FULL;
    }
  }

  lemma PushKeepsInv(s: State, w: Who)
    requires Inv(s) && Enabled(s, Act(w)) && s.jobs[w].PushTo?
    ensures Inv(JobStep(s, w))
  {
    hide StationInv, SlotInv, LogInv, TokenInv, MailInv, Copies, StationsInv, JobsInv, PushersInv, FreedInv, TokenOk;
    var s', r := JobStep(s, w), s.jobs[w].role;
    At(s, r, w);
    MoveKeepsStation(r, s.at[r], MPush);
    CopiesKept(s, s', r, w) by {
      forall k: Role | k != Dir ensures Held(s'.at[r], k) == Held(s.at[r], k) { SlotKeepsHeld(s.at[r], s'.at[r], k); }
    }
    TokensKept(s, s', r, w);
    LogKept(s, s', r, w);
    Together(s, s', r, w);
  }

  // The steps of workers.

  lemma SettleKeepsInv(s: State, r: Role, pick: Pick)
    requires Inv(s) && Enabled(s, Work(r, pick)) && s.at[r].slot.place.Returned?
    ensures Inv(WorkStep(s, r, pick))
  {
    hide StationInv, SlotInv, LogInv, TokenInv, MailInv, Copies, StationsInv, JobsInv, PushersInv, FreedInv, TokenOk,
         Settle;
    var s', w := WorkStep(s, r, pick), Worker(r);
    At(s, r, w);
    assert s'.jobs == s.jobs[w := s'.jobs[w]];
    Parts(r, s.at[r]);
    SettleEffect(s.at[r].slot);
    MoveKeepsStation(r, s.at[r], MSettle);
    CopiesKept(s, s', r, w) by {
      forall k: Role | k != Dir ensures Held(s'.at[r], k) == Held(s.at[r], k) { SlotKeepsHeld(s.at[r], s'.at[r], k); }
    }
    TokensKept(s, s', r, w);
    LogKept(s, s', r, w);
    if r != Rd {
      MailAtKept(s, s', r, w);
    }
    Together(s, s', r, w);
  }

  lemma SettleEffect(sl: Slot)
    requires SlotInv(sl) && sl.place.Returned?
    ensures var sl' := Settle(sl, sl.place.ret);
      && (sl'.place == Out || sl'.place == Queued) && sl'.asked == sl.asked && sl'.ended == sl.ended && !sl.ended
      && (EV_NORM in sl.word.low ==> EV_NORM in sl'.word.low)
  {
  }

  lemma LockKeepsInv(s: State, r: Role, pick: Pick)
    requires Inv(s) && Enabled(s, Work(r, pick)) && s.at[r].slot.place == Queued
    ensures Inv(WorkStep(s, r, pick))
  {
    hide StationInv, SlotInv, LogInv, TokenInv, MailInv, Copies, StationsInv, JobsInv, PushersInv, FreedInv, TokenOk;
    var s', w := WorkStep(s, r, pick), Worker(r);
    At(s, r, w);
    assert s'.jobs == s.jobs[w := s'.jobs[w]];
    Parts(r, s.at[r]);
    LockKeepsStation(r, s.at[r]);
    CopiesKept(s, s', r, w) by {
      forall k: Role | k != Dir ensures Held(s'.at[r], k) == Held(s.at[r], k) { SlotKeepsHeld(s.at[r], s'.at[r], k); }
    }
    TokensKept(s, s', r, w);
    LockKeepsLog(s, r, pick);
    Together(s, s', r, w);
  }

  lemma LockKeepsLog(s: State, r: Role, pick: Pick)
    requires Inv(s) && Enabled(s, Work(r, pick)) && s.at[r].slot.place == Queued
    ensures LogInv(WorkStep(s, r, pick))
  {
    hide StationInv, SlotInv, LogInv, MailInv, StationsInv, JobsInv, PushersInv, FreedInv, TokenInv, Live;
    var s' := WorkStep(s, r, pick);
    StationAt(s, r);
    LockLive(s.at[r]);
    if EV_END in s.at[r].slot.word.low && r != Rd {
      AskedAfterTold(s, r);
    }
    LogGrows(s, s', Call(r, EV_END in s.at[r].slot.word.low));
  }

  lemma LockLive(st: Station)
    requires SlotInv(st.slot) && st.slot.place == Queued
    ensures Live(st)
    ensures Live(st.(slot := Lock(st.slot), stage := Start)) <==> EV_END !in st.slot.word.low
    ensures EV_END in st.slot.word.low ==> st.slot.asked
  {
  }

  lemma AskedAfterTold(s: State, r: Role)
    requires Inv(s) && r != Rd && s.at[r].slot.asked
    ensures !Live(s.at[Before(r)])
  {
    hide StationInv, SlotInv, LogInv, MailInv, StationsInv, JobsInv, PushersInv, FreedInv, TokenInv, Live, Copies;
    assert After(Before(r)) == r;
    Chain(s, Before(r));
    assert TokenOk(s, Before(r)) by { TokenAt(s, Before(r)); }
  }

  lemma TokenAt(s: State, k: Role)
    requires Complete(s) && TokenInv(s) && k != Dir
    ensures TokenOk(s, k)
  {
    hide TokenOk;
  }

  lemma LogGrows(s: State, s': State, c: Call)
    requires Complete(s) && Complete(s') && LogInv(s) && s'.log == s.log + [c] && Live(s.at[c.role])
    requires forall q: Role :: Live(s'.at[q]) <==> Live(s.at[q]) && c != Call(q, true)
    requires c.end && c.role != Rd ==> !Live(s.at[Before(c.role)])
    ensures LogInv(s')
  {
    hide Live;
    var n := |s.log|;
    assert s'.log[..n] == s.log;
    forall i | 0 <= i < n && s.log[i].end
      ensures s.log[i].role != c.role
    {
      var e := s.log[i];
      assert e == Call(e.role, true) && e in s.log;
    }
    forall k: Role, j | k != Dir && 0 <= j < |s'.log| && s'.log[j] == Call(After(k), true)
      ensures Call(k, true) in s'.log[..j]
    {
      if j < n {
        assert s'.log[..j] == s.log[..j];
      } else {
        assert Before(After(k)) == k;
      }
    }
  }

  function Before(r: Role): Role
    requires r != Rd
  {
    match r
    case Wr => Rd
    case Deal => Wr
    case Dir => Deal
  }

  /** A step of the worker of r between two points of its handler: neither the slot nor the history flags
      change, and no STOP message is sent or taken. */
  lemma InsideKeepsInv(s: State, s': State, r: Role)
    requires Inv(s) && Touch(s, s', r, Worker(r)) && s'.log == s.log
    requires s.jobs[Worker(r)] == Nothing && s'.jobs == s.jobs
    requires s.at[r].slot.place.Running? && s'.at[r].slot == s.at[r].slot
    requires s'.at[r].told == s.at[r].told && s'.at[r].freed == s.at[r].freed
    requires StationInv(r, s'.at[r])
    requires forall k: Role :: r == Dir && k != Dir ==> Held(s'.at[r], k) == Held(s.at[r], k)
    requires Live(s.at[r]) && s'.at[r].tmp != [] ==> s'.at[r].tmp == s.at[r].tmp && s.at[r].stage != Start
    ensures Inv(s')
  {
    hide StationInv, SlotInv, LogInv, TokenInv, MailInv, Copies, StationsInv, JobsInv, PushersInv, FreedInv, TokenOk;
    var w := Worker(r);
    At(s, r, w);
    CopiesKept(s, s', r, w);
    TokensKept(s, s', r, w);
    LogKept(s, s', r, w);
    if r != Rd {
      MailAtKept(s, s', r, w);
    }
    Together(s, s', r, w);
  }

  // The steps of procTaskEnd.

  lemma EndStartKeepsInv(s: State, r: Role, pick: Pick)
    requires Inv(s) && Enabled(s, Work(r, pick)) && EndSeen(s.at[r].slot) && r != Dir && s.at[r].stage == Start
    ensures Inv(WorkStep(s, r, pick))
  {
    hide SlotInv, LogInv, TokenInv, MailInv, Copies, StationsInv, JobsInv, PushersInv, FreedInv, TokenOk, Held;
    var s', st := WorkStep(s, r, pick), s.at[r];
    At(s, r, Worker(r));
    QueuedIsLive(st.slot);
    if r == Wr && pick.yes {
      UntoldIsWhole(s, r);
      SpliceKeepsHistory(st);
      WriteKeepsHistory(Spliced(st), pick.n);
    }
    assert s'.jobs == s.jobs[Worker(r) := s'.jobs[Worker(r)]];
    InsideKeepsInv(s, s', r);
  }

  lemma TellKeepsInv(s: State, r: Role, pick: Pick)
    requires Inv(s) && Enabled(s, Work(r, pick)) && EndSeen(s.at[r].slot) && r != Dir && s.at[r].stage == Tell
    ensures Inv(WorkStep(s, r, pick))
  {
    hide SlotInv, LogInv, TokenInv, MailInv, StationsInv, JobsInv, PushersInv, FreedInv, Held;
    var s', w := WorkStep(s, r, pick), Worker(r);
    At(s, r, w);
    QueuedIsLive(s.at[r].slot);
    forall k: Role | k != Dir
      ensures TokenOk(s', k)
    {
      TokenAt(s, k);
    }
    assert TokenInv(s') by { TokensTogether(s'); }
    LogKept(s, s', r, w);
    Together(s, s', r, w);
  }

  lemma TokensTogether(s: State)
    requires Complete(s) && forall k: Role :: k != Dir ==> TokenOk(s, k)
    ensures TokenInv(s)
  {
    hide TokenOk;
  }

  lemma EndDoneKeepsInv(s: State, r: Role, pick: Pick)
    requires Inv(s) && Enabled(s, Work(r, pick)) && EndSeen(s.at[r].slot) && r != Dir && s.at[r].stage == Told
    ensures Inv(WorkStep(s, r, pick))
  {
    hide SlotInv, LogInv, TokenInv, MailInv, Copies, StationsInv, JobsInv, PushersInv, FreedInv, TokenOk, Held;
    var s', w := WorkStep(s, r, pick), Worker(r);
    At(s, r, w);
    EndKeepsStation(r, s.at[r]);
    assert s'.jobs == s.jobs[w := s'.jobs[w]];
    CopiesKept(s, s', r, w);
    TokensKept(s, s', r, w);
    LogKept(s, s', r, w);
    Together(s, s', r, w);
  }

  // The steps of procTask.

  lemma ReadKeepsInv(s: State, r: Role, pick: Pick)
    requires Inv(s) && Enabled(s, Work(r, pick)) && s.at[r].slot.place.Running? && !EndSeen(s.at[r].slot)
    requires r == Rd || (s.at[r].stage != Start && (r == Wr || (s.at[r].que == [] && !s.at[r].stage.Hand?)))
    ensures Inv(WorkStep(s, r, pick))
  {
    hide StationInv, SlotInv, LogInv, TokenInv, MailInv, Copies, StationsInv, JobsInv, PushersInv, FreedInv, TokenOk,
         Held;
    var s', w, st := WorkStep(s, r, pick), Worker(r), s.at[r];
    At(s, r, w);
    Parts(r, st);
    QueuedIsLive(st.slot);
    if r == Wr {
      UntoldIsWhole(s, r);
      WriteKeepsStation(st, pick.n);
      ReturnKeepsStation(r, Written(st, pick.n), pick.ret);
    } else {
      ReturnKeepsStation(r, st, if r == Rd then pick.ret else EV_NORM);
    }
    assert s'.jobs == s.jobs[w := s'.jobs[w]];
    CopiesKept(s, s', r, w) by {
      forall k: Role | r == Dir && k != Dir
        ensures Held(s'.at[r], k) == Held(s.at[r], k)
      {
        SlotKeepsHeld(s.at[r], s'.at[r], k);
      }
    }
    TokensKept(s, s', r, w);
    LogKept(s, s', r, w);
    if r != Rd {
      MailAtKept(s, s', r, w);
    }
    Together(s, s', r, w);
  }

  lemma WriteKeepsStation(st: Station, n: nat)
    requires StationInv(Wr, st) && st.freed == []
    ensures StationInv(Wr, Written(st, n))
  {
    hide SlotInv;
    WriteKeepsHistory(st, n);
  }

  lemma SpliceKeepsInv(s: State, r: Role, pick: Pick)
    requires Inv(s) && Enabled(s, Work(r, pick)) && s.at[r].slot.place.Running? && !EndSeen(s.at[r].slot)
    requires r != Rd && s.at[r].stage == Start
    ensures Inv(WorkStep(s, r, pick))
  {
    hide SlotInv, LogInv, TokenInv, MailInv, Copies, StationsInv, JobsInv, PushersInv, FreedInv, TokenOk;
    var s', st := WorkStep(s, r, pick), s.at[r];
    At(s, r, Worker(r));
    QueuedIsLive(st.slot);
    SpliceKeepsHistory(st);
    assert s'.jobs == s.jobs[Worker(r) := s'.jobs[Worker(r)]];
    forall k: Role | k != Dir
      ensures Held(s'.at[r], k) == Held(st, k)
    {
      assert Count(st.que + st.tmp, StopOf(k)) == Count(st.que, StopOf(k)) + Count(st.tmp, StopOf(k));
    }
    InsideKeepsInv(s, s', r);
  }

  lemma TakeKeepsInv(s: State, r: Role, pick: Pick)
    requires Inv(s) && Enabled(s, Work(r, pick)) && s.at[r].slot.place.Running? && !EndSeen(s.at[r].slot)
    requires (r == Deal || r == Dir) && s.at[r].stage != Start && !s.at[r].stage.Hand? && s.at[r].que != []
    ensures Inv(WorkStep(s, r, pick))
  {
    hide StationInv, SlotInv, LogInv, TokenInv, MailInv, Copies, StationsInv, JobsInv, PushersInv, FreedInv, TokenOk,
         Held;
    var s', st := WorkStep(s, r, pick), s.at[r];
    At(s, r, Worker(r));
    Parts(r, st);
    QueuedIsLive(st.slot);
    UntoldIsWhole(s, r);
    TakeKeepsStation(r, st);
    assert s'.jobs == s.jobs[Worker(r) := s'.jobs[Worker(r)]];
    InsideKeepsInv(s, s', r);
  }

  lemma TakeKeepsStation(r: Role, st: Station)
    requires StationInv(r, st) && st.slot.place.Running? && !EndSeen(st.slot) && st.freed == []
    requires (r == Deal || r == Dir) && !st.stage.Hand? && st.que != []
    ensures var st' := Written(st, 1).(stage := Hand(st.que[0]));
      StationInv(r, st') && forall k: Role :: k != Dir ==> Held(st', k) == Held(st, k)
  {
    hide SlotInv;
    QueuedIsLive(st.slot);
    WriteKeepsHistory(st, 1);
    assert st.que == [st.que[0]] + st.que[1..];
  }

  lemma HandKeepsInv(s: State, pick: Pick)
    requires Inv(s) && Enabled(s, Work(Deal, pick)) && s.at[Deal].slot.place.Running? && !EndSeen(s.at[Deal].slot)
    requires s.at[Deal].stage.Hand?
    ensures Inv(WorkStep(s, Deal, pick))
  {
    hide SlotInv, LogInv, TokenInv, MailInv, Copies, StationsInv, JobsInv, PushersInv, FreedInv, TokenOk, Held;
    var s' := WorkStep(s, Deal, pick);
    At(s, Deal, Worker(Deal));
    assert s'.jobs == s.jobs[Worker(Deal) := s'.jobs[Worker(Deal)]];
    InsideKeepsInv(s, s', Deal);
  }

  lemma CmdKeepsInv(s: State, pick: Pick)
    requires Inv(s) && Enabled(s, Work(Dir, pick)) && s.at[Dir].slot.place.Running? && !EndSeen(s.at[Dir].slot)
    requires s.at[Dir].stage.Hand?
    ensures Inv(WorkStep(s, Dir, pick))
  {
    hide StationInv, SlotInv, LogInv, TokenInv, MailInv, StationsInv, JobsInv, PushersInv, FreedInv, TokenOk, DealCmd;
    var s', w := WorkStep(s, Dir, pick), Worker(Dir);
    At(s, Dir, w);
    CmdEffect(s, pick);
    CmdKeepsStation(s.at[Dir]);
    CmdKeepsTokens(s, s', pick);
    LogKept(s, s', Dir, w);
    MailAtKept(s, s', Dir, w);
    Together(s, s', Dir, w);
  }

  lemma CmdEffect(s: State, pick: Pick)
    requires Complete(s) && s.at[Dir].stage.Hand?
    ensures var s', msg := DealCmd(s, s.at[Dir].stage.msg, pick), s.at[Dir].stage.msg;
      && Touch(s, s', Dir, Worker(Dir)) && s'.log == s.log
      && s'.at == s.at[Dir := s.at[Dir].(stage := Drained)]
      && (s'.jobs[Worker(Dir)].EndOf? || s'.jobs[Worker(Dir)] == s.jobs[Worker(Dir)])
      && (s.jobs[Worker(Dir)] == Nothing ==>
            forall k: Role :: k != Dir ==> One(msg == StopOf(k)) == Asking(s'.jobs[Worker(Dir)], k))
  {
    var s' := DealCmd(s, s.at[Dir].stage.msg, pick);
    assert s'.jobs == s.jobs[Worker(Dir) := s'.jobs[Worker(Dir)]];
  }

  lemma CmdKeepsTokens(s: State, s': State, pick: Pick)
    requires Inv(s) && s.at[Dir].stage.Hand? && s.jobs[Worker(Dir)] == Nothing
    requires Complete(s') && s' == DealCmd(s, s.at[Dir].stage.msg, pick)
    ensures TokenInv(s')
  {
    hide StationInv, SlotInv, LogInv, MailInv, StationsInv, JobsInv, PushersInv, FreedInv;
    hide DealCmd, Copies, Held, Asking;
    CmdEffect(s, pick);
    forall k: Role | k != Dir
      ensures TokenOk(s', k)
    {
      assert TokenOk(s, k);
      CmdKeepsCopies(s, s', k);
    }
  }

  /** The copy in the director's hands becomes the request for the next end. */
  lemma CmdKeepsCopies(s: State, s': State, k: Role)
    requires Touch(s, s', Dir, Worker(Dir)) && k != Dir
    requires s.at[Dir].stage.Hand? && s'.at[Dir] == s.at[Dir].(stage := Drained)
    requires s.jobs[Worker(Dir)] == Nothing
    requires One(s.at[Dir].stage.msg == StopOf(k)) == Asking(s'.jobs[Worker(Dir)], k)
    ensures Copies(s', k) == Copies(s, k)
  {
    hide Held, Sent;
    HandlingHeld(s.at[Dir], k);
  }

  lemma HandlingHeld(d: Station, k: Role)
    requires d.stage.Hand? && k != Dir
    ensures Held(d, k) == Held(d.(stage := Drained), k) + One(d.stage.msg == StopOf(k))
  {
  }

  lemma CmdKeepsStation(st: Station)
    requires StationInv(Dir, st) && st.stage.Hand?
    ensures StationInv(Dir, st.(stage := Drained))
  {
    hide SlotInv;
  }

  // The end of the director's task.

  lemma FreedKeepsInv(s: State, pick: Pick)
    requires Inv(s) && Enabled(s, Work(Dir, pick)) && EndSeen(s.at[Dir].slot)
    ensures Inv(WorkStep(s, Dir, pick))
  {
    hide StationInv, SlotInv, LogInv, MailInv, StationsInv, JobsInv, PushersInv, FreedInv, TokenInv;
    var s' := WorkStep(s, Dir, pick);
    AllTold(s);
    FreedKeepsStations(s, s');
    FreedKeepsJobs(s, s');
    FreedKeepsTokens(s, s');
    FreedKeepsLog(s, s');
    assert MailInv(s') by {
      forall r: Role | r != Rd ensures MailOk(s', r) {}
      MailTogether(s');
    }
  }

  lemma MailTogether(s: State)
    requires Complete(s) && forall r: Role :: r != Rd ==> MailOk(s, r)
    ensures MailInv(s)
  {
    hide MailOk;
  }

  lemma AllTold(s: State)
    requires Inv(s) && EndSeen(s.at[Dir].slot)
    ensures forall r: Role :: !Live(s.at[r]) && s.at[r].slot.asked && (r != Dir ==> s.at[r].told)
  {
    hide StationInv, LogInv, MailInv, JobsInv, PushersInv, FreedInv, TokenInv, StationsInv;
    StationAt(s, Dir);
    forall r: Role
      ensures !Live(s.at[r]) && s.at[r].slot.asked && (r != Dir ==> s.at[r].told)
    {
      Chain(s, r);
    }
  }

  lemma FreedKeepsStations(s: State, s': State)
    requires Inv(s) && EndSeen(s.at[Dir].slot) && s' == Freed(s)
    ensures StationsInv(s') && FreedInv(s')
  {
    hide StationInv, SlotInv, LogInv, MailInv, JobsInv, PushersInv, TokenInv;
    EmptyKeepsStation(Rd, s.at[Rd]);
    EmptyKeepsStation(Wr, s.at[Wr]);
    EmptyKeepsStation(Deal, s.at[Deal]);
    EmptyKeepsStation(Dir, s.at[Dir]);
    EndKeepsStation(Dir, Emptied(s.at[Dir]));
  }

  lemma FreedKeepsJobs(s: State, s': State)
    requires Inv(s) && EndSeen(s.at[Dir].slot) && s' == Freed(s)
    ensures JobsInv(s') && PushersInv(s')
  {
    hide SlotInv, LogInv, MailInv, TokenInv, FreedInv;
    StationAt(s, Dir);
    assert s.jobs[Worker(Dir)] == Nothing by { assert WorkOk(s, Dir); }
    forall r: Role
      ensures WorkOk(s', r) && ClaimOk(s', r)
    {
      assert WorkOk(s, r) && ClaimOk(s, r);
    }
    forall w | w in s'.jobs
      ensures PusherOk(s', w)
    {
      assert PusherOk(s, w);
    }
  }

  lemma FreedKeepsTokens(s: State, s': State)
    requires Inv(s) && EndSeen(s.at[Dir].slot) && s' == Freed(s)
    requires forall r: Role :: s.at[r].slot.asked && (r != Dir ==> s.at[r].told)
    ensures TokenInv(s')
  {
    hide StationInv, SlotInv, LogInv, MailInv, JobsInv, PushersInv, FreedInv, StationsInv;
    forall k: Role | k != Dir
      ensures TokenOk(s', k)
    {
      assert TokenOk(s, k);
    }
  }

  lemma FreedKeepsLog(s: State, s': State)
    requires Complete(s) && LogInv(s) && s' == Freed(s)
    requires forall r: Role :: !Live(s.at[r])
    ensures LogInv(s')
  {
    hide Live, Freed;
    FreedIsOver(s, Dir);
    forall r: Role
      ensures !Live(s'.at[r])
    {
      FreedIsOver(s, r);
    }
  }

  lemma FreedIsOver(s: State, r: Role)
    requires Complete(s) && !Live(s.at[r])
    ensures Complete(Freed(s)) && Freed(s).log == s.log
    ensures !Live(Freed(s).at[r])
  {
  }

  // What a step touches.

  /** The end of the director's task, the only step that touches every station. */
  predicate IsEof(s: State, l: Label)
    requires Enabled(s, l)
  {
    l.Work? && l.role == Dir && s.at[Dir].slot.place.Running? && EndSeen(s.at[Dir].slot)
  }

  function TaskOf(s: State, l: Label): Role
    requires Enabled(s, l)
  {
    match l
    case Begin(_, _) => Rd
    case Act(w) => s.jobs[w].role
    case Work(r, _) => r
  }

  function ActorOf(l: Label): Who {
    match l
    case Begin(p, _) => Thread(p)
    case Act(w) => w
    case Work(r, _) => Worker(r)
  }

  /** Any other step touches one station and one job. */
  lemma StepTouches(s: State, l: Label)
    requires Enabled(s, l) && !IsEof(s, l)
    ensures Touch(s, Apply(s, l), TaskOf(s, l), ActorOf(l))
  {
    var s', r, w := Apply(s, l), TaskOf(s, l), ActorOf(l);
    match l
    case Begin(_, _) => assert s'.at == s.at[Rd := s.at[Rd]];
    case Act(_) => JobTouches(s, w);
    case Work(_, pick) => WorkTouches(s, r, pick);
  }

  lemma JobTouches(s: State, w: Who)
    requires Enabled(s, Act(w))
    ensures Touch(s, JobStep(s, w), s.jobs[w].role, w)
  {
    hide Hit, HitEnd, Wins, EndWins;
  }

  lemma WorkTouches(s: State, r: Role, pick: Pick)
    requires Enabled(s, Work(r, pick)) && !IsEof(s, Work(r, pick))
    ensures Touch(s, WorkStep(s, r, pick), r, Worker(r))
  {
    hide Settle, DealCmd, Freed;
    var s' := WorkStep(s, r, pick);
    if s.at[r].slot.place.Running? && !EndSeen(s.at[r].slot) && r == Dir && s.at[r].stage.Hand? {
      CmdEffect(s, pick);
    } else {
      assert s'.jobs == s.jobs[Worker(r) := s'.jobs[Worker(r)]];
    }
  }

  // A node is four gates.

  datatype Effect = Stays | Makes(move: Move)

  /** The move of the gate of r that a step makes, if any. */
  function MoveOf(s: State, l: Label, r: Role): Effect
    requires Enabled(s, l)
  {
    if TaskOf(s, l) != r then Stays
    else match l
    case Begin(_, _) => Stays
    case Act(w) =>
      (match s.jobs[w]
       case Put(_, _) => Stays
       case Add(_, ev) => Makes(MHit(ev))
       case EndOf(_) => Makes(MHitEnd)
       case PushTo(_) => Makes(MPush))
    case Work(_, pick) =>
      match s.at[r].slot.place
      case Queued => Makes(MLock)
      case Returned(_) => Makes(MSettle)
      case Running(_) => HandlerMove(s.at[r], r, pick)
  }

  function HandlerMove(st: Station, r: Role, pick: Pick): Effect {
    if EndSeen(st.slot) then
      if r == Dir || (st.stage != Start && st.stage != Tell) then Makes(MCallEnd) else Stays
    else if r == Rd then Makes(MCallTask(pick.ret))
    else if st.stage == Start then Stays
    else if r == Wr then Makes(MCallTask(pick.ret))
    else if st.stage.Hand? || st.que != [] then Stays
    else Makes(MCallTask(EV_NORM))
  }

  function Changed(sl: Slot, e: Effect): Slot
    requires e.Makes? ==> CanMove(sl, e.move)
  {
    if e.Makes? then Moved(sl, e.move) else sl
  }

  /** Every step of a node is one move of the gate of one task, or none; and a private queue changes only
      while the handler of its task runs, and at eof. */
  lemma NodeIsGates(s: State, l: Label, r: Role)
    requires Inv(s) && Enabled(s, l)
    ensures var s', e := Apply(s, l), MoveOf(s, l, r);
      && Complete(s') && (e.Makes? ==> CanMove(s.at[r].slot, e.move))
      && s'.at[r].slot == Changed(s.at[r].slot, e)
      && (s'.at[r].que == s.at[r].que || s.at[r].slot.place.Running? || IsEof(s, l))
  {
    hide Inv, Apply, CanMove;
    if IsEof(s, l) {
      EofIsGates(s, l, r);
    } else {
      StepTouches(s, l);
      if TaskOf(s, l) == r {
        match l
        case Begin(_, _) => assert Apply(s, l).at == s.at by { BeginKeepsTasks(s, l); }
        case Act(w) => JobIsGates(s, w);
        case Work(_, pick) => WorkIsGates(s, r, pick);
      }
    }
  }

  lemma BeginKeepsTasks(s: State, l: Label)
    requires Enabled(s, l) && l.Begin?
    ensures Apply(s, l).at == s.at
  {
  }

  lemma EofIsGates(s: State, l: Label, r: Role)
    requires Enabled(s, l) && IsEof(s, l)
    ensures var s', e := Apply(s, l), MoveOf(s, l, r);
      && Complete(s') && (e.Makes? ==> CanMove(s.at[r].slot, e.move))
      && s'.at[r].slot == Changed(s.at[r].slot, e)
  {
    hide CallEnd, EndSeen, DealCmd;
  }

  lemma JobIsGates(s: State, w: Who)
    requires Inv(s) && Enabled(s, Act(w))
    ensures var s', r, e := JobStep(s, w), s.jobs[w].role, MoveOf(s, Act(w), s.jobs[w].role);
      && Complete(s') && Apply(s, Act(w)) == s' && (e.Makes? ==> CanMove(s.at[r].slot, e.move))
      && s'.at[r].slot == Changed(s.at[r].slot, e) && s'.at[r].que == s.at[r].que
  {
    hide Inv, StationInv, SlotInv, Hit, HitEnd, Wins, EndWins, WorkOk, MailOk, TokenOk;
    At(s, s.jobs[w].role, w);
  }

  lemma WorkIsGates(s: State, r: Role, pick: Pick)
    requires Enabled(s, Work(r, pick)) && !IsEof(s, Work(r, pick))
    ensures var s', e := WorkStep(s, r, pick), MoveOf(s, Work(r, pick), r);
      && Complete(s') && Apply(s, Work(r, pick)) == s' && (e.Makes? ==> CanMove(s.at[r].slot, e.move))
      && s'.at[r].slot == Changed(s.at[r].slot, e)
      && (s'.at[r].que == s.at[r].que || s.at[r].slot.place.Running?)
  {
    hide Lock, Settle, CallTask, CallEnd, EndSeen, Freed, DealCmd, Handled, Ending, HandlerMove, Changed;
    var st := s.at[r];
    if st.slot.place.Running? {
      HandlerChanges(st, r, pick);
      if !EndSeen(st.slot) && r == Dir && st.stage.Hand? {
        CmdEffect(s, pick);
      }
    } else {
      RestChanges(st);
    }
  }

  lemma RestChanges(st: Station)
    requires st.slot.place.Queued? || st.slot.place.Returned?
    ensures st.slot.place.Queued? ==> CanMove(st.slot, MLock) && Changed(st.slot, Makes(MLock)) == Lock(st.slot)
    ensures st.slot.place.Returned? ==>
              CanMove(st.slot, MSettle) && Changed(st.slot, Makes(MSettle)) == Settle(st.slot, st.slot.place.ret)
  {
    hide Lock, Settle;
  }

  lemma HandlerChanges(st: Station, r: Role, pick: Pick)
    requires st.slot.place.Running? && TaskResult(pick.ret)
    ensures var e := HandlerMove(st, r, pick);
      && (e.Makes? ==> CanMove(st.slot, e.move))
      && (EndSeen(st.slot) && r != Dir ==> Ending(st, r, pick).slot == Changed(st.slot, e))
      && (!EndSeen(st.slot) ==>
            (if r == Dir && st.stage.Hand? then st else Handled(st, r, pick)).slot == Changed(st.slot, e))
  {
    hide EndSeen, CallTask, CallEnd;
  }

  // All steps.

  lemma StepKeepsInv(s: State, l: Label)
    requires Inv(s) && Enabled(s, l)
    ensures Inv(Apply(s, l))
  {
    hide Inv;
    match l
    case Begin(p, job) => BeginKeepsInv(s, p, job);
    case Act(w) =>
      match s.jobs[w] {
        case Put(_, _) => PutKeepsInv(s, w);
        case Add(_, ev) => CheckinKeepsInv(s, w, MHit(ev));
        case EndOf(_) => CheckinKeepsInv(s, w, MHitEnd);
        case PushTo(_) => PushKeepsInv(s, w);
      }
    case Work(r, pick) =>
      match s.at[r].slot.place {
        case Queued => LockKeepsInv(s, r, pick);
        case Returned(_) => SettleKeepsInv(s, r, pick);
        case Running(_) =>
          if EndSeen(s.at[r].slot) {
            EndKeepsInv(s, r, pick);
          } else {
            HandlerKeepsInv(s, r, pick);
          }
      }
  }

  lemma EndKeepsInv(s: State, r: Role, pick: Pick)
    requires Inv(s) && Enabled(s, Work(r, pick)) && EndSeen(s.at[r].slot)
    ensures Inv(WorkStep(s, r, pick))
  {
    hide WorkStep;
    if r == Dir {
      FreedKeepsInv(s, pick);
    } else if s.at[r].stage == Start {
      EndStartKeepsInv(s, r, pick);
    } else if s.at[r].stage == Tell {
      TellKeepsInv(s, r, pick);
    } else {
      StationAt(s, r);
      EndDoneKeepsInv(s, r, pick);
    }
  }

  lemma HandlerKeepsInv(s: State, r: Role, pick: Pick)
    requires Inv(s) && Enabled(s, Work(r, pick)) && s.at[r].slot.place.Running? && !EndSeen(s.at[r].slot)
    ensures Inv(WorkStep(s, r, pick))
  {
    hide WorkStep, Inv;
    if r != Rd && s.at[r].stage == Start {
      SpliceKeepsInv(s, r, pick);
    } else if r == Rd || r == Wr {
      ReadKeepsInv(s, r, pick);
    } else if s.at[r].stage.Hand? {
      if r == Deal {
        HandKeepsInv(s, pick);
      } else {
        CmdKeepsInv(s, pick);
      }
    } else if s.at[r].que != [] {
      TakeKeepsInv(s, r, pick);
    } else {
      ReadKeepsInv(s, r, pick);
    }
  }

  lemma {:induction false} RunInv(states: seq<State>)
    requires IsRun(states)
    ensures Inv(states[|states| - 1])
    decreases |states|
  {
    hide Inv;
    var n := |states| - 1;
    if n == 0 {
      InitInv(states[0]);
    } else {
      RunInv(states[..n]);
      assert Next(states[n - 1], states[n]);
      var l :| Enabled(states[n - 1], l) && states[n] == Apply(states[n - 1], l);
      StepKeepsInv(states[n - 1], l);
    }
  }
}
