/** What every run of a node keeps: the ends happen once each and in order, nothing starts after eof,
    exactly one token carries the shutdown on, and no mailbox loses or reorders a message. */
module NodeSafety {
  import opened Gate
  import opened Node

  // One task with its mailbox.

  /** procTaskEnd has not been reached yet. */
  predicate Live(st: Station) {
    !st.slot.ended && !EndSeen(st.slot)
  }

  ghost predicate StageInv(r: Role, st: Station) {
    && (st.stage != Rest <==> st.slot.place.Running?)
    && (EndSeen(st.slot) ==> st.stage in {Start, Tell, Told})
    && (st.stage in {Tell, Told} ==> EndSeen(st.slot) && r != Dir)
    && (st.stage == Drained || st.stage.Hand? ==> r != Rd)
    && (st.stage.Hand? ==> r == Deal || r == Dir)
    && (st.told <==> r != Dir && (st.stage == Told || st.slot.ended))
  }

  /** The dealer and the director never park, and they drain their queue to the end. */
  ghost predicate PlainInv(r: Role, st: Station) {
    r == Deal || r == Dir ==>
      && st.slot.word.high == {}
      && (st.slot.place.Returned? ==> st.slot.place.ret == EV_NORM)
      && (st.que != [] ==> st.stage == Drained || st.stage.Hand?)
  }

  /** What was put in is what was taken, then what was freed, then what is queued, in this order. */
  ghost predicate HistoryInv(st: Station) {
    st.pushed == st.taken + st.freed + st.que + st.tmp
  }

  ghost predicate StationInv(r: Role, st: Station) {
    SlotInv(st.slot) && StageInv(r, st) && PlainInv(r, st) && HistoryInv(st)
  }

  lemma PutKeepsStation(r: Role, st: Station, m: Msg)
    requires StationInv(r, st)
    ensures StationInv(r, st.(tmp := st.tmp + [m], pushed := st.pushed + [m]))
  {
    hide SlotInv;
  }

  lemma HitKeepsStation(r: Role, st: Station, move: Move)
    requires StationInv(r, st) && CanMove(st.slot, move) && (move.MHit? || move.MHitEnd?)
    ensures StationInv(r, st.(slot := Moved(st.slot, move)))
  {
    hide SlotInv;
    MoveKeepsInv(st.slot, move);
    MoveEffect(st.slot, move);
  }

  lemma MoveKeepsStation(r: Role, st: Station, move: Move)
    requires StationInv(r, st) && CanMove(st.slot, move) && (move.MPush? || move.MSettle?)
    ensures StationInv(r, st.(slot := Moved(st.slot, move)))
  {
    hide SlotInv;
    MoveKeepsInv(st.slot, move);
    MoveEffect(st.slot, move);
  }

  lemma LockKeepsStation(r: Role, st: Station)
    requires StationInv(r, st) && st.slot.place == Queued
    ensures StationInv(r, st.(slot := Lock(st.slot), stage := Start))
  {
    hide SlotInv;
    MoveKeepsInv(st.slot, MLock);
    assert st.slot.ended ==> st.slot.place == Out by { QueuedIsLive(st.slot); }
  }

  lemma QueuedIsLive(sl: Slot)
    requires SlotInv(sl) && sl.place != Out
    ensures !sl.ended
  {
  }

  lemma ReturnKeepsStation(r: Role, st: Station, ret: nat)
    requires StationInv(r, st) && st.slot.place.Running? && !EndSeen(st.slot) && TaskResult(ret)
    requires r == Deal || r == Dir ==> ret == EV_NORM && st.que == []
    ensures StationInv(r, st.(slot := CallTask(st.slot, ret), stage := Rest))
  {
    hide SlotInv;
    MoveKeepsInv(st.slot, MCallTask(ret));
    QueuedIsLive(st.slot);
  }

  lemma EndKeepsStation(r: Role, st: Station)
    requires StationInv(r, st) && EndSeen(st.slot) && (st.stage == Told || r == Dir)
    ensures StationInv(r, st.(slot := CallEnd(st.slot), stage := Rest))
  {
    hide SlotInv;
    MoveKeepsInv(st.slot, MCallEnd);
  }

  lemma SpliceKeepsHistory(st: Station)
    requires HistoryInv(st)
    ensures HistoryInv(Spliced(st))
  {
    assert st.taken + st.freed + st.que + st.tmp == st.taken + st.freed + (st.que + st.tmp) + [];
  }

  lemma WriteKeepsHistory(st: Station, n: nat)
    requires HistoryInv(st) && st.freed == []
    ensures HistoryInv(Written(st, n))
  {
    var k := if n < |st.que| then n else |st.que|;
    assert st.que == st.que[..k] + st.que[k..];
  }

  lemma EmptyKeepsStation(r: Role, st: Station)
    requires StationInv(r, st)
    ensures StationInv(r, Emptied(st))
  {
    hide SlotInv;
    assert st.taken + st.freed + st.que + st.tmp == st.taken + (st.freed + st.que + st.tmp) + [] + [];
  }

  // The whole node.

  /** Nothing is freed before the end of the director's task. */
  predicate FreedOk(s: State, r: Role)
    requires Complete(s)
  {
    s.at[r].freed == [] || s.at[Dir].slot.ended
  }

  /** Who may be doing what: the workers of reader, sender and dealer send their STOP message and nothing
      else, the director asks for ends. */
  predicate JobOk(w: Who, j: Job) {
    match j
    case Nothing => true
    case Put(r, m) =>
      if w.Worker? then w.role != Dir && r == Dir && m == StopOf(w.role)
      else r != Rd && (m.Stop? ==> m.status == CLOSING)
    case Add(r, ev) => UserEvent(ev) && (w.Worker? ==> w.role != Dir && r == Dir && ev == EV_NORM)
    case EndOf(_) => w == Worker(Dir)
    case PushTo(r) => w.Worker? ==> w.role == Dir || r == Dir
  }

  /** A worker that is busy sending or asking for an end stays where it is in its handler. */
  predicate WorkOk(s: State, r: Role)
    requires Complete(s)
  {
    s.jobs[Worker(r)] != Nothing ==> s.at[r].stage == if r == Dir then Drained else Told
  }

  /** A thread about to push a task is the one that claimed it, and each claimed task has one. */
  predicate PusherOk(s: State, w: Who)
    requires Complete(s) && w in s.jobs
  {
    s.jobs[w].PushTo? ==> s.at[s.jobs[w].role].slot.place == Claimed && s.at[s.jobs[w].role].owner == w
  }

  predicate ClaimOk(s: State, r: Role)
    requires Complete(s)
  {
    s.at[r].slot.place == Claimed ==> s.at[r].owner in s.jobs && s.jobs[s.at[r].owner] == PushTo(r)
  }

  function One(b: bool): nat {
    if b then 1 else 0
  }

  function Count(q: seq<Msg>, m: Msg): nat {
    multiset(q)[m]
  }

  // The copies of the STOP message of k: in the hands of the task that sends it, in the director's
  // mailbox or hands, and turned into the request for the next end.

  function Sent(j: Job, k: Role): nat
    requires k != Dir
  {
    One(j == Put(Dir, StopOf(k)))
  }

  function Held(d: Station, k: Role): nat
    requires k != Dir
  {
    Count(d.tmp, StopOf(k)) + Count(d.que, StopOf(k)) + One(d.stage == Hand(StopOf(k)))
  }

  function Asking(j: Job, k: Role): nat
    requires k != Dir
  {
    One(j == EndOf(After(k)))
  }

  function Copies(s: State, k: Role): nat
    requires Complete(s) && k != Dir
  {
    Sent(s.jobs[Worker(k)], k) + Held(s.at[Dir], k) + Asking(s.jobs[Worker(Dir)], k)
  }

  predicate TokenOk(s: State, k: Role)
    requires Complete(s) && k != Dir
  {
    && Copies(s, k) == One(s.at[k].told && !s.at[After(k)].slot.asked)
    && (s.at[After(k)].slot.asked ==> s.at[k].told)
  }

  ghost predicate AddPending(s: State, r: Role) {
    exists w :: w in s.jobs && s.jobs[w] == Add(r, EV_NORM)
  }

  /** The task will run its splice, or the pending bit will make it run again or keeps it parked. */
  predicate Waiting(st: Station) {
    st.slot.place == Claimed || st.slot.place == Queued || st.stage == Start || EV_NORM in st.slot.word.low
  }

  ghost predicate MailOk(s: State, r: Role)
    requires Complete(s)
  {
    Live(s.at[r]) && s.at[r].tmp != [] ==> AddPending(s, r) || Waiting(s.at[r])
  }

  ghost predicate LogInv(s: State)
    requires Complete(s)
  {
    && (forall r: Role :: !Live(s.at[r]) <==> Call(r, true) in s.log)
    && (forall i, j :: 0 <= i < j < |s.log| && s.log[i].end ==> s.log[j].role != s.log[i].role)
    && (forall k: Role, j :: k != Dir && 0 <= j < |s.log| && s.log[j] == Call(After(k), true) ==>
          Call(k, true) in s.log[..j])
  }

  ghost predicate StationsInv(s: State)
    requires Complete(s)
  {
    forall r: Role :: StationInv(r, s.at[r])
  }

  predicate FreedInv(s: State)
    requires Complete(s)
  {
    forall r: Role :: FreedOk(s, r)
  }

  predicate JobsInv(s: State)
    requires Complete(s)
  {
    (forall w :: w in s.jobs ==> JobOk(w, s.jobs[w])) && forall r: Role :: WorkOk(s, r)
  }

  predicate PushersInv(s: State)
    requires Complete(s)
  {
    (forall w :: w in s.jobs ==> PusherOk(s, w)) && forall r: Role :: ClaimOk(s, r)
  }

  predicate TokenInv(s: State)
    requires Complete(s)
  {
    forall k: Role :: k != Dir ==> TokenOk(s, k)
  }

  ghost predicate MailInv(s: State)
    requires Complete(s)
  {
    forall r: Role :: r != Rd ==> MailOk(s, r)
  }

  ghost predicate Inv(s: State) {
    && Complete(s)
    && StationsInv(s) && FreedInv(s) && JobsInv(s) && PushersInv(s)
    && TokenInv(s) && MailInv(s) && LogInv(s)
  }

  lemma InitInv(s: State)
    requires Init(s)
    ensures Inv(s)
  {
    FreshInv();
  }

  // What is known of one task from the invariant.

  lemma StationAt(s: State, r: Role)
    requires Complete(s) && StationsInv(s)
    ensures StationInv(r, s.at[r]) && SlotInv(s.at[r].slot)
  {
    hide SlotInv;
  }

  /** The end of a task was told only after it was asked for, and asked for only after the one before
      was told. */
  lemma Chain(s: State, r: Role)
    requires Complete(s) && StationsInv(s) && TokenInv(s)
    ensures s.at[r].told || s.at[r].slot.ended ==> s.at[r].slot.asked && !Live(s.at[r])
    ensures r != Dir && s.at[Dir].slot.asked ==> s.at[r].told
  {
    hide Copies;
    ToldIsAsked(Wr, s.at[Wr]);
    ToldIsAsked(Deal, s.at[Deal]);
    ToldIsAsked(r, s.at[r]);
    assert TokenOk(s, Rd) && TokenOk(s, Wr) && TokenOk(s, Deal);
  }

  lemma ToldIsAsked(r: Role, st: Station)
    requires StationInv(r, st)
    ensures st.told || st.slot.ended ==> st.slot.asked && !Live(st)
  {
  }

  /** A task that has not told its end has nothing freed. */
  lemma UntoldIsWhole(s: State, r: Role)
    requires Inv(s) && (if r == Dir then !s.at[r].slot.ended else !s.at[r].told)
    ensures s.at[r].freed == []
  {
    hide StationsInv, TokenInv, LogInv, MailInv, JobsInv, PushersInv, Live;
    Chain(s, r);
    Chain(s, Dir);
    assert FreedOk(s, r);
  }

  // Frames: a step changes one station and one job.

  predicate Touch(s: State, s': State, r: Role, w: Who) {
    && Complete(s) && Complete(s') && w in s.jobs && w in s'.jobs
    && s'.at == s.at[r := s'.at[r]] && s'.jobs == s.jobs[w := s'.jobs[w]]
  }

  lemma StationsKept(s: State, s': State, r: Role, w: Who)
    requires Touch(s, s', r, w) && StationsInv(s) && StationInv(r, s'.at[r])
    ensures StationsInv(s')
  {
    hide StationInv;
  }

  lemma FreedKept(s: State, s': State, r: Role, w: Who)
    requires Touch(s, s', r, w) && FreedInv(s)
    requires s'.at[r].freed == s.at[r].freed && (s.at[r].slot.ended ==> s'.at[r].slot.ended)
    ensures FreedInv(s')
  {
    forall q: Role
      ensures FreedOk(s', q)
    {
      assert FreedOk(s, q);
    }
  }

  lemma JobsKept(s: State, s': State, r: Role, w: Who)
    requires Touch(s, s', r, w) && JobsInv(s)
    requires JobOk(w, s'.jobs[w]) && WorkOk(s', r) && (w.Worker? ==> WorkOk(s', w.role))
    ensures JobsInv(s')
  {
    hide JobOk;
    forall q: Role
      ensures WorkOk(s', q)
    {
      assert WorkOk(s, q);
    }
  }

  lemma PushersKept(s: State, s': State, r: Role, w: Who)
    requires Touch(s, s', r, w) && PushersInv(s)
    requires s.jobs[w].PushTo? ==> s.jobs[w] == PushTo(r)
    requires PusherOk(s', w) && ClaimOk(s', r)
    requires s.at[r].slot.place == Claimed && s.at[r].owner != w ==>
               s'.at[r].slot.place == Claimed && s'.at[r].owner == s.at[r].owner
    ensures PushersInv(s')
  {
    forall v | v in s'.jobs
      ensures PusherOk(s', v)
    {
      assert v in s.jobs && PusherOk(s, v);
    }
    forall q: Role
      ensures ClaimOk(s', q)
    {
      assert ClaimOk(s, q);
      assert q != r && s.at[q].slot.place == Claimed ==> PusherOk(s, s.at[q].owner);
    }
  }

  lemma TokensKept(s: State, s': State, r: Role, w: Who)
    requires Touch(s, s', r, w) && TokenInv(s)
    requires s'.at[r].told == s.at[r].told && s'.at[r].slot.asked == s.at[r].slot.asked
    requires forall k: Role :: k != Dir ==> Copies(s', k) == Copies(s, k)
    ensures TokenInv(s')
  {
    hide Copies;
    forall k: Role | k != Dir
      ensures TokenOk(s', k)
    {
      assert TokenOk(s, k);
    }
  }

  /** The step neither sends nor takes a STOP message. */
  lemma CopiesKept(s: State, s': State, r: Role, w: Who)
    requires Touch(s, s', r, w)
    requires r == Dir ==> forall k: Role :: k != Dir ==> Held(s'.at[r], k) == Held(s.at[r], k)
    requires w.Worker? && w.role != Dir ==> Sent(s'.jobs[w], w.role) == Sent(s.jobs[w], w.role)
    requires w == Worker(Dir) ==> forall k: Role :: k != Dir ==> Asking(s'.jobs[w], k) == Asking(s.jobs[w], k)
    ensures forall k: Role :: k != Dir ==> Copies(s', k) == Copies(s, k)
  {
    hide Held, Sent, Asking;
  }

  lemma MailKept(s: State, s': State, r: Role, w: Who)
    requires Touch(s, s', r, w) && MailInv(s)
    requires s.jobs[w].Add? ==> s.jobs[w].role == r
    requires r != Rd ==> MailOk(s', r)
    ensures MailInv(s')
  {
    hide Live, Waiting;
    forall q: Role | q != Rd && q != r
      ensures MailOk(s', q)
    {
      assert MailOk(s, q);
      AddKept(s, s', r, w, q);
    }
  }

  lemma AddKept(s: State, s': State, r: Role, w: Who, q: Role)
    requires Touch(s, s', r, w) && s.jobs[w] != Add(q, EV_NORM)
    ensures AddPending(s, q) ==> AddPending(s', q)
  {
    if AddPending(s, q) {
      var v :| v in s.jobs && s.jobs[v] == Add(q, EV_NORM);
      assert s'.jobs[v] == Add(q, EV_NORM);
    }
  }

  /** A step that is not a checkin and puts nothing in the mailbox of r. */
  lemma MailAtKept(s: State, s': State, r: Role, w: Who)
    requires Touch(s, s', r, w) && MailOk(s, r) && !s.jobs[w].Add?
    requires Live(s'.at[r]) && s'.at[r].tmp != [] ==>
               Live(s.at[r]) && s.at[r].tmp != [] && (Waiting(s.at[r]) ==> Waiting(s'.at[r]))
    ensures MailOk(s', r)
  {
    hide Live, Waiting;
    AddKept(s, s', r, w, r);
  }

  lemma LogKept(s: State, s': State, r: Role, w: Who)
    requires Touch(s, s', r, w) && LogInv(s) && s'.log == s.log
    requires Live(s'.at[r]) <==> Live(s.at[r])
    ensures LogInv(s')
  {
    hide Live;
  }
}
