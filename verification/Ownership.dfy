/** Who holds each message of a node, from its creation until it is freed: the runs of module Node, with the
    buffer the reader fills, the hand-overs of reader and dealer as the steps they are, and an account of the
    messages made and freed. */
module Ownership {
  import opened Gate
  import opened Node
  import opened NodeSafety
  import opened NodeSteps
  import opened NodeRank
  import opened NodeShutdown

  /** `rcv` is m_rcv_dummy. `handed`: its message is in the dealer's queue already, and the pointer not yet NULL.
      `passed`: the dealer has queued the message in its hand for sending. `made` and `gone` count the messages
      created and freed; the ones that are not STOP messages are numbered up to `next`. */
  datatype Owned = Owned(
    node: State,
    rcv: seq<Msg>,
    handed: bool,
    passed: bool,
    made: multiset<Msg>,
    gone: multiset<Msg>,
    next: nat)

  // The calls that reader and dealer make from within their handlers.
  const READER := Thread(0)
  const DEALER := Thread(1)

  datatype Step =
    | Receive              // parseHeader
    | Forget               // m_rcv_dummy = NULL, after dispatch has returned
    | Plain(inner: Label)  // a step of the node

  predicate InTask(s: State, r: Role)
    requires Complete(s)
  {
    s.at[r].slot.place.Running? && !EndSeen(s.at[r].slot)
  }

  /** The reader dispatches what it has received, the dealer replies with what it holds, and any other thread
      pushes a message it has just made. */
  predicate MayBegin(o: Owned, p: nat, job: Job)
    requires Complete(o.node)
  {
    if Thread(p) == READER then InTask(o.node, Rd) && o.rcv != [] && !o.handed && job == Put(Deal, o.rcv[0])
    else if Thread(p) == DEALER then
      o.node.at[Deal].stage.Hand? && !o.passed && job == Put(Wr, o.node.at[Deal].stage.msg)
    else job.Put? && job.msg.Other? ==> job.msg.id == o.next
  }

  /** A handler goes on when the call it has made returned. */
  predicate InOrder(o: Owned, l: Label)
    requires Complete(o.node) && READER in o.node.jobs && DEALER in o.node.jobs
  {
    match l
    case Begin(p, job) => MayBegin(o, p, job)
    case Act(_) => true
    case Work(r, _) =>
      && (r == Rd && InTask(o.node, Rd) ==> o.node.jobs[READER] == Nothing && !o.handed)
      && (r == Deal && o.node.at[Deal].stage.Hand? ==> o.node.jobs[DEALER] == Nothing)
  }

  predicate Can(o: Owned, e: Step) {
    && Complete(o.node) && READER in o.node.jobs && DEALER in o.node.jobs
    && match e
       case Receive => InTask(o.node, Rd) && o.node.jobs[READER] == Nothing && o.rcv == []
       case Forget => o.handed && o.node.jobs[READER] == Nothing
       case Plain(l) => Enabled(o.node, l) && InOrder(o, l)
  }

  /** The messages a step creates. */
  function Born(s: State, l: Label): multiset<Msg>
    requires Enabled(s, l)
  {
    match l
    case Begin(p, job) =>
      if job.Put? && Thread(p) != READER && Thread(p) != DEALER then multiset{job.msg} else multiset{}
    case Act(_) => multiset{}
    case Work(r, _) => if r != Dir && Telling(s.at[r]) then multiset{StopOf(r)} else multiset{}
  }

  predicate Telling(st: Station) {
    EndSeen(st.slot) && st.stage == Tell
  }

  /** The messages a step frees: those sent, those handled and not passed on, and at eof all of the node. */
  function Dies(o: Owned, l: Label): multiset<Msg>
    requires Complete(o.node) && Enabled(o.node, l)
  {
    if IsEof(o.node, l) then multiset(o.rcv) + AllOf(o.node)
    else if l.Work? && o.node.at[l.role].slot.place.Running? then
      Finished(o.node.at[l.role], l.role, l.role == Deal && o.passed, l.pick)
    else multiset{}
  }

  function AllOf(s: State): multiset<Msg>
    requires Complete(s)
  {
    Queues(s.at[Rd]) + Queues(s.at[Wr]) + Queues(s.at[Deal]) + Queues(s.at[Dir])
  }

  function Queues(st: Station): multiset<Msg> {
    multiset(st.que) + multiset(st.tmp)
  }

  function Finished(st: Station, r: Role, passed: bool, pick: Pick): multiset<Msg> {
    if r == Wr then
      if EndSeen(st.slot) then
        if st.stage == Start && pick.yes then Front(st.que + st.tmp, pick.n) else multiset{}
      else if st.stage != Start then Front(st.que, pick.n) else multiset{}
    else if st.stage.Hand? && !passed then multiset{st.stage.msg}
    else multiset{}
  }

  function Front(q: seq<Msg>, n: nat): multiset<Msg> {
    multiset(q[..if n < |q| then n else |q|])
  }

  function Do(o: Owned, e: Step): Owned
    requires Can(o, e)
  {
    match e
    case Receive => o.(rcv := [Other(o.next)], made := o.made + multiset{Other(o.next)}, next := o.next + 1)
    case Forget => o.(rcv := [], handed := false)
    case Plain(l) =>
      Owned(
        Apply(o.node, l),
        if IsEof(o.node, l) then [] else o.rcv,
        o.handed || (l == Act(READER) && o.node.jobs[READER].Put?),
        (o.passed || (l == Act(DEALER) && o.node.jobs[DEALER].Put?))
          && !(l.Work? && l.role == Deal && o.node.at[Deal].stage.Hand?),
        o.made + Born(o.node, l),
        o.gone + Dies(o, l),
        if Makes1(l) then o.next + 1 else o.next)
  }

  predicate Makes1(l: Label) {
    l.Begin? && Thread(l.p) != READER && Thread(l.p) != DEALER && l.job.Put? && l.job.msg.Other?
  }

  // The places a message can be in.

  /** In a queue of the task, or in the hand of its handler unless that has passed it on. */
  function AtTask(st: Station, passed: bool, m: Msg): nat {
    Count(st.tmp, m) + Count(st.que, m) + One(st.stage == Hand(m) && !passed)
  }

  function AtRole(o: Owned, r: Role, m: Msg): nat
    requires Complete(o.node)
  {
    AtTask(o.node.at[r], r == Deal && o.passed, m)
  }

  function Received(o: Owned, m: Msg): nat {
    if o.handed then 0 else Count(o.rcv, m)
  }

  /** What the node holds. */
  function InNode(o: Owned, m: Msg): nat
    requires Complete(o.node)
  {
    AtRole(o, Rd, m) + AtRole(o, Wr, m) + AtRole(o, Deal, m) + AtRole(o, Dir, m) + Received(o, m)
  }

  predicate Carries(w: Who, j: Job, m: Msg) {
    j.Put? && j.msg == m && w != READER && w != DEALER
  }

  /** The threads about to put it into a queue. What reader and dealer push is still where they have it. */
  function Carriers(s: State, m: Msg): set<Who> {
    set w | w in s.jobs && Carries(w, s.jobs[w], m)
  }

  function Places(o: Owned, m: Msg): nat
    requires Complete(o.node)
  {
    InNode(o, m) + |Carriers(o.node, m)|
  }

  /** A call made by a handler is made from within it. */
  predicate CallsOk(o: Owned)
    requires Complete(o.node)
  {
    && READER in o.node.jobs && DEALER in o.node.jobs
    && (o.node.jobs[READER] != Nothing || o.handed ==> InTask(o.node, Rd))
    && (o.node.jobs[DEALER] != Nothing || o.passed ==> o.node.at[Deal].stage.Hand?)
    && |o.rcv| <= 1 && (o.handed ==> o.rcv != []) && (Ended(o.node) ==> o.rcv == [])
    && (o.node.jobs[READER].Put? ==> !o.handed && o.rcv != [] && o.node.jobs[READER] == Put(Deal, o.rcv[0]))
    && (o.node.jobs[DEALER].Put? ==> !o.passed && o.node.jobs[DEALER] == Put(Wr, o.node.at[Deal].stage.msg))
  }

  /** Every message made is in one place or freed, and each number was given to one message. */
  ghost predicate Account(o: Owned)
    requires Complete(o.node)
  {
    && (forall m :: Places(o, m) + o.gone[m] == o.made[m])
    && (forall id: nat :: o.made[Other(id)] == One(id < o.next))
  }

  ghost predicate OwnInv(o: Owned) {
    Complete(o.node) && Inv(o.node) && CallsOk(o) && Account(o)
  }

  ghost predicate Starts(o: Owned) {
    && Init(o.node) && READER in o.node.jobs && DEALER in o.node.jobs
    && o == Owned(o.node, [], false, false, multiset{}, multiset{}, 0)
  }

  ghost predicate Follow(o: Owned, e: Step, o': Owned) {
    Can(o, e) && o' == Do(o, e)
  }

  ghost predicate OwnNext(o: Owned, o': Owned) {
    exists e :: Follow(o, e, o')
  }

  ghost predicate OwnRun(states: seq<Owned>) {
    && states != [] && Starts(states[0])
    && forall i :: 0 < i < |states| ==> OwnNext(states[i - 1], states[i])
  }

  // Counting.

  lemma CountJoin(a: seq<Msg>, b: seq<Msg>, m: Msg)
    ensures Count(a + b, m) == Count(a, m) + Count(b, m)
  {
  }

  lemma CountFront(q: seq<Msg>, n: nat, m: Msg)
    ensures var k := if n < |q| then n else |q|; Count(q, m) == Front(q, n)[m] + Count(q[k..], m)
  {
    var k := if n < |q| then n else |q|;
    assert q == q[..k] + q[k..];
  }

  lemma CountOne(x: Msg, m: Msg)
    ensures Count([x], m) == One(x == m) && multiset{x}[m] == One(x == m)
  {
  }

  lemma CarriersKept(s: State, s': State, w: Who, m: Msg)
    requires w in s.jobs && w in s'.jobs && s'.jobs == s.jobs[w := s'.jobs[w]]
    ensures |Carriers(s', m)| + One(Carries(w, s.jobs[w], m)) == |Carriers(s, m)| + One(Carries(w, s'.jobs[w], m))
  {
    hide Carries;
    var rest := Carriers(s, m) - {w};
    assert Carriers(s, m) == if Carries(w, s.jobs[w], m) then rest + {w} else rest;
    assert Carriers(s', m) == if Carries(w, s'.jobs[w], m) then rest + {w} else rest;
  }

  // The steps of workers.

  /** A step of the handler of r moves messages within its station, or finishes with them. */
  lemma HandlerBalance(s: State, r: Role, pick: Pick, passed: bool, m: Msg)
    requires Inv(s) && Enabled(s, Work(r, pick)) && !IsEof(s, Work(r, pick)) && s.at[r].slot.place.Running?
    requires passed ==> r == Deal && s.at[r].stage.Hand?
    ensures r in WorkStep(s, r, pick).at
    ensures AtTask(WorkStep(s, r, pick).at[r], false, m) + Finished(s.at[r], r, passed, pick)[m]
         == AtTask(s.at[r], passed, m)
  {
    hide Inv, SlotInv, PlainInv, HistoryInv, Count, Freed, WorkStep;
    At(s, r, Worker(r));
    Parts(r, s.at[r]);
    if EndSeen(s.at[r].slot) {
      EndBalance(s, r, pick, m);
    } else if r != Rd && s.at[r].stage == Start {
      SpliceBalance(s, r, pick, m);
    } else if r == Wr {
      WriteBalance(s, pick, m);
    } else if s.at[r].stage.Hand? {
      HandBalance(s, r, pick, passed, m);
    } else {
      TakeBalance(s, r, pick, m);
    }
  }

  lemma EndBalance(s: State, r: Role, pick: Pick, m: Msg)
    requires Enabled(s, Work(r, pick)) && EndSeen(s.at[r].slot) && r != Dir && StageInv(r, s.at[r])
    ensures r in WorkStep(s, r, pick).at
    ensures AtTask(WorkStep(s, r, pick).at[r], false, m) + Finished(s.at[r], r, false, pick)[m]
         == AtTask(s.at[r], false, m)
  {
    hide EndSeen, CallEnd, Count, Front;
    var st := s.at[r];
    CountJoin(st.que, st.tmp, m);
    CountFront(st.que + st.tmp, pick.n, m);
    NoCount(m);
  }

  lemma NoCount(m: Msg)
    ensures Count([], m) == 0
  {
  }

  lemma SpliceBalance(s: State, r: Role, pick: Pick, m: Msg)
    requires Enabled(s, Work(r, pick)) && s.at[r].slot.place.Running? && !EndSeen(s.at[r].slot)
    requires r != Rd && s.at[r].stage == Start
    ensures r in WorkStep(s, r, pick).at
    ensures AtTask(WorkStep(s, r, pick).at[r], false, m) == AtTask(s.at[r], false, m)
    ensures Finished(s.at[r], r, false, pick) == multiset{}
  {
    hide Count, Front, EndSeen;
    CountJoin(s.at[r].que, s.at[r].tmp, m);
    NoCount(m);
  }

  lemma WriteBalance(s: State, pick: Pick, m: Msg)
    requires Enabled(s, Work(Wr, pick)) && s.at[Wr].slot.place.Running? && !EndSeen(s.at[Wr].slot)
    requires s.at[Wr].stage != Start && !s.at[Wr].stage.Hand?
    ensures Wr in WorkStep(s, Wr, pick).at
    ensures AtTask(WorkStep(s, Wr, pick).at[Wr], false, m) + Finished(s.at[Wr], Wr, false, pick)[m]
         == AtTask(s.at[Wr], false, m)
  {
    hide Count, Front, EndSeen, CallTask;
    CountFront(s.at[Wr].que, pick.n, m);
  }

  lemma HandBalance(s: State, r: Role, pick: Pick, passed: bool, m: Msg)
    requires Enabled(s, Work(r, pick)) && s.at[r].slot.place.Running? && !EndSeen(s.at[r].slot)
    requires (r == Deal || r == Dir) && s.at[r].stage.Hand? && (passed ==> r == Deal)
    ensures r in WorkStep(s, r, pick).at
    ensures AtTask(WorkStep(s, r, pick).at[r], false, m) + Finished(s.at[r], r, passed, pick)[m]
         == AtTask(s.at[r], passed, m)
  {
    hide Count, EndSeen, DealCmd;
    if r == Dir {
      CmdEffect(s, pick);
    }
  }

  lemma TakeBalance(s: State, r: Role, pick: Pick, m: Msg)
    requires Enabled(s, Work(r, pick)) && s.at[r].slot.place.Running? && !EndSeen(s.at[r].slot)
    requires r == Rd || (r != Wr && s.at[r].stage != Start)
    requires !s.at[r].stage.Hand?
    ensures r in WorkStep(s, r, pick).at
    ensures AtTask(WorkStep(s, r, pick).at[r], false, m) == AtTask(s.at[r], false, m)
    ensures Finished(s.at[r], r, false, pick) == multiset{}
  {
    hide Count, EndSeen, CallTask;
    var q := s.at[r].que;
    if r != Rd && q != [] {
      assert q == [q[0]] + q[1..];
      CountJoin([q[0]], q[1..], m);
      CountOne(q[0], m);
    }
  }

  lemma RestBalance(s: State, r: Role, pick: Pick, m: Msg)
    requires Inv(s) && Enabled(s, Work(r, pick)) && !s.at[r].slot.place.Running?
    ensures r in WorkStep(s, r, pick).at
    ensures forall passed :: AtTask(WorkStep(s, r, pick).at[r], passed, m) == AtTask(s.at[r], passed, m)
    ensures s.at[r].stage == Rest
  {
    hide Inv, SlotInv, PlainInv, HistoryInv, Count, Settle, Lock;
    At(s, r, Worker(r));
    Parts(r, s.at[r]);
  }

  /** What the worker itself puts into a queue next: the STOP message it has made, if any. */
  lemma WorkCarries(s: State, r: Role, pick: Pick, m: Msg)
    requires Inv(s) && Enabled(s, Work(r, pick)) && !IsEof(s, Work(r, pick))
    ensures Worker(r) in WorkStep(s, r, pick).jobs
    ensures One(Carries(Worker(r), WorkStep(s, r, pick).jobs[Worker(r)], m)) == Born(s, Work(r, pick))[m]
  {
    hide Inv, SlotInv, PlainInv, HistoryInv, DealCmd, Settle, EndSeen;
    At(s, r, Worker(r));
    Parts(r, s.at[r]);
    var st := s.at[r];
    if st.slot.place.Running? && !EndSeen(st.slot) && r == Dir && st.stage.Hand? {
      CmdEffect(s, pick);
    }
  }

  /** A step that touches one task changes what the node holds by what that task holds. */
  lemma OthersHold(o: Owned, o': Owned, r: Role, m: Msg)
    requires Complete(o.node) && Complete(o'.node) && o'.node.at == o.node.at[r := o'.node.at[r]]
    requires r == Deal || o'.passed == o.passed
    ensures InNode(o', m) - AtRole(o', r, m) - Received(o', m) == InNode(o, m) - AtRole(o, r, m) - Received(o, m)
  {
    hide AtTask;
  }

  lemma WorkBalance(o: Owned, r: Role, pick: Pick, m: Msg)
    requires OwnInv(o) && Can(o, Plain(Work(r, pick))) && !IsEof(o.node, Work(r, pick))
    ensures var l, o' := Work(r, pick), Do(o, Plain(Work(r, pick)));
      Complete(o'.node) && Places(o', m) + Dies(o, l)[m] == Places(o, m) + Born(o.node, l)[m]
  {
    hide Inv, Account, AtTask, Finished, WorkStep, Born, Carriers;
    var s, l, o' := o.node, Work(r, pick), Do(o, Plain(Work(r, pick)));
    StepTouches(s, l);
    WorkCarries(s, r, pick, m);
    CarriersKept(s, o'.node, Worker(r), m);
    OthersHold(o, o', r, m);
    if s.at[r].slot.place.Running? {
      HandlerBalance(s, r, pick, r == Deal && o.passed, m);
    } else {
      RestBalance(s, r, pick, m);
    }
  }

  // The steps of threads.

  lemma BeginBalance(o: Owned, p: nat, job: Job, m: Msg)
    requires OwnInv(o) && Can(o, Plain(Begin(p, job)))
    ensures var l, o' := Begin(p, job), Do(o, Plain(Begin(p, job)));
      Complete(o'.node) && Places(o', m) + Dies(o, l)[m] == Places(o, m) + Born(o.node, l)[m]
  {
    hide Inv, Account, AtTask, Carriers;
    var o' := Do(o, Plain(Begin(p, job)));
    CarriersKept(o.node, o'.node, Thread(p), m);
  }

  /** A message goes from whoever carries it into a queue. */
  lemma PutBalance(o: Owned, w: Who, m: Msg)
    requires OwnInv(o) && Can(o, Plain(Act(w))) && o.node.jobs[w].Put?
    ensures var o' := Do(o, Plain(Act(w))); Complete(o'.node) && Places(o', m) == Places(o, m)
  {
    hide Inv, Account, Carriers, AtTask, Count, JobStep, InNode, Received, OwnInv;
    var s, o' := o.node, Do(o, Plain(Act(w)));
    StepTouches(s, Act(w));
    CarriersKept(s, o'.node, w, m);
    PutEffect(s, w, m);
    PutHolds(o, o', w, m);
  }

  /** A call of reader or dealer moves a message within the node, another thread's adds one. */
  lemma PutHolds(o: Owned, o': Owned, w: Who, m: Msg)
    requires OwnInv(o) && Can(o, Plain(Act(w))) && o.node.jobs[w].Put? && o' == Do(o, Plain(Act(w)))
    requires Complete(o'.node) && o'.node.at == o.node.at[o.node.jobs[w].role := o'.node.at[o.node.jobs[w].role]]
    requires forall passed ::
               AtTask(o'.node.at[o.node.jobs[w].role], passed, m)
               == AtTask(o.node.at[o.node.jobs[w].role], passed, m) + One(o.node.jobs[w].msg == m)
    ensures InNode(o', m) == InNode(o, m) + One(Carries(w, o.node.jobs[w], m))
  {
    hide Inv, Account, AtTask, Count, JobStep;
    var r, x := o.node.jobs[w].role, o.node.jobs[w].msg;
    if w == DEALER {
      Passes(o.node.at[Deal], x, m);
    } else {
      OthersHold(o, o', r, m);
      if w == READER {
        CountRcv(o.rcv, m);
      }
    }
  }

  lemma PutEffect(s: State, w: Who, m: Msg)
    requires Enabled(s, Act(w)) && s.jobs[w].Put?
    ensures var s', r, x := JobStep(s, w), s.jobs[w].role, s.jobs[w].msg;
      && Complete(s') && w in s'.jobs && !s'.jobs[w].Put?
      && forall passed :: AtTask(s'.at[r], passed, m) == AtTask(s.at[r], passed, m) + One(x == m)
  {
    hide Count;
    var x := s.jobs[w].msg;
    CountJoin(s.at[s.jobs[w].role].tmp, [x], m);
    CountOne(x, m);
  }

  lemma Passes(st: Station, x: Msg, m: Msg)
    requires st.stage == Hand(x)
    ensures AtTask(st, true, m) + One(x == m) == AtTask(st, false, m)
  {
    hide Count;
  }

  lemma CountRcv(rcv: seq<Msg>, m: Msg)
    requires |rcv| == 1
    ensures Count(rcv, m) == One(rcv[0] == m)
  {
    assert rcv == [rcv[0]];
  }

  lemma CallBalance(o: Owned, w: Who, m: Msg)
    requires OwnInv(o) && Can(o, Plain(Act(w))) && !o.node.jobs[w].Put?
    ensures var o' := Do(o, Plain(Act(w))); Complete(o'.node) && Places(o', m) == Places(o, m)
  {
    hide Inv, Account, Carriers, AtTask, JobStep;
    var s, o' := o.node, Do(o, Plain(Act(w)));
    StepTouches(s, Act(w));
    CarriersKept(s, o'.node, w, m);
    CallEffect(s, w, m);
    OthersHold(o, o', s.jobs[w].role, m);
  }

  lemma CallEffect(s: State, w: Who, m: Msg)
    requires Enabled(s, Act(w)) && !s.jobs[w].Put?
    ensures var s', r := JobStep(s, w), s.jobs[w].role;
      && Complete(s') && w in s'.jobs && !s'.jobs[w].Put?
      && forall passed :: AtTask(s'.at[r], passed, m) == AtTask(s.at[r], passed, m)
  {
    hide Count, Hit, HitEnd, Wins, EndWins;
  }

  // Eof.

  /** At eof no call of a handler is in progress and no handler holds a message. */
  lemma NothingInHand(o: Owned)
    requires OwnInv(o) && EndSeen(o.node.at[Dir].slot)
    ensures o.node.jobs[READER] == Nothing && !o.handed && o.node.jobs[DEALER] == Nothing && !o.passed
    ensures forall r: Role :: !o.node.at[r].stage.Hand?
  {
    hide Inv, Account, SlotInv, PlainInv, HistoryInv;
    AllTold(o.node);
    At(o.node, Rd, Worker(Rd));
    if o.node.at[Rd].slot.place.Running? {
      QueuedIsLive(o.node.at[Rd].slot);
    }
    forall r: Role
      ensures !o.node.at[r].stage.Hand?
    {
      At(o.node, r, Worker(r));
      Parts(r, o.node.at[r]);
    }
  }

  lemma EofBalance(o: Owned, l: Label, m: Msg)
    requires OwnInv(o) && Can(o, Plain(l)) && IsEof(o.node, l)
    ensures var o' := Do(o, Plain(l));
      && Complete(o'.node) && InNode(o', m) == 0 && Born(o.node, l) == multiset{}
      && Places(o', m) + Dies(o, l)[m] == Places(o, m)
  {
    hide Inv, Account, Count, Carriers;
    var o' := Do(o, Plain(l));
    NothingInHand(o);
    NoCount(m);
    EofEmpties(o.node, l, Dir);
    assert Carriers(o'.node, m) == Carriers(o.node, m) by { SameCarriers(o.node, o'.node, m); }
    forall r: Role
      ensures AtRole(o', r, m) == 0 && AtRole(o, r, m) == Queues(o.node.at[r])[m]
    {
      EofEmpties(o.node, l, r);
      QueuesCount(o.node.at[r], m);
    }
    assert Received(o, m) == multiset(o.rcv)[m] by { RcvCount(o, m); }
  }

  lemma SameCarriers(s: State, s': State, m: Msg)
    requires s'.jobs == s.jobs
    ensures Carriers(s', m) == Carriers(s, m)
  {
  }

  lemma QueuesCount(st: Station, m: Msg)
    ensures Queues(st)[m] == Count(st.que, m) + Count(st.tmp, m)
  {
  }

  lemma RcvCount(o: Owned, m: Msg)
    requires !o.handed
    ensures Received(o, m) == multiset(o.rcv)[m]
  {
  }

  lemma EofEmpties(s: State, l: Label, r: Role)
    requires Enabled(s, l) && IsEof(s, l)
    ensures var s' := Apply(s, l);
      && Complete(s') && s'.jobs == s.jobs && s'.at[r].tmp == [] && s'.at[r].que == []
      && (s'.at[r].stage == Rest || s'.at[r].stage == s.at[r].stage)
  {
    hide CallEnd, EndSeen, DealCmd;
  }

  // All steps.

  lemma PlainBalance(o: Owned, l: Label, m: Msg)
    requires OwnInv(o) && Can(o, Plain(l))
    ensures var o' := Do(o, Plain(l));
      Complete(o'.node) && Places(o', m) + Dies(o, l)[m] == Places(o, m) + Born(o.node, l)[m]
  {
    hide Inv, OwnInv, Places, Apply;
    if IsEof(o.node, l) {
      EofBalance(o, l, m);
    } else {
      match l
      case Begin(p, job) => BeginBalance(o, p, job, m);
      case Act(w) =>
        if o.node.jobs[w].Put? { PutBalance(o, w, m); } else { CallBalance(o, w, m); }
      case Work(r, pick) => WorkBalance(o, r, pick, m);
    }
  }

  /** A handler goes on only by the steps of its worker. */
  lemma HandlerStays(s: State, l: Label, r: Role)
    requires Inv(s) && Enabled(s, l) && !IsEof(s, l) && !(l.Work? && l.role == r)
    ensures Complete(Apply(s, l)) && Apply(s, l).at[r].stage == s.at[r].stage
    ensures InTask(Apply(s, l), r) <==> InTask(s, r)
  {
    hide Inv, Apply, SlotInv, StageInv, PlainInv, HistoryInv;
    StepTouches(s, l);
    if TaskOf(s, l) == r {
      match l
      case Begin(_, _) => BeginKeepsTasks(s, l);
      case Act(w) => JobKeepsHandler(s, w);
    }
  }

  lemma JobKeepsHandler(s: State, w: Who)
    requires Inv(s) && Enabled(s, Act(w))
    ensures var s', r := Apply(s, Act(w)), s.jobs[w].role;
      Complete(s') && s'.at[r].stage == s.at[r].stage && (InTask(s', r) <==> InTask(s, r))
  {
    hide Inv, SlotInv, StageInv, PlainInv, HistoryInv, Wins, EndWins, MailOk, TokenOk, WorkOk;
    var r := s.jobs[w].role;
    At(s, r, w);
    if s.jobs[w].Add? {
      MoveEffect(s.at[r].slot, MHit(s.jobs[w].ev));
    } else if s.jobs[w].EndOf? {
      MoveEffect(s.at[r].slot, MHitEnd);
    }
  }

  /** The call of p, and what else a step does to it. */
  lemma CallStays(s: State, l: Label, w: Who)
    requires Enabled(s, l) && w in s.jobs && w.Thread? && !IsEof(s, l)
    ensures w in Apply(s, l).jobs
    ensures ActorOf(l) != w ==> Apply(s, l).jobs[w] == s.jobs[w]
    ensures l == Act(w) ==> !Apply(s, l).jobs[w].Put?
    ensures l.Begin? && Thread(l.p) == w ==> s.jobs[w] == Nothing && Apply(s, l).jobs[w] == l.job
  {
    hide Hit, HitEnd, Wins, EndWins, WorkStep;
    StepTouches(s, l);
  }

  lemma EndIsEof(s: State, l: Label)
    requires Inv(s) && Enabled(s, l) && !IsEof(s, l)
    ensures Ended(Apply(s, l)) ==> Ended(s)
  {
    hide Inv, Apply, SlotInv, StageInv, PlainInv, HistoryInv;
    NodeIsGates(s, l, Dir);
    At(s, Dir, Worker(Dir));
    var e := MoveOf(s, l, Dir);
    if e.Makes? {
      MoveEffect(s.at[Dir].slot, e.move);
    }
  }

  lemma CallsKept(o: Owned, l: Label)
    requires OwnInv(o) && Can(o, Plain(l)) && !IsEof(o.node, l)
    ensures var o' := Do(o, Plain(l)); Complete(o'.node) && CallsOk(o')
  {
    hide Inv, Account, Apply, Born, Dies, InTask;
    var s := o.node;
    EndIsEof(s, l);
    CallStays(s, l, READER);
    CallStays(s, l, DEALER);
    if !(l.Work? && l.role == Rd) {
      HandlerStays(s, l, Rd);
    }
    if !(l.Work? && l.role == Deal) {
      HandlerStays(s, l, Deal);
    }
  }

  lemma EofKeepsCalls(o: Owned, l: Label)
    requires OwnInv(o) && Can(o, Plain(l)) && IsEof(o.node, l)
    ensures var o' := Do(o, Plain(l)); Complete(o'.node) && CallsOk(o') && o'.rcv == []
  {
    hide Inv, Account, AtTask, InTask;
    NothingInHand(o);
    EofEmpties(o.node, l, Dir);
  }

  /** Every number goes to one message. */
  lemma NumbersKept(o: Owned, l: Label, id: nat)
    requires Can(o, Plain(l)) && o.made[Other(id)] == One(id < o.next)
    ensures var o' := Do(o, Plain(l)); o'.made[Other(id)] == One(id < o'.next)
  {
    hide Apply, Dies;
    var m := Other(id);
    match l
    case Begin(p, job) =>
      if Born(o.node, l) != multiset{} {
        assert MayBegin(o, p, job) && Born(o.node, l) == multiset{job.msg};
        CountOne(job.msg, m);
      }
    case Act(_) =>
    case Work(r, _) => assert r != Dir ==> multiset{StopOf(r)}[m] == 0;
  }

  lemma PlainKeepsOwn(o: Owned, l: Label)
    requires OwnInv(o) && Can(o, Plain(l))
    ensures OwnInv(Do(o, Plain(l)))
  {
    hide Inv, CallsOk, Places, Apply, InOrder, Enabled;
    var o' := Do(o, Plain(l));
    StepKeepsInv(o.node, l);
    if IsEof(o.node, l) {
      EofKeepsCalls(o, l);
    } else {
      CallsKept(o, l);
    }
    forall m
      ensures Places(o', m) + o'.gone[m] == o'.made[m]
    {
      PlainBalance(o, l, m);
    }
    forall id: nat
      ensures o'.made[Other(id)] == One(id < o'.next)
    {
      NumbersKept(o, l, id);
    }
  }

  lemma ReceiveKeepsOwn(o: Owned)
    requires OwnInv(o) && Can(o, Receive)
    ensures OwnInv(Do(o, Receive))
  {
    hide Inv, AtTask, Carriers, Count;
    var o' := Do(o, Receive);
    if Ended(o.node) {
      EndedIsOver(o.node, Rd);
    }
    forall m
      ensures Places(o', m) + o'.gone[m] == o'.made[m]
    {
      NoCount(m);
      CountOne(Other(o.next), m);
    }
    forall id: nat
      ensures o'.made[Other(id)] == One(id < o'.next)
    {
      CountOne(Other(o.next), Other(id));
    }
  }

  lemma ForgetKeepsOwn(o: Owned)
    requires OwnInv(o) && Can(o, Forget)
    ensures OwnInv(Do(o, Forget))
  {
    hide Inv, AtTask, Carriers, Count;
    var o' := Do(o, Forget);
    forall m
      ensures Places(o', m) + o'.gone[m] == o'.made[m]
    {
      NoCount(m);
      assert Places(o, m) + o.gone[m] == o.made[m];
    }
  }

  lemma StepKeepsOwn(o: Owned, e: Step)
    requires OwnInv(o) && Can(o, e)
    ensures OwnInv(Do(o, e))
  {
    hide OwnInv, Can, Do;
    match e
    case Receive => ReceiveKeepsOwn(o);
    case Forget => ForgetKeepsOwn(o);
    case Plain(l) => PlainKeepsOwn(o, l);
  }

  lemma StartsInv(o: Owned)
    requires Starts(o)
    ensures OwnInv(o)
  {
    hide Inv;
    InitInv(o.node);
    forall m
      ensures Places(o, m) == 0
    {
      assert Carriers(o.node, m) == {};
    }
  }

  lemma {:induction false} OwnRunInv(states: seq<Owned>)
    requires OwnRun(states)
    ensures OwnInv(states[|states| - 1])
    decreases |states|
  {
    hide OwnInv, Can, Do, Starts;
    var n := |states| - 1;
    if n == 0 {
      StartsInv(states[0]);
    } else {
      OwnRunInv(states[..n]);
      assert OwnNext(states[n - 1], states[n]);
      var e :| Follow(states[n - 1], e, states[n]);
      StepKeepsOwn(states[n - 1], e);
    }
  }

  // What holds in every run.

  /** In every run each message that was made is in exactly one place, once, or was freed, once; of the STOP
      messages there are as many as were made. */
  lemma EachInOnePlace(states: seq<Owned>)
    requires OwnRun(states)
    ensures var o := states[|states| - 1];
      && Complete(o.node)
      && (forall id: nat :: Places(o, Other(id)) + o.gone[Other(id)] == One(id < o.next))
      && (forall m :: Places(o, m) + o.gone[m] == o.made[m])
  {
    hide OwnRun, Inv, CallsOk, Places;
    OwnRunInv(states);
  }

  /** Eof frees what the node holds, once, and leaves it empty: no handler has a message in hand then, and no
      dispatch or reply is half done. */
  lemma EofFreesNode(o: Owned, l: Label, m: Msg)
    requires OwnInv(o) && Can(o, Plain(l)) && IsEof(o.node, l)
    ensures var o' := Do(o, Plain(l));
      && Complete(o'.node) && Ended(o'.node) && InNode(o', m) == 0 && o'.gone[m] == o.gone[m] + InNode(o, m)
      && !o.handed && !o.passed && (forall r: Role :: !o.node.at[r].stage.Hand?)
  {
    hide Inv, OwnInv, InNode, Dies, Carriers;
    var o' := Do(o, Plain(l));
    NothingInHand(o);
    EofBalance(o, l, m);
    EofEmpties(o.node, l, Dir);
    assert Carriers(o'.node, m) == Carriers(o.node, m) by { SameCarriers(o.node, o'.node, m); }
    EofEnds(o.node, l);
  }

  lemma EofEnds(s: State, l: Label)
    requires Enabled(s, l) && IsEof(s, l)
    ensures Ended(Apply(s, l))
  {
  }

  predicate Over(o: Owned) {
    Ended(o.node)
  }

  /** What the task of r holds at o' is what was pushed to it since o. */
  predicate HoldsSince(o: Owned, o': Owned, r: Role) {
    && Complete(o.node) && Complete(o'.node)
    && var st, st' := o.node.at[r], o'.node.at[r];
       && st.pushed <= st'.pushed && st'.tmp == st'.pushed[|st.pushed|..] && st'.que == [] && !st'.stage.Hand?
       && st'.taken == st.taken && st'.freed == st.freed
  }

  ghost predicate AllSince(o: Owned, o': Owned) {
    forall r: Role :: HoldsSince(o, o', r)
  }

  /** Eof was the step to the k-th state, and what the node holds at the end of the run was pushed since. */
  ghost predicate SinceEof(states: seq<Owned>, k: nat) {
    && 0 < k < |states| && !Over(states[k - 1]) && Over(states[k])
    && states[|states| - 1].rcv == [] && AllSince(states[k], states[|states| - 1])
  }

  /** After eof a node holds what was pushed to it after eof, and nothing else. */
  lemma FreedNodeHolds(states: seq<Owned>)
    requires OwnRun(states) && Over(states[|states| - 1])
    ensures exists k :: SinceEof(states, k)
  {
    hide SinceEof, OwnRun;
    var k := HeldSinceEof(states);
  }

  lemma {:induction false} HeldSinceEof(states: seq<Owned>) returns (k: nat)
    requires OwnRun(states) && Over(states[|states| - 1])
    ensures SinceEof(states, k)
    decreases |states|
  {
    hide OwnInv, Can, Do, Starts, Over, OwnNext, HoldsSince;
    var n := |states| - 1;
    if n == 0 {
      FreshIsLive(states[0]);
      assert false;
    }
    OwnRunInv(states[..n]);
    OwnRunInv(states);
    assert OwnNext(states[n - 1], states[n]);
    if Over(states[n - 1]) {
      k := HeldSinceEof(states[..n]);
    } else {
      k := n;
    }
    forall r: Role
      ensures HoldsSince(states[k], states[n], r)
    {
      if k < n {
        assert HoldsSince(states[k], states[n - 1], r);
        LaterHolds(states[k], states[n - 1], states[n], r);
      } else {
        EofHolds(states[n - 1], states[n], r);
      }
    }
    RcvIsGone(states[n]);
  }

  lemma FreshIsLive(o: Owned)
    requires Starts(o)
    ensures !Over(o)
  {
  }

  lemma RcvIsGone(o: Owned)
    requires OwnInv(o) && Over(o)
    ensures o.rcv == []
  {
    hide Inv, Account;
  }

  lemma LaterHolds(o: Owned, o1: Owned, o2: Owned, r: Role)
    requires OwnInv(o1) && Over(o1) && OwnNext(o1, o2) && HoldsSince(o, o1, r)
    ensures HoldsSince(o, o2, r)
  {
    hide Inv, CallsOk, Account, Apply, InOrder, Enabled, OnlyPushed;
    var e :| Follow(o1, e, o2);
    if e.Plain? {
      AfterEof(o1.node, e.inner, r);
      PushedLater(o.node.at[r], o1.node.at[r], o2.node.at[r]);
    }
  }

  lemma PushedLater(st: Station, st1: Station, st2: Station)
    requires st.pushed <= st1.pushed && st1.tmp == st1.pushed[|st.pushed|..] && OnlyPushed(st1, st2)
    ensures st.pushed <= st2.pushed && st2.tmp == st2.pushed[|st.pushed|..]
    ensures st2.que == st1.que && st2.taken == st1.taken && st2.freed == st1.freed
    ensures st2.stage in {st1.stage, Rest}
  {
  }

  lemma EofHolds(o: Owned, o': Owned, r: Role)
    requires OwnInv(o) && !Over(o) && OwnNext(o, o') && Over(o')
    ensures HoldsSince(o', o', r)
  {
    hide OwnInv, Do, Can, HoldsSince;
    var e :| Follow(o, e, o');
    StepOfNode(o, e);
    OwnHasInv(o);
    if e.Plain? {
      if !IsEof(o.node, e.inner) {
        EndIsEof(o.node, e.inner);
      }
      EofLeaves(o, e.inner, o', r);
    }
  }

  lemma StepOfNode(o: Owned, e: Step)
    requires Can(o, e)
    ensures Complete(o.node) && (e.Plain? ==> Enabled(o.node, e.inner))
    ensures Do(o, e).node == if e.Plain? then Apply(o.node, e.inner) else o.node
  {
    hide Apply, Born, Dies;
  }

  lemma EofLeaves(o: Owned, l: Label, o': Owned, r: Role)
    requires OwnInv(o) && Complete(o.node) && Enabled(o.node, l) && IsEof(o.node, l) && o'.node == Apply(o.node, l)
    ensures HoldsSince(o', o', r)
  {
    hide Inv, OwnInv, Apply, EndSeen;
    assert EndSeen(o.node.at[Dir].slot);
    NothingInHand(o);
    EofEmpties(o.node, l, r);
  }

  lemma OwnHasInv(o: Owned)
    requires OwnInv(o)
    ensures Inv(o.node)
  {
    hide Inv, Account, CallsOk;
  }
}
