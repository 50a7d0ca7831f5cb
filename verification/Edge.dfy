/** A socket in front of its node: edge-triggered readiness, the reader and the sender. epoll reports an edge
    once, and only while the socket is in its set; a thread turns the report into addTask, and the task may be
    idle, parked, queued or in the middle of its handler at that moment. */
module Edge {
  import opened Fairness
  import opened Gate
  import opened Node
  import opened NodeSafety
  import opened NodeSteps
  import opened NodeRank
  import opened NodeShutdown
  import opened NodeLiveness
  import opened NodeExamples
  import opened Paths

  /** One direction of the socket. `joined`: it is in the epoll set of this direction. `ready`: it has unread
      bytes, or takes bytes. `edge`: epoll has an edge to report. `failed`: its handler has met an error. */
  datatype Side = Side(joined: bool, ready: bool, edge: bool, failed: bool)

  datatype Conn = Conn(node: State, rd: Side, wr: Side)

  datatype Step =
    | Arrive | Drain                   // bytes come in; the peer has taken bytes
    | PollRead(p: nat) | PollWrite(p: nat)
    | Recv(more: bool)                 // one recv: some bytes, more or none left; or it would block
    | SendVec(n: nat, full: bool)      // one sendmsg: n messages and maybe a part of the next; the socket full or not
    | MeetError(r: Role, p: nat)       // recv, parse or sendmsg fails, or the peer has closed: p begins to close
    | FailRead | FailWrite             // the handler returns with an error it has met
    | Plain(inner: Label)              // any other step of the node

  /** The reader, or the sender past its splice, is about to ask the socket. */
  predicate AsksSocket(s: State, r: Role)
    requires Complete(s)
  {
    s.at[r].slot.place.Running? && !EndSeen(s.at[r].slot) && (r == Rd || (r == Wr && s.at[r].stage != Start))
  }

  /** What a step of the connection is for the node. */
  function LabelOf(c: Conn, e: Step): Label
    requires Complete(c.node) && !e.Arrive? && !e.Drain?
  {
    match e
    case PollRead(p) => Begin(p, Add(Rd, EV_READ))
    case PollWrite(p) => Begin(p, Add(Wr, EV_WRITE))
    case Recv(_) => Work(Rd, Pick(if c.rd.ready then EV_IN else EV_NORM, 0, false))
    case MeetError(_, p) => Begin(p, Put(Dir, CLOSE))
    case FailRead => Work(Rd, Pick(EV_ERROR, 0, false))
    case SendVec(n, _) => Work(Wr, Sends(c.node.at[Wr].que, c.wr.ready, n))
    case FailWrite => Work(Wr, Pick(EV_ERROR, 0, false))
    case Plain(l) => l
  }

  /** sendQue: nothing to send, blocked, or some bytes gone. */
  function Sends(que: seq<Msg>, open: bool, n: nat): Pick {
    if que == [] then Pick(EV_NORM, 0, false)
    else if !open then Pick(EV_WRITE, 0, false)
    else Pick(if n < |que| then EV_IN else EV_NORM, n, false)
  }

  predicate Can(c: Conn, e: Step) {
    && Complete(c.node)
    && (e.Arrive? || e.Drain? || Enabled(c.node, LabelOf(c, e)))
    && match e
       case PollRead(_) => c.rd.edge
       case PollWrite(_) => c.wr.edge
       case Recv(_) => AsksSocket(c.node, Rd) && !c.rd.failed
       case SendVec(_, _) => AsksSocket(c.node, Wr) && !c.wr.failed
       case MeetError(r, _) => AsksSocket(c.node, r)
       case FailRead => AsksSocket(c.node, Rd) && c.rd.failed
       case FailWrite => AsksSocket(c.node, Wr) && c.wr.failed
       case Plain(l) => !(l.Work? && AsksSocket(c.node, l.role))
       case _ => true
  }

  /** The director is about to handle a command. */
  predicate Handles(s: State, l: Label)
    requires Complete(s)
  {
    l.Work? && l.role == Dir && s.at[Dir].slot.place.Running? && !EndSeen(s.at[Dir].slot) && s.at[Dir].stage.Hand?
  }

  /** delEvent, before the reader is asked to end. */
  predicate LeavesSet(s: State, l: Label)
    requires Complete(s)
  {
    Handles(s, l) && s.at[Dir].stage.msg == Stop(CLOSING) && s.status < CLOSING
  }

  /** A connector is connected: addEvent for reading. */
  predicate JoinsSet(s: State, l: Label)
    requires Complete(s)
  {
    Handles(s, l) && s.at[Dir].stage.msg.Other? && l.pick.yes
  }

  /** The socket has become ready. */
  function Came(x: Side): Side {
    x.(ready := true, edge := x.joined)
  }

  function Do(c: Conn, e: Step): Conn
    requires Can(c, e)
  {
    match e
    case Arrive => c.(rd := Came(c.rd))
    case Drain => c.(wr := Came(c.wr))
    case _ =>
      var l := LabelOf(c, e);
      Conn(Apply(c.node, l), Polled(c.node, l, ReadDone(c.rd, e), true), Polled(c.node, l, WriteDone(c, e), false))
  }

  function ReadDone(x: Side, e: Step): Side {
    match e
    case PollRead(_) => x.(edge := false)
    case Recv(more) => x.(ready := x.ready && more)
    case MeetError(r, _) => if r == Rd then x.(failed := true) else x
    case _ => x
  }

  function WriteDone(c: Conn, e: Step): Side
    requires Complete(c.node)
  {
    var x := c.wr;
    match e
    case PollWrite(_) => x.(edge := false)
    case SendVec(_, full) => x.(ready := x.ready && (c.node.at[Wr].que == [] || !full))
    case MeetError(r, _) => if r == Wr then x.(failed := true) else x
    case _ => x
  }

  /** What the director's step does to an epoll set. */
  function Polled(s: State, l: Label, x: Side, reading: bool): Side
    requires Complete(s)
  {
    if LeavesSet(s, l) then x.(joined := false, edge := false)
    else if reading && JoinsSet(s, l) && !x.joined then x.(joined := true, edge := x.ready)
    else x
  }

  predicate Starts(x: Side) {
    !x.failed && (x.edge ==> x.joined) && (x.ready && x.joined ==> x.edge)
  }

  /** A socket just put into epoll: for both directions, or a connector for writing. */
  ghost predicate Opens(c: Conn) {
    Init(c.node) && Starts(c.rd) && Starts(c.wr) && c.wr.joined
  }

  ghost predicate Follow(c: Conn, e: Step, c': Conn) {
    Can(c, e) && c' == Do(c, e)
  }

  ghost predicate ConnNext(c: Conn, c': Conn) {
    exists e :: Follow(c, e, c')
  }

  ghost predicate ConnRun(states: seq<Conn>) {
    && states != [] && Opens(states[0])
    && forall i :: 0 < i < |states| ==> ConnNext(states[i - 1], states[i])
  }

  // The invariant of each direction, on the slot of its task.

  predicate Going(sl: Slot) {
    !sl.ended && !EndSeen(sl)
  }

  ghost predicate Adding(s: State, r: Role, ev: nat) {
    exists w :: w in s.jobs && s.jobs[w] == Add(r, ev)
  }

  /** The edge is there to be reported, or on its way to the task, unless the socket is not in the set. */
  ghost predicate Told(s: State, x: Side, r: Role, ev: nat) {
    !x.joined || x.edge || Adding(s, r, ev)
  }

  /** Somebody will read again. */
  predicate ReadComing(sl: Slot, told: bool) {
    || told
    || match sl.place
       case Out => false
       case Returned(ret) => ret == EV_IN || EV_READ in sl.word.low
       case _ => true
  }

  ghost predicate ReadOk(sl: Slot, x: Side, told: bool) {
    && (!x.failed ==> sl.word.high == {} && (sl.place.Returned? ==> sl.place.ret in {EV_IN, EV_NORM}))
    && (Going(sl) && !x.failed && x.ready ==> ReadComing(sl, told))
  }

  /** Somebody will come back to the private queue. */
  predicate WriteComing(sl: Slot, queued: bool, x: Side, told: bool) {
    match sl.place
    case Out => if sl.word.high == {} then !queued else x.ready ==> told
    case Returned(ret) =>
      if ret == EV_NORM then !queued
      else if ret == EV_WRITE then x.ready ==> told || EV_WRITE in sl.word.low
      else true
    case _ => true
  }

  ghost predicate WriteOk(sl: Slot, queued: bool, x: Side, told: bool) {
    && (!x.failed ==>
          && sl.word.high <= {EV_WRITE}
          && (sl.place.Returned? ==> sl.place.ret in {EV_IN, EV_NORM, EV_WRITE}))
    && (Going(sl) && !x.failed ==> WriteComing(sl, queued, x, told))
  }

  ghost predicate ReadInv(c: Conn)
    requires Complete(c.node)
  {
    ReadOk(c.node.at[Rd].slot, c.rd, Told(c.node, c.rd, Rd, EV_READ))
  }

  ghost predicate WriteInv(c: Conn)
    requires Complete(c.node)
  {
    WriteOk(c.node.at[Wr].slot, c.node.at[Wr].que != [], c.wr, Told(c.node, c.wr, Wr, EV_WRITE))
  }

  /** Only a socket in the set has an edge, and delEvent is what takes it out for writing. */
  predicate SetsOk(c: Conn) {
    && (c.rd.edge ==> c.rd.joined) && (c.wr.edge ==> c.wr.joined)
    && (c.wr.joined <==> c.node.watched)
  }

  ghost predicate ConnInv(c: Conn) {
    Inv(c.node) && Complete(c.node) && CloseOk(c.node) && SetsOk(c) && ReadInv(c) && WriteInv(c)
  }

  // The steps.

  /** A call of addTask that is under way stays so until it is made. */
  lemma AddingKept(s: State, l: Label, r: Role, ev: nat)
    requires Enabled(s, l) && Adding(s, r, ev)
    ensures Adding(Apply(s, l), r, ev) || MoveOf(s, l, r) == Makes(MHit(ev))
  {
    hide Apply;
    var w :| w in s.jobs && s.jobs[w] == Add(r, ev);
    if IsEof(s, l) {
      EofKeepsJobs(s, l);
      assert Apply(s, l).jobs[w] == Add(r, ev);
    } else {
      StepTouches(s, l);
      if w != ActorOf(l) {
        assert Apply(s, l).jobs[w] == Add(r, ev);
      }
    }
  }

  lemma EofKeepsJobs(s: State, l: Label)
    requires Enabled(s, l) && IsEof(s, l)
    ensures Apply(s, l).jobs == s.jobs && Apply(s, l).watched == s.watched
  {
  }

  /** The task was told, and is again or at this moment, if the socket can still be used. */
  ghost predicate ToldOn(x: Side, told: bool, x': Side, told': bool, ev: nat, e: Effect) {
    x'.ready && told ==> told' || e == Makes(MHit(ev))
  }

  lemma ToldKept(c: Conn, e: Step, r: Role)
    requires Can(c, e) && !e.Arrive? && !e.Drain? && (r == Rd || r == Wr)
    ensures var l, c', ev := LabelOf(c, e), Do(c, e), if r == Rd then EV_READ else EV_WRITE;
      var x, x' := if r == Rd then c.rd else c.wr, if r == Rd then c'.rd else c'.wr;
      ToldOn(x, Told(c.node, x, r, ev), x', Told(c'.node, x', r, ev), ev, MoveOf(c.node, l, r))
  {
    hide Apply, Enabled;
    var l, c', ev := LabelOf(c, e), Do(c, e), if r == Rd then EV_READ else EV_WRITE;
    if Adding(c.node, r, ev) {
      AddingKept(c.node, l, r, ev);
    }
    if e.PollRead? || e.PollWrite? {
      BeginAdds(c.node, l);
    }
  }

  lemma BeginAdds(s: State, l: Label)
    requires Enabled(s, l) && l.Begin? && l.job.Add?
    ensures Adding(Apply(s, l), l.job.role, l.job.ev)
  {
    assert Apply(s, l).jobs[Thread(l.p)] == l.job;
  }

  lemma ReadMoves(sl: Slot, e: Effect, x: Side, x': Side, told: bool, told': bool)
    requires SlotInv(sl) && (e.Makes? ==> CanMove(sl, e.move)) && ReadOk(sl, x, told)
    requires ToldOn(x, told, x', told', EV_READ, e)
    requires if e.Makes? && e.move.MCallTask?
             then x'.failed || e.move.ret == EV_IN || (e.move.ret == EV_NORM && !x'.ready)
             else x'.ready == x.ready
    requires x.failed ==> x'.failed
    ensures ReadOk(Changed(sl, e), x', told')
  {
    if e.Makes? && e.move.MHitEnd? && sl.place == Out && !sl.ended {
      WinnerFoundIdle(sl, EV_NORM);
    }
  }

  lemma WriteMoves(sl: Slot, e: Effect, queued: bool, queued': bool, x: Side, x': Side, told: bool, told': bool)
    requires SlotInv(sl) && (e.Makes? ==> CanMove(sl, e.move)) && WriteOk(sl, queued, x, told)
    requires ToldOn(x, told, x', told', EV_WRITE, e)
    requires queued' == queued || sl.place.Running? || !Going(sl)
    requires if e.Makes? && e.move.MCallTask?
             then x'.failed || SentOk(e.move.ret, queued', x')
             else x'.ready == x.ready
    requires x.failed ==> x'.failed
    ensures WriteOk(Changed(sl, e), queued', x', told')
  {
    hide SlotInv, Settle;
    var sl' := Changed(sl, e);
    assert SlotInv(sl') by {
      if e.Makes? { MoveKeepsInv(sl, e.move); }
    }
    NotIdleIsGoing(sl);
    if e.Makes? {
      match e.move
      case MHit(ev) => HitMarks(sl, ev);
      case MHitEnd => EndMarks(sl);
      case MSettle => SettleMarks(sl);
      case _ =>
    }
  }

  lemma NotIdleIsGoing(sl: Slot)
    requires SlotInv(sl)
    ensures sl.place != Out ==> !sl.ended
    ensures sl.place.Running? || sl.place.Returned? ==> sl.word.high == {}
  {
  }

  /** A checkin leaves its bit; on an idle task it leaves the task idle only when the task is parked on
      another event. */
  lemma HitMarks(sl: Slot, ev: nat)
    requires SlotInv(sl) && UserEvent(ev)
    ensures Hit(sl, ev).word.high == sl.word.high
    ensures ev in Hit(sl, ev).word.low && sl.word.low <= Hit(sl, ev).word.low
    ensures Hit(sl, ev).place == sl.place || (sl.place == Out && Hit(sl, ev).place == Claimed)
    ensures sl.place == Out && !sl.ended && Hit(sl, ev).place == Out ==> sl.word.high != {} && ev !in sl.word.high
    ensures Going(Hit(sl, ev)) ==> Going(sl)
  {
  }

  lemma EndMarks(sl: Slot)
    requires SlotInv(sl)
    ensures HitEnd(sl).word == ENDING && EV_WRITE in ENDING.low
    ensures HitEnd(sl).place == sl.place || (sl.place == Out && HitEnd(sl).place == Claimed)
    ensures sl.place == Out && !sl.ended ==> HitEnd(sl).place == Claimed
    ensures Going(HitEnd(sl)) ==> Going(sl)
  {
    assert EV_WRITE in FULL;
    if sl.place == Out && !sl.ended {
      WinnerFoundIdle(sl, EV_NORM);
    }
  }

  /** A task that settles goes idle only when the event it waits for has not come. */
  lemma SettleMarks(sl: Slot)
    requires SlotInv(sl) && sl.place.Returned?
    ensures var sl' := Settle(sl, sl.place.ret);
      && (sl'.place == Out || sl'.place == Queued) && sl'.ended == sl.ended
      && (sl'.place == Out ==>
            if sl.place.ret == EV_NORM then sl.word == LOCKED && sl'.word.high == {}
            else CustomEvent(sl.place.ret) && sl.place.ret !in sl.word.low && sl'.word.high == {sl.place.ret})
      && sl'.word.high <= (if CustomEvent(sl.place.ret) then {sl.place.ret} else {})
  {
  }

  /** What the sender returns says what it left. */
  predicate SentOk(ret: nat, queued: bool, x: Side) {
    ret == EV_IN || (ret == EV_NORM && !queued) || (ret == EV_WRITE && !x.ready)
  }

  /** The reader returns what the socket said. */
  lemma ReadFits(c: Conn, e: Step)
    requires Can(c, e) && !e.Arrive? && !e.Drain?
    ensures var x, x', m := c.rd, Do(c, e).rd, MoveOf(c.node, LabelOf(c, e), Rd);
      && (x.failed ==> x'.failed)
      && if m.Makes? && m.move.MCallTask?
         then x'.failed || m.move.ret == EV_IN || (m.move.ret == EV_NORM && !x'.ready)
         else x'.ready == x.ready
  {
    hide Apply;
  }

  lemma WriteFits(c: Conn, e: Step)
    requires Can(c, e) && !e.Arrive? && !e.Drain?
    ensures var x, x', m := c.wr, Do(c, e).wr, MoveOf(c.node, LabelOf(c, e), Wr);
      && (x.failed ==> x'.failed)
      && if m.Makes? && m.move.MCallTask?
         then x'.failed || SentOk(m.move.ret, Do(c, e).node.at[Wr].que != [], x')
         else x'.ready == x.ready
  {
    hide Settle, DealCmd, Freed;
  }

  lemma ReadKept(c: Conn, e: Step)
    requires ConnInv(c) && Can(c, e) && !e.Arrive? && !e.Drain?
    ensures Complete(Do(c, e).node) && ReadInv(Do(c, e))
  {
    hide Inv, Apply, CloseOk, SetsOk, Told, MoveOf, ReadOk;
    var l, c' := LabelOf(c, e), Do(c, e);
    At(c.node, Rd, Worker(Rd));
    NodeIsGates(c.node, l, Rd);
    ToldKept(c, e, Rd);
    ReadFits(c, e);
    ReadMoves(c.node.at[Rd].slot, MoveOf(c.node, l, Rd), c.rd, c'.rd, Told(c.node, c.rd, Rd, EV_READ),
              Told(c'.node, c'.rd, Rd, EV_READ));
  }

  lemma WriteKept(c: Conn, e: Step)
    requires ConnInv(c) && Can(c, e) && !e.Arrive? && !e.Drain?
    ensures Complete(Do(c, e).node) && WriteInv(Do(c, e))
  {
    hide Inv, Apply, CloseOk, SetsOk, Told, MoveOf, WriteOk, SentOk;
    var l, c' := LabelOf(c, e), Do(c, e);
    At(c.node, Wr, Worker(Wr));
    NodeIsGates(c.node, l, Wr);
    ToldKept(c, e, Wr);
    WriteFits(c, e);
    if IsEof(c.node, l) {
      AllTold(c.node);
    }
    WriteMoves(c.node.at[Wr].slot, MoveOf(c.node, l, Wr), c.node.at[Wr].que != [], c'.node.at[Wr].que != [],
               c.wr, c'.wr, Told(c.node, c.wr, Wr, EV_WRITE), Told(c'.node, c'.wr, Wr, EV_WRITE));
  }

  /** Only the director's handling of the first CLOSING takes the socket out of epoll. */
  lemma WatchedUntil(s: State, l: Label)
    requires Enabled(s, l)
    ensures Apply(s, l).watched == (s.watched && !LeavesSet(s, l))
  {
    hide Hit, HitEnd, Settle, Wins, EndWins, EndSeen;
  }

  lemma SetsKept(c: Conn, e: Step)
    requires SetsOk(c) && Can(c, e)
    ensures SetsOk(Do(c, e))
  {
    hide Apply, LeavesSet, JoinsSet, Enabled;
    if !e.Arrive? && !e.Drain? {
      WatchedUntil(c.node, LabelOf(c, e));
    }
  }

  lemma StepKeepsConn(c: Conn, e: Step)
    requires ConnInv(c) && Can(c, e)
    ensures ConnInv(Do(c, e))
  {
    hide Inv, CloseOk, ReadOk, WriteOk, SetsOk, Apply, Enabled;
    SetsKept(c, e);
    if !e.Arrive? && !e.Drain? {
      StepKeepsInv(c.node, LabelOf(c, e));
      StepKeepsClose(c.node, LabelOf(c, e));
      ReadKept(c, e);
      WriteKept(c, e);
    } else {
      ReadyKeeps(c, e);
    }
  }

  lemma ReadyKeeps(c: Conn, e: Step)
    requires Complete(c.node) && ReadInv(c) && WriteInv(c) && (e.Arrive? || e.Drain?) && Can(c, e)
    ensures ReadInv(Do(c, e)) && WriteInv(Do(c, e))
  {
  }

  lemma OpensInv(c: Conn)
    requires Opens(c)
    ensures ConnInv(c)
  {
    hide Inv;
    InitInv(c.node);
    FreshInv();
  }

  lemma {:induction false} ConnRunInv(states: seq<Conn>)
    requires ConnRun(states)
    ensures ConnInv(states[|states| - 1])
    decreases |states|
  {
    hide ConnInv, Can, Do, Opens;
    var n := |states| - 1;
    if n == 0 {
      OpensInv(states[0]);
    } else {
      ConnRunInv(states[..n]);
      assert ConnNext(states[n - 1], states[n]);
      var e :| Follow(states[n - 1], e, states[n]);
      StepKeepsConn(states[n - 1], e);
    }
  }

  // What holds in every run.

  /** The task is idle and live, its handler has met no error, and its side of the socket could be used. */
  predicate Idle(c: Conn, r: Role)
    requires Complete(c.node)
  {
    && Live(c.node.at[r]) && c.node.at[r].slot.place == Out
    && (r == Rd ==> c.rd.ready && !c.rd.failed)
    && (r == Wr ==> c.wr.ready && !c.wr.failed && c.node.at[r].que + c.node.at[r].tmp != [])
  }

  /** In every run, when an idle live error-free reader has unread bytes and no thread is on its way to it,
      epoll has an edge to report if and only if the socket is in the set. And after delEvent such a reader
      exists only until the director asks it to end, which he is about to do. */
  lemma NoReadEdgeIsLost(states: seq<Conn>)
    requires ConnRun(states)
    ensures var c := states[|states| - 1];
      && Complete(c.node)
      && (Idle(c, Rd) && !Adding(c.node, Rd, EV_READ) ==> (c.rd.edge <==> c.rd.joined))
      && (Idle(c, Rd) && !c.node.watched ==> c.node.jobs[Worker(Dir)] == EndOf(Rd))
  {
    hide ConnRun, Inv;
    ConnRunInv(states);
    IdleReader(states[LastConn(states)]);
  }

  function LastConn(states: seq<Conn>): nat
    requires ConnRun(states)
  {
    |states| - 1
  }

  lemma IdleReader(c: Conn)
    requires ConnInv(c)
    ensures Idle(c, Rd) && !Adding(c.node, Rd, EV_READ) ==> (c.rd.edge <==> c.rd.joined)
    ensures Idle(c, Rd) && !c.node.watched ==> c.node.jobs[Worker(Dir)] == EndOf(Rd)
  {
    hide Inv, SlotInv, WriteInv, Adding;
    At(c.node, Rd, Worker(Rd));
    if Idle(c, Rd) && c.node.at[Rd].slot.asked {
      EndIsNotForgotten(c.node.at[Rd].slot);
    }
  }

  /** In every run, when an idle live error-free sender has messages in its queues, the socket takes bytes and
      no thread is on its way to it, epoll has an edge to report if and only if delEvent has not been called. */
  lemma NoWriteEdgeIsLost(states: seq<Conn>)
    requires ConnRun(states)
    ensures var c := states[|states| - 1];
      && Complete(c.node)
      && (Idle(c, Wr) && !Adding(c.node, Wr, EV_WRITE) && !AddPending(c.node, Wr) ==> (c.wr.edge <==> c.node.watched))
  {
    hide ConnRun, Inv;
    ConnRunInv(states);
    IdleSender(states[LastConn(states)]);
  }

  lemma IdleSender(c: Conn)
    requires ConnInv(c)
    ensures Idle(c, Wr) && !Adding(c.node, Wr, EV_WRITE) && !AddPending(c.node, Wr) ==> (c.wr.edge <==> c.node.watched)
  {
    hide Inv, SlotInv, ReadInv, Adding, AddPending;
    At(c.node, Wr, Worker(Wr));
    Parts(Wr, c.node.at[Wr]);
    if Idle(c, Wr) {
      IdleIsOpen(c.node.at[Wr].slot);
    }
  }

  // After delEvent.

  predicate IsMine(e: Step, w: Who) {
    match e
    case Recv(_) => w == Worker(Rd)
    case MeetError(_, _) => false
    case FailRead => w == Worker(Rd)
    case SendVec(_, _) => w == Worker(Wr)
    case FailWrite => w == Worker(Wr)
    case Plain(l) => Mine(l, w)
    case _ => false
  }

  ghost predicate CanGo(c: Conn, w: Who) {
    exists e :: IsMine(e, w) && Can(c, e)
  }

  ghost function Socket(): System<Conn, Step, Who> {
    System(
      (c: Conn) => Opens(c),
      (c: Conn, e: Step, c': Conn) => Follow(c, e, c'),
      (c: Conn, w: Who) => CanGo(c, w),
      (e: Step, w: Who) => IsMine(e, w))
  }

  /** Whoever can step in the node can step in the connection. */
  lemma NodeGoes(c: Conn, w: Who)
    requires Complete(c.node) && CanStep(c.node, w)
    ensures CanGo(c, w)
  {
    hide Apply;
    var l :| Mine(l, w) && Enabled(c.node, l);
    if l.Work? && AsksSocket(c.node, l.role) {
      var e := if l.role == Rd then (if c.rd.failed then FailRead else Recv(false))
               else if c.wr.failed then FailWrite else SendVec(0, false);
      assert IsMine(e, w) && Can(c, e);
    } else {
      assert IsMine(Plain(l), w) && Can(c, Plain(l));
    }
  }

  /** A step of the connection is a step of the node or leaves it as it is. */
  function NodeLabel(c: Conn, e: Step): Label {
    if Complete(c.node) && !e.Arrive? && !e.Drain? then LabelOf(c, e) else Begin(0, Nothing)
  }

  lemma StepProjects(c: Conn, e: Step, c': Conn)
    requires Follow(c, e, c')
    ensures c'.node == c.node || Steps(c.node, NodeLabel(c, e), c'.node)
    ensures forall w :: IsMine(e, w) ==> Steps(c.node, NodeLabel(c, e), c'.node) && Mine(NodeLabel(c, e), w)
  {
    hide Apply, Enabled;
  }

  lemma RunProjects(run: nat -> Conn, acts: nat -> Step, nodes: nat -> State, labels: nat -> Label)
    requires FairRun(Socket(), run, acts)
    requires forall n: nat :: nodes(n) == run(n).node && labels(n) == NodeLabel(run(n), acts(n))
    ensures FairRun(Machine(), nodes, labels)
  {
    hide FairRun, Follow, Steps, CanStep, CanGo, Served, Opens, NodeLabel;
    forall n: nat
      ensures Follows(Machine(), nodes(n), labels(n), nodes(n + 1))
    {
      StepsFollow(Socket(), run, acts, n);
      if Follow(run(n), acts(n), run(n + 1)) {
        StepProjects(run(n), acts(n), run(n + 1));
      }
    }
    forall w, n: nat
      ensures Heard(Machine(), nodes, labels, w, n)
    {
      var m := EveryoneHeard(Socket(), run, acts, w, n);
      ServedProjects(run, acts, nodes, labels, w, m);
    }
    StepsFollow(Socket(), run, acts, 0);
    assert Init(nodes(0)) by { OpensInit(run(0)); }
    FairTogether(Machine(), nodes, labels);
  }

  lemma OpensInit(c: Conn)
    requires Opens(c)
    ensures Init(c.node)
  {
  }

  lemma ServedProjects(
      run: nat -> Conn, acts: nat -> Step, nodes: nat -> State, labels: nat -> Label, w: Who, m: nat)
    requires Served(Socket(), run, acts, w, m)
    requires forall n: nat :: nodes(n) == run(n).node && labels(n) == NodeLabel(run(n), acts(n))
    ensures Served(Machine(), nodes, labels, w, m)
  {
    hide Follow, Steps, CanGo, NodeLabel;
    if CanStep(nodes(m), w) {
      CanStepIsComplete(nodes(m), w);
      NodeGoes(run(m), w);
      StepProjects(run(m), acts(m), run(m + 1));
    }
  }

  lemma CanStepIsComplete(s: State, w: Who)
    requires CanStep(s, w)
    ensures Complete(s)
  {
  }

  /** Nobody waits for an edge that cannot come any more: in every fair run, once delEvent has been called, eof
      comes. */
  lemma {:induction false} UnwatchedEnds(run: nat -> Conn, acts: nat -> Step, n: nat)
    requires FairRun(Socket(), run, acts) && !run(n).node.watched
    ensures exists m :: n <= m && Ended(run(m).node)
  {
    hide FairRun;
    var nodes: nat -> State := (i: nat) => run(i).node;
    var labels: nat -> Label := (i: nat) => NodeLabel(run(i), acts(i));
    RunProjects(run, acts, nodes, labels);
    CloseCompletes(nodes, labels, n);
    var m :| n <= m && Ended(nodes(m));
  }

  // A run to such a moment: the sender is blocked, a request to close is handled, then the peer takes bytes.

  ghost predicate Comes(c: Conn) {
    ReachableBy((c: Conn) => Opens(c), (c: Conn, c': Conn) => ConnNext(c, c'), c)
  }

  lemma Takes(c: Conn, e: Step)
    requires Comes(c) && Can(c, e)
    ensures Comes(Do(c, e))
  {
    hide Can, Do, Opens, ReachableBy;
    assert Follow(c, e, Do(c, e));
    ReachedNext((c: Conn) => Opens(c), (c: Conn, c': Conn) => ConnNext(c, c'), c, Do(c, e));
  }

  const CLAIMED := Slot(Low(EV_NORM), Claimed, false, false)

  function Mailed(m: Msg, sl: Slot): Station {
    Station(sl, Thread(0), Rest, false, [m], [], [m], [], [])
  }

  function With(c: Conn, r: Role, st: Station, j: Job): Conn {
    c.(node := c.node.(at := c.node.at[r := st], jobs := JOBS[Thread(0) := j]))
  }

  /** A thread puts a message into the mailbox of a task that has not run yet: the task is queued. */
  lemma Delivers(c: Conn, r: Role, m: Msg) returns (c': Conn)
    requires Comes(c) && Complete(c.node) && c.node.jobs == JOBS && c.node.at[r] == NEW && Foreign(Put(r, m))
    ensures Comes(c') && c' == c.(node := c.node.(at := c.node.at[r := Mailed(m, QUEUED)]))
  {
    hide Comes, Do, Can;
    var steps := [Plain(Begin(0, Put(r, m))), Plain(Act(Thread(0)))];
    PutDone(c, r, m);
    Takes(c, steps[0]);
    Takes(Do(c, steps[0]), steps[1]);
    c' := With(c, r, Mailed(m, FRESH), Add(r, EV_NORM));
    AddDone(c, r, m);
    Takes(c', steps[1]);
    c' := With(c, r, Mailed(m, CLAIMED), PushTo(r));
    PushDone(c, r, m);
    Takes(c', steps[1]);
    c' := Do(c', steps[1]);
    assert JOBS[Thread(0) := Nothing] == JOBS;
  }

  lemma PutDone(c: Conn, r: Role, m: Msg)
    requires Complete(c.node) && c.node.jobs == JOBS && c.node.at[r] == NEW && Foreign(Put(r, m))
    ensures var b, a := Plain(Begin(0, Put(r, m))), Plain(Act(Thread(0)));
      Can(c, b) && Can(Do(c, b), a) && Do(Do(c, b), a) == With(c, r, Mailed(m, FRESH), Add(r, EV_NORM))
  {
    assert [] + [m] == [m];
  }

  lemma AddDone(c: Conn, r: Role, m: Msg)
    requires Complete(c.node) && c.node.jobs == JOBS
    ensures var c1, a := With(c, r, Mailed(m, FRESH), Add(r, EV_NORM)), Plain(Act(Thread(0)));
      Can(c1, a) && Do(c1, a) == With(c, r, Mailed(m, CLAIMED), PushTo(r))
  {
    hide WorkStep;
    var sl := CLAIMED;
    assert Hit(FRESH, EV_NORM) == sl by { assert Or(ZERO, Low(EV_NORM)) == Low(EV_NORM); }
    assert JOBS[Thread(0) := Add(r, EV_NORM)][Thread(0) := PushTo(r)] == JOBS[Thread(0) := PushTo(r)];
    assert c.node.at[r := Mailed(m, FRESH)][r := Mailed(m, sl)] == c.node.at[r := Mailed(m, sl)];
  }

  lemma PushDone(c: Conn, r: Role, m: Msg)
    requires Complete(c.node) && c.node.jobs == JOBS
    ensures var c1, a := With(c, r, Mailed(m, CLAIMED), PushTo(r)), Plain(Act(Thread(0)));
      Can(c1, a) && Do(c1, a) == With(c, r, Mailed(m, QUEUED), Nothing)
  {
    hide Low;
    var st, st' := Mailed(m, CLAIMED), Mailed(m, QUEUED);
    assert JOBS[Thread(0) := PushTo(r)][Thread(0) := Nothing] == JOBS[Thread(0) := Nothing];
    assert c.node.at[r := st][r := st'] == c.node.at[r := st'];
  }

  function AtWork(m: Msg): Station {
    Station(Slot(LOCKED, Running(Low(EV_NORM)), false, false), Thread(0), Drained, false, [], [m], [m], [], [])
  }

  /** Its worker locks the task and splices its queue. */
  lemma Splices(c: Conn, r: Role, m: Msg) returns (c': Conn)
    requires Comes(c) && Complete(c.node) && c.node.jobs == JOBS && r != Rd
    requires c.node.at[r] == Mailed(m, QUEUED)
    ensures Comes(c')
    ensures c' == c.(node := c.node.(at := c.node.at[r := AtWork(m)], log := c.node.log + [Call(r, false)]))
  {
    hide Comes, Freed, DealCmd, Settle, Written, EndStep;
    Takes(c, Plain(Work(r, ANY_PICK)));
    c' := Do(c, Plain(Work(r, ANY_PICK)));
    var st := Mailed(m, Lock(QUEUED)).(stage := Start);
    assert c'.node.at == c.node.at[r := st];
    assert Spliced(st).(stage := Drained) == AtWork(m) by { assert [] + [m] == [m]; }
    assert c.node.at[r := st][r := AtWork(m)] == c.node.at[r := AtWork(m)];
    Takes(c', Plain(Work(r, ANY_PICK)));
    c' := Do(c', Plain(Work(r, ANY_PICK)));
  }

  const PARKED := Slot(Word({EV_LOCK}, {EV_WRITE}), Out, false, false)

  /** The sender finds the socket full and parks. */
  lemma Blocks(c: Conn, m: Msg) returns (c': Conn)
    requires Comes(c) && Complete(c.node) && c.node.jobs == JOBS && c.node.at[Wr] == AtWork(m)
    requires !c.wr.ready && !c.wr.failed
    ensures Comes(c')
    ensures c' == c.(node := c.node.(at := c.node.at[Wr := AtWork(m).(slot := PARKED, stage := Rest)]))
  {
    hide Comes;
    var st := AtWork(m);
    var sl := CallTask(st.slot, EV_WRITE);
    assert Settle(sl, EV_WRITE) == PARKED;
    assert Written(st, 0) == st;
    Takes(c, SendVec(0, false));
    c' := Do(c, SendVec(0, false));
    assert c'.node.at[Wr] == st.(slot := sl, stage := Rest);
    Takes(c', Plain(Work(Wr, ANY_PICK)));
    c' := Do(c', Plain(Work(Wr, ANY_PICK)));
  }

  /** The director takes the request to close and handles it as far as delEvent. */
  lemma Closes(c: Conn) returns (c': Conn)
    requires Comes(c) && Complete(c.node) && c.node.jobs == JOBS && c.node.status < CLOSING
    requires c.node.at[Dir] == AtWork(CLOSE)
    ensures Comes(c') && Complete(c'.node) && !c'.node.watched
    ensures c'.node.jobs == JOBS[Worker(Dir) := EndOf(Rd)]
    ensures c'.node.at[Rd] == c.node.at[Rd] && c'.node.at[Wr] == c.node.at[Wr]
    ensures c'.rd == c.rd.(joined := false, edge := false) && c'.wr == c.wr.(joined := false, edge := false)
  {
    hide Comes;
    Takes(c, Plain(Work(Dir, ANY_PICK)));
    c' := Do(c, Plain(Work(Dir, ANY_PICK)));
    Takes(c', Plain(Work(Dir, ANY_PICK)));
    c' := Do(c', Plain(Work(Dir, ANY_PICK)));
  }

  /** Such moments come: a run to an idle live sender with a message queued and a writable socket, and an idle
      live reader with unread bytes, with no edge to report and nobody about to call addTask. */
  lemma EdgesEnd() returns (run: seq<Conn>)
    ensures ConnRun(run)
    ensures var c := run[|run| - 1];
      && Complete(c.node) && Idle(c, Rd) && Idle(c, Wr) && !c.node.watched && !c.rd.edge && !c.wr.edge
      && forall w :: w in c.node.jobs ==> !c.node.jobs[w].Add?
  {
    hide Can, Do, Comes, ConnRun, Idle, AtWork, Mailed, Came;
    var c := Blocked();
    c := Delivers(c, Dir, CLOSE);
    c := Splices(c, Dir, CLOSE);
    c := Closes(c);
    var d := BothCome(c);
    AtTheEnd(c, d);
    run := ConnRunTo(d);
  }

  lemma ConnRunTo(c: Conn) returns (run: seq<Conn>)
    requires Comes(c)
    ensures ConnRun(run) && run != [] && run[|run| - 1] == c
  {
    run := PathTo((c: Conn) => Opens(c), (c: Conn, c': Conn) => ConnNext(c, c'), c);
  }

  lemma Blocked() returns (c: Conn)
    ensures Comes(c) && Complete(c.node) && c.node.jobs == JOBS && c.node.status < CLOSING
    ensures !c.rd.failed && !c.wr.failed && c.node.at[Rd] == NEW && c.node.at[Dir] == NEW
    ensures c.node.at[Wr] == AtWork(Other(1)).(slot := PARKED, stage := Rest)
  {
    hide Can, Do, Comes, AtWork, Mailed;
    c := Started();
    c := Delivers(c, Wr, Other(1));
    c := Splices(c, Wr, Other(1));
    c := Blocks(c, Other(1));
  }

  lemma Started() returns (c: Conn)
    ensures Comes(c) && Complete(c.node) && c.node.jobs == JOBS && !c.wr.ready && c.node.status < CLOSING
    ensures c.node.at == map[Rd := NEW, Wr := NEW, Deal := NEW, Dir := NEW] && !c.rd.failed && !c.wr.failed
  {
    c := Conn(AT_START, Side(true, false, false, false), Side(true, false, false, false));
    StartReached();
    assert Init(c.node);
    ReachedFirst((c: Conn) => Opens(c), (c: Conn, c': Conn) => ConnNext(c, c'), c);
  }

  lemma BothCome(c: Conn) returns (d: Conn)
    requires Comes(c) && Complete(c.node)
    ensures Comes(d) && d == c.(rd := Came(c.rd), wr := Came(c.wr))
  {
    hide Comes;
    Takes(c, Drain);
    Takes(Do(c, Drain), Arrive);
    d := Do(Do(c, Drain), Arrive);
  }

  lemma AtTheEnd(c: Conn, d: Conn)
    requires Complete(c.node) && !c.node.watched && c.node.jobs == JOBS[Worker(Dir) := EndOf(Rd)]
    requires c.node.at[Rd] == NEW && c.node.at[Wr] == AtWork(Other(1)).(slot := PARKED, stage := Rest)
    requires !c.rd.joined && !c.wr.joined && !c.rd.failed && !c.wr.failed
    requires d == c.(rd := Came(c.rd), wr := Came(c.wr))
    ensures Complete(d.node) && Idle(d, Rd) && Idle(d, Wr) && !d.node.watched && !d.rd.edge && !d.wr.edge
    ensures forall w :: w in d.node.jobs ==> !d.node.jobs[w].Add?
  {
  }
}
