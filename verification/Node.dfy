/** One node of the director: its four tasks on four workers, its three mailboxes, and the staged
    shutdown, as a machine of atomic steps.

    Each task is a gate of module Gate, so a checkin is the atomic fetch-or of addBit (module
    PoolSafety shows that a pool moves every task by the moves of its gate). Other threads, any number
    of them, push messages, report readiness and ask for the close of the node whenever they like. */
module Node {
  import opened Gate

  datatype Role = Rd | Wr | Deal | Dir

  // EnumFdStatus
  const NORMAL := 2
  const CLOSING := 5
  const CLOSE_RD := 6
  const CLOSE_WR := 7
  const CLOSE_DEALER := 8
  const CLOSE_DIRECTOR := 9

  /** ENUM_MSG_SYSTEM_STOP with its status, or any other message. */
  datatype Msg = Stop(status: int) | Other(id: nat)

  /** The STOP message that the end of a task sends to the director. */
  function StopOf(r: Role): Msg
    requires r != Dir
  {
    match r
    case Rd => Stop(CLOSE_RD)
    case Wr => Stop(CLOSE_WR)
    case Deal => Stop(CLOSE_DEALER)
  }

  /** The task whose end follows. */
  function After(r: Role): Role
    requires r != Dir
  {
    match r
    case Rd => Wr
    case Wr => Deal
    case Deal => Dir
  }

  /** A call in progress: pushWrite, pushDeal or pushCmd before its queueing step (`Put`) and before
      its addTask (`Add`), endTask before its exchange (`EndOf`), and a won checkin before the push of
      the task (`PushTo`). */
  datatype Job =
    | Nothing
    | Put(role: Role, msg: Msg)
    | Add(role: Role, ev: nat)
    | EndOf(role: Role)
    | PushTo(role: Role)

  datatype Who = Thread(p: nat) | Worker(role: Role)

  /** Where the handler of a running task is: at its start, past its splice, holding one message of
      its queue, about to send its STOP message, or past that. */
  datatype Stage = Rest | Start | Drained | Hand(msg: Msg) | Tell | Told

  /** A task with its mailbox. `owner` is the last thread that won a checkin of the task; `told` says that
      its STOP message was handed over to be sent. `pushed`, `taken` and `freed` are the history of the
      mailbox: what was put in, what the handler took out, and what was freed with the node. */
  datatype Station = Station(
    slot: Slot,
    owner: Who,
    stage: Stage,
    told: bool,
    tmp: seq<Msg>,
    que: seq<Msg>,
    pushed: seq<Msg>,
    taken: seq<Msg>,
    freed: seq<Msg>)

  const NEW := Station(FRESH, Thread(0), Rest, false, [], [], [], [], [])

  /** A call of procTask or procTaskEnd that has started. */
  datatype Call = Call(role: Role, end: bool)

  /** `watched`: delEvent has not taken the socket out of the epoll sets. */
  datatype State = State(
    at: map<Role, Station>,
    jobs: map<Who, Job>,
    status: int,
    watched: bool,
    log: seq<Call>)

  /** What a handler does that the model leaves open: the result of procTask, how many messages it
      writes, and a yes or no. */
  datatype Pick = Pick(ret: nat, n: nat, yes: bool)

  datatype Label = Begin(p: nat, job: Job) | Act(who: Who) | Work(role: Role, pick: Pick)

  /** What a thread outside the four workers may start. Only handlers send the STOP messages of the
      later stages, and only the director calls endTask. */
  predicate Foreign(job: Job) {
    match job
    case Put(r, m) => r != Rd && (m.Stop? ==> m.status == CLOSING && r == Dir)
    case Add(r, ev) => (r == Rd || r == Wr) && UserEvent(ev)
    case _ => false
  }

  predicate Complete(s: State) {
    forall r: Role :: r in s.at && Worker(r) in s.jobs
  }

  predicate Enabled(s: State, l: Label) {
    && Complete(s)
    && match l
       case Begin(p, job) => Thread(p) in s.jobs && s.jobs[Thread(p)] == Nothing && Foreign(job)
       case Act(w) => w in s.jobs && s.jobs[w] != Nothing
       case Work(r, pick) =>
         && s.jobs[Worker(r)] == Nothing
         && TaskResult(pick.ret)
         && (s.at[r].slot.place.Running? || s.at[r].slot.place.Queued? || s.at[r].slot.place.Returned?)
  }

  function Apply(s: State, l: Label): State
    requires Enabled(s, l)
  {
    match l
    case Begin(p, job) => s.(jobs := s.jobs[Thread(p) := job])
    case Act(w) => JobStep(s, w)
    case Work(r, pick) => WorkStep(s, r, pick)
  }

  function JobStep(s: State, w: Who): State
    requires Enabled(s, Act(w))
  {
    var r := s.jobs[w].role;
    var st := s.at[r];
    match s.jobs[w]
    case Put(_, m) =>
      s.(at := s.at[r := st.(tmp := st.tmp + [m], pushed := st.pushed + [m])],
         jobs := s.jobs[w := Add(r, EV_NORM)])
    case Add(_, ev) => Checkin(s, w, r, Hit(st.slot, ev), Wins(st.slot.word, ev))
    case EndOf(_) => Checkin(s, w, r, HitEnd(st.slot), EndWins(st.slot.word))
    case PushTo(_) =>
      s.(at := s.at[r := st.(slot := Pushed(st.slot))], jobs := s.jobs[w := Nothing])
  }

  /** A checkin by w leaves `slot`; when it wins, w goes on to push the task. */
  function Checkin(s: State, w: Who, r: Role, slot: Slot, wins: bool): State
    requires Complete(s)
  {
    var st := s.at[r];
    s.(at := s.at[r := st.(slot := slot, owner := if wins then w else st.owner)],
       jobs := s.jobs[w := if wins then PushTo(r) else Nothing])
  }

  function WorkStep(s: State, r: Role, pick: Pick): State
    requires Enabled(s, Work(r, pick))
  {
    var st := s.at[r];
    match st.slot.place
    case Queued =>
      s.(at := s.at[r := st.(slot := Lock(st.slot), stage := Start)],
         log := s.log + [Call(r, EV_END in st.slot.word.low)])
    case Returned(ret) =>
      s.(at := s.at[r := st.(slot := Settle(st.slot, ret))])
    case Running(_) =>
      if EndSeen(st.slot) then EndStep(s, r, pick) else HandlerStep(s, r, pick)
  }

  /** procTaskEnd, but for the director's. The sender may drain and write once more. */
  function Ending(st: Station, r: Role, pick: Pick): Station {
    if st.stage == Start then
      if r == Wr && pick.yes then Written(Spliced(st), pick.n).(stage := Tell) else st.(stage := Tell)
    else if st.stage == Tell then st.(stage := Told, told := true)
    else st.(slot := CallEnd(st.slot), stage := Rest)
  }

  /** A task tells its end to the director, whose own end frees the node. */
  function EndStep(s: State, r: Role, pick: Pick): State
    requires Enabled(s, Work(r, pick)) && EndSeen(s.at[r].slot)
  {
    var st := s.at[r];
    if r == Dir then Freed(s)
    else
      var s' := s.(at := s.at[r := Ending(st, r, pick)]);
      if st.stage == Tell then s'.(jobs := s.jobs[Worker(r) := Put(Dir, StopOf(r))]) else s'
  }

  /** Director::procTaskEnd: eof, and with it everything left in the queues is freed. */
  function Freed(s: State): State
    requires Complete(s)
  {
    s.(at := s.at[Rd := Emptied(s.at[Rd])][Wr := Emptied(s.at[Wr])][Deal := Emptied(s.at[Deal])]
                 [Dir := Emptied(s.at[Dir]).(slot := CallEnd(s.at[Dir].slot), stage := Rest)],
       status := CLOSE_DIRECTOR)
  }

  function Emptied(st: Station): Station {
    st.(tmp := [], que := [], freed := st.freed + st.que + st.tmp)
  }

  /** list_splice_back of the locked queue onto the private one. */
  function Spliced(st: Station): Station {
    st.(que := st.que + st.tmp, tmp := [])
  }

  /** The first n messages leave the private queue, or all of them if they are fewer. */
  function Written(st: Station, n: nat): Station {
    var k := if n < |st.que| then n else |st.que|;
    st.(que := st.que[k..], taken := st.taken + st.que[..k])
  }

  /** procTask, but for the director's handling of a command. The reader's is one step here. The others
      splice, then the sender writes some messages while the dealer and the director take and handle one
      after the other. */
  function Handled(st: Station, r: Role, pick: Pick): Station {
    if r == Rd then st.(slot := CallTask(st.slot, pick.ret), stage := Rest)
    else if st.stage == Start then Spliced(st).(stage := Drained)
    else if r == Wr then Written(st, pick.n).(slot := CallTask(st.slot, pick.ret), stage := Rest)
    else if st.stage.Hand? then st.(stage := Drained)
    else if st.que != [] then Written(st, 1).(stage := Hand(st.que[0]))
    else st.(slot := CallTask(st.slot, EV_NORM), stage := Rest)
  }

  function HandlerStep(s: State, r: Role, pick: Pick): State
    requires Enabled(s, Work(r, pick)) && s.at[r].slot.place.Running?
  {
    var st := s.at[r];
    if r == Dir && st.stage.Hand? then DealCmd(s, st.stage.msg, pick)
    else s.(at := s.at[r := Handled(st, r, pick)])
  }

  /** Director::dealCmd and procStopMsg. The first CLOSING takes the socket out of epoll before the reader is
      asked to end. Another command may bring a connector back to NORMAL. */
  function DealCmd(s: State, msg: Msg, pick: Pick): State
    requires Complete(s)
  {
    var s' := s.(at := s.at[Dir := s.at[Dir].(stage := Drained)]);
    match msg
    case Other(_) => if pick.yes then s'.(status := NORMAL) else s'
    case Stop(status) =>
      if status == CLOSING then
        if s.status < CLOSING then s'.(status := CLOSING, watched := false, jobs := s'.jobs[Worker(Dir) := EndOf(Rd)])
        else s'
      else if status == CLOSE_RD then s'.(status := status, jobs := s'.jobs[Worker(Dir) := EndOf(Wr)])
      else if status == CLOSE_WR then s'.(status := status, jobs := s'.jobs[Worker(Dir) := EndOf(Deal)])
      else if status == CLOSE_DEALER then s'.(status := status, jobs := s'.jobs[Worker(Dir) := EndOf(Dir)])
      else s'
  }

  ghost predicate Init(s: State) {
    && Complete(s)
    && (forall r: Role :: s.at[r] == NEW)
    && (forall w :: w in s.jobs ==> s.jobs[w] == Nothing)
    && s.status < CLOSING && s.watched
    && s.log == []
  }

  ghost predicate Next(s: State, s': State) {
    exists l :: Enabled(s, l) && s' == Apply(s, l)
  }

  ghost predicate IsRun(states: seq<State>) {
    && states != [] && Init(states[0])
    && forall i :: 0 < i < |states| ==> Next(states[i - 1], states[i])
  }
}
