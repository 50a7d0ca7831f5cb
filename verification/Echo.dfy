/** The way of the bytes through a node that answers every message with itself: the runs of module Ownership, with
    the bytes received and sent and the text of each message. */
module Echo {
  import opened Framing
  import opened Gate
  import opened Node
  import opened NodeSafety
  import opened NodeSteps
  import opened NodeRank
  import opened NodeShutdown
  import opened Ownership

  /** `pending` are the bytes received that are not in a message on its way, `text` the bytes of the messages
      that were dispatched. Of the first message of m_wr_que `cut` bytes are gone already. */
  datatype Stream = Stream(
    o: Owned,
    received: seq<Byte>,
    pending: seq<Byte>,
    text: map<nat, seq<Byte>>,
    sent: seq<Byte>,
    cut: nat)

  datatype Turn =
    | Recv(chunk: seq<Byte>)       // recvTcp, before the bytes are parsed
    | Send(pick: Pick, n: nat)     // sendVec takes n bytes, and prune frees what has gone whole
    | Own(step: Ownership.Step)    // any other step

  function TextOf(text: map<nat, seq<Byte>>, m: Msg): seq<Byte> {
    if m.Other? && m.id in text then text[m.id] else []
  }

  function Texts(text: map<nat, seq<Byte>>, q: seq<Msg>): (r: seq<seq<Byte>>)
    ensures |r| == |q| && forall i :: 0 <= i < |q| ==> r[i] == TextOf(text, q[i])
  {
    seq(|q|, i requires 0 <= i < |q| => TextOf(text, q[i]))
  }

  function BytesOf(text: map<nat, seq<Byte>>, q: seq<Msg>): seq<Byte> {
    Flat(Texts(text, q))
  }

  /** How many messages of the queue are within its first n bytes. */
  function WholeIn(text: map<nat, seq<Byte>>, q: seq<Msg>, n: nat): (k: nat)
    ensures k <= |q|
  {
    if q == [] || |TextOf(text, q[0])| > n then 0
    else 1 + WholeIn(text, q[1..], n - |TextOf(text, q[0])|)
  }

  /** The sender is about to call sendQue: in procTask, or once more in procTaskEnd. */
  predicate Sends(s: State, pick: Pick)
    requires Complete(s)
  {
    && s.at[Wr].slot.place.Running?
    && if EndSeen(s.at[Wr].slot) then s.at[Wr].stage == Start && pick.yes else s.at[Wr].stage != Start
  }

  /** What it has to send. */
  function Sendable(st: Station): seq<Msg> {
    if EndSeen(st.slot) then st.que + st.tmp else st.que
  }

  /** The reader dispatches what has come in whole and returns when there is no more; the dealer's callback sends
      every message back; and no other thread pushes to the dealer or the sender. */
  predicate Echoes(s: Stream, e: Ownership.Step)
    requires Can(s.o, e)
  {
    match e
    case Receive => |s.pending| >= HEADER && GoodHeader(s.pending[..HEADER])
    case Forget => true
    case Plain(l) =>
      match l
      case Begin(p, job) =>
        if Thread(p) == READER then Whole(s.pending)
        else Thread(p) == DEALER || (job.Put? ==> job.role == Dir)
      case Act(_) => true
      case Work(r, pick) =>
        && (r == Rd && InTask(s.o.node, Rd) ==> !Whole(s.pending))
        && (r == Deal && s.o.node.at[Deal].stage.Hand? ==> s.o.passed)
        && (r == Wr ==> !Sends(s.o.node, pick))
  }

  predicate CanTurn(s: Stream, t: Turn) {
    match t
    case Recv(_) =>
      && Complete(s.o.node) && InTask(s.o.node, Rd) && READER in s.o.node.jobs
      && s.o.node.jobs[READER] == Nothing && !s.o.handed && !Whole(s.pending) && !Frame(s.pending).bad
    case Send(pick, n) =>
      && Can(s.o, Plain(Work(Wr, pick))) && Sends(s.o.node, pick)
      && s.cut + n <= |BytesOf(s.text, Sendable(s.o.node.at[Wr]))|
      && pick.n == WholeIn(s.text, Sendable(s.o.node.at[Wr]), s.cut + n)
    case Own(e) => Can(s.o, e) && Echoes(s, e)
  }

  function Take(s: Stream, t: Turn): Stream
    requires CanTurn(s, t)
  {
    match t
    case Recv(chunk) => s.(received := s.received + chunk, pending := s.pending + chunk)
    case Send(pick, n) =>
      var q := Sendable(s.o.node.at[Wr]);
      s.(o := Do(s.o, Plain(Work(Wr, pick))),
         sent := s.sent + BytesOf(s.text, q)[s.cut..s.cut + n],
         cut := s.cut + n - GoneIn(s.text, q, s.cut + n))
    case Own(e) =>
      if e.Plain? && e.inner.Begin? && Thread(e.inner.p) == READER then
        s.(o := Do(s.o, e), pending := s.pending[First(s.pending)..],
           text := s.text[NumberOf(s.o.rcv) := s.pending[..First(s.pending)]])
      else
        s.(o := Do(s.o, e))
  }

  function NumberOf(rcv: seq<Msg>): nat {
    if rcv != [] && rcv[0].Other? then rcv[0].id else 0
  }

  /** The bytes of the messages that are gone whole. */
  function GoneIn(text: map<nat, seq<Byte>>, q: seq<Msg>, n: nat): (k: nat)
    requires n <= |BytesOf(text, q)|
    ensures k <= n
  {
    WholeIsWithin(text, q, n);
    |BytesOf(text, q[..WholeIn(text, q, n)])|
  }

  lemma {:induction false} WholeIsWithin(text: map<nat, seq<Byte>>, q: seq<Msg>, n: nat)
    ensures |BytesOf(text, q[..WholeIn(text, q, n)])| <= n
  {
    var k := WholeIn(text, q, n);
    if k == 0 {
      assert Texts(text, q[..0]) == [];
    } else {
      WholeIsWithin(text, q[1..], n - |TextOf(text, q[0])|);
      assert Texts(text, q[..k]) == [TextOf(text, q[0])] + Texts(text, q[1..][..k - 1]);
      FlatCons(TextOf(text, q[0]), Texts(text, q[1..][..k - 1]));
    }
  }

  // The invariant.

  /** Everything in the queue is a message that was dispatched. */
  predicate Named(text: map<nat, seq<Byte>>, q: seq<Msg>) {
    forall i :: 0 <= i < |q| ==> q[i].Other? && q[i].id in text
  }

  function Dispatched(o: Owned): seq<Msg> {
    if READER in o.node.jobs && o.node.jobs[READER].Put? then o.rcv else []
  }

  /** The messages dispatched are the first frames of the bytes received, and `pending` is the rest. */
  ghost predicate ReaderOk(s: Stream)
    requires Complete(s.o.node) && READER in s.o.node.jobs
  {
    && Frame(s.received)
       == Then(Frames(Texts(s.text, s.o.node.at[Deal].pushed + Dispatched(s.o)), [], false), Frame(s.pending))
    && Named(s.text, s.o.node.at[Deal].pushed + Dispatched(s.o))
    && (forall id :: id in s.text ==> id < s.o.next)
    && (s.o.rcv != [] ==> s.o.rcv[0].Other? && s.o.rcv[0].id < s.o.next)
    && (s.o.rcv != [] && s.o.node.jobs[READER] == Nothing && !s.o.handed ==> s.o.rcv[0].id !in s.text)
    && (s.o.node.jobs[READER] != Nothing && !s.o.node.jobs[READER].Put? ==> s.o.handed)
  }

  /** The message the dealer has still to pass on. */
  function Keeps(o: Owned): seq<Msg>
    requires Complete(o.node)
  {
    if o.node.at[Deal].stage.Hand? && !o.passed then [o.node.at[Deal].stage.msg] else []
  }

  /** What the dealer took it has passed on, in order. */
  predicate DealerOk(o: Owned)
    requires Complete(o.node)
  {
    o.node.at[Wr].pushed + Keeps(o) == o.node.at[Deal].taken
  }

  /** What was sent is what the sender took, and the first bytes of what it has. */
  ghost predicate SenderOk(s: Stream)
    requires Complete(s.o.node)
  {
    var st := s.o.node.at[Wr];
    && s.sent <= BytesOf(s.text, st.pushed)
    && (!Ended(s.o.node) ==>
          && s.cut <= |BytesOf(s.text, st.que)|
          && s.sent == BytesOf(s.text, st.taken) + BytesOf(s.text, st.que)[..s.cut])
  }

  /** Only reader and dealer push to the dealer and the sender. */
  predicate PushersOk(o: Owned) {
    forall w :: w in o.node.jobs && w != READER && w != DEALER && o.node.jobs[w].Put? ==> o.node.jobs[w].role == Dir
  }

  ghost predicate EchoInv(s: Stream) {
    && OwnInv(s.o) && Complete(s.o.node) && CallsOk(s.o)
    && PushersOk(s.o) && ReaderOk(s) && DealerOk(s.o) && SenderOk(s)
  }

  // Texts.

  lemma BytesJoin(text: map<nat, seq<Byte>>, a: seq<Msg>, b: seq<Msg>)
    ensures Texts(text, a + b) == Texts(text, a) + Texts(text, b)
    ensures BytesOf(text, a + b) == BytesOf(text, a) + BytesOf(text, b)
  {
    hide Flat, TextOf;
    assert Texts(text, a + b) == Texts(text, a) + Texts(text, b);
    FlatAppend(Texts(text, a), Texts(text, b));
  }

  lemma TextsSame(text: map<nat, seq<Byte>>, id: nat, f: seq<Byte>, q: seq<Msg>)
    requires id !in text && Named(text, q)
    ensures Texts(text[id := f], q) == Texts(text, q) && Named(text[id := f], q)
  {
  }

  // What a step does to a mailbox.

  function PutBy(s: State, l: Label, r: Role): seq<Msg>
    requires Enabled(s, l)
  {
    if l.Act? && s.jobs[l.who].Put? && s.jobs[l.who].role == r then [s.jobs[l.who].msg] else []
  }

  lemma OthersMail(s: State, l: Label, r: Role)
    requires Enabled(s, l) && !IsEof(s, l) && !(l.Work? && l.role == r)
    ensures Complete(Apply(s, l))
    ensures var st, st' := s.at[r], Apply(s, l).at[r];
      && st'.pushed == st.pushed + PutBy(s, l, r) && st'.taken == st.taken && st'.que == st.que
      && st'.stage == st.stage
  {
    hide Apply;
    StepTouches(s, l);
    if TaskOf(s, l) == r {
      match l
      case Begin(_, _) => BeginKeepsTasks(s, l);
      case Act(w) => JobMail(s, w);
    }
  }

  lemma JobMail(s: State, w: Who)
    requires Enabled(s, Act(w))
    ensures Complete(Apply(s, Act(w)))
    ensures var r := s.jobs[w].role;
      var st, st' := s.at[r], Apply(s, Act(w)).at[r];
      && st'.pushed == st.pushed + PutBy(s, Act(w), r) && st'.taken == st.taken && st'.que == st.que
      && st'.stage == st.stage
  {
    hide Hit, HitEnd, Wins, EndWins;
  }

  /** The dealer takes the first message when its hand is empty. */
  lemma DealerMail(s: State, pick: Pick)
    requires Inv(s) && Enabled(s, Work(Deal, pick))
    ensures Complete(Apply(s, Work(Deal, pick)))
    ensures var st, st' := s.at[Deal], Apply(s, Work(Deal, pick)).at[Deal];
      && st'.pushed == st.pushed
      && (st.stage.Hand? ==> st'.taken == st.taken && !st'.stage.Hand?)
      && (!st.stage.Hand? ==> st'.taken == st.taken + if st'.stage.Hand? then [st'.stage.msg] else [])
  {
    hide Inv, SlotInv, PlainInv, HistoryInv, Settle, Lock, CallTask, CallEnd, EndSeen, Freed, DealCmd;
    At(s, Deal, Worker(Deal));
    Parts(Deal, s.at[Deal]);
    assert s.at[Deal].que != [] ==> s.at[Deal].que[..1] == [s.at[Deal].que[0]];
  }

  /** Between its calls of sendQue the sender only splices. */
  lemma SenderMail(s: State, pick: Pick)
    requires Inv(s) && Enabled(s, Work(Wr, pick)) && !Sends(s, pick)
    ensures Complete(Apply(s, Work(Wr, pick)))
    ensures var st, st' := s.at[Wr], Apply(s, Work(Wr, pick)).at[Wr];
      && st'.pushed == st.pushed && st'.taken == st.taken && (st'.que == st.que || st'.que == st.que + st.tmp)
  {
    hide Inv, SlotInv, PlainInv, HistoryInv, Settle, Lock, CallTask, CallEnd, EndSeen, Freed, DealCmd, Written;
    At(s, Wr, Worker(Wr));
    Parts(Wr, s.at[Wr]);
  }

  /** And its call of sendQue takes the messages that are gone whole off the front. */
  lemma SendMail(s: State, pick: Pick)
    requires Inv(s) && Enabled(s, Work(Wr, pick)) && Sends(s, pick) && pick.n <= |Sendable(s.at[Wr])|
    ensures Complete(Apply(s, Work(Wr, pick)))
    ensures var st, st', q := s.at[Wr], Apply(s, Work(Wr, pick)).at[Wr], Sendable(s.at[Wr]);
      && st'.pushed == st.pushed && st'.taken == st.taken + q[..pick.n] && st'.que == q[pick.n..]
  {
    hide Inv, SlotInv, PlainInv, HistoryInv, Settle, Lock, CallTask, CallEnd, EndSeen, Freed, DealCmd;
    At(s, Wr, Worker(Wr));
    Parts(Wr, s.at[Wr]);
  }

  lemma EofMail(s: State, l: Label, r: Role)
    requires Enabled(s, l) && IsEof(s, l)
    ensures Complete(Apply(s, l)) && Ended(Apply(s, l)) && Apply(s, l).jobs == s.jobs
    ensures var st, st' := s.at[r], Apply(s, l).at[r];
      st'.pushed == st.pushed && st'.taken == st.taken && (st'.stage == Rest || st'.stage == st.stage)
  {
    hide EndSeen, DealCmd;
  }

  // The turns.

  /** What a turn that leaves the node as it is does not touch. */
  lemma NodeSame(s: Stream, s': Stream)
    requires Complete(s.o.node) && PushersOk(s.o) && DealerOk(s.o) && SenderOk(s)
    requires s'.o.node == s.o.node && s'.o.passed == s.o.passed
    requires s'.text == s.text && s'.sent == s.sent && s'.cut == s.cut
    ensures PushersOk(s'.o) && DealerOk(s'.o) && SenderOk(s')
  {
  }

  lemma RecvKeeps(s: Stream, chunk: seq<Byte>)
    requires EchoInv(s) && CanTurn(s, Recv(chunk))
    ensures EchoInv(Take(s, Recv(chunk)))
  {
    hide OwnInv, CallsOk, PushersOk, DealerOk, SenderOk, Named;
    var s' := Take(s, Recv(chunk));
    NodeSame(s, s');
    assert Frame(s.pending) == Frames([], s.pending, false);
    var texts := Texts(s.text, s.o.node.at[Deal].pushed + Dispatched(s.o));
    assert texts + [] == texts;
    hide Frame;
    FrameAppend(s.received, chunk);
    assert Frame(s'.received) == Then(Frames(texts, [], false), Frame(s'.pending));
  }

  lemma ReaderKeeps(s: Stream, e: Ownership.Step)
    requires EchoInv(s) && CanTurn(s, Own(e)) && !e.Plain?
    ensures EchoInv(Take(s, Own(e)))
  {
    hide OwnInv, PushersOk, DealerOk, SenderOk, Named, Frame, GoodHeader, Texts;
    var s' := Take(s, Own(e));
    StepKeepsOwn(s.o, e);
    OwnIsOk(s'.o);
    NodeSame(s, s');
  }

  lemma OwnIsOk(o: Owned)
    requires OwnInv(o)
    ensures Complete(o.node) && Inv(o.node) && CallsOk(o)
  {
    hide Inv, Account, CallsOk;
  }

  lemma BeginNode(o: Owned, p: nat, job: Job)
    requires Can(o, Plain(Begin(p, job)))
    ensures var o' := Do(o, Plain(Begin(p, job)));
      && o'.node == o.node.(jobs := o.node.jobs[Thread(p) := job]) && o'.rcv == o.rcv && o'.handed == o.handed
      && o'.passed == o.passed && o'.next >= o.next && (Thread(p) == READER ==> o'.next == o.next)
      && o.node.jobs[Thread(p)] == Nothing
  {
  }

  lemma OneText(text: map<nat, seq<Byte>>, q: seq<Msg>, id: nat, f: seq<Byte>)
    requires |q| == 1 && q[0] == Other(id) && id in text && text[id] == f
    ensures Texts(text, q) == [f]
  {
  }

  lemma FrameOn(all: seq<Byte>, texts: seq<seq<Byte>>, pending: seq<Byte>)
    requires Frame(all) == Then(Frames(texts, [], false), Frame(pending)) && Whole(pending)
    ensures var n := First(pending);
      Frame(all) == Then(Frames(texts + [pending[..n]], [], false), Frame(pending[n..]))
  {
    var n := First(pending);
    var more := Frame(pending[n..]);
    assert Frame(pending) == Frames([pending[..n]] + more.msgs, more.rest, more.bad);
    Assoc(texts, [pending[..n]], more.msgs);
  }

  /** What the sender was given came from the dealer, and to the dealer from the reader. */
  lemma WriterNamed(s: Stream)
    requires EchoInv(s)
    ensures var st, d := s.o.node.at[Wr], s.o.node.at[Deal];
      && Named(s.text, st.pushed) && Named(s.text, st.taken) && Named(s.text, st.que) && Named(s.text, st.tmp)
      && st.pushed <= d.taken <= d.pushed
      && st.pushed == st.taken + st.freed + st.que + st.tmp
  {
    hide OwnInv, Inv, CallsOk, SlotInv, StageInv, PlainInv, Frame;
    OwnIsOk(s.o);
    At(s.o.node, Wr, Worker(Wr));
    At(s.o.node, Deal, Worker(Deal));
    var st, d := s.o.node.at[Wr], s.o.node.at[Deal];
    InOrder3(d.taken, d.freed, d.que, d.tmp);
    NamedParts(s.text, st.taken, st.freed, st.que, st.tmp, d.pushed + Dispatched(s.o));
  }

  lemma InOrder3(a: seq<Msg>, b: seq<Msg>, c: seq<Msg>, d: seq<Msg>)
    ensures a <= a + b + c + d
  {
    assert a + b + c + d == a + (b + c + d);
  }

  lemma NamedParts(
      text: map<nat, seq<Byte>>, a: seq<Msg>, b: seq<Msg>, c: seq<Msg>, d: seq<Msg>, all: seq<Msg>)
    requires Named(text, all) && a + b + c + d <= all
    ensures Named(text, a) && Named(text, c) && Named(text, d) && Named(text, a + b + c + d)
  {
    var q := a + b + c + d;
    assert forall i :: 0 <= i < |q| ==> q[i] == all[i];
    assert forall i :: 0 <= i < |a| ==> a[i] == q[i];
    assert forall i :: 0 <= i < |c| ==> c[i] == q[|a| + |b| + i];
    assert forall i :: 0 <= i < |d| ==> d[i] == q[|a| + |b| + |c| + i];
  }

  lemma SenderSame(s: Stream, s': Stream, id: nat, f: seq<Byte>)
    requires Complete(s.o.node) && Complete(s'.o.node) && SenderOk(s)
    requires s'.o.node.at == s.o.node.at && s'.text == s.text[id := f] && id !in s.text
    requires s'.sent == s.sent && s'.cut == s.cut
    requires Named(s.text, s.o.node.at[Wr].pushed) && Named(s.text, s.o.node.at[Wr].taken)
    requires Named(s.text, s.o.node.at[Wr].que)
    ensures SenderOk(s')
  {
    hide Flat, Named, Texts;
    TextsSame(s.text, id, f, s.o.node.at[Wr].pushed);
    TextsSame(s.text, id, f, s.o.node.at[Wr].taken);
    TextsSame(s.text, id, f, s.o.node.at[Wr].que);
  }

  /** Dispatch: the first whole frame becomes the text of the message. */
  lemma DispatchKeeps(s: Stream, job: Job)
    requires EchoInv(s) && CanTurn(s, Own(Plain(Begin(0, job))))
    ensures EchoInv(Take(s, Own(Plain(Begin(0, job)))))
  {
    hide OwnInv, Inv, Frame, Flat, Whole, Texts, Named;
    var e := Plain(Begin(0, job));
    var s' := Take(s, Own(e));
    StepKeepsOwn(s.o, e);
    OwnIsOk(s'.o);
    BeginNode(s.o, 0, job);
    WriterNamed(s);
    SenderSame(s, s', NumberOf(s.o.rcv), s.pending[..First(s.pending)]);
    hide SenderOk, CallsOk;
    DispatchReads(s, s');
  }

  lemma DispatchReads(s: Stream, s': Stream)
    requires Complete(s.o.node) && READER in s.o.node.jobs && ReaderOk(s) && Whole(s.pending)
    requires |s.o.rcv| == 1 && s.o.node.jobs[READER] == Nothing && !s.o.handed && s'.o.handed == s.o.handed
    requires Complete(s'.o.node) && s'.o.node.at == s.o.node.at && s'.o.rcv == s.o.rcv && s'.o.next == s.o.next
    requires READER in s'.o.node.jobs && s'.o.node.jobs[READER].Put? && s'.received == s.received
    requires s'.text == s.text[NumberOf(s.o.rcv) := s.pending[..First(s.pending)]]
    requires s'.pending == s.pending[First(s.pending)..]
    ensures ReaderOk(s')
  {
    hide Frame, Whole;
    var id, f, q := NumberOf(s.o.rcv), s.pending[..First(s.pending)], s.o.node.at[Deal].pushed;
    assert q + [] == q;
    TextsSame(s.text, id, f, q);
    BytesJoin(s'.text, q, s.o.rcv);
    OneText(s'.text, s.o.rcv, id, f);
    FrameOn(s.received, Texts(s.text, q), s.pending);
  }

  // Any other step of the node.

  predicate OtherStep(s: Stream, l: Label) {
    CanTurn(s, Own(Plain(l))) && !(l.Begin? && Thread(l.p) == READER)
  }

  lemma PushersKept(s: Stream, l: Label)
    requires EchoInv(s) && OtherStep(s, l)
    ensures PushersOk(Do(s.o, Plain(l)))
  {
    hide OwnInv, Inv, CallsOk, ReaderOk, DealerOk, SenderOk, Apply;
    var n := s.o.node;
    OwnIsOk(s.o);
    if IsEof(n, l) {
      EofMail(n, l, Dir);
    } else {
      StepTouches(n, l);
      NewJob(n, l);
    }
  }

  /** The job that a step leaves its actor. */
  lemma NewJob(s: State, l: Label)
    requires Inv(s) && Enabled(s, l) && !IsEof(s, l)
    ensures var w, s' := ActorOf(l), Apply(s, l);
      && w in s'.jobs
      && (if l.Begin? then s'.jobs[w] == l.job else s'.jobs[w].Put? ==> s'.jobs[w].role == Dir)
  {
    hide Inv, Settle, Hit, HitEnd, Wins, EndWins, Handled, Ending, Freed, DealCmd;
    StepTouches(s, l);
    if l.Work? && l.role == Dir && s.at[Dir].slot.place.Running? && !EndSeen(s.at[Dir].slot) && s.at[Dir].stage.Hand? {
      CmdEffect(s, l.pick);
    }
  }

  /** Only dispatch and the dealer's reply put anything into the two mailboxes. */
  lemma PutsAre(o: Owned, l: Label)
    requires Complete(o.node) && CallsOk(o) && PushersOk(o) && Enabled(o.node, l)
    ensures PutBy(o.node, l, Deal) == if l == Act(READER) && o.node.jobs[READER].Put? then o.rcv else []
    ensures PutBy(o.node, l, Wr)
         == if l == Act(DEALER) && o.node.jobs[DEALER].Put? then [o.node.at[Deal].stage.msg] else []
  {
    hide InTask;
  }

  lemma ReaderKept(s: Stream, l: Label)
    requires EchoInv(s) && OtherStep(s, l)
    ensures var s' := Take(s, Own(Plain(l))); Complete(s'.o.node) && READER in s'.o.node.jobs && ReaderOk(s')
  {
    hide OwnInv, Inv, DealerOk, SenderOk, Apply, Named, Texts, Frame, Born, Dies;
    var n, s' := s.o.node, Take(s, Own(Plain(l)));
    OwnIsOk(s.o);
    PushedBy(s, l);
  }

  lemma PushedBy(s: Stream, l: Label)
    requires EchoInv(s) && OtherStep(s, l)
    ensures var n, o' := s.o.node, Do(s.o, Plain(l));
      && Complete(o'.node) && READER in o'.node.jobs
      && o'.node.at[Deal].pushed + Dispatched(o') == n.at[Deal].pushed + Dispatched(s.o)
      && (o'.node.jobs[READER] == n.jobs[READER]
          || (n.jobs[READER] != Nothing && !o'.node.jobs[READER].Put? && (n.jobs[READER].Put? ==> o'.handed)))
  {
    hide OwnInv, Inv, DealerOk, SenderOk, Apply, Named, Texts, Frame, Born, Dies;
    var n, o' := s.o.node, Do(s.o, Plain(l));
    OwnIsOk(s.o);
    PutsAre(s.o, l);
    if IsEof(n, l) {
      NothingInHand(s.o);
      EofMail(n, l, Deal);
    } else {
      CallStays(n, l, READER);
      if l.Work? && l.role == Deal {
        DealerMail(n, l.pick);
      } else {
        OthersMail(n, l, Deal);
      }
    }
  }

  lemma DealerKept(s: Stream, l: Label)
    requires EchoInv(s) && OtherStep(s, l)
    ensures Complete(Do(s.o, Plain(l)).node) && DealerOk(Do(s.o, Plain(l)))
  {
    hide OwnInv, Inv, ReaderOk, SenderOk, Apply, Born, Dies, InTask, Whole, Sends;
    var n := s.o.node;
    OwnIsOk(s.o);
    if IsEof(n, l) {
      NothingInHand(s.o);
      EofMail(n, l, Deal);
      EofMail(n, l, Wr);
    } else if l.Work? && l.role == Deal {
      DealerMail(n, l.pick);
      OthersMail(n, l, Wr);
    } else {
      hide Echoes, CanTurn;
      DealerWaits(s.o, l);
    }
  }

  lemma DealerWaits(o: Owned, l: Label)
    requires Inv(o.node) && Complete(o.node) && CallsOk(o) && PushersOk(o) && DealerOk(o) && Can(o, Plain(l))
    requires !IsEof(o.node, l) && !(l.Work? && (l.role == Deal || (l.role == Wr && Sends(o.node, l.pick))))
    ensures Complete(Do(o, Plain(l)).node) && DealerOk(Do(o, Plain(l)))
  {
    hide Inv, Apply, Born, Dies, InTask, Sends;
    PutsAre(o, l);
    OthersMail(o.node, l, Deal);
    if l.Work? && l.role == Wr {
      SenderMail(o.node, l.pick);
    } else {
      OthersMail(o.node, l, Wr);
    }
    hide PutBy, IsEof, PushersOk;
  }

  lemma SenderKept(s: Stream, s': Stream, l: Label)
    requires EchoInv(s) && OtherStep(s, l) && s' == Take(s, Own(Plain(l)))
    ensures Complete(s'.o.node) && SenderOk(s')
  {
    hide OwnInv, Inv, ReaderOk, DealerOk, SenderOk, PushersOk, CallsOk, Apply, Do, Can, OtherStep, CanTurn;
    OwnIsOk(s.o);
    StepIs(s, l);
    hide Take;
    var n := s.o.node;
    FlagsGrow(n, l, Dir);
    SenderStation(n, l);
    SenderOn(s, s');
  }

  lemma StepIs(s: Stream, l: Label)
    requires OtherStep(s, l)
    ensures CanTurn(s, Own(Plain(l))) && Can(s.o, Plain(l))
    ensures Complete(s.o.node) && Enabled(s.o.node, l) && !(l.Work? && l.role == Wr && Sends(s.o.node, l.pick))
    ensures Take(s, Own(Plain(l))) == s.(o := Do(s.o, Plain(l))) && Do(s.o, Plain(l)).node == Apply(s.o.node, l)
  {
    hide Sends, Apply, Born, Dies;
  }

  lemma SenderStation(s: State, l: Label)
    requires Inv(s) && Enabled(s, l) && !(l.Work? && l.role == Wr && Sends(s, l.pick))
    ensures Complete(Apply(s, l))
    ensures var st, st' := s.at[Wr], Apply(s, l).at[Wr];
      && st.pushed <= st'.pushed && st'.taken == st.taken && (!Ended(Apply(s, l)) ==> st.que <= st'.que)
  {
    hide Inv, Apply, Sends;
    if IsEof(s, l) {
      EofMail(s, l, Wr);
    } else if l.Work? && l.role == Wr {
      SenderMail(s, l.pick);
    } else {
      OthersMail(s, l, Wr);
    }
  }

  lemma SenderOn(s: Stream, s': Stream)
    requires Complete(s.o.node) && Complete(s'.o.node) && SenderOk(s) && (Ended(s.o.node) ==> Ended(s'.o.node))
    requires s'.text == s.text && s'.sent == s.sent && s'.cut == s.cut
    requires var st, st' := s.o.node.at[Wr], s'.o.node.at[Wr];
      && st.pushed <= st'.pushed && st'.taken == st.taken && (!Ended(s'.o.node) ==> st.que <= st'.que)
    ensures SenderOk(s')
  {
    hide Flat, Texts;
    var st, st' := s.o.node.at[Wr], s'.o.node.at[Wr];
    BytesJoin(s.text, st.pushed, st'.pushed[|st.pushed|..]);
    assert st.pushed + st'.pushed[|st.pushed|..] == st'.pushed;
    if !Ended(s'.o.node) {
      BytesJoin(s.text, st.que, st'.que[|st.que|..]);
      assert st.que + st'.que[|st.que|..] == st'.que;
    }
  }

  lemma PlainKeeps(s: Stream, l: Label)
    requires EchoInv(s) && OtherStep(s, l)
    ensures EchoInv(Take(s, Own(Plain(l))))
  {
    hide OwnInv, PushersOk, ReaderOk, DealerOk, SenderOk, CallsOk, Apply, Born, Dies, Inv;
    StepKeepsOwn(s.o, Plain(l));
    OwnIsOk(Do(s.o, Plain(l)));
    PushersKept(s, l);
    ReaderKept(s, l);
    DealerKept(s, l);
    SenderKept(s, Take(s, Own(Plain(l))), l);
  }

  // The call of sendQue.

  lemma SendKeeps(s: Stream, pick: Pick, n: nat)
    requires EchoInv(s) && CanTurn(s, Send(pick, n))
    ensures EchoInv(Take(s, Send(pick, n)))
  {
    hide OwnInv, Inv, PushersOk, ReaderOk, DealerOk, SenderOk, CallsOk, Apply, Born, Dies, WholeIn, BytesOf;
    var s' := Take(s, Send(pick, n));
    StepKeepsOwn(s.o, Plain(Work(Wr, pick)));
    OwnIsOk(s.o);
    OwnIsOk(s'.o);
    SendTouches(s.o, pick);
    SendLeaves(s, s');
    SendTakes(s, s', pick, n);
  }

  lemma SendTouches(o: Owned, pick: Pick)
    requires Can(o, Plain(Work(Wr, pick))) && Sends(o.node, pick) && Inv(o.node)
    requires pick.n <= |Sendable(o.node.at[Wr])|
    ensures var o' := Do(o, Plain(Work(Wr, pick)));
      && Complete(o'.node) && READER in o'.node.jobs
      && o'.rcv == o.rcv && o'.handed == o.handed && o'.passed == o.passed && o'.next == o.next
      && o'.node.at == o.node.at[Wr := o'.node.at[Wr]] && !Ended(o.node) && !Ended(o'.node)
      && (forall w :: w in o'.node.jobs && w.Thread? ==> w in o.node.jobs && o'.node.jobs[w] == o.node.jobs[w])
      && (forall w :: w in o'.node.jobs && w.Worker? && o'.node.jobs[w].Put? ==>
            o'.node.jobs[w].role == Dir || (w in o.node.jobs && o.node.jobs[w] == o'.node.jobs[w]))
    ensures var st, st', q := o.node.at[Wr], Do(o, Plain(Work(Wr, pick))).node.at[Wr], Sendable(o.node.at[Wr]);
      && st'.pushed == st.pushed && st'.taken == st.taken + q[..pick.n] && st'.que == q[pick.n..]
      && st.pushed == st.taken + st.que + st.tmp
  {
    hide Inv, Apply, Born, Dies, SlotInv, StageInv, PlainInv;
    var s, l := o.node, Work(Wr, pick);
    StepTouches(s, l);
    NewJob(s, l);
    SendMail(s, pick);
    SendMoment(s, pick);
    EndIsEof(s, l);
    At(s, Wr, Worker(Wr));
    Parts(Wr, s.at[Wr]);
    assert s.at[Wr].taken + [] == s.at[Wr].taken;
  }

  /** The sender has not told its end yet, so nothing was freed. */
  lemma SendMoment(s: State, pick: Pick)
    requires Inv(s) && Enabled(s, Work(Wr, pick)) && Sends(s, pick)
    ensures !Ended(s) && s.at[Wr].freed == []
  {
    hide Inv, SlotInv, PlainInv, HistoryInv;
    At(s, Wr, Worker(Wr));
    Parts(Wr, s.at[Wr]);
    QueuedIsLive(s.at[Wr].slot);
    UntoldIsWhole(s, Wr);
    if Ended(s) {
      EndedIsOver(s, Wr);
    }
  }

  lemma SendLeaves(s: Stream, s': Stream)
    requires Complete(s.o.node) && CallsOk(s.o) && PushersOk(s.o) && ReaderOk(s) && DealerOk(s.o)
    requires Complete(s'.o.node) && s'.o.rcv == s.o.rcv && s'.o.handed == s.o.handed && s'.o.passed == s.o.passed
    requires s'.o.next == s.o.next && s'.o.node.at[Deal] == s.o.node.at[Deal] && READER in s'.o.node.jobs
    requires s'.o.node.at[Wr].pushed == s.o.node.at[Wr].pushed
    requires s'.text == s.text && s'.received == s.received && s'.pending == s.pending
    requires forall w :: w in s'.o.node.jobs && w.Thread? ==>
               w in s.o.node.jobs && s'.o.node.jobs[w] == s.o.node.jobs[w]
    requires forall w :: w in s'.o.node.jobs && w.Worker? && s'.o.node.jobs[w].Put? ==>
               s'.o.node.jobs[w].role == Dir || (w in s.o.node.jobs && s.o.node.jobs[w] == s'.o.node.jobs[w])
    ensures PushersOk(s'.o) && ReaderOk(s') && DealerOk(s'.o)
  {
    hide Frame, Texts, Named;
  }

  lemma SendTakes(s: Stream, s': Stream, pick: Pick, n: nat)
    requires Complete(s.o.node) && CanTurn(s, Send(pick, n)) && s' == Take(s, Send(pick, n))
    requires SenderOk(s) && !Ended(s.o.node)
    requires Complete(s'.o.node)
    requires var st, st', q := s.o.node.at[Wr], s'.o.node.at[Wr], Sendable(s.o.node.at[Wr]);
      && st'.pushed == st.pushed && st'.taken == st.taken + q[..pick.n] && st'.que == q[pick.n..]
      && st.pushed == st.taken + st.que + st.tmp
    ensures SenderOk(s')
  {
    hide Flat, Texts, WholeIn, Sends, Do, Can;
    var st, q := s.o.node.at[Wr], Sendable(s.o.node.at[Wr]);
    var k, b := pick.n, s.cut + n;
    WholeIsWithin(s.text, q, b);
    BytesJoin(s.text, st.que, st.tmp);
    BytesJoin(s.text, q[..k], q[k..]);
    assert q[..k] + q[k..] == q;
    BytesJoin(s.text, st.taken, q[..k]);
    var all, gone, left := BytesOf(s.text, q), BytesOf(s.text, q[..k]), BytesOf(s.text, q[k..]);
    assert BytesOf(s.text, st.que)[..s.cut] == all[..s.cut];
    CutOn(BytesOf(s.text, st.taken), all, gone, left, s.cut, n);
    SentIsFront(s, s', q, k, st);
  }

  lemma CutOn(taken: seq<Byte>, all: seq<Byte>, gone: seq<Byte>, left: seq<Byte>, cut: nat, n: nat)
    requires all == gone + left && |gone| <= cut + n <= |all|
    ensures taken + all[..cut] + all[cut..cut + n] == taken + gone + left[..cut + n - |gone|]
  {
    assert all[..cut] + all[cut..cut + n] == all[..cut + n];
    assert all[..cut + n] == gone + left[..cut + n - |gone|];
  }

  lemma SentIsFront(s: Stream, s': Stream, q: seq<Msg>, k: nat, st: Station)
    requires Complete(s'.o.node) && k <= |q| && s'.text == s.text
    requires q == st.que || q == st.que + st.tmp
    requires s'.o.node.at[Wr].pushed == st.taken + st.que + st.tmp
    requires s'.cut <= |BytesOf(s.text, q[k..])|
    requires s'.sent == BytesOf(s.text, st.taken + q[..k]) + BytesOf(s.text, q[k..])[..s'.cut]
    ensures s'.sent <= BytesOf(s'.text, s'.o.node.at[Wr].pushed)
  {
    hide Flat, Texts;
    var rest := if q == st.que then st.tmp else [];
    BytesJoin(s.text, st.taken + q[..k], q[k..]);
    BytesJoin(s.text, st.taken + q[..k] + q[k..], rest);
    assert st.taken + q[..k] + q[k..] + rest == st.taken + st.que + st.tmp;
    var a, b := BytesOf(s.text, st.taken + q[..k]), BytesOf(s.text, q[k..]);
    assert a + b[..s'.cut] <= a + b;
  }

  // Every run.

  ghost predicate Begins(s: Stream) {
    Starts(s.o) && s == Stream(s.o, [], [], map[], [], 0)
  }

  ghost predicate EchoNext(s: Stream, s': Stream) {
    exists t :: CanTurn(s, t) && s' == Take(s, t)
  }

  ghost predicate EchoRun(states: seq<Stream>) {
    && states != [] && Begins(states[0])
    && forall i :: 0 < i < |states| ==> EchoNext(states[i - 1], states[i])
  }

  lemma TurnKeepsInv(s: Stream, t: Turn)
    requires EchoInv(s) && CanTurn(s, t)
    ensures EchoInv(Take(s, t))
  {
    hide EchoInv, Take, Can, Echoes;
    match t
    case Recv(chunk) => RecvKeeps(s, chunk);
    case Send(pick, n) => SendKeeps(s, pick, n);
    case Own(e) =>
      if !e.Plain? {
        ReaderKeeps(s, e);
      } else if e.inner.Begin? && Thread(e.inner.p) == READER {
        DispatchKeeps(s, e.inner.job);
      } else {
        PlainKeeps(s, e.inner);
      }
  }

  lemma BeginsInv(s: Stream)
    requires Begins(s)
    ensures EchoInv(s)
  {
    hide OwnInv;
    StartsInv(s.o);
    OwnIsOk(s.o);
    assert Frame([]) == Frames([], [], false);
  }

  lemma {:induction false} EchoRunInv(states: seq<Stream>)
    requires EchoRun(states)
    ensures EchoInv(states[|states| - 1])
    decreases |states|
  {
    hide EchoInv, CanTurn, Take, Begins;
    var n := |states| - 1;
    if n == 0 {
      BeginsInv(states[0]);
    } else {
      EchoRunInv(states[..n]);
      assert EchoNext(states[n - 1], states[n]);
      var t :| CanTurn(states[n - 1], t) && states[n] == Take(states[n - 1], t);
      TurnKeepsInv(states[n - 1], t);
    }
  }

  /** Nothing is on its way through the node. */
  predicate Quiet(s: Stream) {
    && Complete(s.o.node) && !Ended(s.o.node) && Dispatched(s.o) == [] && Keeps(s.o) == []
    && s.o.node.at[Deal].que == s.o.node.at[Deal].tmp == [] && s.o.node.at[Wr].que == s.o.node.at[Wr].tmp == []
  }

  /** In every run the messages that reach the dealer are the first frames of the bytes received, and the bytes
      sent are the first of the bytes received; when nothing is on its way they are all of them but the bytes
      still to be parsed. */
  lemma EchoIsPrefix(states: seq<Stream>)
    requires EchoRun(states)
    ensures var s := states[|states| - 1];
      && Complete(s.o.node)
      && Texts(s.text, s.o.node.at[Deal].pushed) <= Frame(s.received).msgs
      && s.sent <= s.received
      && (Quiet(s) ==> s.received == s.sent + s.pending)
  {
    hide EchoRun, EchoInv, Frame;
    EchoRunInv(states);
    var s := states[LastStream(states)];
    FramesFirst(s);
    SentFirst(s);
  }

  function LastStream(states: seq<Stream>): nat
    requires EchoRun(states)
  {
    |states| - 1
  }

  lemma FramesFirst(s: Stream)
    requires EchoInv(s)
    ensures Complete(s.o.node)
    ensures var q := s.o.node.at[Deal].pushed;
      && Texts(s.text, q) <= Frame(s.received).msgs
      && s.received == BytesOf(s.text, q) + BytesOf(s.text, Dispatched(s.o)) + s.pending
  {
    hide OwnInv, DealerOk, SenderOk, PushersOk, CallsOk, Named, Frame, Flat, TextOf;
    var q, d := s.o.node.at[Deal].pushed, Dispatched(s.o);
    BytesJoin(s.text, q, d);
    var texts, f := Texts(s.text, q + d), Frame(s.pending);
    FrameKeepsAll(s.received);
    FrameKeepsAll(s.pending);
    FlatAppend(texts, f.msgs);
    Assoc(Flat(texts), Flat(f.msgs), f.rest);
  }

  lemma SentFirst(s: Stream)
    requires EchoInv(s)
    requires s.received == BytesOf(s.text, s.o.node.at[Deal].pushed) + BytesOf(s.text, Dispatched(s.o)) + s.pending
    ensures s.sent <= s.received
    ensures Quiet(s) ==> s.received == s.sent + s.pending
  {
    hide OwnInv, PushersOk, ReaderOk, CallsOk, Named, Frame, Flat, Texts;
    WriterNamed(s);
    var st, d := s.o.node.at[Wr], s.o.node.at[Deal];
    BytesJoin(s.text, st.pushed, d.pushed[|st.pushed|..]);
    assert st.pushed + d.pushed[|st.pushed|..] == d.pushed;
    if Quiet(s) {
      QuietIsAll(s);
    }
  }

  lemma QuietIsAll(s: Stream)
    requires EchoInv(s) && Quiet(s)
    ensures s.o.node.at[Deal].pushed == s.o.node.at[Wr].taken
    ensures s.sent == BytesOf(s.text, s.o.node.at[Wr].taken) && BytesOf(s.text, Dispatched(s.o)) == []
  {
    hide OwnInv, PushersOk, ReaderOk, CallsOk, Named, Frame, Inv, SlotInv, StageInv, PlainInv;
    OwnIsOk(s.o);
    At(s.o.node, Deal, Worker(Deal));
    At(s.o.node, Wr, Worker(Wr));
    FreedNothing(s.o.node, Deal);
    FreedNothing(s.o.node, Wr);
    var st, d := s.o.node.at[Wr], s.o.node.at[Deal];
    assert st.pushed + [] == st.pushed && st.taken + [] + [] + [] == st.taken && d.taken + [] + [] + [] == d.taken;
    assert Texts(s.text, []) == [];
  }

  lemma FreedNothing(s: State, r: Role)
    requires Inv(s) && Complete(s) && !Ended(s)
    ensures s.at[r].freed == []
  {
    hide Inv;
    assert FreedInv(s) by { InvHasFreed(s); }
    assert FreedOk(s, r);
  }

  lemma InvHasFreed(s: State)
    requires Inv(s)
    ensures Complete(s) && FreedInv(s)
  {
    hide StationsInv, TokenInv, LogInv, MailInv, JobsInv, PushersInv, FreedInv;
  }
}
