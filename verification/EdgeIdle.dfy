/** A handler with nothing to do lets go: what reader and sender answer to the socket, and that they go idle once it
    has nothing for them. */
module EdgeIdle {
  import opened Fairness
  import opened Gate
  import opened Lists
  import opened Node
  import opened NodeSafety
  import opened NodeSteps
  import opened NodeRank
  import opened NodeShutdown
  import opened NodeLiveness
  import opened NodeIdle
  import opened Edge

  /** A reader without error asks the socket, and answers: again when it had bytes, otherwise done. */
  lemma ReaderAnswers(c: Conn, more: bool)
    requires Complete(c.node) && AsksSocket(c.node, Rd) && c.node.jobs[Worker(Rd)] == Nothing && !c.rd.failed
    ensures Can(c, Recv(more))
    ensures var c' := Do(c, Recv(more));
      Complete(c'.node) && c'.node.at[Rd].slot.place == Returned(if c.rd.ready then EV_IN else EV_NORM)
  {
  }

  lemma SenderReturns(s: State, pick: Pick)
    requires Enabled(s, Work(Wr, pick)) && AsksSocket(s, Wr)
    ensures var st, que := Apply(s, Work(Wr, pick)).at[Wr], s.at[Wr].que;
      st.slot.place == Returned(pick.ret) && st.que == que[if pick.n < |que| then pick.n else |que|..]
  {
    hide Settle, Lock, DealCmd, Freed;
  }

  /** The answer of the sender, by what it leaves: done when nothing is left, parked when the socket was full, and
      otherwise again. */
  lemma SenderAnswers(c: Conn, n: nat, full: bool)
    requires Complete(c.node) && AsksSocket(c.node, Wr) && c.node.jobs[Worker(Wr)] == Nothing && !c.wr.failed
    ensures Can(c, SendVec(n, full))
    ensures var c' := Do(c, SendVec(n, full)); Complete(c'.node) && c'.node.at[Wr].slot.place.Returned?
    ensures var st := Do(c, SendVec(n, full)).node.at[Wr];
      var ret, left := st.slot.place.ret, st.que;
      && (ret == EV_NORM <==> left == [])
      && (ret == EV_WRITE <==> left != [] && !c.wr.ready)
      && (ret == EV_IN <==> left != [] && c.wr.ready)
  {
    hide Apply, Polled;
    var l := LabelOf(c, SendVec(n, full));
    SenderReturns(c.node, l.pick);
    FlagsGrow(c.node, l, Wr);
  }

  // Nothing to do.

  /** No message is queued for the sender or on its way to it. */
  predicate NothingToSend(s: State) {
    Complete(s) && s.at[Wr].que == [] && s.at[Wr].tmp == [] && Putters(s, Wr) == {}
  }

  /** The socket has nothing for r. */
  predicate Bare(c: Conn, r: Role) {
    if r == Rd then !c.rd.ready else !c.wr.ready || NothingToSend(c.node)
  }

  /** The step does not make the socket ready for r and begins no call for r. */
  predicate Still(e: Step, r: Role) {
    match e
    case Arrive => r != Rd
    case Drain => r != Wr
    case PollRead(_) => r != Rd
    case PollWrite(_) => r != Wr
    case Plain(Begin(_, job)) => job == Nothing || job.role != r
    case _ => true
  }

  /** A step of the connection in which nothing comes for r is a quiet step of the node. */
  lemma StillIsQuiet(c: Conn, e: Step, r: Role)
    requires Can(c, e) && Still(e, r) && Bare(c, r) && (r == Rd || r == Wr) && !e.Arrive? && !e.Drain?
    ensures Quiet(c.node, LabelOf(c, e), r)
  {
    hide Enabled;
  }

  lemma BareStays(c: Conn, e: Step, r: Role)
    requires ConnInv(c) && Can(c, e) && Still(e, r) && Bare(c, r) && (r == Rd || r == Wr)
    ensures Bare(Do(c, e), r)
  {
    hide Inv, Apply, Enabled, NothingToSend, ReadInv, WriteInv, CloseOk;
    if r == Wr && NothingToSend(c.node) && !e.Arrive? && !e.Drain? {
      NothingStays(c.node, LabelOf(c, e));
    }
  }

  lemma NothingStays(s: State, l: Label)
    requires Inv(s) && Enabled(s, l) && NothingToSend(s) && !BeginsCall(l, Wr)
    ensures NothingToSend(Apply(s, l))
  {
    hide Inv, Apply, JobStep, WorkStep, IsPut;
    if IsEof(s, l) {
      EofLeavesNothing(s, l);
    } else {
      StepTouches(s, l);
      NoPutComes(s, l);
      OneChanges(Putters(s, Wr), Putters(Apply(s, l), Wr), ActorOf(l));
      NoMailComes(s, l);
    }
  }

  lemma EofLeavesNothing(s: State, l: Label)
    requires Enabled(s, l) && IsEof(s, l) && NothingToSend(s)
    ensures NothingToSend(Apply(s, l))
  {
  }

  lemma NoPutComes(s: State, l: Label)
    requires Enabled(s, l) && !IsEof(s, l) && !BeginsCall(l, Wr)
    ensures ActorOf(l) in Apply(s, l).jobs && !IsPut(Apply(s, l).jobs[ActorOf(l)], Wr)
  {
    hide Hit, HitEnd, Wins, EndWins, Settle, Lock, Freed, Handled;
    if l.Work? {
      WorkGivesJob(s, l.role, l.pick, Wr);
    }
  }

  lemma NoMailComes(s: State, l: Label)
    requires Enabled(s, l) && !IsEof(s, l) && NothingToSend(s)
    ensures var s' := Apply(s, l); Complete(s') && s'.at[Wr].que == [] && s'.at[Wr].tmp == []
  {
    hide Hit, HitEnd, Wins, EndWins, Settle, Lock, Freed, DealCmd;
    StepTouches(s, l);
    if TaskOf(s, l) == Wr {
      assert l.Act? ==> l.who !in Putters(s, Wr);
    }
  }

  // The whole run.

  /** A pause of the connection is no step of the node that matters. */
  lemma PauseIsQuiet(s: State, l: Label, r: Role)
    requires Complete(s) && Steps(s, l, s) && (r == Rd || r == Wr)
    ensures Quiet(s, l, r)
  {
    hide Settle, Lock, DealCmd, Freed;
  }

  lemma ConnFollows(run: nat -> Conn, acts: nat -> Step, n: nat)
    requires FairRun(Socket(), run, acts) && ConnInv(run(n))
    ensures ConnInv(run(n + 1))
  {
    hide FairRun, ConnInv, Do, Can;
    StepsFollow(Socket(), run, acts, n);
    if Follow(run(n), acts(n), run(n + 1)) {
      StepKeepsConn(run(n), acts(n));
    }
  }

  lemma {:induction false} FairConnInv(run: nat -> Conn, acts: nat -> Step, n: nat)
    requires FairRun(Socket(), run, acts)
    ensures ConnInv(run(n)) && Complete(run(n).node)
  {
    hide FairRun, Inv, ReadInv, WriteInv, CloseOk, Opens;
    if n == 0 {
      StepsFollow(Socket(), run, acts, 0);
      OpensInv(run(0));
    } else {
      FairConnInv(run, acts, n - 1);
      ConnFollows(run, acts, n - 1);
    }
  }

  lemma {:induction false} StaysBare(run: nat -> Conn, acts: nat -> Step, n: nat, k: nat, r: Role)
    requires FairRun(Socket(), run, acts) && (r == Rd || r == Wr) && n <= k
    requires Bare(run(n), r) && forall i: nat :: n <= i ==> Still(acts(i), r)
    ensures Bare(run(k), r)
    decreases k - n
  {
    hide FairRun, ConnInv, Bare, Still, Do, Can;
    if n < k {
      StaysBare(run, acts, n, k - 1, r);
      FairConnInv(run, acts, k - 1);
      StepsFollow(Socket(), run, acts, k - 1);
      if Follow(run(k - 1), acts(k - 1), run(k)) {
        BareStays(run(k - 1), acts(k - 1), r);
      }
    }
  }

  lemma QuietThen(run: nat -> Conn, acts: nat -> Step, n: nat, k: nat, r: Role)
    requires FairRun(Socket(), run, acts) && (r == Rd || r == Wr) && n <= k
    requires Bare(run(n), r) && forall i: nat :: n <= i ==> Still(acts(i), r)
    requires Steps(run(k).node, NodeLabel(run(k), acts(k)), run(k + 1).node)
    ensures Quiet(run(k).node, NodeLabel(run(k), acts(k)), r)
  {
    hide FairRun, Bare, Still, Do, Steps, Quiet, ConnInv;
    StaysBare(run, acts, n, k, r);
    FairConnInv(run, acts, k);
    StepsFollow(Socket(), run, acts, k);
    if Follow(run(k), acts(k), run(k + 1)) && !acts(k).Arrive? && !acts(k).Drain? {
      StillIsQuiet(run(k), acts(k), r);
    } else {
      ReadyKeepsNode(run(k), acts(k), run(k + 1));
      PauseIsQuiet(run(k).node, NodeLabel(run(k), acts(k)), r);
    }
  }

  lemma ReadyKeepsNode(c: Conn, e: Step, c': Conn)
    requires c' == c || (Follow(c, e, c') && (e.Arrive? || e.Drain?))
    ensures c'.node == c.node
  {
  }

  /** In every fair run, once the socket has nothing for the reader or the sender, and nothing more comes, the
      task goes idle and stays so, unless its end is asked for: unread bytes come no more, or nothing is queued or
      the socket is full, and no thread begins a call. */
  lemma LetsGo(run: nat -> Conn, acts: nat -> Step, n: nat, r: Role) returns (m: nat)
    requires FairRun(Socket(), run, acts) && (r == Rd || r == Wr)
    requires Bare(run(n), r) && forall i: nat :: n <= i ==> Still(acts(i), r)
    ensures n <= m
    ensures forall k: nat :: m <= k ==>
              var s := run(k).node; Complete(s) && (s.at[r].slot.place == Out || s.at[r].slot.asked)
  {
    hide FairRun, Bare, Still, Apply, Quiet, NodeLabel;
    var nodes: nat -> State := (i: nat) => run(i).node;
    var labels: nat -> Label := (i: nat) => NodeLabel(run(i), acts(i));
    RunProjects(run, acts, nodes, labels);
    forall i: nat | n <= i && Steps(nodes(i), labels(i), nodes(i + 1))
      ensures Quiet(nodes(i), labels(i), r)
    {
      QuietThen(run, acts, n, i, r);
    }
    m := GoesIdle(nodes, labels, n, r);
    forall k: nat | m <= k
      ensures AtRest(run(k).node, r)
    {
      assert AtRest(nodes(k), r);
    }
  }
}
