/** What an error on the socket leads to: the handler that meets it has the node closed, and is not called again. */
module EdgeErrors {
  import opened Fairness
  import opened Gate
  import opened Node
  import opened NodeSafety
  import opened NodeSteps
  import opened NodeRank
  import opened NodeShutdown
  import opened NodeLiveness
  import opened Edge

  predicate Failed(c: Conn, r: Role) {
    (r == Rd && c.rd.failed) || (r == Wr && c.wr.failed)
  }

  /** Nothing but meeting an error sets the flag, and whoever meets one begins to send a request to close. */
  lemma FailsBy(c: Conn, e: Step, r: Role)
    requires Can(c, e)
    ensures Failed(c, r) ==> Failed(Do(c, e), r)
    ensures !Failed(c, r) && Failed(Do(c, e), r) ==>
              && e.MeetError? && e.r == r
              && Thread(e.p) in Do(c, e).node.jobs && Do(c, e).node.jobs[Thread(e.p)] == Put(Dir, CLOSE)
  {
    hide AsksSocket, JobStep, WorkStep;
  }

  // An error closes the node.

  lemma {:induction false} WhenFailed(run: nat -> Conn, acts: nat -> Step, n: nat, r: Role) returns (k: nat, p: nat)
    requires FairRun(Socket(), run, acts) && Failed(run(n), r)
    ensures k <= n && Thread(p) in run(k).node.jobs && run(k).node.jobs[Thread(p)] == Put(Dir, CLOSE)
  {
    hide FairRun, Can, Do;
    if n == 0 {
      StepsFollow(Socket(), run, acts, 0);
      assert false by { OpensWhole(run(0), r); }
    } else if Failed(run(n - 1), r) {
      k, p := WhenFailed(run, acts, n - 1, r);
    } else {
      StepsFollow(Socket(), run, acts, n - 1);
      FailsBy(run(n - 1), acts(n - 1), r);
      k, p := n, acts(n - 1).p;
    }
  }

  lemma OpensWhole(c: Conn, r: Role)
    requires Opens(c)
    ensures !Failed(c, r)
  {
    hide Init;
  }

  lemma {:induction false} EndedStays(run: nat -> State, acts: nat -> Label, n: nat, m: nat)
    requires FairRun(Machine(), run, acts) && n <= m && Ended(run(n))
    ensures Ended(run(m))
    decreases m - n
  {
    hide FairRun, Apply, Enabled;
    if n < m {
      EndedStays(run, acts, n, m - 1);
      StepsFollow(Machine(), run, acts, m - 1);
      if run(m) != run(m - 1) {
        FlagsGrow(run(m - 1), acts(m - 1), Dir);
      }
    }
  }

  /** An error is never the end of the matter: in every fair run, once reader or sender has met one, eof comes. */
  lemma ErrorsClose(run: nat -> Conn, acts: nat -> Step, n: nat, r: Role)
    requires FairRun(Socket(), run, acts) && Failed(run(n), r)
    ensures exists m :: n <= m && Ended(run(m).node)
  {
    hide FairRun, Failed, NodeLabel, Ended;
    var nodes: nat -> State := (i: nat) => run(i).node;
    var labels: nat -> Label := (i: nat) => NodeLabel(run(i), acts(i));
    RunProjects(run, acts, nodes, labels);
    var k, p := WhenFailed(run, acts, n, r);
    RequestCompletes(nodes, labels, k, Thread(p));
    var m :| k <= m && Ended(nodes(m));
    if m < n {
      EndedStays(nodes, labels, m, n);
    }
    assert Ended(run(if m < n then n else m).node);
  }

  // A handler that has failed is not called again.

  /** Nobody is about to report an error for r by addTask; nothing in this program does. */
  predicate NoReport(s: State, r: Role) {
    forall w :: w in s.jobs ==> s.jobs[w] != Add(r, EV_ERROR)
  }

  /** The task is in the call that has met the error, or on its way out of it, or parked on the error. */
  predicate OutOfAction(sl: Slot) {
    match sl.place
    case Running(_) => true
    case Returned(ret) => ret == EV_ERROR && sl.word.high == {}
    case Out => sl.word.high == {EV_ERROR}
    case _ => false
  }

  predicate FailOk(sl: Slot, failed: bool) {
    sl.asked || (EV_ERROR !in sl.word.low && (failed ==> OutOfAction(sl)))
  }

  lemma FailMoves(sl: Slot, e: Effect, failed: bool, failed': bool)
    requires SlotInv(sl) && (e.Makes? ==> CanMove(sl, e.move)) && FailOk(sl, failed)
    requires e != Makes(MHit(EV_ERROR))
    requires failed && e.Makes? && e.move.MCallTask? ==> e.move.ret == EV_ERROR
    requires !failed && failed' ==> e.Stays? && sl.place.Running?
    requires failed ==> failed'
    requires !failed && e.Makes? && e.move.MCallTask? ==> !failed'
    ensures FailOk(Changed(sl, e), failed')
  {
    assert EV_ERROR in FULL;
  }

  /** The moves of a handler's task, by what its handler met. */
  lemma FailEffect(c: Conn, e: Step, r: Role)
    requires Can(c, e) && (r == Rd || r == Wr) && !e.Arrive? && !e.Drain? && NoReport(c.node, r)
    ensures var m, failed, failed' := MoveOf(c.node, LabelOf(c, e), r), Failed(c, r), Failed(Do(c, e), r);
      && m != Makes(MHit(EV_ERROR))
      && (m.Makes? && m.move.MCallTask? ==> (failed ==> m.move.ret == EV_ERROR) && failed' == failed)
      && (!failed && failed' ==> m.Stays? && c.node.at[r].slot.place.Running?)
  {
    hide Apply;
  }

  lemma FailKept(c: Conn, e: Step, r: Role)
    requires ConnInv(c) && Can(c, e) && (r == Rd || r == Wr) && NoReport(c.node, r)
    requires FailOk(c.node.at[r].slot, Failed(c, r))
    ensures Complete(Do(c, e).node) && FailOk(Do(c, e).node.at[r].slot, Failed(Do(c, e), r))
  {
    hide Inv, CloseOk, ReadInv, WriteInv, SetsOk, Apply, Enabled, FailOk, NoReport, MoveOf;
    if !e.Arrive? && !e.Drain? {
      At(c.node, r, Worker(r));
      FailsBy(c, e, r);
      FailEffect(c, e, r);
      NodeIsGates(c.node, LabelOf(c, e), r);
      FailMoves(c.node.at[r].slot, MoveOf(c.node, LabelOf(c, e), r), Failed(c, r), Failed(Do(c, e), r));
    }
  }

  /** In every run in which nobody reports an error by addTask, a reader or sender that has met one is called no more
      until its end is asked for: it is in the call that met it, on its way out, or parked where no readiness wakes
      it. */
  lemma {:induction false} FailedIsOut(states: seq<Conn>, i: nat, r: Role)
    requires ConnRun(states) && i < |states| && (r == Rd || r == Wr)
    requires forall j :: 0 <= j < i ==> NoReport(states[j].node, r)
    ensures ConnInv(states[i]) && Complete(states[i].node) && FailOk(states[i].node.at[r].slot, Failed(states[i], r))
    ensures Failed(states[i], r) ==> states[i].node.at[r].slot.asked || OutOfAction(states[i].node.at[r].slot)
  {
    hide Inv, CloseOk, ReadInv, WriteInv, SetsOk, Can, Do, NoReport, Opens;
    if i == 0 {
      OpensInv(states[0]);
      OpensWhole(states[0], r);
      OpensFresh(states[0], r);
    } else {
      FailedIsOut(states, i - 1, r);
      assert ConnNext(states[i - 1], states[i]);
      var e :| Follow(states[i - 1], e, states[i]);
      StepKeepsConn(states[i - 1], e);
      FailKept(states[i - 1], e, r);
    }
  }

  lemma OpensFresh(c: Conn, r: Role)
    requires Opens(c)
    ensures Complete(c.node) && EV_ERROR !in c.node.at[r].slot.word.low
  {
  }
}
