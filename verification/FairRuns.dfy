/** The results about fair infinite runs speak of everything that can happen: every finite run of the machines goes
    on to a fair infinite one. */
module FairRuns {
  import opened Fairness
  import opened Gate
  import Node
  import NodeRank
  import NodeLiveness
  import Pool
  import PoolService
  import Edge

  // An order in which everybody comes again and again: 0, 0 1, 0 1 2, 0 1 2 3, and so on.

  datatype Place = Place(row: nat, col: nat)

  function PlaceAt(n: nat): Place {
    if n == 0 then Place(0, 0)
    else
      var p := PlaceAt(n - 1);
      if p.col == p.row then Place(p.row + 1, 0) else Place(p.row, p.col + 1)
  }

  lemma {:induction false} RowEnds(n: nat) returns (m: nat)
    ensures n < m && PlaceAt(m) == Place(PlaceAt(n).row + 1, 0) && PlaceAt(n).col <= PlaceAt(n).row
    decreases PlaceAt(n).row - PlaceAt(n).col
  {
    Within(n);
    if PlaceAt(n).col == PlaceAt(n).row {
      m := n + 1;
    } else {
      m := RowEnds(n + 1);
    }
  }

  lemma Within(n: nat)
    ensures PlaceAt(n).col <= PlaceAt(n).row
  {
  }

  lemma {:induction false} RowComes(n: nat, row: nat) returns (m: nat)
    ensures n <= m && PlaceAt(m).col == 0 && PlaceAt(m).row >= row
    decreases row - PlaceAt(n).row
  {
    m := RowEnds(n);
    if PlaceAt(m).row < row {
      m := RowComes(m, row);
    }
  }

  lemma {:induction false} Along(n: nat, k: nat)
    requires PlaceAt(n).col == 0 && k <= PlaceAt(n).row
    ensures PlaceAt(n + k) == Place(PlaceAt(n).row, k)
  {
    if k > 0 {
      Along(n, k - 1);
    }
  }

  lemma EveryoneComes(n: nat, k: nat) returns (m: nat)
    ensures n <= m && PlaceAt(m).col == k
  {
    var i := RowComes(n, k);
    Along(i, k);
    m := i + k;
  }

  // The run.

  ghost predicate Has<S, L(!new), W>(y: System<S, L, W>, s: S, s': S) {
    exists l :: y.step(s, l, s')
  }

  ghost predicate HasTurn<S(!new), L(!new), W>(y: System<S, L, W>, s: S, w: W) {
    exists l, s' :: y.step(s, l, s') && y.mine(l, w)
  }

  /** A step of w, when it can step. */
  ghost function TurnOf<S(!new), L(!new), W>(y: System<S, L, W>, s: S, w: W, none: L): (t: (L, S))
    ensures HasTurn(y, s, w) ==> y.step(s, t.0, t.1) && y.mine(t.0, w)
    ensures !HasTurn(y, s, w) ==> t.1 == s
  {
    if HasTurn(y, s, w) then
      var l, s' :| y.step(s, l, s') && y.mine(l, w);
      (l, s')
    else (none, s)
  }

  /** After the finite run everybody gets a turn in order. */
  ghost function StateAt<S(!new), L(!new), W>(
      y: System<S, L, W>, states: seq<S>, order: nat -> W, none: L, n: nat): S
    requires states != []
  {
    if n < |states| then states[n]
    else TurnOf(y, StateAt(y, states, order, none, n - 1), order(n - |states|), none).1
  }

  ghost function LabelAt<S(!new), L(!new), W>(
      y: System<S, L, W>, states: seq<S>, order: nat -> W, none: L, n: nat): (l: L)
    requires states != [] && forall i :: 0 <= i < |states| - 1 ==> Has(y, states[i], states[i + 1])
    ensures n < |states| - 1 ==> y.step(states[n], l, states[n + 1])
  {
    if n < |states| - 1 then
      assert Has(y, states[n], states[n + 1]);
      var l :| y.step(states[n], l, states[n + 1]);
      l
    else TurnOf(y, StateAt(y, states, order, none, n), order(n + 1 - |states|), none).0
  }

  ghost predicate Comes<W>(order: nat -> W, w: W, n: nat) {
    exists m :: n <= m && order(m) == w
  }

  /** A finite run goes on to a fair one. */
  lemma GoesOn<S(!new), L(!new), W(!new)>(
      y: System<S, L, W>, states: seq<S>, order: nat -> W, none: L, run: nat -> S, acts: nat -> L)
    requires states != [] && y.init(states[0]) && forall i :: 0 <= i < |states| - 1 ==> Has(y, states[i], states[i + 1])
    requires forall w, n: nat :: Comes(order, w, n)
    requires forall s, w :: y.can(s, w) ==> HasTurn(y, s, w)
    requires forall n: nat :: run(n) == StateAt(y, states, order, none, n)
    requires forall n: nat :: acts(n) == LabelAt(y, states, order, none, n)
    ensures FairRun(y, run, acts) && forall i :: 0 <= i < |states| ==> run(i) == states[i]
  {
    hide HasTurn;
    var last := |states| - 1;
    forall n: nat
      ensures Follows(y, run(n), acts(n), run(n + 1))
    {
      if n >= last {
        assert run(n + 1) == TurnOf(y, run(n), order(n - last), none).1;
      }
    }
    forall w, n: nat
      ensures Heard(y, run, acts, w, n)
    {
      assert Comes(order, w, n);
      var m :| n <= m && order(m) == w;
      assert run(last + m + 1) == TurnOf(y, run(last + m), order(m), none).1;
      assert Served(y, run, acts, w, last + m);
    }
    FairTogether(y, run, acts);
  }

  // The three machines.

  function ActorOf(k: nat): PoolService.Actor {
    if k == 0 then PoolService.TheWorker else PoolService.Other(k - 1)
  }

  function WhoOf(k: nat): Node.Who {
    match k
    case 0 => Node.Worker(Node.Rd)
    case 1 => Node.Worker(Node.Wr)
    case 2 => Node.Worker(Node.Deal)
    case 3 => Node.Worker(Node.Dir)
    case _ => Node.Thread(k - 4)
  }

  lemma ActorComes(order: nat -> PoolService.Actor, w: PoolService.Actor, n: nat)
    requires forall i: nat :: order(i) == ActorOf(PlaceAt(i).col)
    ensures Comes(order, w, n)
  {
    var m := EveryoneComes(n, if w.TheWorker? then 0 else w.p + 1);
    assert order(m) == w;
  }

  lemma WhoComes(order: nat -> Node.Who, w: Node.Who, n: nat)
    requires forall i: nat :: order(i) == WhoOf(PlaceAt(i).col)
    ensures Comes(order, w, n)
  {
    var k := match w
      case Thread(p) => p + 4
      case Worker(Rd) => 0
      case Worker(Wr) => 1
      case Worker(Deal) => 2
      case Worker(Dir) => 3;
    var m := EveryoneComes(n, k);
    assert order(m) == w;
  }

  /** Every finite run of the pool is the beginning of a fair one. */
  lemma PoolGoesOn(states: seq<Pool.State>) returns (run: nat -> Pool.State, acts: nat -> Pool.Label)
    requires Pool.IsRun(states)
    ensures FairRun(PoolService.Machine(), run, acts) && forall i :: 0 <= i < |states| ==> run(i) == states[i]
  {
    hide Pool.Init, Pool.Apply, Pool.Enabled, FairRun, PlaceAt, ActorOf;
    var y, none := PoolService.Machine(), Pool.Interrupt;
    var order: nat -> PoolService.Actor := (i: nat) => ActorOf(PlaceAt(i).col);
    forall i | 0 <= i < |states| - 1
      ensures Has(y, states[i], states[i + 1])
    {
      assert Pool.Next(states[i], states[i + 1]);
      var l :| Pool.Enabled(states[i], l) && states[i + 1] == Pool.Apply(states[i], l);
      assert y.step(states[i], l, states[i + 1]);
    }
    forall w, n: nat
      ensures Comes(order, w, n)
    {
      ActorComes(order, w, n);
    }
    forall s, w | y.can(s, w)
      ensures HasTurn(y, s, w)
    {
      var l := if w.TheWorker? then Pool.Work(EV_NORM) else Pool.Step(w.p);
      assert y.step(s, l, Pool.Apply(s, l)) && y.mine(l, w);
    }
    run := (n: nat) => StateAt(y, states, order, none, n);
    acts := (n: nat) => LabelAt(y, states, order, none, n);
    GoesOn(y, states, order, none, run, acts);
  }

  /** Every finite run of the node is the beginning of a fair one. */
  lemma NodeGoesOn(states: seq<Node.State>) returns (run: nat -> Node.State, acts: nat -> Node.Label)
    requires Node.IsRun(states)
    ensures FairRun(NodeLiveness.Machine(), run, acts) && forall i :: 0 <= i < |states| ==> run(i) == states[i]
  {
    hide Node.Init, Node.Apply, Node.Enabled, FairRun, PlaceAt, WhoOf, NodeRank.Mine;
    var y, none := NodeLiveness.Machine(), Node.Begin(0, Node.Nothing);
    var order: nat -> Node.Who := (i: nat) => WhoOf(PlaceAt(i).col);
    forall i | 0 <= i < |states| - 1
      ensures Has(y, states[i], states[i + 1])
    {
      assert Node.Next(states[i], states[i + 1]);
      var l :| Node.Enabled(states[i], l) && states[i + 1] == Node.Apply(states[i], l);
      assert y.step(states[i], l, states[i + 1]);
    }
    forall w, n: nat
      ensures Comes(order, w, n)
    {
      WhoComes(order, w, n);
    }
    forall s, w | y.can(s, w)
      ensures HasTurn(y, s, w)
    {
      var l :| NodeRank.Mine(l, w) && Node.Enabled(s, l);
      assert y.step(s, l, Node.Apply(s, l)) && y.mine(l, w);
    }
    run := (n: nat) => StateAt(y, states, order, none, n);
    acts := (n: nat) => LabelAt(y, states, order, none, n);
    GoesOn(y, states, order, none, run, acts);
  }

  /** Every finite run of the connection is the beginning of a fair one. */
  lemma ConnGoesOn(states: seq<Edge.Conn>) returns (run: nat -> Edge.Conn, acts: nat -> Edge.Step)
    requires Edge.ConnRun(states)
    ensures FairRun(Edge.Socket(), run, acts) && forall i :: 0 <= i < |states| ==> run(i) == states[i]
  {
    hide Edge.Opens, Edge.Do, Edge.Can, FairRun, PlaceAt, WhoOf, Edge.IsMine;
    var y, none := Edge.Socket(), Edge.Arrive;
    var order: nat -> Node.Who := (i: nat) => WhoOf(PlaceAt(i).col);
    forall i | 0 <= i < |states| - 1
      ensures Has(y, states[i], states[i + 1])
    {
      assert Edge.ConnNext(states[i], states[i + 1]);
      var e :| Edge.Follow(states[i], e, states[i + 1]);
      assert y.step(states[i], e, states[i + 1]);
    }
    forall w, n: nat
      ensures Comes(order, w, n)
    {
      WhoComes(order, w, n);
    }
    forall c, w | y.can(c, w)
      ensures HasTurn(y, c, w)
    {
      var e :| Edge.IsMine(e, w) && Edge.Can(c, e);
      assert y.step(c, e, Edge.Do(c, e)) && y.mine(e, w);
    }
    run := (n: nat) => StateAt(y, states, order, none, n);
    acts := (n: nat) => LabelAt(y, states, order, none, n);
    GoesOn(y, states, order, none, run, acts);
  }
}
