/** Pooler in the heap: the machine of module Pool run on the linked lists of module ListNode, and
    consume as the loop it is in the source, with other threads stepping in anywhere. */
module Pooler {
  import opened Gate
  import opened ListNode
  import opened Lists
  import opened Pool
  import PoolSafety

  /** What happens around one atomic step of the worker: the steps other threads take just before it,
      and what procTask returns if the step is its call. */
  datatype Turn = Turn(others: seq<Label>, ret: nat)

  class Pooler {
    /** The m_node of each task. */
    const nodes: map<nat, Node>
    /** m_lock_root, m_safe_root, and the locals of consume. */
    const lock: Root
    const safe: Root
    const walk: Walk
    /** Words, threads, door and counters, and the task lists that the pointers stand for. */
    var m: State

    ghost function Names(q: seq<nat>): (names: seq<Node>)
      requires forall t :: t in q ==> t in nodes
      ensures |names| == |q| && forall i :: 0 <= i < |q| ==> names[i] == nodes[q[i]]
    {
      seq(|q|, i requires 0 <= i < |q| => nodes[q[i]])
    }

    ghost function Repr(): set<object> {
      {this, lock, safe, walk, lock.head, safe.head} + nodes.Values
    }

    ghost predicate Shape()
      reads this
    {
      && m.slots.Keys <= nodes.Keys
      && lock != safe && lock.head != safe.head && walk.root == safe
      && lock.head !in nodes.Values && safe.head !in nodes.Values
      && (forall t, u :: t in nodes && u in nodes && nodes[t] == nodes[u] ==> t == u)
    }

    ghost predicate Known(q: seq<nat>) {
      forall t :: t in q ==> t in nodes
    }

    ghost predicate LockOk(s: State)
      reads lock, lock.head, lock.q
    {
      Known(s.lockQ) && lock.q == Names(s.lockQ) && lock.Valid()
    }

    ghost predicate SafeOk(s: State)
      reads safe, safe.head, safe.q, walk, walk.root, walk.root.head, walk.kept, walk.rest, nodes.Values
    {
      && walk.root == safe && Known(s.kept) && Known(s.rest)
      && (if PoolSafety.Walking(s.worker) then
            && walk.kept == Names(s.kept) && walk.rest == Names(s.rest)
            && (s.worker.Head? ==> walk.AtHead())
            && (OnCursor(s.worker) ==> walk.InBody() && s.worker.cur in nodes && walk.curr == nodes[s.worker.cur])
            && (PoolSafety.OwnsCursor(s) ==> walk.curr.next == walk.next)
          else
            safe.q == Names(s.kept) && safe.Valid())
    }

    /** Both lists are well formed and stand for the lists of the machine. The node under the cursor
        may be linked in m_lock_root again, but only when the walk is done with it. */
    ghost predicate Valid()
      reads Repr(), walk.root, walk.root.head, lock.q, safe.q, walk.kept, walk.rest
    {
      Shape() && PoolSafety.Inv(m) && LockOk(m) && SafeOk(m)
    }

    constructor (tasks: map<nat, Node>, threads: map<nat, Thread>)
      requires forall p :: p in threads ==> threads[p] == Idle
      requires forall t, u :: t in tasks && u in tasks && tasks[t] == tasks[u] ==> t == u
      ensures Valid() && Init(m) && nodes == tasks && m.threads == threads
    {
      var l := new Root();
      var s := new Root();
      nodes, lock, safe := tasks, l, s;
      walk := new Walk(s);
      m := State(map t | t in tasks :: FRESH, threads, [], [], [], Fresh, ZERO, false, 0, []);
      new;
      PoolSafety.InitInv(m);
    }

    lemma NotNamed(q: seq<nat>, t: nat)
      requires Shape() && Known(q) && t in nodes && t !in q
      ensures nodes[t] !in Names(q)
    {
    }

    lemma HeadsNotNamed(q: seq<nat>)
      requires Shape() && Known(q)
      ensures lock.head !in Names(q) && safe.head !in Names(q)
    {
    }

    lemma NamesApart(p: seq<nat>, q: seq<nat>)
      requires Shape() && Known(p) && Known(q) && forall t :: t in p ==> t !in q
      ensures forall n :: n in Names(p) ==> n !in Names(q)
    {
      forall n | n in Names(p)
        ensures n !in Names(q)
      {
        var i :| 0 <= i < |p| && n == nodes[p[i]];
        assert p[i] in p;
        NotNamed(q, p[i]);
      }
    }

    lemma NamesSnoc(q: seq<nat>, t: nat)
      requires Known(q) && t in nodes
      ensures Known(q + [t]) && Names(q + [t]) == Names(q) + [nodes[t]]
    {
    }

    lemma SameSafe(s: State, s': State)
      requires SafeOk(s) && s'.kept == s.kept && s'.rest == s.rest && s'.worker == s.worker
      ensures SafeOk(s')
    {
    }

    /** The pointer writes of a push while the machine stands still. */
    method Link(t: nat)
      requires Shape() && LockOk(m) && SafeOk(m)
      requires t in nodes && t !in m.lockQ && t !in m.kept && t !in m.rest
      requires PoolSafety.OwnsCursor(m) ==> t != m.worker.cur && m.worker.cur !in m.lockQ
      requires forall u :: u in m.lockQ ==> u !in m.kept && u !in m.rest
      modifies lock, lock.tail, nodes[t]
      ensures Shape() && SafeOk(m) && lock.Valid() && lock.q == old(lock.q) + [nodes[t]]
    {
      var node := nodes[t];
      NotNamed(m.lockQ, t);
      NotNamed(m.kept, t);
      NotNamed(m.rest, t);
      HeadsNotNamed(m.lockQ);
      HeadsNotNamed(m.kept);
      HeadsNotNamed(m.rest);
      NamesApart(m.lockQ, m.kept);
      NamesApart(m.lockQ, m.rest);
      if PoolSafety.Walking(m.worker) {
        if PoolSafety.OwnsCursor(m) {
          NotNamed(m.lockQ, m.worker.cur);
        }
        walk.OtherPush(lock, node);
      } else {
        PushBeside(safe, lock, node);
      }
    }

    /** A thread pushes the task it has claimed: pushNode on m_lock_root under its lock. */
    method PushStep(p: nat)
      requires Valid() && p in m.threads && m.threads[p].Push?
      modifies Repr()
      ensures Valid() && Enabled(old(m), Step(p)) && m == Apply(old(m), Step(p))
    {
      hide PoolSafety.Inv, Apply, Enabled, Distinct, Chain;
      PushFacts(m, p);
      var t := m.threads[p].task;
      assert lock.tail in Repr() by { AtInside(lock.head, lock.q); }
      Link(t);
      NamesSnoc(m.lockQ, t);
      SameSafe(m, Apply(m, Step(p)));
      m := Apply(m, Step(p));
      assert Shape() && LockOk(m);
    }

    /** Any step of another thread. */
    method OtherStep(l: Label)
      requires Valid() && Enabled(m, l) && ThreadLabel(l)
      modifies Repr()
      ensures Valid() && m == Apply(old(m), l) && m.worker == old(m.worker)
      ensures m.kept == old(m.kept) && m.rest == old(m.rest)
    {
      hide PoolSafety.Inv, Apply;
      if l.Step? && m.threads[l.p].Push? {
        PushIsEnabled(m, l.p);
        PushStep(l.p);
      } else {
        QuietStep(l);
      }
    }

    /** A step of another thread that touches no list. */
    method QuietStep(l: Label)
      requires Valid() && Enabled(m, l) && ThreadLabel(l) && !(l.Step? && m.threads[l.p].Push?)
      modifies this
      ensures Valid() && m == Apply(old(m), l) && m.worker == old(m.worker)
      ensures m.kept == old(m.kept) && m.rest == old(m.rest)
    {
      hide PoolSafety.Inv, Apply, Enabled;
      QuietFacts(m, l);
      SameSafe(m, Apply(m, l));
      m := Apply(m, l);
      assert Shape() && LockOk(m);
    }

    /** Other threads take the steps of a script, those that are possible. */
    method Others(script: seq<Label>)
      requires Valid()
      modifies Repr()
      ensures Valid() && Reaches(old(m), m) && m.worker == old(m.worker)
      ensures m.kept == old(m.kept) && m.rest == old(m.rest)
      ensures script == [] ==> m == old(m)
    {
      hide PoolSafety.Inv, Apply, Valid, Reaches, Enabled;
      ReachesHere(m);
      for k := 0 to |script|
        invariant Valid() && Reaches(old(m), m) && m.worker == old(m.worker)
        invariant m.kept == old(m.kept) && m.rest == old(m.rest)
        invariant script == [] ==> m == old(m)
      {
        var l := script[k];
        if ThreadLabel(l) && Enabled(m, l) {
          ReachesStep(old(m), m, l);
          OtherStep(l);
        }
      }
    }

    /** A step of the worker that touches no list. */
    method PlainStep(ret: nat)
      requires Valid() && Enabled(m, Work(ret))
      requires OnCursor(m.worker) && !m.worker.Decide?
      modifies this
      ensures Valid() && m == Apply(old(m), Work(ret))
      ensures OnCursor(m.worker) && !m.worker.Take? && m.kept == old(m.kept) && m.rest == old(m.rest)
    {
      hide PoolSafety.Inv, Apply, Enabled;
      PlainFacts(m, ret);
      m := Apply(m, Work(ret));
      assert Shape() && LockOk(m);
    }

    /** __splice under the lock, and the start of the walk. */
    method SpliceStep()
      requires Valid() && m.worker.Splice?
      modifies Repr()
      ensures Valid() && Enabled(old(m), Work(EV_NORM)) && m == Apply(old(m), Work(EV_NORM))
      ensures m.worker.Head? && m.rest == old(m.kept) + old(m.lockQ)
    {
      hide PoolSafety.Inv, Apply, Enabled, Names;
      SpliceFacts(m);
      TailsInRepr(m);
      SpliceLists(Apply(m, Work(EV_NORM)));
      m := Apply(m, Work(EV_NORM));
      assert Shape();
      assert LockOk(m) && SafeOk(m);
    }

    method SpliceLists(ghost s': State)
      requires Shape() && LockOk(m) && SafeOk(m) && !PoolSafety.Walking(m.worker)
      requires forall t :: t in m.lockQ ==> t !in m.kept
      requires s' == m.(rest := m.kept + m.lockQ, kept := [], lockQ := [], worker := Head)
      modifies lock, safe, lock.head, safe.tail, walk
      ensures Shape() && LockOk(s') && SafeOk(s')
    {
      HeadsNotNamed(m.kept);
      HeadsNotNamed(m.lockQ);
      NamesApart(m.lockQ, m.kept);
      NamesJoin(m.kept, m.lockQ);
      SpliceRoot(lock, safe);
      walk.Start();
      assert lock.q == Names(s'.lockQ) && walk.rest == Names(s'.rest) && walk.kept == Names(s'.kept);
    }

    /** The tails and the predecessor of the cursor are nodes of this pooler. */
    lemma TailsInRepr(s: State)
      requires Shape() && LockOk(s) && SafeOk(s)
      ensures lock.tail in Repr()
      ensures !PoolSafety.Walking(s.worker) ==> safe.tail in Repr()
      ensures PoolSafety.Walking(s.worker) ==> walk.prev in Repr()
    {
      AtInside(lock.head, lock.q);
      AtInside(safe.head, safe.q);
      AtInside(safe.head, walk.kept);
    }

    /** The head of the loop, with a node ahead: next = curr->m_next. */
    method FetchStep()
      requires Valid() && m.worker.Head? && m.rest != []
      modifies Repr()
      ensures Valid() && Enabled(old(m), Work(EV_NORM)) && m == Apply(old(m), Work(EV_NORM))
      ensures m.worker.Take? && m.kept == old(m.kept) && m.rest == old(m.rest)[1..]
    {
      hide PoolSafety.Inv, Apply, Enabled, Names;
      HeadFacts(m);
      FetchNode(Apply(m, Work(EV_NORM)));
      m := Apply(m, Work(EV_NORM));
      assert Shape();
      assert LockOk(m) && SafeOk(m);
    }

    /** The end of the loop: m_safe_root.m_tail = prev. */
    method LeaveStep()
      requires Valid() && m.worker.Head? && m.rest == []
      modifies Repr()
      ensures Valid() && Enabled(old(m), Work(EV_NORM)) && m == Apply(old(m), Work(EV_NORM))
      ensures m.kept == old(m.kept) && m.worker == if m.kept == [] then ReleaseDoor else LockDoor
    {
      hide PoolSafety.Inv, Apply, Enabled, Names;
      HeadFacts(m);
      LeaveLoop(Apply(m, Work(EV_NORM)));
      m := Apply(m, Work(EV_NORM));
      assert Shape();
      assert LockOk(m) && SafeOk(m);
    }

    method FetchNode(ghost s': State)
      requires Shape() && LockOk(m) && SafeOk(m) && m.worker.Head? && m.rest != []
      requires s' == m.(worker := Take(m.rest[0]), rest := m.rest[1..])
      modifies walk
      ensures Shape() && LockOk(s') && SafeOk(s')
    {
      NamesTail(m.rest);
      walk.Fetch();
      assert walk.rest == Names(s'.rest) && walk.kept == Names(s'.kept);
    }

    method LeaveLoop(ghost s': State)
      requires Shape() && LockOk(m) && SafeOk(m) && m.worker.Head? && m.rest == []
      requires s'.lockQ == m.lockQ && s'.kept == m.kept && s'.rest == m.rest && !PoolSafety.Walking(s'.worker)
      modifies safe
      ensures Shape() && LockOk(s') && SafeOk(s')
    {
      walk.Finish();
    }

    /** The end of the body, done: the node is unlinked. */
    method UnlinkStep()
      requires Valid() && m.worker.Decide? && m.worker.done
      modifies Repr()
      ensures Valid() && Enabled(old(m), Work(EV_NORM)) && m == Apply(old(m), Work(EV_NORM))
      ensures m.worker.Head? && m.rest == old(m.rest)
    {
      hide PoolSafety.Inv, Apply, Enabled, Names;
      DecideFacts(m);
      TailsInRepr(m);
      UnlinkNode(Apply(m, Work(EV_NORM)));
      m := Apply(m, Work(EV_NORM));
      assert Shape();
      assert LockOk(m) && SafeOk(m);
    }

    /** The end of the body, not done: the node stays. */
    method KeepStep()
      requires Valid() && m.worker.Decide? && !m.worker.done
      modifies Repr()
      ensures Valid() && Enabled(old(m), Work(EV_NORM)) && m == Apply(old(m), Work(EV_NORM))
      ensures m.worker.Head? && m.rest == old(m.rest)
    {
      hide PoolSafety.Inv, Apply, Enabled, Names;
      DecideFacts(m);
      KeepNode(Apply(m, Work(EV_NORM)));
      m := Apply(m, Work(EV_NORM));
      assert Shape();
      assert LockOk(m) && SafeOk(m);
    }

    method UnlinkNode(ghost s': State)
      requires Shape() && LockOk(m) && SafeOk(m) && OnCursor(m.worker)
      requires forall t :: t in m.lockQ ==> t !in m.kept
      requires s' == m.(worker := Head)
      modifies walk, safe, walk.prev
      ensures Shape() && LockOk(s') && SafeOk(s')
    {
      HeadsNotNamed(m.lockQ);
      HeadsNotNamed(m.kept);
      NamesApart(m.lockQ, m.kept);
      AtInside(safe.head, walk.kept);
      AtInside(lock.head, lock.q);
      assert walk.prev != lock.head && walk.prev !in lock.q;
      walk.Unlink();
      assert Chain(lock.head, lock.q, null);
    }

    method KeepNode(ghost s': State)
      requires Shape() && LockOk(m) && SafeOk(m) && PoolSafety.OwnsCursor(m)
      requires s' == m.(worker := Head, kept := m.kept + [m.worker.cur])
      modifies walk
      ensures Shape() && LockOk(s') && SafeOk(s')
    {
      NamesSnoc(m.kept, m.worker.cur);
      walk.Keep();
    }

    /** Other threads step in, then the worker takes a step that touches no list. */
    method PlainTurn(turn: Turn, ghost start: State)
      requires Valid() && OnCursor(m.worker) && !m.worker.Decide? && TaskResult(turn.ret) && Reaches(start, m)
      modifies Repr()
      ensures Valid() && Reaches(start, m) && m.rest == old(m.rest)
      ensures OnCursor(m.worker) && !m.worker.Take?
      ensures turn.others == [] ==> Enabled(old(m), Work(turn.ret)) && m == Apply(old(m), Work(turn.ret))
      ensures old(m.worker).Take? ==> m.worker.Run?
      ensures old(m.worker).Run? ==> !m.worker.Run? && !m.worker.Park?
      ensures old(m.worker).Finish? || old(m.worker).Park? ==> m.worker.Park? || m.worker.Decide?
    {
      hide PoolSafety.Inv, Apply, Enabled, Reaches;
      ghost var s := m;
      Others(turn.others);
      ReachesJoin(start, s, m);
      WorkerCanStep(m, turn.ret);
      ReachesStep(start, m, Work(turn.ret));
      NextPlace(m, turn.ret);
      PlainStep(turn.ret);
    }

    /** The body of the loop: lock, doTask, then release, checkout or keep, then unlink or not. */
    method Body(script: seq<Turn>, from: nat, ghost start: State) returns (k: nat)
      requires Valid() && m.worker.Take? && Reaches(start, m)
      requires forall turn :: turn in script ==> TaskResult(turn.ret)
      modifies Repr()
      ensures Valid() && Reaches(start, m) && m.worker.Head? && m.rest == old(m.rest)
    {
      hide PoolSafety.Inv, Apply, Enabled, Reaches, Valid, TaskResult;
      k := from;
      PlainTurn(TurnAt(script, k), start);
      PlainTurn(TurnAt(script, k + 1), start);
      k := k + 2;
      while !m.worker.Decide?
        invariant Valid() && Reaches(start, m) && m.rest == old(m.rest)
        invariant m.worker.Finish? || m.worker.Park? || m.worker.Decide?
        decreases if k < |script| then |script| - k else 0, TriesLeft(m)
      {
        ghost var s := m;
        var turn := TurnAt(script, k);
        PlainTurn(turn, start);
        if turn.others == [] {
          TryAgain(s, turn.ret);
        }
        k := k + 1;
      }
      ghost var s := m;
      Others(TurnAt(script, k).others);
      ReachesJoin(start, s, m);
      k := k + 1;
      ValidHolds();
      DecideCanStep(m);
      ReachesStep(start, m, Work(EV_NORM));
      if m.worker.done {
        UnlinkStep();
      } else {
        KeepStep();
      }
    }

    /** Pooler::consume. For any interference and any results of procTask the loop ends, both lists are
        well formed at every step, and the whole call is a path of the machine. It answers true exactly
        when m_safe_root is empty. */
    method Consume(script: seq<Turn>) returns (done: bool)
      requires Valid() && m.worker.Splice?
      requires forall turn :: turn in script ==> TaskResult(turn.ret)
      modifies Repr()
      ensures Valid() && Reaches(old(m), m)
      ensures done <==> m.kept == []
      ensures m.worker == if done then ReleaseDoor else LockDoor
    {
      hide PoolSafety.Inv, Apply, Enabled, Reaches, Valid, TaskResult;
      ghost var start := m;
      ReachesHere(start);
      Others(TurnAt(script, 0).others);
      var k := 1;
      ValidHolds();
      SpliceFacts(m);
      ReachesStep(start, m, Work(EV_NORM));
      SpliceStep();
      CursorAtRest();
      while walk.curr != null
        invariant Valid() && Reaches(start, m) && m.worker.Head?
        invariant walk.curr == null <==> m.rest == []
        decreases |m.rest|
      {
        ghost var s := m;
        Others(TurnAt(script, k).others);
        ReachesJoin(start, s, m);
        ValidHolds();
        HeadFacts(m);
        ReachesStep(start, m, Work(EV_NORM));
        FetchStep();
        k := Body(script, k + 1, start);
        CursorAtRest();
      }
      ValidHolds();
      HeadFacts(m);
      ReachesStep(start, m, Work(EV_NORM));
      LeaveStep();
      EmptyAtRest();
      done := safe.IsEmpty();
    }

    lemma ValidHolds()
      requires Valid()
      ensures PoolSafety.Inv(m)
    {
    }

    lemma CursorAtRest()
      requires Valid() && m.worker.Head?
      ensures walk.curr == null <==> m.rest == []
    {
    }

    lemma EmptyAtRest()
      requires Valid() && !PoolSafety.Walking(m.worker)
      ensures safe.IsEmpty() <==> m.kept == []
    {
      safe.EmptyMeansEmpty();
    }

    lemma NamesJoin(p: seq<nat>, q: seq<nat>)
      requires Known(p) && Known(q)
      ensures Known(p + q) && Names(p + q) == Names(p) + Names(q)
    {
    }

    lemma NamesTail(q: seq<nat>)
      requires Known(q) && q != []
      ensures Known(q[1..]) && Names(q) == [nodes[q[0]]] + Names(q[1..])
    {
      assert q[0] in q;
    }
  }

  function TurnAt(script: seq<Turn>, k: nat): (turn: Turn)
    ensures (forall t :: t in script ==> TaskResult(t.ret)) ==> TaskResult(turn.ret)
    ensures k >= |script| ==> turn.others == []
  {
    if k < |script| then script[k] else Turn([], EV_NORM)
  }

  /** How many steps release or checkout still takes when nobody interferes. */
  function TriesLeft(s: State): nat {
    match s.worker
    case Finish(_, _) => 3
    case Park(t, _, guess) => if t in s.slots && s.slots[t].word == guess then 1 else 2
    case _ => 0
  }

  lemma WorkerCanStep(s: State, ret: nat)
    requires PoolSafety.Inv(s) && TaskResult(ret) && OnCursor(s.worker)
    ensures Enabled(s, Work(ret))
  {
    hide PoolSafety.GateInv, PoolSafety.ThreadInv, PoolSafety.ListInv, PoolSafety.LogInv, PoolSafety.PlaceInv;
  }

  lemma DecideCanStep(s: State)
    requires PoolSafety.Inv(s) && s.worker.Decide?
    ensures Enabled(s, Work(EV_NORM))
  {
    WorkerCanStep(s, EV_NORM);
  }

  lemma NextPlace(s: State, ret: nat)
    requires Enabled(s, Work(ret)) && OnCursor(s.worker) && !s.worker.Decide?
    ensures var w := Apply(s, Work(ret)).worker;
            && (s.worker.Take? ==> w.Run?)
            && (s.worker.Run? ==> w.Finish? || w.Decide?)
            && (s.worker.Finish? || s.worker.Park? ==> w.Park? || w.Decide?)
  {
    hide Settle, Cas, Lock, LoopStep;
  }

  lemma TryAgain(s: State, ret: nat)
    requires Enabled(s, Work(ret)) && (s.worker.Finish? || s.worker.Park?)
    ensures TriesLeft(Apply(s, Work(ret))) < TriesLeft(s)
  {
    hide Settle, Lock, LoopStep;
  }

  /** A label of a thread other than the worker. */
  predicate ThreadLabel(l: Label) {
    !l.Work? && !l.Interrupt?
  }

  /** A push on one list leaves the other alone. */
  method PushBeside(safe: Root, lock: Root, node: Node)
    requires safe.Valid() && lock.Valid() && safe != lock && safe.head != lock.head
    requires node != lock.head && node !in lock.q && node != safe.head && node !in safe.q
    requires lock.head !in safe.q && safe.head !in lock.q
    requires forall n :: n in lock.q ==> n !in safe.q
    modifies lock, lock.tail, node
    ensures safe.Valid() && lock.Valid() && lock.q == old(lock.q) + [node]
  {
    AtInside(safe.head, safe.q);
    AtInside(lock.head, lock.q);
    assert lock.tail != safe.head && lock.tail !in safe.q;
    lock.PushNode(node);
    assert Chain(safe.head, safe.q, null);
  }

  lemma PushFacts(s: State, p: nat)
    requires PoolSafety.Inv(s) && p in s.threads && s.threads[p].Push?
    ensures Enabled(s, Step(p)) && PoolSafety.Inv(Apply(s, Step(p)))
    ensures var t := s.threads[p].task;
            var s' := Apply(s, Step(p));
            && t in s.slots && t !in s.lockQ && t !in s.kept && t !in s.rest
            && (PoolSafety.OwnsCursor(s) ==> t != s.worker.cur && s.worker.cur !in s.lockQ)
            && (forall u :: u in s.lockQ ==> u !in s.kept && u !in s.rest)
            && s'.slots.Keys == s.slots.Keys && s'.lockQ == s.lockQ + [t]
            && s'.kept == s.kept && s'.rest == s.rest && s'.worker == s.worker
  {
    hide PoolSafety.ThreadsOk, Distinct, PoolSafety.GateInv, PoolSafety.LogInv;
    PoolSafety.ThreadStepKeepsInv(s, p);
  }

  lemma PushIsEnabled(s: State, p: nat)
    requires PoolSafety.Inv(s) && p in s.threads && s.threads[p].Push?
    ensures Enabled(s, Step(p))
    ensures var s' := Apply(s, Step(p)); s'.worker == s.worker && s'.kept == s.kept && s'.rest == s.rest
  {
  }

  lemma QuietFacts(s: State, l: Label)
    requires PoolSafety.Inv(s) && Enabled(s, l) && ThreadLabel(l) && !(l.Step? && s.threads[l.p].Push?)
    ensures PoolSafety.Inv(Apply(s, l))
    ensures var s' := Apply(s, l);
            && s'.slots.Keys == s.slots.Keys && s'.lockQ == s.lockQ
            && s'.kept == s.kept && s'.rest == s.rest && s'.worker == s.worker
  {
    hide PoolSafety.Inv, Hit, HitEnd, Cas, Wins, EndWins;
    PoolSafety.StepKeepsInv(s, l);
  }

  lemma PlainFacts(s: State, ret: nat)
    requires PoolSafety.Inv(s) && Enabled(s, Work(ret)) && OnCursor(s.worker) && !s.worker.Decide?
    ensures PoolSafety.Inv(Apply(s, Work(ret)))
    ensures var s' := Apply(s, Work(ret));
            && s'.slots.Keys == s.slots.Keys && s'.lockQ == s.lockQ && s'.kept == s.kept && s'.rest == s.rest
            && OnCursor(s'.worker) && s'.worker.cur == s.worker.cur && !s'.worker.Take?
  {
    hide PoolSafety.Inv, Settle, Cas, Lock, LoopStep;
    PoolSafety.StepKeepsInv(s, Work(ret));
  }

  lemma SpliceFacts(s: State)
    requires PoolSafety.Inv(s) && s.worker.Splice?
    ensures Enabled(s, Work(EV_NORM)) && PoolSafety.Inv(Apply(s, Work(EV_NORM)))
    ensures Apply(s, Work(EV_NORM)) == s.(rest := s.kept + s.lockQ, kept := [], lockQ := [], worker := Head)
    ensures forall t :: t in s.lockQ ==> t !in s.kept
  {
    hide PoolSafety.GateInv, PoolSafety.ThreadInv, PoolSafety.LogInv, Distinct;
    PoolSafety.StepKeepsInv(s, Work(EV_NORM));
  }

  lemma HeadFacts(s: State)
    requires PoolSafety.Inv(s) && s.worker.Head?
    ensures Enabled(s, Work(EV_NORM)) && PoolSafety.Inv(Apply(s, Work(EV_NORM)))
    ensures Apply(s, Work(EV_NORM)) ==
      if s.rest == [] then s.(worker := if s.kept == [] then ReleaseDoor else LockDoor)
      else s.(worker := Take(s.rest[0]), rest := s.rest[1..])
  {
    hide PoolSafety.GateInv, PoolSafety.ThreadInv, PoolSafety.LogInv, Distinct;
    PoolSafety.StepKeepsInv(s, Work(EV_NORM));
  }

  lemma DecideFacts(s: State)
    requires PoolSafety.Inv(s) && s.worker.Decide?
    ensures Enabled(s, Work(EV_NORM)) && PoolSafety.Inv(Apply(s, Work(EV_NORM)))
    ensures Apply(s, Work(EV_NORM)) ==
      if s.worker.done then s.(worker := Head) else s.(kept := s.kept + [s.worker.cur], worker := Head)
    ensures forall t :: t in s.lockQ ==> t !in s.kept
  {
    hide PoolSafety.GateInv, PoolSafety.ThreadInv, PoolSafety.LogInv, Distinct;
    PoolSafety.StepKeepsInv(s, Work(EV_NORM));
  }
}
