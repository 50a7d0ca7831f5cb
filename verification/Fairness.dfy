/** Why something comes about in an infinite run: a rank that no step raises, somebody whose turn it is and
    whose steps lower it, and nobody passed over forever. */
module Fairness {
  datatype Rank = Rank(stage: nat, phase: nat, work: nat)

  predicate Below(a: Rank, b: Rank) {
    || a.stage < b.stage
    || (a.stage == b.stage && a.phase < b.phase)
    || (a.stage == b.stage && a.phase == b.phase && a.work < b.work)
  }

  /** A machine with states S, labels L and actors W: how it starts, its steps, who can step, and whose step a
      label is. */
  datatype System<!S, !L, !W> = System(
    init: S -> bool,
    step: (S, L, S) -> bool,
    can: (S, W) -> bool,
    mine: (L, W) -> bool)

  /** What a run is heading for: when it is there, how far it is, and whose turn it is. */
  datatype Goal<!S, !W> = Goal(done: S -> bool, rank: S -> Rank, turn: (S, W) -> bool)

  ghost predicate Follows<S, L, W>(y: System<S, L, W>, s: S, l: L, s': S) {
    y.step(s, l, s') || s' == s
  }

  ghost predicate Moves<S, L, W>(y: System<S, L, W>, s: S, l: L, s': S, w: W) {
    y.step(s, l, s') && y.mine(l, w)
  }

  /** At the moment m the actor w cannot step, or does. */
  ghost predicate Served<S, L, W>(y: System<S, L, W>, run: nat -> S, acts: nat -> L, w: W, m: nat) {
    y.can(run(m), w) ==> Moves(y, run(m), acts(m), run(m + 1), w)
  }

  ghost predicate Heard<S, L, W>(y: System<S, L, W>, run: nat -> S, acts: nat -> L, w: W, n: nat) {
    exists m :: n <= m && Served(y, run, acts, w, m)
  }

  /** An infinite run, with pauses, in which nobody who can step is passed over forever. */
  ghost predicate FairRun<S, L, W(!new)>(y: System<S, L, W>, run: nat -> S, acts: nat -> L) {
    && y.init(run(0))
    && (forall n: nat :: Follows(y, run(n), acts(n), run(n + 1)))
    && (forall w, n: nat :: Heard(y, run, acts, w, n))
  }

  /** Until the goal is reached the rank falls, or stays and leaves the turn to those whose turn it was and
      who have not used it. */
  ghost predicate Falls<S, L, W(!new)>(y: System<S, L, W>, g: Goal<S, W>, s: S, l: L, s': S) {
    !g.done(s) && !g.done(s') ==>
      || Below(g.rank(s'), g.rank(s))
      || (g.rank(s') == g.rank(s) && forall w :: g.turn(s, w) ==> g.turn(s', w) && !Moves(y, s, l, s', w))
  }

  /** It is somebody's turn, and whoever's turn it is can step. */
  ghost predicate Someones<S, L, W(!new)>(y: System<S, L, W>, g: Goal<S, W>, s: S) {
    !g.done(s) ==> (exists w :: g.turn(s, w)) && forall w :: g.turn(s, w) ==> y.can(s, w)
  }

  lemma StepsFollow<S, L, W(!new)>(y: System<S, L, W>, run: nat -> S, acts: nat -> L, n: nat)
    requires FairRun(y, run, acts)
    ensures y.init(run(0)) && Follows(y, run(n), acts(n), run(n + 1))
  {
    hide Follows, Heard;
  }

  lemma EveryoneHeard<S, L, W(!new)>(y: System<S, L, W>, run: nat -> S, acts: nat -> L, w: W, n: nat) returns (m: nat)
    requires FairRun(y, run, acts)
    ensures n <= m && Served(y, run, acts, w, m)
  {
    hide Follows, Served;
    assert Heard(y, run, acts, w, n);
    m :| n <= m && Served(y, run, acts, w, m);
  }

  lemma {:induction false} TurnComes<S, L, W(!new)>(
      y: System<S, L, W>, g: Goal<S, W>, run: nat -> S, acts: nat -> L, n: nat, m: nat, w: W) returns (j: nat)
    requires forall i: nat :: Falls(y, g, run(i), acts(i), run(i + 1))
    requires forall i: nat :: Someones(y, g, run(i))
    requires !g.done(run(n)) && n <= m && Served(y, run, acts, w, m) && g.turn(run(n), w)
    ensures n <= j && (g.done(run(j)) || Below(g.rank(run(j)), g.rank(run(n))))
    decreases m - n
  {
    hide Moves;
    assert Falls(y, g, run(n), acts(n), run(n + 1)) && Someones(y, g, run(n));
    j := n + 1;
    if !g.done(run(j)) && !Below(g.rank(run(j)), g.rank(run(n))) {
      j := TurnComes(y, g, run, acts, n + 1, m, w);
    }
  }

  /** The goal is reached. */
  lemma {:induction false} Reached<S, L, W(!new)>(
      y: System<S, L, W>, g: Goal<S, W>, run: nat -> S, acts: nat -> L, n: nat) returns (m: nat)
    requires FairRun(y, run, acts)
    requires forall i: nat :: Falls(y, g, run(i), acts(i), run(i + 1))
    requires forall i: nat :: Someones(y, g, run(i))
    ensures n <= m && g.done(run(m))
    decreases g.rank(run(n)).stage, g.rank(run(n)).phase, g.rank(run(n)).work
  {
    hide FairRun, Falls, Served;
    m := n;
    if !g.done(run(n)) {
      assert Someones(y, g, run(n));
      var w :| g.turn(run(n), w);
      var i := EveryoneHeard(y, run, acts, w, n);
      m := TurnComes(y, g, run, acts, n, i, w);
      if !g.done(run(m)) {
        m := Reached(y, g, run, acts, m);
      }
    }
  }

  /** What holds until something else comes holds no more only when that has come. */
  lemma {:induction false} First<S>(run: nat -> S, n: nat, m: nat, p: S -> bool, q: S -> bool) returns (k: nat)
    requires n <= m && (p(run(n)) || q(run(n))) && !p(run(m))
    requires forall i: nat :: p(run(i)) ==> p(run(i + 1)) || q(run(i + 1))
    ensures n <= k && q(run(k))
    decreases m - n
  {
    k := n;
    if !q(run(n)) {
      assert p(run(n + 1)) || q(run(n + 1));
      k := First(run, n + 1, m, p, q);
    }
  }

  /** The rest of a fair run, seen as a run of another machine: one that has all the steps that come. */
  lemma LaterRun<S, L, W(!new)>(
      y: System<S, L, W>, z: System<S, L, W>, run: nat -> S, acts: nat -> L, n: nat,
      late: nat -> S, lateActs: nat -> L)
    requires FairRun(y, run, acts) && z.init(run(n))
    requires forall i: nat :: late(i) == run(n + i) && lateActs(i) == acts(n + i)
    requires forall i: nat :: n <= i && y.step(run(i), acts(i), run(i + 1)) ==> z.step(run(i), acts(i), run(i + 1))
    requires forall i: nat, w :: z.can(run(i), w) ==> y.can(run(i), w)
    requires forall i: nat, w :: y.mine(acts(i), w) ==> z.mine(acts(i), w)
    ensures FairRun(z, late, lateActs)
  {
    hide FairRun;
    assert late(0) == run(n);
    forall i: nat
      ensures Follows(z, late(i), lateActs(i), late(i + 1))
    {
      StepsFollow(y, run, acts, n + i);
      assert late(i + 1) == run(n + i + 1);
    }
    forall w, i: nat
      ensures Heard(z, late, lateActs, w, i)
    {
      var m := EveryoneHeard(y, run, acts, w, n + i);
      assert late(m - n) == run(m) && lateActs(m - n) == acts(m) && late(m - n + 1) == run(m + 1);
      assert Served(z, late, lateActs, w, m - n);
    }
    FairTogether(z, late, lateActs);
  }

  lemma FairTogether<S, L, W(!new)>(y: System<S, L, W>, run: nat -> S, acts: nat -> L)
    requires y.init(run(0)) && forall n: nat :: Follows(y, run(n), acts(n), run(n + 1))
    requires forall w, n: nat :: Heard(y, run, acts, w, n)
    ensures FairRun(y, run, acts)
  {
    hide Follows, Heard;
  }
}
