/** Finite paths of a machine, given by its steps. */
module Paths {
  ghost predicate IsPath<S(!new)>(next: (S, S) -> bool, path: seq<S>) {
    path != [] && forall i :: 0 < i < |path| ==> next(path[i - 1], path[i])
  }

  ghost predicate Leads<S(!new)>(next: (S, S) -> bool, s: S, s': S) {
    exists path :: IsPath(next, path) && path[0] == s && path[|path| - 1] == s'
  }

  lemma LeadsNowhere<S(!new)>(next: (S, S) -> bool, s: S)
    ensures Leads(next, s, s)
  {
    assert IsPath(next, [s]);
  }

  lemma LeadsOn<S(!new)>(next: (S, S) -> bool, s: S, s': S, s'': S)
    requires Leads(next, s, s') && next(s', s'')
    ensures Leads(next, s, s'')
  {
    var path :| IsPath(next, path) && path[0] == s && path[|path| - 1] == s';
    assert IsPath(next, path + [s'']);
  }

  /** What a machine that starts in `init` can come to. */
  ghost predicate ReachableBy<S(!new)>(init: S -> bool, next: (S, S) -> bool, s: S) {
    exists s0 :: init(s0) && Leads(next, s0, s)
  }

  lemma ReachedFirst<S(!new)>(init: S -> bool, next: (S, S) -> bool, s: S)
    requires init(s)
    ensures ReachableBy(init, next, s)
  {
    LeadsNowhere(next, s);
  }

  lemma ReachedNext<S(!new)>(init: S -> bool, next: (S, S) -> bool, s: S, s': S)
    requires ReachableBy(init, next, s) && next(s, s')
    ensures ReachableBy(init, next, s')
  {
    hide Leads;
    var s0 :| init(s0) && Leads(next, s0, s);
    LeadsOn(next, s0, s, s');
  }

  lemma PathTo<S(!new)>(init: S -> bool, next: (S, S) -> bool, s: S) returns (path: seq<S>)
    requires ReachableBy(init, next, s)
    ensures IsPath(next, path) && init(path[0]) && path[|path| - 1] == s
  {
    var s0 :| init(s0) && Leads(next, s0, s);
    path :| IsPath(next, path) && path[0] == s0 && path[|path| - 1] == s;
  }
}
