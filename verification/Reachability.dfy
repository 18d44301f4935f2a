/** Reachability in a finite, possibly cyclic graph, by paths. */
module Reachability {

  ghost predicate IsPath<T(!new)>(next: T -> seq<T>, path: seq<T>) {
    path != [] && forall i :: 0 <= i < |path| - 1 ==> path[i + 1] in next(path[i])
  }

  ghost predicate Leads<T(!new)>(next: T -> seq<T>, path: seq<T>, x: T, y: T) {
    IsPath(next, path) && path[0] == x && path[|path| - 1] == y
  }

  ghost predicate Reaches<T(!new)>(next: T -> seq<T>, x: T, y: T) {
    exists path :: Leads(next, path, x, y)
  }

  lemma ReachesItself<T(!new)>(next: T -> seq<T>, x: T)
    ensures Reaches(next, x, x)
  {
    assert Leads(next, [x], x, x);
  }

  lemma {:induction false} ReachesOn<T(!new)>(next: T -> seq<T>, x: T, y: T, z: T)
    requires Reaches(next, x, y) && z in next(y)
    ensures Reaches(next, x, z)
  {
    var path :| Leads(next, path, x, y);
    assert Leads(next, path + [z], x, z);
  }

  lemma {:induction false} ReachesFar<T(!new)>(next: T -> seq<T>, x: T, y: T, z: T)
    requires Reaches(next, x, y) && Reaches(next, y, z)
    ensures Reaches(next, x, z)
  {
    var path :| Leads(next, path, y, z);
    PathReaches(next, x, path, |path| - 1);
  }

  lemma {:induction false} PathReaches<T(!new)>(next: T -> seq<T>, x: T, path: seq<T>, i: nat)
    requires IsPath(next, path) && Reaches(next, x, path[0]) && i < |path|
    ensures Reaches(next, x, path[i])
  {
    if i > 0 {
      PathReaches(next, x, path, i - 1);
      assert path[i - 1 + 1] in next(path[i - 1]);
      ReachesOn(next, x, path[i - 1], path[i]);
    }
  }

  ghost predicate Closed<T(!new)>(next: T -> seq<T>, nodes: set<T>) {
    forall x, y :: x in nodes && y in next(x) ==> y in nodes
  }

  /** A closed set that contains `x` contains all that `x` reaches. */
  lemma {:induction false} ClosedContains<T(!new)>(next: T -> seq<T>, nodes: set<T>, x: T, y: T)
    requires Closed(next, nodes) && x in nodes && Reaches(next, x, y)
    ensures y in nodes
  {
    var path :| Leads(next, path, x, y);
    PathStaysIn(next, nodes, path, |path| - 1);
  }

  lemma {:induction false} PathStaysIn<T(!new)>(next: T -> seq<T>, nodes: set<T>, path: seq<T>, i: nat)
    requires Closed(next, nodes) && IsPath(next, path) && path[0] in nodes && i < |path|
    ensures path[i] in nodes
  {
    if i > 0 {
      PathStaysIn(next, nodes, path, i - 1);
      assert path[i - 1 + 1] in next(path[i - 1]);
    }
  }
}
