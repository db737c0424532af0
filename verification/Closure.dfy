/** Everything reachable along a finite set of edges, as the recursive queries compute it.  */
module Closure {

  function Targets<T(==)>(edges: set<(T, T)>): set<T> {
    set e | e in edges :: e.1
  }

  function Successors<T(==)>(edges: set<(T, T)>, seen: set<T>): set<T> {
    set e | e in edges && e.0 in seen :: e.1
  }

  function Reach<T(==)>(edges: set<(T, T)>, seen: set<T>): set<T>
    decreases Targets(edges) - seen
  {
    var next := seen + Successors(edges, seen);
    if next == seen then seen
    else
      assert Targets(edges) - next < Targets(edges) - seen by { Grows(edges, seen); }
      Reach(edges, next)
  }

  lemma Grows<T>(edges: set<(T, T)>, seen: set<T>)
    requires seen + Successors(edges, seen) != seen
    ensures Targets(edges) - (seen + Successors(edges, seen)) < Targets(edges) - seen
  {
    var next := seen + Successors(edges, seen);
    var x :| x in next && x !in seen;
    assert x in Targets(edges) - seen && x !in Targets(edges) - next;
  }

  ghost predicate Closed<T>(edges: set<(T, T)>, s: set<T>) {
    forall e :: e in edges && e.0 in s ==> e.1 in s
  }

  lemma {:induction false} ReachCloses<T>(edges: set<(T, T)>, seen: set<T>)
    ensures seen <= Reach(edges, seen) && Closed(edges, Reach(edges, seen))
    decreases Targets(edges) - seen
  {
    var next := seen + Successors(edges, seen);
    if next == seen {
      forall e | e in edges && e.0 in seen ensures e.1 in seen { assert e.1 in Successors(edges, seen); }
    } else {
      Grows(edges, seen);
      ReachCloses(edges, next);
    }
  }

  lemma {:induction false} ReachLeast<T>(edges: set<(T, T)>, seen: set<T>, s: set<T>)
    requires seen <= s && Closed(edges, s)
    ensures Reach(edges, seen) <= s
    decreases Targets(edges) - seen
  {
    var next := seen + Successors(edges, seen);
    if next != seen {
      Grows(edges, seen);
      ReachLeast(edges, next, s);
    }
  }

  lemma ReachMonotone<T>(edges: set<(T, T)>, seen: set<T>, wider: set<T>)
    requires seen <= Reach(edges, wider)
    ensures Reach(edges, seen) <= Reach(edges, wider)
  {
    ReachCloses(edges, wider);
    ReachLeast(edges, seen, Reach(edges, wider));
  }

  /** Edges out of nodes that cannot be reached change nothing. */
  lemma ReachUnaffected<T>(edges: set<(T, T)>, more: set<(T, T)>, seen: set<T>)
    requires edges <= more && forall e :: e in more && e !in edges ==> e.0 !in Reach(edges, seen)
    ensures Reach(more, seen) == Reach(edges, seen)
  {
    ReachCloses(edges, seen);
    ReachCloses(more, seen);
    ReachLeast(more, seen, Reach(edges, seen));
    ReachLeast(edges, seen, Reach(more, seen));
  }

  function Inverse<T(==)>(edges: set<(T, T)>): set<(T, T)> {
    set e | e in edges :: (e.1, e.0)
  }

  lemma ReachBack<T>(edges: set<(T, T)>, x: T, y: T)
    requires y in Reach(edges, {x})
    ensures x in Reach(Inverse(edges), {y})
  {
    var all := Reach(edges, {x});
    var s := set z | z in all && x in Reach(Inverse(edges), {z});
    ReachCloses(edges, {x});
    ReachCloses(Inverse(edges), {x});
    assert x in s;
    forall e | e in edges && e.0 in s ensures e.1 in s {
      ReachCloses(Inverse(edges), {e.1});
      assert (e.1, e.0) in Inverse(edges);
      ReachMonotone(Inverse(edges), {e.0}, {e.1});
    }
    ReachLeast(edges, {x}, s);
  }

  /** The downward closure of a node holds exactly the nodes whose upward closure holds it. */
  lemma DownIsUp<T>(edges: set<(T, T)>, x: T, y: T)
    ensures y in Reach(edges, {x}) <==> x in Reach(Inverse(edges), {y})
  {
    if y in Reach(edges, {x}) { ReachBack(edges, x, y); }
    if x in Reach(Inverse(edges), {y}) {
      ReachBack(Inverse(edges), y, x);
      assert Inverse(Inverse(edges)) == edges by {
        forall e | e in edges ensures e in Inverse(Inverse(edges)) { assert (e.1, e.0) in Inverse(edges); }
      }
    }
  }

  /** The closure of a set is the union of the closures of its members. */
  lemma ReachOfSet<T>(edges: set<(T, T)>, seeds: set<T>, y: T)
    ensures y in Reach(edges, seeds) <==> exists x :: x in seeds && y in Reach(edges, {x})
  {
    ReachCloses(edges, seeds);
    var all := Reach(edges, seeds);
    var s := set z | z in all && exists x :: x in seeds && z in Reach(edges, {x});
    forall z | z in seeds ensures z in s { ReachCloses(edges, {z}); }
    forall e | e in edges && e.0 in s ensures e.1 in s {
      var x :| x in seeds && e.0 in Reach(edges, {x});
      ReachCloses(edges, {x});
    }
    ReachLeast(edges, seeds, s);
    forall x | x in seeds ensures Reach(edges, {x}) <= all { ReachMonotone(edges, {x}, seeds); }
  }
}
