/** Everything a file imports, directly or not. */
module TransitiveDependencies {
  import opened ImportGraph

  class Closure {
    const g: Graph
    var visited: set<string>

    constructor (graph: Graph)
      ensures g == graph && visited == {}
    {
      g := graph;
      visited := {};
    }

    /** Every visited file but those in `open` has all its imports visited. */
    ghost predicate Closed(open: set<string>)
      reads this
    {
      forall a, b :: a in visited && a !in open && Edge(g, a, b) ==> b in visited
    }

    method Visit(n: string)
      requires visited <= Files(g)
      modifies this`visited
      ensures old(visited) <= visited <= Files(g)
      ensures forall b :: Edge(g, n, b) ==> b in visited
      ensures forall a, b :: a in visited && a !in old(visited) && Edge(g, a, b) ==> b in visited
      ensures forall a :: a in visited && a !in old(visited) ==> Reaches(g, n, a)
      decreases Files(g) - visited
    {
      var targets := Targets(g, n);
      for i := 0 to |targets|
        invariant old(visited) <= visited <= Files(g)
        invariant forall j :: 0 <= j < i ==> targets[j] in visited
        invariant forall a, b :: a in visited && a !in old(visited) && Edge(g, a, b) ==> b in visited
        invariant forall a :: a in visited && a !in old(visited) ==> Reaches(g, n, a)
      {
        var d := targets[i];
        assert Edge(g, n, d);
        EdgeFiles(g, n, d);
        EdgeReaches(g, n, d);
        if d !in visited {
          ghost var before := visited;
          visited := visited + {d};
          Visit(d);
          forall a | a in visited && a !in before ensures Reaches(g, n, a) {
            if a != d { ReachesTransitive(g, n, d, a); }
          }
        }
      }
    }
  }

  /** A set that holds the imports of `start` and of its members holds all that `start` reaches. */
  lemma {:induction false} ClosedHoldsWalk(g: Graph, visited: set<string>, start: string, w: seq<string>, k: nat)
    requires forall b :: Edge(g, start, b) ==> b in visited
    requires forall a, b :: a in visited && Edge(g, a, b) ==> b in visited
    requires Walk(g, w) && w[0] == start && 1 <= k < |w|
    ensures w[k] in visited
    decreases k
  {
    assert Edge(g, w[k - 1], w[k - 1 + 1]);
    if k > 1 { ClosedHoldsWalk(g, visited, start, w, k - 1); }
  }

  /** The transitive dependencies of a file are exactly the files it reaches by one import or
      more; the file itself is among them exactly if it lies on a cycle. */
  method TransitiveDependencies(g: Graph, start: string) returns (visited: set<string>)
    ensures forall n :: n in visited <==> Reaches(g, start, n)
    ensures start in visited <==> OnCycle(g, start)
  {
    var closure := new Closure(g);
    closure.Visit(start);
    visited := closure.visited;
    forall n | Reaches(g, start, n) ensures n in visited {
      var w :| WalkBetween(g, w, start, n);
      ClosedHoldsWalk(g, visited, start, w, |w| - 1);
    }
  }
}
