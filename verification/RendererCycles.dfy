/** The cycle check of the renderer gate: a depth-first search with active and visited files. */
module RendererCycles {
  import opened ImportGraph
  import opened CycleSearch

  class CycleCheck {
    const g: Graph
    var active: set<string>
    var visited: set<string>
    var errors: seq<string>
    ghost var path: seq<string>
    ghost var finished: seq<string>

    constructor (graph: Graph)
      requires forall a, b :: Edge(graph, a, b) ==> b in graph
      ensures g == graph && Valid() && active == {} && path == [] && errors == []
    {
      g := graph;
      active, visited, errors := {}, {}, [];
      path, finished := [], [];
    }

    /** The active files are the path of the search, and what is reported lies on a cycle. */
    ghost predicate Valid()
      reads this
    {
      && (forall a, b :: Edge(g, a, b) ==> b in g)
      && active == Elements(path) && visited == Elements(finished)
      && active !! visited && active <= g.Keys && visited <= g.Keys
      && (forall i :: 0 <= i < |path| - 1 ==> Edge(g, path[i], path[i + 1]))
      && Distinct(path) && Distinct(finished)
      && (forall e :: e in errors ==> OnCycle(g, e))
      && Told(errors, finished) && AllCaught(errors, finished, path)
    }

    /** Every file comes after the files it imports, but for those that are reported. */
    ghost predicate Told(told: seq<string>, order: seq<string>) {
      forall i, v :: 0 <= i < |order| && v in Targets(g, order[i]) ==> v in order[..i] || v in told
    }

    /** Every reported file is imported by one that is not finished after it. */
    ghost predicate AllCaught(told: seq<string>, order: seq<string>, walk: seq<string>) {
      forall v :: v in told ==> Caught(order, walk, v)
    }

    ghost predicate Caught(order: seq<string>, walk: seq<string>, v: string) {
      exists n :: Edge(g, n, v) && Late(order, walk, n, v)
    }

    lemma ActiveOnCycle(n: string)
      requires Valid() && n in active && path != [] && Edge(g, path[|path| - 1], n)
      ensures OnCycle(g, n)
    {
      var k := IndexIn(path, n);
      EdgeReaches(g, path[|path| - 1], n);
      if k < |path| - 1 {
        WalkPart(g, path, k, |path| - 1);
        ReachesTransitive(g, n, path[|path| - 1], n);
      }
    }

    method Visit(n: string)
      requires Valid() && n in g
      requires path != [] ==> Edge(g, path[|path| - 1], n)
      requires path == [] ==> n !in active
      modifies this
      ensures Valid() && path == old(path) && active == old(active)
      ensures old(visited) <= visited && old(errors) <= errors
      ensures if n in old(active) then n in errors else n in visited
      decreases g.Keys - active - visited
    {
      hide OnCycle, Elements, Told, AllCaught, Distinct;
      if n in active {
        ActiveOnCycle(n);
        Report(n);
        return;
      }
      if n in visited { return; }
      NotOnPath(n);
      Enter(n);
      var targets := Targets(g, n);
      for i := 0 to |targets|
        invariant Valid() && path == old(path) + [n] && active == old(active) + {n}
        invariant old(visited) <= visited && old(errors) <= errors
        invariant forall j :: 0 <= j < i ==> targets[j] in visited || targets[j] in errors
      {
        assert Edge(g, n, targets[i]) && path[|path| - 1] == n;
        assert n in old(g.Keys - active - visited) && n !in g.Keys - active - visited;
        Visit(targets[i]);
      }
      assert path[..|path| - 1] == old(path);
      Finish(n);
    }

    method Report(n: string)
      requires Valid() && n in active && path != [] && Edge(g, path[|path| - 1], n) && OnCycle(g, n)
      modifies this`errors
      ensures Valid() && errors == old(errors) + [n]
    {
      hide OnCycle;
      Unfinished(n);
      Unfinished(path[|path| - 1]);
      CaughtOnPath(finished, path, n);
      errors := errors + [n];
    }

    /** An import from the top of the path back into the path catches its target. */
    lemma CaughtOnPath(order: seq<string>, walk: seq<string>, v: string)
      requires walk != [] && v in walk && Edge(g, walk[|walk| - 1], v) && Distinct(walk)
      requires walk[|walk| - 1] !in order && v !in order
      ensures Caught(order, walk, v)
    {
      hide IndexIn;
      var n := walk[|walk| - 1];
      FirstIndex(walk, n, |walk| - 1);
      assert IndexIn(walk, v) <= |walk| - 1;
      assert Late(order, walk, n, v);
    }

    lemma CaughtOnEntering(told: seq<string>, order: seq<string>, walk: seq<string>, x: string)
      requires AllCaught(told, order, walk)
      ensures AllCaught(told, order, walk + [x])
    {
      hide Late, Edge;
      forall v | v in told ensures Caught(order, walk + [x], v) {
        var n :| Edge(g, n, v) && Late(order, walk, n, v);
        LateOnEntering([[n, v]], order, walk, x);
      }
    }

    lemma CaughtOnLeaving(told: seq<string>, order: seq<string>, walk: seq<string>, x: string)
      requires AllCaught(told, order, walk + [x]) && Distinct(walk + [x]) && x !in order
      ensures AllCaught(told, order + [x], walk)
    {
      hide Late, Edge;
      forall v | v in told ensures Caught(order + [x], walk, v) {
        var n :| Edge(g, n, v) && Late(order, walk + [x], n, v);
        LeavesLate(order, walk, x, n, v);
      }
    }

    lemma NotOnPath(n: string)
      requires Valid() && n !in active
      ensures n !in path
    {
    }

    method Enter(n: string)
      requires Valid() && n in g && n !in active && n !in visited
      requires path != [] ==> Edge(g, path[|path| - 1], n)
      modifies this`active, this`path
      ensures Valid() && path == old(path) + [n] && active == old(active) + {n}
    {
      hide OnCycle, Edge, Elements, Told, AllCaught, Distinct;
      PathLonger(path, n);
      CaughtOnEntering(errors, finished, path, n);
      NotOnPath(n);
      StaysDistinct(path, n);
      active := active + {n};
      path := path + [n];
    }

    lemma PathLonger(walk: seq<string>, n: string)
      requires forall i :: 0 <= i < |walk| - 1 ==> Edge(g, walk[i], walk[i + 1])
      requires walk != [] ==> Edge(g, walk[|walk| - 1], n)
      ensures Elements(walk + [n]) == Elements(walk) + {n}
      ensures var longer := walk + [n]; forall i :: 0 <= i < |longer| - 1 ==> Edge(g, longer[i], longer[i + 1])
    {
      hide Edge;
      var longer := walk + [n];
      forall i | 0 <= i < |longer| - 1 ensures Edge(g, longer[i], longer[i + 1]) {
        if i < |walk| - 1 { assert Edge(g, walk[i], walk[i + 1]); }
      }
    }

    method Finish(n: string)
      requires Valid() && path != [] && path[|path| - 1] == n && n !in path[..|path| - 1]
      requires forall v :: v in Targets(g, n) ==> v in visited || v in errors
      modifies this`active, this`visited, this`path, this`finished
      ensures Valid() && path == old(path)[..|old(path)| - 1] && active == old(active) - {n}
      ensures visited == old(visited) + {n}
    {
      hide OnCycle, Elements, Told, AllCaught, Distinct;
      FinishedLonger(errors, finished, n);
      PathShorter(path, n);
      Unfinished(n);
      StaysDistinct(finished, n);
      assert path == path[..|path| - 1] + [n];
      PrefixDistinct(path, |path| - 1);
      CaughtOnLeaving(errors, finished, path[..|path| - 1], n);
      active := active - {n};
      visited := visited + {n};
      path := path[..|path| - 1];
      finished := finished + [n];
    }

    lemma Unfinished(n: string)
      requires Valid() && (n in active || n in path)
      ensures n in active && n in path && n !in finished
    {
    }

    lemma StaysDistinct(files: seq<string>, n: string)
      requires Distinct(files) && n !in files
      ensures Distinct(files + [n])
    {
    }

    lemma PrefixDistinct(files: seq<string>, i: nat)
      requires Distinct(files) && i <= |files|
      ensures Distinct(files[..i])
    {
    }

    lemma FinishedLonger(told: seq<string>, order: seq<string>, n: string)
      requires Told(told, order) && forall v :: v in Targets(g, n) ==> v in Elements(order) || v in told
      ensures Elements(order + [n]) == Elements(order) + {n}
      ensures Told(told, order + [n])
    {
      var longer := order + [n];
      forall i | 0 <= i < |longer| ensures longer[..i] == order[..i] {}
    }

    lemma PathShorter(walk: seq<string>, n: string)
      requires walk != [] && walk[|walk| - 1] == n && n !in walk[..|walk| - 1]
      ensures Elements(walk[..|walk| - 1]) == Elements(walk) - {n} && n in Elements(walk)
    {
      assert walk == walk[..|walk| - 1] + [n];
    }
  }

  /** An order in which every file follows its imports leaves no cycle. */
  lemma OrderIsAcyclic(g: Graph, order: seq<string>)
    requires Topological(g, order)
    ensures Acyclic(g)
  {
    EmptyIffAcyclic(g, order, []);
  }

  /** All files of the graph, each once. */
  ghost predicate IsOrder(g: Graph, order: seq<string>) {
    Distinct(order) && forall n :: n in order <==> n in g
  }

  /** The files that some import of the graph reaches before they are finished, in this order. */
  ghost predicate CaughtIn(g: Graph, order: seq<string>, v: string) {
    exists i :: 0 <= i < |order| && v in Targets(g, order[i]) && v !in order[..i]
  }

  /** The files reported lie on cycles, and some file is reported exactly if there is a cycle, so
      the check agrees with `FindCycles` whatever order either visits the files in. For the order in
      which the files are finished, exactly those are reported that some file imports which is not
      finished after them; without reports it is topological. */
  method CycleErrors(g: Graph) returns (errors: seq<string>, ghost order: seq<string>)
    requires forall a, b :: Edge(g, a, b) ==> b in g
    ensures forall e :: e in errors ==> OnCycle(g, e)
    ensures errors == [] <==> Acyclic(g)
    ensures errors == [] ==> Topological(g, order)
    ensures IsOrder(g, order) && forall v :: v in errors <==> CaughtIn(g, order, v)
  {
    hide Distinct, OnCycle, CaughtIn;
    var check := new CycleCheck(g);
    var rest := g.Keys;
    while rest != {}
      invariant check.g == g && check.Valid() && check.path == [] && fresh(check)
      invariant rest <= g.Keys
      invariant forall n :: n in g && n !in rest ==> n in check.visited
      decreases rest
    {
      var n :| n in rest;
      assert check.active == {};
      check.Visit(n);
      rest := rest - {n};
    }
    errors, order := check.errors, check.finished;
    assert check.visited == Elements(order);
    CaughtAre(g, check, errors, order);
    if errors == [] {
      OrderIsAcyclic(g, order);
    } else {
      assert errors[0] in errors;
    }
  }

  lemma CaughtAre(g: Graph, check: CycleCheck, errors: seq<string>, order: seq<string>)
    requires check.g == g && check.Told(errors, order) && check.AllCaught(errors, order, []) && Distinct(order)
    requires forall n :: n in g <==> n in order
    ensures forall v :: v in errors <==> CaughtIn(g, order, v)
    ensures errors == [] ==> Topological(g, order)
  {
    if errors == [] {
      forall i, v | 0 <= i < |order| && v in Targets(g, order[i]) ensures v in order[..i] { assert v !in errors; }
    }
    forall v | CaughtIn(g, order, v) ensures v in errors {
      var i :| 0 <= i < |order| && v in Targets(g, order[i]) && v !in order[..i];
    }
    forall v | v in errors ensures CaughtIn(g, order, v) {
      assert check.Caught(order, [], v);
      var n :| Edge(g, n, v) && Late(order, [], n, v);
      var i := IndexIn(order, n);
      assert order[i] == n;
    }
  }
}
