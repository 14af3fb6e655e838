/** The depth-first search for import cycles, with a state per file and a path stack. */
module CycleSearch {
  import opened ImportGraph

  datatype Mark = Visiting | Visited

  /** The files of a cycle, whose last entry repeats its first. */
  function CycleFiles(c: seq<string>): set<string> {
    if c == [] then {} else Elements(c[..|c| - 1])
  }

  /** A cycle through exactly these files is reported. */
  ghost predicate FilesReported(cycles: seq<seq<string>>, files: set<string>) {
    exists c :: c in cycles && CycleFiles(c) == files
  }

  /** The walk is a cycle that the import of `b` by `a` closes. */
  ghost predicate ClosedBy(g: Graph, w: seq<string>, a: string, b: string) {
    ClosedWalk(g, w) && w[|w| - 2] == a && w[|w| - 1] == b
  }

  /** The import closes a cycle, and one through the same files is reported. */
  ghost predicate Reported(g: Graph, cycles: seq<seq<string>>, a: string, b: string) {
    exists w :: ClosedBy(g, w, a, b) && FilesReported(cycles, CycleFiles(w))
  }

  ghost predicate CyclesGenuine(g: Graph, cycles: seq<seq<string>>) {
    forall c :: c in cycles ==> ClosedWalk(g, c)
  }

  ghost predicate CyclesDistinct(cycles: seq<seq<string>>) {
    forall i, j :: 0 <= i < j < |cycles| ==> CycleFiles(cycles[i]) != CycleFiles(cycles[j])
  }

  /** Every import of a finished file was finished before it, or closes a cycle whose files are reported. */
  ghost predicate Explored(g: Graph, finished: seq<string>, cycles: seq<seq<string>>) {
    forall i, v :: 0 <= i < |finished| && v in Targets(g, finished[i]) ==>
      v in finished[..i] || Reported(g, cycles, finished[i], v)
  }

  // ---- What an exploration shows ----------------------------------------------------------------

  function IndexIn(order: seq<string>, n: string): (i: nat)
    requires n in order
    ensures i < |order| && order[i] == n && n !in order[..i]
  {
    if order[0] == n then 0 else
      assert n in order[1..];
      var i := IndexIn(order[1..], n) + 1;
      assert order[..i] == [order[0]] + order[1..][..i - 1];
      i
  }

  lemma FirstIndex(order: seq<string>, n: string, j: nat)
    requires j < |order| && order[j] == n
    ensures IndexIn(order, n) <= j
  {
    var i := IndexIn(order, n);
    assert forall k :: 0 <= k < i ==> order[..i][k] != n;
  }

  /** On a walk out of a finished file some import was reported, or the order falls at each step. */
  lemma {:induction false} FallsOrReported(g: Graph, finished: seq<string>, cycles: seq<seq<string>>, w: seq<string>,
                                           k: nat)
    requires Explored(g, finished, cycles) && Walk(g, w) && k < |w| && w[0] in finished
    requires forall i :: 0 <= i < |w| - 1 ==> !Reported(g, cycles, w[i], w[i + 1])
    ensures w[k] in finished && IndexIn(finished, w[k]) + k <= IndexIn(finished, w[0])
    decreases k
  {
    if k > 0 {
      FallsOrReported(g, finished, cycles, w, k - 1);
      var u, v := w[k - 1], w[k];
      assert Edge(g, w[k - 1], w[k - 1 + 1]) && !Reported(g, cycles, w[k - 1], w[k - 1 + 1]);
      var i := IndexIn(finished, u);
      assert v in Targets(g, finished[i]);
      var j :| 0 <= j < i && finished[j] == v;
      FirstIndex(finished, v, j);
    }
  }

  /** When every file is finished, every closed walk has an import that was reported. */
  lemma ClosedWalkReported(g: Graph, finished: seq<string>, cycles: seq<seq<string>>, w: seq<string>)
    requires Explored(g, finished, cycles) && (forall n :: n in g ==> n in finished)
    requires |w| > 0 && WalkBetween(g, w, w[0], w[0])
    ensures exists i :: 0 <= i < |w| - 1 && Reported(g, cycles, w[i], w[i + 1])
  {
    if forall i :: 0 <= i < |w| - 1 ==> !Reported(g, cycles, w[i], w[i + 1]) {
      EdgeFiles(g, w[0], w[0 + 1]);
      FallsOrReported(g, finished, cycles, w, |w| - 1);
      assert false;
    }
  }

  /** A file on a cycle shares its strongly connected component with a reported cycle. */
  lemma ComponentReported(g: Graph, finished: seq<string>, cycles: seq<seq<string>>, n: string)
    requires Explored(g, finished, cycles) && (forall x :: x in g ==> x in finished)
    requires CyclesGenuine(g, cycles) && OnCycle(g, n)
    ensures exists c :: c in cycles && forall x :: x in c ==> Reaches(g, n, x) && Reaches(g, x, n)
  {
    var w :| WalkBetween(g, w, n, n);
    ClosedWalkReported(g, finished, cycles, w);
    var i :| 0 <= i < |w| - 1 && Reported(g, cycles, w[i], w[i + 1]);
    var c := CycleThrough(g, cycles, w[i], w[i + 1]);
    forall x | x in c ensures Reaches(g, n, x) && Reaches(g, x, n) {
      ClosedWalkReaches(g, w, n, w[i]);
      ClosedWalkReaches(g, w, w[i], n);
      ClosedWalkReaches(g, c, w[i], x);
      ClosedWalkReaches(g, c, x, w[i]);
      ReachesTransitive(g, n, w[i], x);
      ReachesTransitive(g, x, w[i], n);
    }
  }

  /** Both ends of a reported import lie on a reported cycle. */
  lemma CycleThrough(g: Graph, cycles: seq<seq<string>>, a: string, b: string) returns (c: seq<string>)
    requires Reported(g, cycles, a, b)
    ensures c in cycles && a in c && b in c
  {
    var w :| ClosedBy(g, w, a, b) && FilesReported(cycles, CycleFiles(w));
    c :| c in cycles && CycleFiles(c) == CycleFiles(w);
    assert w[..|w| - 1][|w| - 2] == a && w[..|w| - 1][0] == b;
    assert a in CycleFiles(w) && b in CycleFiles(w);
  }

  /** The search reports nothing exactly on graphs without cycles. */
  lemma EmptyIffAcyclic(g: Graph, finished: seq<string>, cycles: seq<seq<string>>)
    requires Explored(g, finished, cycles) && (forall x :: x in g ==> x in finished) && CyclesGenuine(g, cycles)
    ensures cycles == [] <==> Acyclic(g)
    ensures cycles == [] ==> Topological(g, finished)
  {
    if cycles == [] {
      forall n ensures !OnCycle(g, n) {
        if OnCycle(g, n) { ComponentReported(g, finished, cycles, n); assert false; }
      }
    } else {
      assert cycles[0] in cycles && OnCycle(g, cycles[0][0]);
    }
  }

  /** What the report list and the identities seen have to do with each other. */
  ghost predicate ReportValid(g: Graph, cycles: seq<seq<string>>, seen: set<set<string>>) {
    && CyclesGenuine(g, cycles)
    && CyclesDistinct(cycles)
    && (forall files :: files in seen <==> exists c :: c in cycles && CycleFiles(c) == files)
  }

  lemma CycleAdded(g: Graph, cycles: seq<seq<string>>, seen: set<set<string>>, cycle: seq<string>)
    requires ReportValid(g, cycles, seen) && ClosedWalk(g, cycle) && CycleFiles(cycle) !in seen
    ensures ReportValid(g, cycles + [cycle], seen + {CycleFiles(cycle)})
  {
    hide ClosedWalk, CycleFiles;
    var after, files' := cycles + [cycle], seen + {CycleFiles(cycle)};
    forall files ensures files in files' <==> exists c :: c in after && CycleFiles(c) == files {
      if files == CycleFiles(cycle) { assert cycle in after; }
      if files in seen { var c :| c in cycles && CycleFiles(c) == files; assert c in after; }
    }
  }

  lemma ReportCovers(g: Graph, cycles: seq<seq<string>>, seen: set<set<string>>, w: seq<string>, u: string, v: string)
    requires ReportValid(g, cycles, seen) && CycleFiles(w) in seen && ClosedBy(g, w, u, v)
    ensures FilesReported(cycles, CycleFiles(w)) && Reported(g, cycles, u, v)
  {
    hide CycleFiles, ClosedBy;
  }

  lemma ReportedStays(g: Graph, before: seq<seq<string>>, after: seq<seq<string>>)
    requires before <= after
    ensures forall a, b :: Reported(g, before, a, b) ==> Reported(g, after, a, b)
  {
    hide CycleFiles, ClosedBy;
    forall files | FilesReported(before, files) ensures FilesReported(after, files) {
      var c :| c in before && CycleFiles(c) == files;
      assert c in after;
    }
  }

  lemma ExploredStays(g: Graph, finished: seq<string>, before: seq<seq<string>>, after: seq<seq<string>>)
    requires Explored(g, finished, before) && before <= after
    ensures Explored(g, finished, after)
  {
    ReportedStays(g, before, after);
  }

  lemma ExploredMore(g: Graph, finished: seq<string>, cycles: seq<seq<string>>, n: string)
    requires Explored(g, finished, cycles) && forall v :: v in Targets(g, n) ==>
      v in finished || Reported(g, cycles, n, v)
    ensures Explored(g, finished + [n], cycles)
  {
    var more := finished + [n];
    forall i, v | 0 <= i < |more| && v in Targets(g, more[i])
      ensures v in more[..i] || Reported(g, cycles, more[i], v)
    {
      assert more[..i] == finished[..i];
    }
  }

  // ---- The imports that close cycles ----------------------------------------------------------------

  ghost predicate Distinct(files: seq<string>) {
    forall i, j :: 0 <= i < j < |files| ==> files[i] != files[j]
  }

  /** `v` is not finished before `n`: it is not among the files finished before it, or both are still on
      the stack, `v` not above `n`. */
  ghost predicate Late(finished: seq<string>, stack: seq<string>, n: string, v: string) {
    if n in finished then v !in finished[..IndexIn(finished, n)]
    else n in stack && v in stack && IndexIn(stack, v) <= IndexIn(stack, n) && v !in finished
  }

  /** The last import of every reported cycle goes to a file that is not finished before. */
  ghost predicate AllLate(cycles: seq<seq<string>>, finished: seq<string>, stack: seq<string>) {
    forall c :: c in cycles ==> |c| >= 2 && Late(finished, stack, c[|c| - 2], c[|c| - 1])
  }

  lemma IndexStays(files: seq<string>, n: string, x: string)
    requires n in files
    ensures IndexIn(files + [x], n) == IndexIn(files, n)
  {
    var i := IndexIn(files, n);
    assert (files + [x])[..i] == files[..i];
    FirstIndex(files + [x], n, i);
    var j := IndexIn(files + [x], n);
    FirstIndex(files, n, j);
  }

  lemma LateOnEntering(cycles: seq<seq<string>>, finished: seq<string>, stack: seq<string>, x: string)
    requires AllLate(cycles, finished, stack)
    ensures AllLate(cycles, finished, stack + [x])
  {
    hide IndexIn;
    forall c | c in cycles ensures Late(finished, stack + [x], c[|c| - 2], c[|c| - 1]) {
      var n, v := c[|c| - 2], c[|c| - 1];
      if n !in finished {
        IndexStays(stack, n, x);
        IndexStays(stack, v, x);
      }
    }
  }

  lemma LateOnLeaving(cycles: seq<seq<string>>, finished: seq<string>, stack: seq<string>, x: string)
    requires AllLate(cycles, finished, stack + [x]) && Distinct(stack + [x]) && x !in finished
    ensures AllLate(cycles, finished + [x], stack)
  {
    hide IndexIn;
    forall c | c in cycles ensures Late(finished + [x], stack, c[|c| - 2], c[|c| - 1]) {
      LeavesLate(finished, stack, x, c[|c| - 2], c[|c| - 1]);
    }
  }

  lemma LeavesLate(finished: seq<string>, stack: seq<string>, x: string, n: string, v: string)
    requires Late(finished, stack + [x], n, v) && Distinct(stack + [x]) && x !in finished
    ensures Late(finished + [x], stack, n, v)
  {
    hide IndexIn;
    var done := finished + [x];
    if n in finished {
      IndexStays(finished, n, x);
      assert done[..IndexIn(finished, n)] == finished[..IndexIn(finished, n)];
    } else if n == x {
      assert done[|finished|] == x;
      FirstIndex(done, x, |finished|);
      assert forall k :: 0 <= k < IndexIn(done, x) ==> done[..IndexIn(done, x)][k] == done[k];
      assert v !in finished;
      assert forall k :: 0 <= k < IndexIn(done, x) ==> k < |finished| && done[k] == finished[k];
    } else {
      var i, j := IndexIn(stack + [x], n), IndexIn(stack + [x], v);
      assert i < |stack| && (stack + [x])[i] == stack[i] && (stack + [x])[j] == stack[j];
      IndexStays(stack, n, x);
      IndexStays(stack, v, x);
      assert stack[j] != (stack + [x])[|stack|];
    }
  }

  // ---- The search -----------------------------------------------------------------------------------

  class Search {
    const g: Graph
    var state: map<string, Mark>
    var stack: seq<string>
    var cycles: seq<seq<string>>
    var seen: set<set<string>>
    ghost var finished: seq<string>

    constructor (graph: Graph)
      ensures g == graph && Valid() && state == map[] && stack == [] && finished == []
    {
      g := graph;
      state, stack, cycles, seen, finished := map[], [], [], {}, [];
    }

    /** The stack is a walk through the files being visited, and `finished` holds those that were. */
    ghost predicate Marked()
      reads this`state, this`stack, this`finished
    {
      && (forall n :: n in stack <==> n in state && state[n] == Visiting)
      && (forall n :: n in finished <==> n in state && state[n] == Visited)
      && Distinct(stack) && Distinct(finished) && state.Keys <= Files(g)
      && forall i :: 0 <= i < |stack| - 1 ==> Edge(g, stack[i], stack[i + 1])
    }

    ghost predicate Valid()
      reads this
    {
      Marked() && ReportValid(g, cycles, seen) && Explored(g, finished, cycles) && AllLate(cycles, finished, stack)
    }

    /** The import that closes the top of the stack into a cycle. */
    ghost function Closing(v: string): seq<string>
      requires v in stack
      reads this
    {
      stack[IndexIn(stack, v)..] + [v]
    }

    lemma ClosingIsCycle(v: string)
      requires Valid() && v in stack && Edge(g, stack[|stack| - 1], v)
      ensures ClosedWalk(g, Closing(v))
    {
      var c, k := Closing(v), IndexIn(stack, v);
      forall i | 0 <= i < |c| - 1 ensures Edge(g, c[i], c[i + 1]) {
        if i < |c| - 2 { assert Edge(g, stack[k + i], stack[k + i + 1]); }
      }
    }

    /** Makes sure that a cycle through exactly the files of the stack from `v` upwards is reported. */
    method Report(v: string)
      requires Valid() && v in stack && Edge(g, stack[|stack| - 1], v)
      modifies this`cycles, this`seen
      ensures Valid() && old(cycles) <= cycles && Reported(g, cycles, stack[|stack| - 1], v)
      ensures FilesReported(cycles, Elements(stack[IndexIn(stack, v)..]))
      ensures cycles == old(cycles) || cycles == old(cycles) + [Closing(v)]
    {
      hide ReportValid, Explored, ClosedWalk, Reported, FilesReported, AllLate, Marked, IndexIn;
      ClosingIsCycle(v);
      var start := IndexIn(stack, v);
      var cycle := stack[start..] + [v];
      var identity := CycleFiles(cycle);
      ClosingFiles(v);
      if identity !in seen {
        CycleAdded(g, cycles, seen, cycle);
        ReportedStays(g, cycles, cycles + [cycle]);
        ExploredStays(g, finished, cycles, cycles + [cycle]);
        ClosingIsLate(v);
        seen := seen + {identity};
        cycles := cycles + [cycle];
      }
      ReportCovers(g, cycles, seen, cycle, stack[|stack| - 1], v);
    }

    /** The cycle has the files of the stack from `v` upwards, and ends with the closing import. */
    lemma ClosingFiles(v: string)
      requires v in stack
      ensures var c := Closing(v);
        && CycleFiles(c) == Elements(stack[IndexIn(stack, v)..]) && |c| >= 2
        && c[|c| - 2] == stack[|stack| - 1] && c[|c| - 1] == v
    {
      var k := IndexIn(stack, v);
      assert Closing(v)[..|stack| - k] == stack[k..];
    }

    /** Neither file of the closing import is finished. */
    lemma ClosingIsLate(v: string)
      requires Valid() && v in stack
      ensures AllLate(cycles + [Closing(v)], finished, stack)
    {
      hide ReportValid, Explored;
      ClosingFiles(v);
      var top := stack[|stack| - 1];
      assert top in stack;
      assert stack[IndexIn(stack, top)] == stack[|stack| - 1];
    }

    method Visit(n: string)
      requires Valid() && n in Files(g) && n !in state
      requires stack != [] ==> Edge(g, stack[|stack| - 1], n)
      modifies this
      ensures Valid() && stack == old(stack) && old(cycles) <= cycles && old(finished) <= finished
      ensures old(state).Keys <= state.Keys && n in finished
      decreases Files(g) - state.Keys, 2
    {
      hide ReportValid, Explored, Reported, Files, Valid, AllLate;
      Enter(n);
      ghost var entered := state.Keys;
      var targets := Targets(g, n);
      for i := 0 to |targets|
        invariant Valid() && stack == old(stack) + [n] && old(cycles) <= cycles && old(finished) <= finished
        invariant entered <= state.Keys
        invariant forall j :: 0 <= j < i ==> targets[j] in finished || Reported(g, cycles, n, targets[j])
      {
        ghost var before := cycles;
        Follow(n, targets[i]);
        ReportedStays(g, before, cycles);
      }
      Leave(n);
    }

    method Enter(n: string)
      requires Valid() && n in Files(g) && n !in state
      requires stack != [] ==> Edge(g, stack[|stack| - 1], n)
      modifies this`state, this`stack
      ensures Valid() && stack == old(stack) + [n] && state.Keys == old(state).Keys + {n}
    {
      hide ReportValid, Explored, Files, AllLate;
      LateOnEntering(cycles, finished, stack, n);
      state := state[n := Visiting];
      stack := stack + [n];
    }

    /** One import of the file on top of the stack. */
    method Follow(n: string, v: string)
      requires Valid() && stack != [] && stack[|stack| - 1] == n && v in Targets(g, n)
      modifies this
      ensures Valid() && stack == old(stack) && old(cycles) <= cycles && old(finished) <= finished
      ensures old(state).Keys <= state.Keys && (v in finished || Reported(g, cycles, n, v))
      decreases Files(g) - state.Keys, 3
    {
      hide ReportValid, Explored, Reported, Files, AllLate, Marked;
      EdgeFiles(g, n, v);
      assert Edge(g, n, v);
      if v !in state {
        Visit(v);
      } else {
        MarkMeans(v);
        if state[v] == Visiting { Report(v); }
      }
    }

    lemma MarkMeans(v: string)
      requires Marked() && v in state
      ensures if state[v] == Visiting then v in stack else v in finished
    {
    }

    /** The file on top of the stack can be finished. */
    lemma MarksMove()
      requires Marked() && stack != []
      ensures var last := |stack| - 1;
        var n, marks := stack[last], state[stack[last] := Visited];
        && n in state && n !in finished && marks.Keys == state.Keys
        && (forall x :: x in stack[..last] <==> x in marks && marks[x] == Visiting)
        && (forall x :: x in finished + [n] <==> x in marks && marks[x] == Visited)
        && Distinct(stack[..last]) && Distinct(finished + [n])
    {
      var last := |stack| - 1;
      assert stack[last] in stack;
      assert forall x :: x in stack <==> x in stack[..last] || x == stack[last];
    }

    /** Takes the file off the stack and finishes it. */
    method Leave(n: string)
      requires Valid() && stack != [] && stack[|stack| - 1] == n
      requires forall v :: v in Targets(g, n) ==> v in finished || Reported(g, cycles, n, v)
      modifies this`stack, this`state, this`finished
      ensures Valid() && stack == old(stack)[..|old(stack)| - 1] && finished == old(finished) + [n]
      ensures state.Keys == old(state).Keys
    {
      hide ReportValid, Explored, Reported, Files, AllLate;
      ExploredMore(g, finished, cycles, n);
      MarksMove();
      assert stack == stack[..|stack| - 1] + [n];
      LateOnLeaving(cycles, finished, stack[..|stack| - 1], n);
      stack := stack[..|stack| - 1];
      state := state[n := Visited];
      finished := finished + [n];
    }
  }

  /** Import cycles: each one a closed walk through distinct files, no two through the same files, none exactly
      if the graph is acyclic, and one in every strongly connected component that has a cycle. There is an
      order of the files, in which the search finishes them, such that every import of a file that does not
      come before closes a cycle whose files are reported, and every reported cycle ends with such an import. */
  method FindCycles(g: Graph) returns (cycles: seq<seq<string>>, ghost order: seq<string>)
    ensures CyclesGenuine(g, cycles) && CyclesDistinct(cycles)
    ensures cycles == [] <==> Acyclic(g)
    ensures forall n :: OnCycle(g, n) ==> exists c :: c in cycles && forall x :: x in c ==>
      Reaches(g, n, x) && Reaches(g, x, n)
    ensures Distinct(order) && forall n :: n in g ==> n in order
    ensures forall i, v :: 0 <= i < |order| && v in Targets(g, order[i]) && v !in order[..i] ==>
      exists w :: ClosedBy(g, w, order[i], v) && FilesReported(cycles, CycleFiles(w))
    ensures forall c :: c in cycles ==>
      exists i :: 0 <= i < |order| && ClosedBy(g, c, order[i], c[0]) && c[0] !in order[..i]
  {
    hide Explored, Reported, FilesReported, AllLate, CyclesGenuine, CyclesDistinct, CycleFiles, ClosedBy;
    hide Reaches, OnCycle, Acyclic, Distinct;
    var search := new Search(g);
    var rest := g.Keys;
    while rest != {}
      invariant search.g == g && search.Valid() && search.stack == [] && fresh(search)
      invariant rest <= g.Keys && forall n :: n in g && n !in rest ==> n in search.state
      decreases rest
    {
      var n :| n in rest;
      if n !in search.state { search.Visit(n); }
      rest := rest - {n};
    }
    cycles, order := search.cycles, search.finished;
    EmptyIffAcyclic(g, order, cycles);
    ClosingImports(g, cycles, order);
    ComponentsReported(g, order, cycles);
  }

  lemma ComponentsReported(g: Graph, finished: seq<string>, cycles: seq<seq<string>>)
    requires Explored(g, finished, cycles) && (forall x :: x in g ==> x in finished) && CyclesGenuine(g, cycles)
    ensures forall n :: OnCycle(g, n) ==> exists c :: c in cycles && forall x :: x in c ==>
      Reaches(g, n, x) && Reaches(g, x, n)
  {
    hide Explored, CyclesGenuine, OnCycle, Reaches;
    forall n | OnCycle(g, n)
      ensures exists c :: c in cycles && forall x :: x in c ==> Reaches(g, n, x) && Reaches(g, x, n)
    {
      ComponentReported(g, finished, cycles, n);
    }
  }

  lemma ClosingImports(g: Graph, cycles: seq<seq<string>>, order: seq<string>)
    requires CyclesGenuine(g, cycles) && Explored(g, order, cycles) && AllLate(cycles, order, [])
    ensures forall i, v :: 0 <= i < |order| && v in Targets(g, order[i]) && v !in order[..i] ==>
      exists w :: ClosedBy(g, w, order[i], v) && FilesReported(cycles, CycleFiles(w))
    ensures forall c :: c in cycles ==>
      exists i :: 0 <= i < |order| && ClosedBy(g, c, order[i], c[0]) && c[0] !in order[..i]
  {
    hide CycleFiles, ClosedWalk;
    forall c | c in cycles
      ensures exists i :: 0 <= i < |order| && ClosedBy(g, c, order[i], c[0]) && c[0] !in order[..i]
    {
      assert ClosedWalk(g, c) && c[0] == c[|c| - 1] by { assert ClosedWalk(g, c); LastIsFirst(g, c); }
      var i := IndexIn(order, c[|c| - 2]);
      assert ClosedBy(g, c, order[i], c[0]);
    }
  }

  lemma LastIsFirst(g: Graph, c: seq<string>)
    requires ClosedWalk(g, c)
    ensures |c| >= 2 && c[0] == c[|c| - 1]
  {
  }
}
