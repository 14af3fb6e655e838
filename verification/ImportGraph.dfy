/** Import graphs: a file is mapped to the files it imports. */
module ImportGraph {
  type Graph = map<string, seq<string>>

  function Targets(g: Graph, n: string): seq<string> {
    if n in g then g[n] else []
  }

  predicate Edge(g: Graph, a: string, b: string) {
    b in Targets(g, a)
  }

  /** Consecutive files of `w` import each other. */
  ghost predicate Walk(g: Graph, w: seq<string>) {
    |w| > 0 && forall i :: 0 <= i < |w| - 1 ==> Edge(g, w[i], w[i + 1])
  }

  ghost predicate WalkBetween(g: Graph, w: seq<string>, a: string, b: string) {
    Walk(g, w) && |w| >= 2 && w[0] == a && w[|w| - 1] == b
  }

  /** `b` is imported by `a`, directly or not. */
  ghost predicate Reaches(g: Graph, a: string, b: string) {
    exists w :: WalkBetween(g, w, a, b)
  }

  ghost predicate OnCycle(g: Graph, n: string) {
    Reaches(g, n, n)
  }

  ghost predicate Acyclic(g: Graph) {
    forall n :: !OnCycle(g, n)
  }

  /** Every file of the graph comes after the files it imports. */
  ghost predicate Topological(g: Graph, order: seq<string>) {
    && (forall n :: n in g ==> n in order)
    && (forall i, v :: 0 <= i < |order| && v in Targets(g, order[i]) ==> v in order[..i])
  }

  function Elements(s: seq<string>): set<string> {
    set x | x in s
  }

  /** Every file mentioned by the graph. */
  function Files(g: Graph): set<string> {
    g.Keys + set a, b | a in g && b in g[a] :: b
  }

  lemma EdgeFiles(g: Graph, a: string, b: string)
    requires Edge(g, a, b)
    ensures a in g && a in Files(g) && b in Files(g)
  {
  }

  lemma EdgeReaches(g: Graph, a: string, b: string)
    requires Edge(g, a, b)
    ensures Reaches(g, a, b)
  {
    assert WalkBetween(g, [a, b], a, b);
  }

  lemma ReachesTransitive(g: Graph, a: string, b: string, c: string)
    requires Reaches(g, a, b) && Reaches(g, b, c)
    ensures Reaches(g, a, c)
  {
    var v :| WalkBetween(g, v, a, b);
    var w :| WalkBetween(g, w, b, c);
    var joined := v + w[1..];
    forall i | 0 <= i < |joined| - 1 ensures Edge(g, joined[i], joined[i + 1]) {
      if i >= |v| - 1 { assert Edge(g, w[i - (|v| - 1)], w[i - (|v| - 1) + 1]); }
    }
    assert WalkBetween(g, joined, a, c);
  }

  /** A stretch of a walk is a walk. */
  lemma WalkPart(g: Graph, w: seq<string>, i: nat, j: nat)
    requires Walk(g, w) && i < j < |w|
    ensures Reaches(g, w[i], w[j])
  {
    var part := w[i..j + 1];
    forall k | 0 <= k < |part| - 1 ensures Edge(g, part[k], part[k + 1]) {
      assert Edge(g, w[i + k], w[i + k + 1]);
    }
    assert WalkBetween(g, part, w[i], w[j]);
  }

  /** A closed walk that visits no file twice. */
  ghost predicate ClosedWalk(g: Graph, c: seq<string>) {
    && |c| > 0 && WalkBetween(g, c, c[0], c[0])
    && forall i, j :: 0 <= i < j < |c| - 1 ==> c[i] != c[j]
  }

  /** All files of a closed walk reach each other. */
  lemma ClosedWalkReaches(g: Graph, c: seq<string>, x: string, y: string)
    requires |c| > 0 && WalkBetween(g, c, c[0], c[0]) && x in c && y in c
    ensures Reaches(g, x, y)
  {
    var i :| 0 <= i < |c| && c[i] == x;
    var j :| 0 <= j < |c| && c[j] == y;
    if i < j {
      WalkPart(g, c, i, j);
    } else {
      if i < |c| - 1 { WalkPart(g, c, i, |c| - 1); }
      if j > 0 { WalkPart(g, c, 0, j); }
      if i < |c| - 1 && j > 0 {
        ReachesTransitive(g, x, c[0], y);
      } else if i == |c| - 1 && j == 0 {
        WalkPart(g, c, 0, |c| - 1);
      }
    }
  }
}
