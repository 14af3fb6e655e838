/** What walking a part of a file collects, stated node by node. */
module Collection {
  import opened Wrappers
  import opened Syntax
  import opened AbstractValues

  function Elements<T>(s: seq<T>): set<T> {
    set x | x in s
  }

  lemma ElementsAppend<T>(s: seq<T>, x: T)
    ensures Elements(s + [x]) == Elements(s) + {x}
  {
  }

  ghost predicate Within(p: File, visited: set<NodeId>) {
    forall n :: n in visited ==> n < |p.nodes|
  }

  ghost function NamesOf(p: File, visited: set<NodeId>): set<Binding>
    requires Within(p, visited)
  {
    set n, b | n in visited && b in PlainNames(p, n) + SelfNames(p, n) :: b
  }

  ghost function FlowsOf(p: File, visited: set<NodeId>): set<Flow>
    requires Within(p, visited)
  {
    set n, f | n in visited && f in NodeFlows(p, n) :: f
  }

  ghost function ReturnsOf(p: File, visited: set<NodeId>): set<(NodeId, NodeId)>
    requires Within(p, visited)
  {
    set n, r | n in visited && r in NodeReturns(p, n) :: r
  }

  ghost function CallsOf(p: File, visited: set<NodeId>): set<NodeId>
    requires Within(p, visited)
  {
    set n | n in visited && p.nodes[n].Call?
  }

  /** The functions that binding `b` holds by declaration. */
  ghost function DeclaredValues(p: File, visited: set<NodeId>, b: Binding): Values
    requires Within(p, visited)
  {
    set n | n in visited && b in Declared(p, n) :: NodeValue(n)
  }

  ghost function EnvOf(p: File, visited: set<NodeId>): map<Binding, Values>
    requires Within(p, visited)
  {
    map b | b in NamesOf(p, visited) :: DeclaredValues(p, visited, b)
  }

  ghost function FunctionResults(p: File, visited: set<NodeId>): map<NodeId, Values>
    requires Within(p, visited)
  {
    map n | n in visited && p.nodes[n].Function? :: {}
  }

  /** A map with empty entries for the names it lacks. */
  ghost function WithNames(env: map<Binding, Values>, names: set<Binding>): map<Binding, Values> {
    map b | b in env.Keys + names :: if b in env then env[b] else {}
  }

  /** A map with the names node `n` declares other than through a pattern. */
  ghost function WithOwn(p: File, env: map<Binding, Values>, n: NodeId): map<Binding, Values>
    requires n < |p.nodes|
  {
    map b | b in env.Keys + OwnNames(p, n) + SelfNames(p, n) ::
      (if b in env then env[b] else {}) + (if b in Declared(p, n) then {NodeValue(n)} else {})
  }

  lemma OwnThenBound(p: File, env: map<Binding, Values>, n: NodeId)
    requires n < |p.nodes|
    ensures var (scope, bounds) := NodePatterns(p, n);
            WithNames(WithOwn(p, env, n), BoundNames(p, scope, bounds, |bounds|)) == WithNode(p, env, n)
  {
    hide WellFormed, PatternNames;
    var (scope, bounds) := NodePatterns(p, n);
    assert PlainNames(p, n) == BoundNames(p, scope, bounds, |bounds|) + OwnNames(p, n);
    assert Declared(p, n) <= OwnNames(p, n) + SelfNames(p, n);
    var left, right := WithNames(WithOwn(p, env, n), BoundNames(p, scope, bounds, |bounds|)), WithNode(p, env, n);
    assert left.Keys == right.Keys;
    forall b | b in left ensures left[b] == right[b] {}
  }

  /** The names and flows of the first `i` of several patterns bound in one scope. */
  ghost function BoundNames(p: File, scope: NodeId, bounds: seq<Bound>, i: nat): set<Binding>
    requires i <= |bounds|
  {
    set j, x | 0 <= j < i && x in PatternNames(p, scope, bounds[j]) :: x
  }

  ghost function BoundFlows(p: File, scope: NodeId, bounds: seq<Bound>, i: nat): set<Flow>
    requires i <= |bounds|
  {
    set j, f | 0 <= j < i && f in PatternFlows(p, scope, bounds[j]) :: f
  }

  lemma OneMoreBound(p: File, scope: NodeId, bounds: seq<Bound>, i: nat)
    requires i < |bounds|
    ensures BoundNames(p, scope, bounds, i + 1) == BoundNames(p, scope, bounds, i) + PatternNames(p, scope, bounds[i])
    ensures BoundFlows(p, scope, bounds, i + 1) == BoundFlows(p, scope, bounds, i) + PatternFlows(p, scope, bounds[i])
  {
  }

  lemma NoNames(env: map<Binding, Values>)
    ensures WithNames(env, {}) == env
  {
  }

  /** A pattern that is no identifier binds exactly its subpatterns. */
  lemma NestedBounds(p: File, scope: NodeId, b: Bound)
    requires b.pattern < |p.nodes| && !p.nodes[b.pattern].Identifier?
    ensures var subs := SubPatterns(p, b);
            && PatternNames(p, scope, b) == BoundNames(p, scope, subs, |subs|)
            && PatternFlows(p, scope, b) == BoundFlows(p, scope, subs, |subs|)
  {
    SubPatternsAreLater(p, b);
  }

  lemma SubPatternsAreLater(p: File, b: Bound)
    requires b.pattern < |p.nodes|
    ensures forall i :: 0 <= i < |SubPatterns(p, b)| ==> b.pattern < SubPatterns(p, b)[i].pattern < |p.nodes|
  {
    forall i | 0 <= i < |SubPatterns(p, b)|
      ensures b.pattern < SubPatterns(p, b)[i].pattern < |p.nodes|
    {
      SubPatternIsLater(p, b, i);
    }
  }

  lemma WithMoreNames(env: map<Binding, Values>, names: set<Binding>, more: set<Binding>)
    ensures WithNames(WithNames(env, names), more) == WithNames(env, names + more)
  {
  }

  /** A map with the names node `n` declares and the function they hold. */
  ghost function WithNode(p: File, env: map<Binding, Values>, n: NodeId): map<Binding, Values>
    requires n < |p.nodes|
  {
    map b | b in env.Keys + PlainNames(p, n) + SelfNames(p, n) ::
      (if b in env then env[b] else {}) + (if b in Declared(p, n) then {NodeValue(n)} else {})
  }

  lemma OneMoreName(p: File, visited: set<NodeId>, n: NodeId)
    requires Within(p, visited) && n < |p.nodes|
    ensures Within(p, visited + {n})
    ensures NamesOf(p, visited + {n}) == NamesOf(p, visited) + (PlainNames(p, n) + SelfNames(p, n))
  {
  }

  lemma DeclaredIsNamed(p: File, n: NodeId)
    requires n < |p.nodes|
    ensures Declared(p, n) <= PlainNames(p, n) + SelfNames(p, n)
  {
  }

  lemma OneMoreDeclared(p: File, visited: set<NodeId>, n: NodeId, b: Binding)
    requires Within(p, visited) && n < |p.nodes| && Within(p, visited + {n})
    ensures DeclaredValues(p, visited + {n}, b) ==
            DeclaredValues(p, visited, b) + (if b in Declared(p, n) then {NodeValue(n)} else {})
    ensures b !in NamesOf(p, visited) ==> DeclaredValues(p, visited, b) == {}
  {
    forall m | m in visited && b in Declared(p, m) ensures b in NamesOf(p, visited) {
      DeclaredIsNamed(p, m);
    }
  }

  lemma OneMoreEnv(p: File, visited: set<NodeId>, n: NodeId)
    requires Within(p, visited) && n < |p.nodes|
    ensures Within(p, visited + {n}) && EnvOf(p, visited + {n}) == WithNode(p, EnvOf(p, visited), n)
  {
    hide WellFormed, PlainNames, SelfNames, Declared, NamesOf, DeclaredValues;
    OneMoreName(p, visited, n);
    var more, env := EnvOf(p, visited + {n}), WithNode(p, EnvOf(p, visited), n);
    assert more.Keys == env.Keys;
    forall b | b in more ensures more[b] == env[b] {
      OneMoreDeclared(p, visited, n, b);
    }
  }

  lemma OneMoreNode(p: File, visited: set<NodeId>, n: NodeId)
    requires Within(p, visited) && n < |p.nodes|
    ensures Within(p, visited + {n})
    ensures FlowsOf(p, visited + {n}) == FlowsOf(p, visited) + NodeFlows(p, n)
    ensures ReturnsOf(p, visited + {n}) == ReturnsOf(p, visited) + NodeReturns(p, n)
    ensures CallsOf(p, visited + {n}) == CallsOf(p, visited) + (if p.nodes[n].Call? then {n} else {})
    ensures FunctionResults(p, visited + {n}) ==
            FunctionResults(p, visited) + (if p.nodes[n].Function? then map[n := {}] else map[])
  {
  }

  // ---- Subtrees -------------------------------------------------------------------------

  ghost predicate IsUnder(p: File, n: NodeId, m: NodeId)
    requires m < |p.nodes|
    decreases m
  {
    m == n || (m > 0 && IsUnder(p, n, p.parent[m]))
  }

  ghost function Under(p: File, n: NodeId): set<NodeId>
  {
    set m: NodeId | m in IdsFrom(p, 0) && IsUnder(p, n, m)
  }

  ghost function UnderSome(p: File, roots: seq<NodeId>): set<NodeId>
  {
    set k, m | k in roots && m in Under(p, k) :: m
  }

  lemma UnderNone(p: File)
    ensures UnderSome(p, []) == {}
  {
  }

  lemma UnderOneMore(p: File, roots: seq<NodeId>, i: nat)
    requires i < |roots|
    ensures UnderSome(p, roots[..i + 1]) == UnderSome(p, roots[..i]) + Under(p, roots[i])
  {
    assert roots[..i + 1] == roots[..i] + [roots[i]];
  }

  lemma {:induction false} UnderChild(p: File, n: NodeId, m: NodeId)
    requires m < |p.nodes| && IsUnder(p, n, m) && m != n
    ensures n < |p.nodes| && m in UnderSome(p, Children(p.nodes[n]))
    decreases m
  {
    var up := p.parent[m];
    assert IsChild(p, up, m);
    if up == n {
      assert m in Under(p, m);
    } else {
      UnderChild(p, n, up);
      var k :| k in Children(p.nodes[n]) && up in Under(p, k);
      assert m in Under(p, k);
    }
  }

  lemma {:induction false} ChildUnder(p: File, n: NodeId, k: NodeId, m: NodeId)
    requires n < |p.nodes| && k in Children(p.nodes[n]) && m < |p.nodes| && IsUnder(p, k, m)
    ensures IsUnder(p, n, m)
    decreases m
  {
    ChildIsLater(p, n, k);
    if m == k {
      assert IsUnder(p, n, p.parent[m]);
    } else {
      ChildUnder(p, n, k, p.parent[m]);
    }
  }

  lemma UnderUnfold(p: File, n: NodeId)
    requires n < |p.nodes|
    ensures Under(p, n) == {n} + UnderSome(p, Children(p.nodes[n]))
  {
    forall m | m in Under(p, n) && m != n ensures m in UnderSome(p, Children(p.nodes[n])) {
      UnderChild(p, n, m);
    }
    forall k, m | k in Children(p.nodes[n]) && m in Under(p, k) ensures m in Under(p, n) {
      ChildUnder(p, n, k, m);
    }
  }

  lemma {:induction false} AllUnderRoot(p: File, m: NodeId)
    requires m < |p.nodes|
    ensures IsUnder(p, 0, m)
    decreases m
  {
    if m > 0 {
      AllUnderRoot(p, p.parent[m]);
    }
  }

  lemma WholeFile(p: File)
    ensures Under(p, 0) == IdsFrom(p, 0) && Within(p, Under(p, 0))
    ensures NamesOf(p, Under(p, 0)) == Names(p) && FlowsOf(p, Under(p, 0)) == Flows(p)
    ensures ReturnsOf(p, Under(p, 0)) == Returns(p)
    ensures forall n: NodeId :: n in CallsOf(p, Under(p, 0)) <==> n < |p.nodes| && p.nodes[n].Call?
  {
    forall m | m in IdsFrom(p, 0) ensures m in Under(p, 0) {
      AllUnderRoot(p, m);
    }
    assert Under(p, 0) == IdsFrom(p, 0);
    assert forall n :: n in Under(p, 0) <==> 0 <= n < |p.nodes|;
    assert NamesOf(p, Under(p, 0)) == Names(p);
  }

  lemma SubPatternIsLater(p: File, b: Bound, i: nat)
    requires b.pattern < |p.nodes| && i < |SubPatterns(p, b)|
    ensures b.pattern < SubPatterns(p, b)[i].pattern < |p.nodes|
  {
    var c := SubPatterns(p, b)[i];
    assert c in SubPatterns(p, b);
    assert c.pattern in Children(p.nodes[b.pattern]) by {
      match p.nodes[b.pattern]
      case ObjectPattern(entries) =>
        var f := e => EntryBounds(p, e, b.init, b.path);
        assert c in Flatten(entries, f);
        var j :| 0 <= j < |entries| && c in f(entries[j]);
        assert c.pattern in EntryChildren(entries[j]);
      case ArrayPattern(elements) =>
        ElementIsChild(elements, 0, b.init, b.path, c);
      case _ =>
    }
    ChildIsLater(p, b.pattern, c.pattern);
  }

  lemma {:induction false} ElementIsChild(elements: seq<Option<NodeId>>, i: nat, init: Option<NodeId>, path: seq<Key>,
                                          c: Bound)
    requires c in ElementBounds(elements, i, init, path)
    ensures c.pattern in Flatten(elements, OptionToSeq)
    decreases |elements| - i
  {
    if elements[i].Some? && c.pattern == elements[i].value {
      assert c.pattern in OptionToSeq(elements[i]);
    } else {
      ElementIsChild(elements, i + 1, init, path, c);
    }
  }

  /** The patterns bound at a node are its children. */
  lemma NodePatternIsChild(p: File, n: NodeId, i: nat)
    requires n < |p.nodes| && i < |NodePatterns(p, n).1|
    ensures IsChild(p, n, NodePatterns(p, n).1[i].pattern) && NodePatterns(p, n).1[i].pattern < |p.nodes|
  {
    var b := NodePatterns(p, n).1[i];
    if p.nodes[n].VariableDeclaration? {
      assert b.pattern in DeclaratorChildren(p.nodes[n].declarators[i]);
    }
    assert b.pattern in Children(p.nodes[n]);
    ChildIsLater(p, n, b.pattern);
  }

  lemma NodePatternsAreChildren(p: File, n: NodeId)
    requires n < |p.nodes|
    ensures var (scope, bounds) := NodePatterns(p, n);
            && (forall i :: 0 <= i < |bounds| ==> bounds[i].pattern < |p.nodes|)
            && BoundFlows(p, scope, bounds, |bounds|) == NodeFlows(p, n)
            && (bounds == [] ==> forall s :: BoundFlows(p, s, bounds, 0) == {} && BoundNames(p, s, bounds, 0) == {})
  {
    var (scope, bounds) := NodePatterns(p, n);
    forall i | 0 <= i < |bounds| ensures bounds[i].pattern < |p.nodes| { NodePatternIsChild(p, n, i); }
  }

  lemma ParametersAreChildren(p: File, call: NodeId, f: NodeId)
    requires call < |p.nodes| && f < |p.nodes| && p.nodes[call].Call? && p.nodes[f].Function?
    ensures var bounds := ParameterBounds(p, call, f);
            && (forall i :: 0 <= i < |bounds| ==> bounds[i].pattern < |p.nodes|)
            && BoundFlows(p, f, bounds, |bounds|) == ParameterFlows(p, call, f)
  {
    var bounds := ParameterBounds(p, call, f);
    forall i | 0 <= i < |bounds| ensures bounds[i].pattern < |p.nodes| {
      assert IsChild(p, f, p.nodes[f].params[i]);
    }
  }
}
