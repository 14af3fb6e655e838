/** What the scopes of a file are, read off its tree: each is the nearest node above of some kind. */
module ScopeLaws {
  import opened Wrappers
  import opened Syntax
  import opened AbstractValues

  /** Node `a` is `n` or stands above it. */
  ghost predicate Above(p: File, a: NodeId, n: NodeId)
    requires n < |p.nodes|
  {
    a == n || (n > 0 && Above(p, a, p.parent[n]))
  }

  lemma {:induction false} AboveIsEarlier(p: File, a: NodeId, n: NodeId)
    requires n < |p.nodes| && Above(p, a, n)
    ensures a <= n
    decreases n
  {
    if a != n { AboveIsEarlier(p, a, p.parent[n]); }
  }

  lemma {:induction false} AboveTransitive(p: File, a: NodeId, b: NodeId, n: NodeId)
    requires n < |p.nodes| && Above(p, b, n) && b < |p.nodes| && Above(p, a, b)
    ensures Above(p, a, n)
    decreases n
  {
    if b != n { AboveTransitive(p, a, b, p.parent[n]); }
  }

  /** What stands above a node is on one line. */
  lemma {:induction false} AboveIsLine(p: File, a: NodeId, b: NodeId, n: NodeId)
    requires n < |p.nodes| && Above(p, a, n) && Above(p, b, n) && a <= b
    ensures b < |p.nodes| && Above(p, a, b)
    decreases n
  {
    AboveIsEarlier(p, b, n);
    if b != n {
      AboveIsEarlier(p, b, p.parent[n]);
      if a == n { assert false; }
      AboveIsLine(p, a, b, p.parent[n]);
    }
  }

  /** The scope of a node is the nearest program, function or block from it upwards. */
  lemma {:induction false} ScopeIsNearest(p: File, n: NodeId)
    requires n < |p.nodes|
    ensures var s := ScopeOf(p, n);
      && Above(p, s, n) && (p.nodes[s].Program? || p.nodes[s].Function? || p.nodes[s].Block?)
      && forall a: NodeId :: s < a < |p.nodes| && Above(p, a, n) ==>
           !p.nodes[a].Program? && !p.nodes[a].Function? && !p.nodes[a].Block?
    decreases n
  {
    if OpensScope(p.nodes[n]) {
      forall a: NodeId | Above(p, a, n) ensures a <= n { AboveIsEarlier(p, a, n); }
    } else {
      assert p.parent[n] < n;
      ScopeIsNearest(p, p.parent[n]);
    }
  }

  /** `var` declares in the nearest function, or in the program. */
  lemma {:induction false} VarScopeIsNearest(p: File, s: NodeId)
    requires s < |p.nodes| && OpensScope(p.nodes[s])
    ensures var d := VarScope(p, s);
      && Above(p, d, s) && (p.nodes[d].Program? || p.nodes[d].Function?)
      && forall a: NodeId :: d < a < |p.nodes| && Above(p, a, s) ==> !p.nodes[a].Program? && !p.nodes[a].Function?
    decreases s
  {
    if p.nodes[s].Block? {
      var outer := OuterScope(p, s);
      ScopeIsNearest(p, p.parent[s]);
      VarScopeIsNearest(p, outer);
      var d := VarScope(p, outer);
      AboveTransitive(p, outer, p.parent[s], s);
      AboveTransitive(p, d, outer, s);
      forall a: NodeId | d < a < |p.nodes| && Above(p, a, s) ensures !p.nodes[a].Program? && !p.nodes[a].Function? {
        if a != s {
          assert Above(p, a, p.parent[s]);
          if a <= outer { AboveIsLine(p, a, outer, p.parent[s]); }
        }
      }
    } else {
      forall a: NodeId | Above(p, a, s) ensures a <= s { AboveIsEarlier(p, a, s); }
    }
  }

  /** A `return` belongs to the nearest function. */
  lemma {:induction false} OwnerIsNearestFunction(p: File, n: NodeId)
    requires n < |p.nodes|
    ensures var f := OwnerOf(p, n);
      match f
      case None => forall a: NodeId :: a < |p.nodes| && Above(p, a, n) ==> !p.nodes[a].Function?
      case Some(f) =>
        && Above(p, f, n) && p.nodes[f].Function?
        && forall a: NodeId :: f < a < |p.nodes| && Above(p, a, n) ==> !p.nodes[a].Function?
    decreases n
  {
    if p.nodes[n].Function? {
      forall a: NodeId | Above(p, a, n) ensures a <= n { AboveIsEarlier(p, a, n); }
    } else if n > 0 {
      OwnerIsNearestFunction(p, p.parent[n]);
    }
  }

  /** At the top of a classic script, outside of all functions but arrows, `this` is the global. */
  lemma {:induction false} ThisIsGlobal(p: File, s: NodeId)
    requires s < |p.nodes| && OpensScope(p.nodes[s])
    ensures ThisOwner(p, s) == 0 <==>
      forall f: NodeId :: 0 < f < |p.nodes| && Above(p, f, s) && p.nodes[f].Function? ==> p.nodes[f].fkind == Arrow
    decreases s
  {
    if s == 0 {
      forall f: NodeId | 0 < f < |p.nodes| && Above(p, f, s) ensures false { AboveIsEarlier(p, f, s); }
    } else if p.nodes[s].Function? && p.nodes[s].fkind != Arrow {
      assert Above(p, s, s);
    } else {
      var outer := OuterScope(p, s);
      ScopeIsNearest(p, p.parent[s]);
      ThisIsGlobal(p, outer);
      forall f: NodeId | 0 < f < |p.nodes| && f != s
        ensures (Above(p, f, s) && p.nodes[f].Function?) <==> (Above(p, f, outer) && p.nodes[f].Function?)
      {
        if Above(p, f, s) && p.nodes[f].Function? { AboveIsLine(p, f, outer, p.parent[s]); }
        if Above(p, f, outer) { AboveTransitive(p, f, outer, p.parent[s]); }
      }
      forall f: NodeId | Above(p, f, outer) ensures f != s { AboveIsEarlier(p, f, outer); }
    }
  }

  /** A name is looked up in the nearest scope that declares it. */
  lemma {:induction false} LookupIsNearest(p: File, names: set<Binding>, s: NodeId, x: string)
    requires s < |p.nodes| && OpensScope(p.nodes[s])
    ensures match Lookup(p, names, s, x)
      case None => forall a: NodeId :: a < |p.nodes| && Above(p, a, s) && OpensScope(p.nodes[a]) ==>
        Binding(a, x) !in names
      case Some(b) =>
        && b.name == x && b in names && b.scope < |p.nodes| && Above(p, b.scope, s) && OpensScope(p.nodes[b.scope])
        && forall a: NodeId :: b.scope < a < |p.nodes| && Above(p, a, s) && OpensScope(p.nodes[a]) ==>
          Binding(a, x) !in names
    decreases s
  {
    if Binding(s, x) in names || s == 0 {
      forall a: NodeId | Above(p, a, s) ensures a <= s { AboveIsEarlier(p, a, s); }
    } else {
      var outer := OuterScope(p, s);
      ScopeIsNearest(p, p.parent[s]);
      LookupIsNearest(p, names, outer, x);
      AboveTransitive(p, outer, p.parent[s], s);
      var found := Lookup(p, names, outer, x);
      if found.Some? { AboveTransitive(p, found.value.scope, outer, s); }
      forall a: NodeId | a < |p.nodes| && Above(p, a, s) && OpensScope(p.nodes[a]) && a != s
        ensures Above(p, a, outer)
      {
        AboveIsLine(p, a, outer, p.parent[s]);
      }
    }
  }

  // ---- Declarations -------------------------------------------------------------------------------

  /** The patterns directly inside a pattern, with what feeds them: entries and elements are fed along one more
      key, a default value feeds as a whole, and what is rest is fed by nothing known. What stands under a
      computed key is not bound at all. */
  ghost predicate Inside(p: File, b: Bound, c: Bound)
    requires b.pattern < |p.nodes|
  {
    match p.nodes[b.pattern]
    case AssignmentPattern(left, right) => c == Bound(left, b.init, b.path) || c == Bound(left, Some(right), [])
    case ObjectPattern(entries) => exists i :: 0 <= i < |entries| && EntryInside(p, b, entries[i], c)
    case ArrayPattern(elements) =>
      exists i ::
        0 <= i < |elements| && elements[i].Some? && c == Bound(elements[i].value, b.init, b.path + [Some(IndexText(i))])
    case RestElement(argument) => c == Bound(argument, None, [])
    case _ => false
  }

  predicate EntryInside(p: File, b: Bound, e: PatternEntry, c: Bound) {
    match e
    case Entry(key, computed, value) => !computed && key < |p.nodes| && KeyInside(p.nodes[key], b, value, c)
    case RestEntry(argument) => c == Bound(argument, None, [])
  }

  predicate KeyInside(key: Node, b: Bound, value: NodeId, c: Bound) {
    match key
    case Identifier(name) => c == Bound(value, b.init, b.path + [Some(name)])
    case Literal(_, text) => c == Bound(value, b.init, b.path + [Some(text)])
    case _ => c == Bound(value, b.init, b.path + [None])
  }

  lemma {:induction false} ElementsInside(elements: seq<Option<NodeId>>, j: nat, init: Option<NodeId>, path: seq<Key>,
                                          c: Bound)
    requires j <= |elements|
    ensures c in ElementBounds(elements, j, init, path) <==>
      exists i :: j <= i < |elements| && elements[i].Some? &&
        c == Bound(elements[i].value, init, path + [Some(IndexText(i))])
    decreases |elements| - j
  {
    hide IndexText;
    if j < |elements| { ElementsInside(elements, j + 1, init, path, c); }
  }

  lemma SubPatternsAre(p: File, b: Bound, c: Bound)
    requires b.pattern < |p.nodes|
    ensures c in SubPatterns(p, b) <==> Inside(p, b, c)
  {
    hide IndexText, ElementBounds;
    match p.nodes[b.pattern]
    case ObjectPattern(entries) =>
      forall i | 0 <= i < |entries|
        ensures c in EntryBounds(p, entries[i], b.init, b.path) <==> EntryInside(p, b, entries[i], c)
      {
        if entries[i].Entry? { EntryKeyExists(p, b.pattern, i); }
      }
      var f := e => EntryBounds(p, e, b.init, b.path);
      if c in Flatten(entries, f) {
        var i :| 0 <= i < |entries| && c in f(entries[i]);
      }
      if i :| 0 <= i < |entries| && EntryInside(p, b, entries[i], c) { assert c in f(entries[i]); }
    case ArrayPattern(elements) => ElementsInside(elements, 0, b.init, b.path, c);
    case _ =>
  }

  lemma EntryKeyExists(p: File, n: NodeId, i: nat)
    requires n < |p.nodes| && p.nodes[n].ObjectPattern? && i < |p.nodes[n].entries| && p.nodes[n].entries[i].Entry?
    ensures p.nodes[n].entries[i].key < |p.nodes|
  {
    var entries := p.nodes[n].entries;
    assert entries[i].key in EntryChildren(entries[i]);
    ChildIsLater(p, n, entries[i].key);
  }

  /** The identifier at `u` inside a pattern is fed by the values of `init` along `path`. */
  ghost predicate Feeds(p: File, b: Bound, u: NodeId, init: Option<NodeId>, path: seq<Key>)
    decreases |p.nodes| - b.pattern
  {
    b.pattern < |p.nodes| &&
    if p.nodes[b.pattern].Identifier? then u == b.pattern && init == b.init && path == b.path
    else exists c :: Inside(p, b, c) && c.pattern > b.pattern && Feeds(p, c, u, init, path)
  }

  predicate Spells(p: File, u: NodeId, name: string) {
    u < |p.nodes| && p.nodes[u] == Identifier(name)
  }

  ghost predicate Declares(p: File, b: Bound, name: string) {
    exists u, init, path :: Feeds(p, b, u, init, path) && Spells(p, u, name)
  }

  ghost predicate FlowsFrom(p: File, b: Bound, f: Flow) {
    exists u :: Feeds(p, b, u, Some(f.init), f.path) && Spells(p, u, f.target.name)
  }

  /** The names of a pattern are found where they are written. */
  lemma DeclaresInside(p: File, b: Bound, name: string)
    requires b.pattern < |p.nodes|
    ensures Declares(p, b, name) <==>
      if p.nodes[b.pattern].Identifier? then p.nodes[b.pattern].name == name
      else exists c :: Inside(p, b, c) && c.pattern > b.pattern && Declares(p, c, name)
  {
    hide Inside, WellFormed;
    if p.nodes[b.pattern].Identifier? {
      if p.nodes[b.pattern].name == name {
        assert Feeds(p, b, b.pattern, b.init, b.path) && Spells(p, b.pattern, name);
      }
    } else {
      if Declares(p, b, name) {
        var u, init, path :| Feeds(p, b, u, init, path) && Spells(p, u, name);
        var c :| Inside(p, b, c) && c.pattern > b.pattern && Feeds(p, c, u, init, path);
        assert Declares(p, c, name);
      }
      if c :| Inside(p, b, c) && c.pattern > b.pattern && Declares(p, c, name) {
        var u, init, path :| Feeds(p, c, u, init, path) && Spells(p, u, name);
        assert Feeds(p, b, u, init, path);
      }
    }
  }

  lemma FlowsInside(p: File, b: Bound, f: Flow)
    requires b.pattern < |p.nodes|
    ensures FlowsFrom(p, b, f) <==>
      if p.nodes[b.pattern].Identifier? then
        p.nodes[b.pattern].name == f.target.name && b.init == Some(f.init) && b.path == f.path
      else exists c :: Inside(p, b, c) && c.pattern > b.pattern && FlowsFrom(p, c, f)
  {
    hide Inside, WellFormed;
    if p.nodes[b.pattern].Identifier? {
      if p.nodes[b.pattern].name == f.target.name && b.init == Some(f.init) && b.path == f.path {
        assert Feeds(p, b, b.pattern, Some(f.init), f.path) && Spells(p, b.pattern, f.target.name);
      }
    } else {
      if FlowsFrom(p, b, f) {
        var u :| Feeds(p, b, u, Some(f.init), f.path) && Spells(p, u, f.target.name);
        var c :| Inside(p, b, c) && c.pattern > b.pattern && Feeds(p, c, u, Some(f.init), f.path);
        assert FlowsFrom(p, c, f);
      }
      if c :| Inside(p, b, c) && c.pattern > b.pattern && FlowsFrom(p, c, f) {
        var u :| Feeds(p, c, u, Some(f.init), f.path) && Spells(p, u, f.target.name);
        assert Feeds(p, b, u, Some(f.init), f.path);
      }
    }
  }

  /** What a pattern declares. */
  lemma {:induction false} PatternDeclares(p: File, scope: NodeId, b: Bound, x: Binding)
    ensures x in PatternNames(p, scope, b) <==> x.scope == scope && Declares(p, b, x.name)
    decreases |p.nodes| - b.pattern
  {
    hide Inside, WellFormed, Declares, SubPatterns;
    if b.pattern >= |p.nodes| {
      NothingOutside(p, b, x.name);
    } else {
      DeclaresInside(p, b, x.name);
      if !p.nodes[b.pattern].Identifier? {
        var subs := SubPatterns(p, b);
        forall c ensures c in subs <==> Inside(p, b, c) { SubPatternsAre(p, b, c); }
        forall c | c in subs && c.pattern > b.pattern
          ensures x in PatternNames(p, scope, c) <==> x.scope == scope && Declares(p, c, x.name)
        {
          PatternDeclares(p, scope, c, x);
        }
        if x in PatternNames(p, scope, b) {
          var i :| 0 <= i < |subs| && subs[i].pattern > b.pattern && x in PatternNames(p, scope, subs[i]);
          assert subs[i] in subs;
        }
        if c :| x.scope == scope && Inside(p, b, c) && c.pattern > b.pattern && Declares(p, c, x.name) {
          assert c in subs && x in PatternNames(p, scope, c);
        }
      }
    }
  }

  lemma NothingOutside(p: File, b: Bound, name: string)
    requires b.pattern >= |p.nodes|
    ensures !Declares(p, b, name)
  {
  }

  /** The flows that a pattern registers. */
  lemma {:induction false} PatternLetsFlow(p: File, scope: NodeId, b: Bound, f: Flow)
    ensures f in PatternFlows(p, scope, b) <==> f.target.scope == scope && FlowsFrom(p, b, f)
    decreases |p.nodes| - b.pattern
  {
    hide Inside, WellFormed, FlowsFrom, SubPatterns;
    if b.pattern >= |p.nodes| {
      NoFlowOutside(p, b, f);
    } else {
      FlowsInside(p, b, f);
      if !p.nodes[b.pattern].Identifier? {
        var subs := SubPatterns(p, b);
        forall c ensures c in subs <==> Inside(p, b, c) { SubPatternsAre(p, b, c); }
        forall c | c in subs && c.pattern > b.pattern
          ensures f in PatternFlows(p, scope, c) <==> f.target.scope == scope && FlowsFrom(p, c, f)
        {
          PatternLetsFlow(p, scope, c, f);
        }
        if f in PatternFlows(p, scope, b) {
          var i :| 0 <= i < |subs| && subs[i].pattern > b.pattern && f in PatternFlows(p, scope, subs[i]);
          assert subs[i] in subs;
        }
        if c :| f.target.scope == scope && Inside(p, b, c) && c.pattern > b.pattern && FlowsFrom(p, c, f) {
          assert c in subs && f in PatternFlows(p, scope, c);
        }
      }
    }
  }

  lemma NoFlowOutside(p: File, b: Bound, f: Flow)
    requires b.pattern >= |p.nodes|
    ensures !FlowsFrom(p, b, f)
  {
  }

  /** The scope that a variable declaration declares in. */
  function DeclarationScope(p: File, n: NodeId): NodeId
    requires n < |p.nodes| && p.nodes[n].VariableDeclaration?
  {
    if p.nodes[n].isVar then VarScope(p, ScopeOf(p, n)) else ScopeOf(p, n)
  }

  /** The patterns that a node binds, for a condition on one of them. */
  ghost predicate SomeBound(p: File, n: NodeId, holds: Bound -> bool)
    requires n < |p.nodes|
  {
    match p.nodes[n]
    case Function(_, _, params, _, _, _) => exists i :: 0 <= i < |params| && holds(Bound(params[i], None, []))
    case Block(_, param, _) => param.Some? && holds(Bound(param.value, None, []))
    case VariableDeclaration(_, ds) => exists i :: 0 <= i < |ds| && holds(Bound(ds[i].id, ds[i].init, []))
    case _ => false
  }

  lemma BoundAt(p: File, n: NodeId, holds: Bound -> bool) returns (i: nat)
    requires n < |p.nodes| && SomeBound(p, n, holds)
    ensures i < |NodePatterns(p, n).1| && holds(NodePatterns(p, n).1[i])
  {
    hide WellFormed, ScopeOf, VarScope;
    i := 0;
    var bounds := NodePatterns(p, n).1;
    match p.nodes[n]
    case Function(_, _, params, _, _, _) =>
      i :| 0 <= i < |params| && holds(Bound(params[i], None, []));
      assert bounds[i] == Bound(params[i], None, []);
    case VariableDeclaration(_, ds) =>
      i :| 0 <= i < |ds| && holds(Bound(ds[i].id, ds[i].init, []));
      assert bounds[i] == Bound(ds[i].id, ds[i].init, []);
    case _ =>
  }

  /** Node `n` declares the name: a function its own inside and, if it is a declaration, around itself, and its
      parameters inside; a catch clause its parameter; variables, classes and imports where they stand. */
  ghost predicate DeclaredAt(p: File, n: NodeId, x: Binding)
    requires n < |p.nodes|
  {
    match p.nodes[n]
    case Function(kind, name, params, _, _, _) =>
      || (name == Some(x.name) && x.scope == n)
      || (name == Some(x.name) && kind == FunctionKind.Declaration && n > 0 && x.scope == ScopeOf(p, p.parent[n]))
      || (x.scope == n && exists i :: 0 <= i < |params| && Declares(p, Bound(params[i], None, []), x.name))
    case Block(_, param, _) => param.Some? && x.scope == n && Declares(p, Bound(param.value, None, []), x.name)
    case VariableDeclaration(_, ds) =>
      x.scope == DeclarationScope(p, n) &&
      exists i :: 0 <= i < |ds| && Declares(p, Bound(ds[i].id, ds[i].init, []), x.name)
    case OtherDeclaration(names, _) => x.scope == ScopeOf(p, n) && x.name in names
    case _ => false
  }

  lemma NamesAre(p: File, x: Binding)
    ensures x in Syntax.Names(p) <==> exists n: NodeId :: n < |p.nodes| && DeclaredAt(p, n, x)
  {
    hide PatternNames, WellFormed, ScopeOf, VarScope, Declares;
    forall n: NodeId | n < |p.nodes| ensures x in PlainNames(p, n) + SelfNames(p, n) <==> DeclaredAt(p, n, x) {
      NodeDeclares(p, n, x);
    }
  }

  lemma NodeDeclares(p: File, n: NodeId, x: Binding)
    requires n < |p.nodes|
    ensures x in PlainNames(p, n) + SelfNames(p, n) <==> DeclaredAt(p, n, x)
  {
    hide PatternNames, WellFormed, ScopeOf, VarScope, Declares;
    var (scope, bounds) := NodePatterns(p, n);
    forall i | 0 <= i < |bounds|
      ensures x in PatternNames(p, scope, bounds[i]) <==> x.scope == scope && Declares(p, bounds[i], x.name)
    {
      PatternDeclares(p, scope, bounds[i], x);
    }
    if x in PlainNames(p, n) && x !in OwnNames(p, n) {
      var i :| 0 <= i < |bounds| && x in PatternNames(p, scope, bounds[i]);
      assert Declares(p, bounds[i], x.name);
    }
    if DeclaredAt(p, n, x) && x !in OwnNames(p, n) && x !in SelfNames(p, n) {
      var i := BoundAt(p, n, (b: Bound) => Declares(p, b, x.name));
      assert x in PatternNames(p, scope, bounds[i]);
    }
  }

  /** Node `n` lets values flow: variables from what they are declared with, and parameters from their defaults. */
  ghost predicate FlowsAt(p: File, n: NodeId, f: Flow)
    requires n < |p.nodes|
  {
    match p.nodes[n]
    case Function(_, _, params, _, _, _) =>
      f.target.scope == n && exists i :: 0 <= i < |params| && FlowsFrom(p, Bound(params[i], None, []), f)
    case Block(_, param, _) => param.Some? && f.target.scope == n && FlowsFrom(p, Bound(param.value, None, []), f)
    case VariableDeclaration(_, ds) =>
      f.target.scope == DeclarationScope(p, n) &&
      exists i :: 0 <= i < |ds| && FlowsFrom(p, Bound(ds[i].id, ds[i].init, []), f)
    case _ => false
  }

  lemma FlowsAre(p: File, f: Flow)
    ensures f in Flows(p) <==> exists n: NodeId :: n < |p.nodes| && FlowsAt(p, n, f)
  {
    hide PatternFlows, WellFormed, ScopeOf, VarScope, FlowsFrom;
    forall n: NodeId | n < |p.nodes| ensures f in NodeFlows(p, n) <==> FlowsAt(p, n, f) { NodeLetsFlow(p, n, f); }
  }

  lemma NodeLetsFlow(p: File, n: NodeId, f: Flow)
    requires n < |p.nodes|
    ensures f in NodeFlows(p, n) <==> FlowsAt(p, n, f)
  {
    hide PatternFlows, WellFormed, ScopeOf, VarScope, FlowsFrom;
    var (scope, bounds) := NodePatterns(p, n);
    forall i | 0 <= i < |bounds|
      ensures f in PatternFlows(p, scope, bounds[i]) <==> f.target.scope == scope && FlowsFrom(p, bounds[i], f)
    {
      PatternLetsFlow(p, scope, bounds[i], f);
    }
    if f in NodeFlows(p, n) {
      var i :| 0 <= i < |bounds| && f in PatternFlows(p, scope, bounds[i]);
      assert FlowsFrom(p, bounds[i], f);
    }
    if FlowsAt(p, n, f) {
      var i := BoundAt(p, n, (b: Bound) => FlowsFrom(p, b, f));
      assert f in PatternFlows(p, scope, bounds[i]);
    }
  }

  /** The results of a function: the expressions its `return` statements give, and the body of a concise arrow. */
  lemma ReturnsAre(p: File, f: NodeId, e: NodeId)
    ensures (f, e) in Returns(p) <==>
      || (exists n: NodeId :: n < |p.nodes| && p.nodes[n] == Return(Some(e)) && OwnerOf(p, n) == Some(f))
      || (f < |p.nodes| && p.nodes[f].Function? && p.nodes[f].fkind == Arrow && p.nodes[f].concise &&
          p.nodes[f].fnBody == e)
  {
    hide WellFormed, OwnerOf;
    if f < |p.nodes| { assert (f, e) in NodeReturns(p, f) ==> (f, e) in Returns(p); }
    if n: NodeId :| n < |p.nodes| && p.nodes[n] == Return(Some(e)) && OwnerOf(p, n) == Some(f) {
      assert (f, e) in NodeReturns(p, n);
    }
  }

  /** A found call lets every argument flow into the parameter at its place. */
  lemma ParameterFlowsAre(p: File, call: NodeId, f: NodeId, w: Flow)
    requires call < |p.nodes| && f < |p.nodes| && p.nodes[call].Call? && p.nodes[f].Function?
    ensures var params, args := p.nodes[f].params, p.nodes[call].arguments;
      w in ParameterFlows(p, call, f) <==>
      w.target.scope == f &&
      exists i ::
        0 <= i < |params| && FlowsFrom(p, Bound(params[i], if i < |args| then Some(args[i]) else None, []), w)
  {
    hide PatternFlows, WellFormed, FlowsFrom;
    var bounds := ParameterBounds(p, call, f);
    forall i | 0 <= i < |bounds|
      ensures w in PatternFlows(p, f, bounds[i]) <==> w.target.scope == f && FlowsFrom(p, bounds[i], w)
    {
      PatternLetsFlow(p, f, bounds[i], w);
    }
    if w in ParameterFlows(p, call, f) {
      var i :| 0 <= i < |bounds| && w in PatternFlows(p, f, bounds[i]);
      assert FlowsFrom(p, bounds[i], w);
    }
    var params, args := p.nodes[f].params, p.nodes[call].arguments;
    if i :| 0 <= i < |params| && FlowsFrom(p, Bound(params[i], if i < |args| then Some(args[i]) else None, []), w) {
      assert w.target.scope == f ==> w in PatternFlows(p, f, bounds[i]);
    }
  }

  /** A binding holds a function from the start exactly if the function has that name: inside itself, and for a
      declaration also in the nearest scope around it. */
  lemma DeclaredAre(p: File, n: NodeId, b: Binding)
    requires n < |p.nodes|
    ensures b in Declared(p, n) <==>
      p.nodes[n].Function? && p.nodes[n].fnName == Some(b.name) &&
      (b.scope == n || (n > 0 && p.nodes[n].fkind == FunctionKind.Declaration && b.scope == ScopeOf(p, p.parent[n])))
  {
    hide WellFormed, ScopeOf;
  }
}
