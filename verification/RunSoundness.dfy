/** What single nodes of a run need from the analysis, for the induction over runs. */
module RunSoundness {
  import opened Wrappers
  import opened Syntax
  import opened AbstractValues
  import opened GuardedEvaluation
  import opened FlowEquations
  import opened Collection
  import opened Fixpoint
  import opened Report
  import opened RunSemantics
  import opened Soundness

  /** The analysis of `p` ended in state `s` with no problem, its exports are among the names of the goal,
      and if only the global is followed it is confined. */
  ghost predicate Certified(p: File, s: State, goal: Goal) {
    && InFragment(p) && DeclarationsMet(p, s) && Closed(p, s) && Exports(p, s) <= goal.names && Problems(p, s) == {}
    && HoldsNoGlobal(p, s, goal)
  }

  /** `env` is the environment node `n` runs in. */
  ghost predicate Ready(p: File, m: Machine, env: seq<nat>, n: NodeId) {
    0 < n < |p.nodes| && EnvMatches(p, m, env, OuterScope(p, n))
  }

  ghost predicate Moved(p: File, s: State, goal: Goal, m: Machine, m': Machine) {
    Safe(p, s, goal, m') && Grows(m, m')
  }

  /** The function whose results a `return` at node `n` adds to. */
  ghost function Around(p: File, n: NodeId): Option<NodeId> {
    if 0 < n < |p.nodes| then OwnerOf(p, p.parent[n]) else None
  }

  /** A returned value is among the results of `owner`. */
  ghost predicate ReturnCovered(s: State, goal: Goal, m: Machine, v: Value, owner: Option<NodeId>) {
    owner.Some? ==> Covers(goal, m, v, ResultsOf(s, NodeValue(owner.value)))
  }

  ghost predicate RunSafe(p: File, s: State, goal: Goal, m: Machine, r: Result, n: NodeId) {
    && Moved(p, s, goal, m, r.m)
    && (r.out.Normal? ==> Covers(goal, r.m, r.out.value, ValuesAt(p, s, n)))
    && (r.out.Returned? ==> ReturnCovered(s, goal, r.m, r.out.value, Around(p, n)))
  }

  /** The nodes are children of `q`. */
  ghost predicate Siblings(p: File, ns: seq<NodeId>, q: NodeId) {
    q < |p.nodes| && forall k :: k in ns ==> IsChild(p, q, k)
  }

  ghost predicate ValuesCovered(p: File, s: State, goal: Goal, m: Machine, vs: seq<Value>, ns: seq<NodeId>) {
    |vs| == |ns| && forall i :: 0 <= i < |ns| ==> Covers(goal, m, vs[i], ValuesAt(p, s, ns[i]))
  }

  ghost predicate ListSafe(p: File, s: State, goal: Goal, m: Machine, r: Result, ns: seq<NodeId>,
                           owner: Option<NodeId>) {
    && Moved(p, s, goal, m, r.m)
    && (r.out.Normal? ==> r.out.value == Prim && ValuesCovered(p, s, goal, r.m, r.values, ns))
    && (r.out.Returned? ==> ReturnCovered(s, goal, r.m, r.out.value, owner))
  }

  // ---- Small steps ---------------------------------------------------------------------------------

  lemma ChildReady(p: File, m: Machine, env: seq<nat>, n: NodeId, k: NodeId)
    requires Ready(p, m, env, n) && IsChild(p, n, k) && !OpensScope(p.nodes[n])
    ensures Ready(p, m, env, k) && Around(p, k) == Around(p, n) && ScopeOf(p, n) == OuterScope(p, n)
  {
    ChildIsLater(p, n, k);
  }

  lemma ReadyGrows(p: File, m: Machine, m': Machine, env: seq<nat>, n: NodeId)
    requires Ready(p, m, env, n) && Grows(m, m')
    ensures Ready(p, m', env, n)
  {
    EnvGrows(p, m, m', env, OuterScope(p, n));
  }

  lemma MovedThen(p: File, s: State, goal: Goal, a: Machine, b: Machine, c: Machine)
    requires Moved(p, s, goal, a, b) && Moved(p, s, goal, b, c)
    ensures Moved(p, s, goal, a, c)
  {
    GrowsTransitive(a, b, c);
  }

  lemma Stays(p: File, s: State, goal: Goal, m: Machine)
    requires Safe(p, s, goal, m)
    ensures Moved(p, s, goal, m, m)
  {
  }

  lemma MovedOn(p: File, s: State, goal: Goal, m: Machine)
    requires Safe(p, s, goal, m)
    ensures Moved(p, s, goal, m, Tick(m))
  {
    Ticked(p, s, goal, m);
  }

  /** What follows from one run being part of another: the outcome is passed on. */
  lemma PassedOn(p: File, s: State, goal: Goal, a: Machine, b: Machine, r: Result, n: NodeId, k: NodeId)
    requires Moved(p, s, goal, a, b) && RunSafe(p, s, goal, b, r, k) && Around(p, k) == Around(p, n)
    requires r.out.Normal? ==> ValuesAt(p, s, k) <= ValuesAt(p, s, n)
    ensures RunSafe(p, s, goal, a, r, n)
  {
    MovedThen(p, s, goal, a, b, r.m);
    if r.out.Normal? { CoversGrows(goal, r.m, r.m, r.out.value, ValuesAt(p, s, k), ValuesAt(p, s, n)); }
  }

  lemma ProblemListed(p: File, s: State, n: NodeId, k: Key)
    requires n < |p.nodes| && k in NodeWrites(p, s, n) && !Publishable(k)
    ensures Problems(p, s) != {}
  {
    assert n in IdsFrom(p, 0) && DynamicExport(n) in ProblemsAt(p, s, n);
    assert DynamicExport(n) in Problems(p, s);
  }

  /** What node `n` writes on the global is exported. */
  lemma WritesExported(p: File, s: State, goal: Goal, n: NodeId)
    requires Certified(p, s, goal) && n < |p.nodes|
    ensures forall k :: k in NodeWrites(p, s, n) ==> k.Some? && k.value in goal.names
  {
    forall k | k in NodeWrites(p, s, n) ensures k.Some? && k.value in goal.names {
      if !Publishable(k) { ProblemListed(p, s, n, k); }
      assert n in IdsFrom(p, 0) && k.value in PublishedBy(NodeWrites(p, s, n));
      assert k.value in Exports(p, s);
    }
  }

  /** What a write through a member target needs to be safe. */
  lemma MemberTarget(p: File, s: State, goal: Goal, n: NodeId, t: NodeId, m: Machine, target: Value)
    requires Certified(p, s, goal) && n < |p.nodes| && WrittenTarget(p.nodes[n]) == Some(t)
    requires t < |p.nodes| && p.nodes[t].Member? && Covers(goal, m, target, ValuesAt(p, s, p.nodes[t].receiver))
    ensures var key := KeyAt(p, p.nodes[t].property); target == Global && key.Some? ==> key.value in goal.names
  {
    WritesExported(p, s, goal, n);
    assert !p.nodes[t].computed;
  }

  lemma NameTarget(p: File, s: State, goal: Goal, n: NodeId, t: NodeId)
    requires Certified(p, s, goal) && 0 < n < |p.nodes| && WrittenTarget(p.nodes[n]) == Some(t)
    requires t < |p.nodes| && p.nodes[t].Identifier?
    ensures ScopeOf(p, t) == ScopeOf(p, n) == OuterScope(p, n)
    ensures Lookup(p, Names(p), ScopeOf(p, n), p.nodes[t].name).None? ==> p.nodes[t].name in goal.names
  {
    hide WellFormed, Certified, Names;
    assert IsChild(p, n, t);
    ChildIsLater(p, n, t);
    WritesExported(p, s, goal, n);
  }

  // ---- Equations -----------------------------------------------------------------------------------

  /** The values of an operand that passes its values on. */
  lemma Passed(p: File, s: State, goal: Goal, n: NodeId, k: NodeId)
    requires Certified(p, s, goal) && n < |p.nodes| && Reads(p, n, k) && !p.nodes[n].Member? && !p.nodes[n].Call?
    ensures ValuesAt(p, s, k) <= ValuesAt(p, s, n)
  {
    EvaluateEquation(p, s, n);
    var rec := EvaluateBy(p, s);
    assert rec(k) <= Step(p, s, rec, n);
  }

  lemma NameEquation(p: File, s: State, goal: Goal, n: NodeId)
    requires Certified(p, s, goal) && n < |p.nodes| && p.nodes[n].Identifier?
    ensures ValuesAt(p, s, n) == NameValues(p, s, ScopeOf(p, n), p.nodes[n].name)
  {
    EvaluateEquation(p, s, n);
  }

  lemma MadeEquation(p: File, s: State, goal: Goal, n: NodeId)
    requires Certified(p, s, goal) && n < |p.nodes| && (p.nodes[n].Function? || p.nodes[n].Object?)
    ensures NodeValue(n) in ValuesAt(p, s, n)
  {
    EvaluateEquation(p, s, n);
  }

  lemma MemberEquation(p: File, s: State, goal: Goal, n: NodeId)
    requires Certified(p, s, goal) && n < |p.nodes| && p.nodes[n].Member?
    ensures ValuesAt(p, s, n) ==
            MemberOf(p, s, EvaluateBy(p, s), ValuesAt(p, s, p.nodes[n].receiver), KeyAt(p, p.nodes[n].property))
  {
    EvaluateEquation(p, s, n);
  }

  /** What a function returns is a value of every call found to call it. */
  lemma CallEquation(p: File, s: State, goal: Goal, call: NodeId, f: NodeId)
    requires Certified(p, s, goal) && IsCall(p, (call, f)) && NodeValue(f) in ValuesAt(p, s, p.nodes[call].callee)
    ensures ResultsOf(s, NodeValue(f)) <= ValuesAt(p, s, call)
  {
    hide WellFormed, Closed, DeclarationsMet, Exports, Problems, Guarded, MemberOf, NameValues, ThisValues;
    EvaluateEquation(p, s, call);
  }

  lemma ReturnEquation(p: File, s: State, goal: Goal, n: NodeId, f: NodeId, e: NodeId)
    requires Certified(p, s, goal) && n < |p.nodes| && (f, e) in NodeReturns(p, n)
    ensures ValuesAt(p, s, e) <= ResultsOf(s, NodeValue(f))
  {
    assert ReturnMet(s, EvaluateBy(p, s), (f, e));
  }

  lemma AssignmentEquation(p: File, s: State, goal: Goal, n: NodeId)
    requires Certified(p, s, goal) && n < |p.nodes| && AssignedBinding(p, n).Some?
    ensures ValuesAt(p, s, p.nodes[n].right) <= BindingValues(s, AssignedBinding(p, n).value)
  {
    assert AssignmentMet(p, s, EvaluateBy(p, s), n);
  }

  /** What a node of the fragment is restricted to. */
  lemma NodeFollowed(p: File, s: State, goal: Goal, n: NodeId)
    requires Certified(p, s, goal) && n < |p.nodes|
    ensures Followed(p, p.nodes[n]) && (p.nodes[n].Member? ==> !p.nodes[n].computed)
  {
  }

  // ---- Frames -----------------------------------------------------------------------------------------

  /** A frame for `fscope` holds the variables with bindings in `scope`. */
  ghost predicate FrameFor(p: File, fscope: NodeId, scope: NodeId) {
    if scope < |p.nodes| && p.nodes[scope].Function? then IsBody(p, fscope) && p.parent[fscope] == scope
      else fscope == scope
  }

  lemma {:induction false} VarFrameScope(p: File, m: Machine, env: seq<nat>, scope: NodeId)
    requires Shaped(p) && scope < |p.nodes| && OpensScope(p.nodes[scope]) && !p.nodes[scope].Function? &&
      EnvMatches(p, m, env, scope)
    ensures var f := VarFrame(p, m, env);
            f.Some? && f.value < |m.frames| && FrameFor(p, m.frames[f.value].scope, VarScope(p, scope))
    decreases |env|
  {
    RootIsProgram(p);
    if scope > 0 {
      if IsBody(p, scope) {
        assert OuterScope(p, scope) == p.parent[scope];
      } else {
        assert p.nodes[OuterScope(p, scope)].Function? ==> Underneath(p, scope);
        VarFrameScope(p, m, env[1..], OuterScope(p, scope));
      }
    }
  }

  /** Entering a scope pushes a frame for it. */
  lemma ScopeEntered(p: File, s: State, goal: Goal, m: Machine, env: seq<nat>, n: NodeId)
    requires Safe(p, s, goal, m) && n < |p.nodes| && OpensScope(p.nodes[n])
    requires if n == 0 then env == [] else Ready(p, m, env, n)
    ensures var m' := NewFrame(p, m, env, n);
            Moved(p, s, goal, m, m') && EnvMatches(p, m', [|m.frames|] + env, n)
  {
    var m' := NewFrame(p, m, env, n);
    FrameMade(p, s, goal, m, env, n);
    assert ([|m.frames|] + env)[1..] == env;
    if n > 0 { EnvGrows(p, m, m', env, OuterScope(p, n)); }
  }

  lemma {:induction false} HoistSafe(p: File, s: State, goal: Goal, m: Machine, env: seq<nat>, n: NodeId,
                                     body: seq<NodeId>)
    requires Certified(p, s, goal) && Safe(p, s, goal, m) && n < |p.nodes| && OpensScope(p.nodes[n])
    requires EnvMatches(p, m, env, n) && Siblings(p, body, n)
    ensures Moved(p, s, goal, m, Hoist(p, m, env, env[0], body))
    decreases |body|
  {
    hide Certified, Safe, Grows, EnvMatches, WellFormed, SetVar, FrameSafe, Siblings;
    if body == [] {
      Stays(p, s, goal, m);
    } else {
      var k := Exported(p, body[0]);
      SiblingsTail(p, body, n);
      ExportedIsInside(p, n, body[0]);
      HeadFrame(p, m, env, n);
      if p.nodes[k].Function? && p.nodes[k].fkind == FunctionKind.Declaration && p.nodes[k].fnName.Some? {
        FunctionHoisted(p, s, goal, m, env, n, k);
        var next := SetVar(m.(heap := m.heap + [Cell(k, env, map[], map[])]), env[0], p.nodes[k].fnName.value,
                           Ref(|m.heap|));
        EnvGrows(p, m, next, env, n);
        HoistSafe(p, s, goal, next, env, n, body[1..]);
        MovedThen(p, s, goal, m, next, Hoist(p, next, env, env[0], body[1..]));
      } else {
        HoistSafe(p, s, goal, m, env, n, body[1..]);
      }
    }
  }

  /** An exported declaration stands in the scope of the export. */
  lemma ExportedIsInside(p: File, n: NodeId, k: NodeId)
    requires n < |p.nodes| && OpensScope(p.nodes[n]) && IsChild(p, n, k)
    ensures var e := Exported(p, k); 0 < e < |p.nodes| && OuterScope(p, e) == n
  {
    ChildIsLater(p, n, k);
    var e := Exported(p, k);
    if e != k {
      ChildIsLater(p, k, e);
      assert ScopeOf(p, k) == ScopeOf(p, n) == n;
    }
  }

  lemma SiblingsTail(p: File, body: seq<NodeId>, n: NodeId)
    requires body != [] && Siblings(p, body, n)
    ensures IsChild(p, n, body[0]) && body[0] < |p.nodes| && Siblings(p, body[1..], n)
  {
    assert body[0] in body;
    ChildIsLater(p, n, body[0]);
  }

  lemma HeadFrame(p: File, m: Machine, env: seq<nat>, scope: NodeId)
    requires scope < |p.nodes| && OpensScope(p.nodes[scope]) && EnvMatches(p, m, env, scope)
    ensures env != [] && env[0] < |m.frames| && m.frames[env[0]].scope == scope
  {
  }

  /** One function is made and bound to its name. */
  lemma FunctionHoisted(p: File, s: State, goal: Goal, m: Machine, env: seq<nat>, n: NodeId, k: NodeId)
    requires Certified(p, s, goal) && Safe(p, s, goal, m) && n < |p.nodes| && OpensScope(p.nodes[n])
    requires EnvMatches(p, m, env, n) && 0 < k < |p.nodes| && OuterScope(p, k) == n
    requires p.nodes[k].Function? && p.nodes[k].fkind == FunctionKind.Declaration && p.nodes[k].fnName.Some?
    ensures var made := m.(heap := m.heap + [Cell(k, env, map[], map[])]);
      Moved(p, s, goal, m, SetVar(made, env[0], p.nodes[k].fnName.value, Ref(|m.heap|)))
  {
    hide Safe, Grows, SetVar, CellSafe, Holdable, EnvMatches, WellFormed, Certified, DeclaredBinding, ScopeOf;
    var cell := Cell(k, env, map[], map[]);
    var made := m.(heap := m.heap + [cell]);
    FunctionCellSafe(p, s, goal, m, env, k);
    CellMade(p, s, goal, m, cell);
    assert made.heap[|m.heap|] == cell;
    FunctionNameSafe(p, s, goal, k, made, Ref(|m.heap|));
    HeadFrame(p, m, env, n);
    VarSet(p, s, goal, made, env[0], p.nodes[k].fnName.value, Ref(|m.heap|));
    GrowsTransitive(m, made, SetVar(made, env[0], p.nodes[k].fnName.value, Ref(|m.heap|)));
  }

  lemma FunctionCellSafe(p: File, s: State, goal: Goal, m: Machine, env: seq<nat>, k: NodeId)
    requires 0 < k < |p.nodes| && p.nodes[k].Function? && EnvMatches(p, m, env, OuterScope(p, k))
    ensures CellSafe(p, s, goal, m, Cell(k, env, map[], map[]))
  {
    hide EnvMatches;
  }

  /** The name of a function declaration stands for that function only. */
  lemma FunctionNameSafe(p: File, s: State, goal: Goal, k: NodeId, m: Machine, v: Value)
    requires Certified(p, s, goal) && 0 < k < |p.nodes| && p.nodes[k].Function? &&
      p.nodes[k].fkind == FunctionKind.Declaration
    requires p.nodes[k].fnName.Some? && Covers(goal, m, v, {NodeValue(k)})
    ensures Holdable(p, s, goal, m, v, VariableBinding(p, OuterScope(p, k), p.nodes[k].fnName.value))
  {
    hide Closed, Exports, Problems, SeparateVars, NamesAreSeen, FlatHeld, NonComputed, FrameNames, VariableBinding;
    hide WellFormed, AssignedBinding, Plain, PlainNames;
    var b := DeclaredBinding(p, k).value;
    DeclaredOutside(p, k);
    assert b in Declared(p, k);
    DeclaresItsName(p, k);
    CoversGrows(goal, m, m, v, {NodeValue(k)}, BindingValues(s, b));
    forall d | 0 <= d < |p.nodes| && DeclaredBinding(p, d) == Some(b) ensures Covers(goal, m, v, {NodeValue(d)}) {
      assert StableDeclaration(p, d);
    }
  }

  lemma DeclaresItsName(p: File, k: NodeId)
    requires k < |p.nodes| && DeclaredBinding(p, k).Some?
    ensures DeclaredBinding(p, k).value in PlainNames(p, k)
  {
  }

  // ---- Objects ------------------------------------------------------------------------------------------

  lemma PropertyIsChild(p: File, n: NodeId, i: nat)
    requires n < |p.nodes| && p.nodes[n].Object? && i < |p.nodes[n].properties|
    ensures IsChild(p, n, p.nodes[n].properties[i].value)
  {
    assert p.nodes[n].properties[i].value in PropertyChildren(p.nodes[n].properties[i]);
  }

  lemma FieldKnown(p: File, s: State, goal: Goal, n: NodeId, i: nat)
    requires Certified(p, s, goal) && n < |p.nodes| && p.nodes[n].Object? && i < |p.nodes[n].properties|
    requires KeyAt(p, p.nodes[n].properties[i].key).Some?
    ensures ValuesAt(p, s, p.nodes[n].properties[i].value) <=
            FieldValues(p, s, n, KeyAt(p, p.nodes[n].properties[i].key).value)
  {
    var qs, rec := p.nodes[n].properties, EvaluateBy(p, s);
    var key := KeyAt(p, qs[i].key);
    assert Followed(p, p.nodes[n]) && !qs[i].computed;
    forall v | v in rec(qs[i].value) ensures v in FieldValues(p, s, n, key.value) {
      assert v in PropertyValues(p, s, rec, qs[i], key);
      assert v in MemberOfOne(p, s, rec, NodeValue(n), key);
    }
  }

  lemma {:induction false} FieldsSafe(p: File, s: State, goal: Goal, m: Machine, n: NodeId, i: nat, vs: seq<Value>)
    requires Certified(p, s, goal) && n < |p.nodes| && p.nodes[n].Object? && i <= |p.nodes[n].properties| && |vs| == i
    requires forall j :: 0 <= j < i ==> Covers(goal, m, vs[j], ValuesAt(p, s, p.nodes[n].properties[j].value))
    ensures var fields := Fields(p, p.nodes[n].properties[..i], vs);
            forall k :: k in fields ==> Covers(goal, m, fields[k], FieldValues(p, s, n, k))
    decreases i
  {
    var qs := p.nodes[n].properties;
    if i > 0 {
      assert qs[..i][..i - 1] == qs[..i - 1] && qs[..i][i - 1] == qs[i - 1];
      FieldsSafe(p, s, goal, m, n, i - 1, vs[..i - 1]);
      var key := KeyAt(p, qs[i - 1].key);
      if key.Some? {
        FieldKnown(p, s, goal, n, i - 1);
        CoversGrows(goal, m, m, vs[i - 1], ValuesAt(p, s, qs[i - 1].value), FieldValues(p, s, n, key.value));
      }
    }
  }

  // ---- Patterns -----------------------------------------------------------------------------------------

  ghost function BoundValues(p: File, s: State, b: Bound): Values {
    if b.init.Some? then AlongPath(p, s, EvaluateBy(p, s), ValuesAt(p, s, b.init.value), b.path) else {}
  }

  /** A pattern whose flows are met and whose names are variables of a frame for `fscope`, and no
      function declarations. */
  ghost predicate Bindable(p: File, s: State, fscope: NodeId, scope: NodeId, b: Bound) {
    && (forall f :: f in PatternFlows(p, scope, b) ==> FlowMet(p, s, EvaluateBy(p, s), f))
    && (forall x :: x in PatternNames(p, scope, b) ==> NameBindable(p, fscope, x))
  }

  ghost predicate NameBindable(p: File, fscope: NodeId, x: Binding) {
    && (x.name in FrameNames(p, fscope) ==> VariableBinding(p, fscope, x.name) == x)
    && forall d :: 0 <= d < |p.nodes| ==> DeclaredBinding(p, d) != Some(x)
  }

  lemma SubPatternBindable(p: File, s: State, fscope: NodeId, scope: NodeId, b: Bound, i: nat)
    requires b.pattern < |p.nodes| && !p.nodes[b.pattern].Identifier? && i < |SubPatterns(p, b)| &&
      Bindable(p, s, fscope, scope, b)
    ensures Bindable(p, s, fscope, scope, SubPatterns(p, b)[i])
  {
    hide NameBindable, FlowMet;
    SubPatternIsLater(p, b, i);
  }

  lemma {:induction false} AlongLongerPath(p: File, s: State, rec: Evaluator, start: Values, path: seq<Key>, key: Key)
    ensures AlongPath(p, s, rec, start, path + [key]) == MemberOf(p, s, rec, AlongPath(p, s, rec, start, path), key)
    decreases |path|
  {
    if path == [] {
      assert path + [key] == [key];
    } else {
      assert (path + [key])[0] == path[0] && (path + [key])[1..] == path[1..] + [key];
      AlongLongerPath(p, s, rec, MemberOf(p, s, rec, start, path[0]), path[1..], key);
    }
  }

  lemma NodeBindable(p: File, s: State, goal: Goal, n: NodeId, i: nat, fscope: NodeId)
    requires Certified(p, s, goal) && n < |p.nodes| && p.nodes[n].VariableDeclaration? && i < |p.nodes[n].declarators|
    requires FrameFor(p, fscope, NodePatterns(p, n).0) && !p.nodes[ScopeOf(p, n)].Function?
    ensures var (scope, bounds) := NodePatterns(p, n); Bindable(p, s, fscope, scope, bounds[i])
  {
    var (scope, bounds) := NodePatterns(p, n);
    forall f | f in PatternFlows(p, scope, bounds[i]) ensures FlowMet(p, s, EvaluateBy(p, s), f) {
      assert f in NodeFlows(p, n);
      assert f in Flows(p);
    }
    PatternScope(p, scope, bounds[i]);
    forall x | x in PatternNames(p, scope, bounds[i]) ensures NameBindable(p, fscope, x) {
      assert x in PlainNames(p, n);
      DeclaredNameBindable(p, n, fscope, x);
    }
  }

  lemma DeclaredNameBindable(p: File, n: NodeId, fscope: NodeId, x: Binding)
    requires StableDeclarations(p) && SeparateVars(p) && n < |p.nodes| && p.nodes[n].VariableDeclaration? &&
      x in PlainNames(p, n)
    requires FrameFor(p, fscope, x.scope) && x.scope < |p.nodes|
    ensures NameBindable(p, fscope, x)
  {
    hide PlainNames, AssignedBinding, WellFormed;
    assert x in Plain(p);
    if p.nodes[x.scope].Function? {
      assert x.name in BodyVars(p, x.scope);
      assert Binding(fscope, x.name) !in Plain(p);
    }
    forall d | 0 <= d < |p.nodes| ensures DeclaredBinding(p, d) != Some(x) {
      if DeclaredBinding(p, d).Some? { assert StableDeclaration(p, d); }
    }
  }

  lemma {:induction false} PatternScope(p: File, scope: NodeId, b: Bound)
    ensures forall x :: x in PatternNames(p, scope, b) ==> x.scope == scope
    decreases |p.nodes| - b.pattern
  {
    if b.pattern < |p.nodes| && !p.nodes[b.pattern].Identifier? {
      var subs := SubPatterns(p, b);
      forall i | 0 <= i < |subs| && subs[i].pattern > b.pattern
        ensures forall x :: x in PatternNames(p, scope, subs[i]) ==> x.scope == scope
      {
        PatternScope(p, scope, subs[i]);
      }
    }
  }

  /** Patterns for the parameters of a function: bound to arguments, or to nothing that is known. */
  ghost predicate Receives(p: File, s: State, f: NodeId, bounds: seq<Bound>)
    requires f < |p.nodes| && p.nodes[f].Function?
  {
    && |bounds| == |p.nodes[f].params|
    && forall i :: 0 <= i < |bounds| ==> bounds[i].pattern == p.nodes[f].params[i] && Bindable(p, s, f, f, bounds[i])
  }

  /** The names of parameters are variables of the function's own frame. */
  lemma ParameterNames(p: File, f: NodeId, b: Bound, i: nat)
    requires Shaped(p) && f < |p.nodes| && p.nodes[f].Function? && i < |p.nodes[f].params| &&
      b.pattern == p.nodes[f].params[i]
    ensures forall x :: x in PatternNames(p, f, b) ==> NameBindable(p, f, x)
  {
    PatternScope(p, f, b);
    forall x, d | x in PatternNames(p, f, b) && 0 <= d < |p.nodes| ensures DeclaredBinding(p, d) != Some(x) {
      if DeclaredBinding(p, d).Some? { DeclaredOutside(p, d); }
    }
  }

  /** At a call that the analysis finds, parameters are bound to the arguments. */
  lemma CallReceives(p: File, s: State, goal: Goal, call: NodeId, f: NodeId)
    requires Certified(p, s, goal) && IsCall(p, (call, f)) && NodeValue(f) in ValuesAt(p, s, p.nodes[call].callee)
    ensures Receives(p, s, f, ParameterBounds(p, call, f))
  {
    hide WellFormed, StableDeclarations, SeparateVars, NamesAreSeen, Exports, Problems, FlatHeld, NonComputed;
    hide NameBindable;
    var bounds := ParameterBounds(p, call, f);
    assert CallMet(p, s, EvaluateBy(p, s), call, f);
    forall i | 0 <= i < |bounds| ensures Bindable(p, s, f, f, bounds[i]) {
      ParameterNames(p, f, bounds[i], i);
      forall w | w in PatternFlows(p, f, bounds[i]) ensures FlowMet(p, s, EvaluateBy(p, s), w) {
        assert w in ParameterFlows(p, call, f);
      }
    }
  }

  /** When host code calls a function, nothing is known of the arguments. */
  lemma HostReceives(p: File, s: State, goal: Goal, f: NodeId)
    requires Certified(p, s, goal) && f < |p.nodes| && p.nodes[f].Function?
    ensures Receives(p, s, f, NodePatterns(p, f).1)
    ensures forall i :: 0 <= i < |p.nodes[f].params| ==> NodePatterns(p, f).1[i].init == None
  {
    hide WellFormed, StableDeclarations, SeparateVars, NamesAreSeen, Exports, Problems, FlatHeld, NonComputed;
    hide NameBindable;
    var (scope, bounds) := NodePatterns(p, f);
    forall i | 0 <= i < |bounds| ensures Bindable(p, s, f, f, bounds[i]) {
      ParameterNames(p, f, bounds[i], i);
      forall w | w in PatternFlows(p, f, bounds[i]) ensures FlowMet(p, s, EvaluateBy(p, s), w) {
        assert w in NodeFlows(p, f);
        assert w in Flows(p);
      }
    }
  }
}
