/**
 Soundness: in the analysed fragment, every name a run writes on the browser global is
 exported, unless the analysis reports a problem.
 */
module Soundness {
  import opened Wrappers
  import opened Syntax
  import opened AbstractValues
  import opened GuardedEvaluation
  import opened FlowEquations
  import opened Collection
  import opened Fixpoint
  import opened Report
  import opened RunSemantics

  // ---- The fragment --------------------------------------------------------------------------

  /** The names that reach values the analysis does not follow. */
  const UNFOLLOWED: set<string> := {"arguments", "prototype", "constructor", "__proto__"}

  /** The node types whose values the analysis follows. */
  predicate Followed(p: File, node: Node) {
    match node
    case This => false
    case Array(_) => false
    case ArrayPattern(_) => false
    case RestElement(_) => false
    case Unmodelled(_) => false
    case Identifier(name) => name !in UNFOLLOWED
    case Literal(_, text) => text !in UNFOLLOWED
    case OtherDeclaration(_, parts) => parts == []
    case Block(kind, param, _) => kind == Statements && param == None
    case Object(qs) => forall i :: 0 <= i < |qs| ==> qs[i].kind == Init
    case ObjectPattern(entries) => forall i :: 0 <= i < |entries| ==> entries[i].Entry? && !entries[i].computed
    case Assignment(plain, left, _) =>
      plain && left < |p.nodes| && (p.nodes[left].Identifier? || p.nodes[left].Member?)
    case Function(_, _, _, body, _, suspends) => body < |p.nodes| && !suspends
    case _ => true
  }

  /** Directly under a function there are its parameters and its body, and no other statement; and
      there is one program. */
  ghost predicate Shaped(p: File) {
    && (forall n :: 0 < n < |p.nodes| ==> !p.nodes[n].Program?)
    && forall n: NodeId :: 0 < n < |p.nodes| && p.nodes[OuterScope(p, n)].Function? ==> Underneath(p, n)
  }

  ghost predicate Underneath(p: File, n: NodeId)
    requires 0 < n < |p.nodes|
  {
    && !p.nodes[n].VariableDeclaration?
    && (p.nodes[n].Block? ==> IsBody(p, n))
    && (p.nodes[n].Function? ==> p.nodes[n].fkind != FunctionKind.Declaration)
  }

  /** The binding that function declaration `d` makes around itself. */
  function DeclaredBinding(p: File, d: NodeId): Option<Binding>
    requires d < |p.nodes|
  {
    if p.nodes[d].Function? && p.nodes[d].fkind == FunctionKind.Declaration && d > 0 && p.nodes[d].fnName.Some?
    then Some(Binding(OuterScope(p, d), p.nodes[d].fnName.value)) else None
  }

  /** No name of a function declaration is declared a second time in its block, or assigned. */
  ghost predicate StableDeclarations(p: File) {
    forall d :: 0 <= d < |p.nodes| && DeclaredBinding(p, d).Some? ==> StableDeclaration(p, d)
  }

  ghost predicate StableDeclaration(p: File, d: NodeId)
    requires d < |p.nodes| && DeclaredBinding(p, d).Some?
  {
    var b := DeclaredBinding(p, d).value;
    && (forall n :: 0 <= n < |p.nodes| && n != d ==> b !in PlainNames(p, n))
    && (forall n :: 0 <= n < |p.nodes| ==> AssignedBinding(p, n) != Some(b))
    && (Binding(d, b.name) !in Plain(p) ==>
          forall n :: 0 <= n < |p.nodes| ==> AssignedBinding(p, n) != Some(Binding(d, b.name)))
  }

  /** No function declares a `var` with a name that its body block declares, which would be one
      variable with two bindings. */
  ghost predicate SeparateVars(p: File) {
    forall b: NodeId, x :: IsBody(p, b) && Binding(b, x) in Plain(p) ==> x !in BodyVars(p, p.parent[b])
  }

  /** From this scope the name is found where a run finds it: the parameters of a function do not
      see the `var` names of its body. */
  ghost predicate SeesVariable(p: File, scope: NodeId, x: string)
    requires scope < |p.nodes| && OpensScope(p.nodes[scope])
  {
    x in FrameNames(p, scope) ||
    (!(p.nodes[scope].Function? && x in BodyVars(p, scope)) && (scope == 0 || SeesVariable(p, OuterScope(p, scope), x)))
  }

  ghost predicate NamesAreSeen(p: File) {
    forall n: NodeId :: n < |p.nodes| && p.nodes[n].Identifier? ==> SeesVariable(p, ScopeOf(p, n), p.nodes[n].name)
  }

  /** What the analysis follows, whatever the names are. */
  ghost predicate Followable(p: File) {
    && p.isModule
    && NonComputed(p)
    && FlatHeld(p)
    && (forall n :: 0 <= n < |p.nodes| ==> Followed(p, p.nodes[n]))
    && Shaped(p)
  }

  ghost predicate InFragment(p: File) {
    Followable(p) && StableDeclarations(p) && SeparateVars(p) && NamesAreSeen(p)
  }

  // ---- Claims about runs ---------------------------------------------------------------------

  /** The names that all writes on the global are to be among, and what is followed: the flow of functions,
      objects and the global, or of the global only. */
  datatype Goal = Goal(names: set<string>, everything: bool)

  /** What the host may hand to the module: primitives, or all but the global. */
  predicate Harmless(goal: Goal, v: Value) {
    if goal.everything then v == Prim else v != Global
  }

  /** What may be stored where the analysis does not follow it: anything if nothing is read back from there. */
  predicate Storable(goal: Goal, v: Value) {
    goal.everything || v != Global
  }

  predicate HarmlessAct(goal: Goal, a: Act) {
    match a
    case Invocation(_, args) => forall v :: v in args ==> Harmless(goal, v)
    case Put(_, _, v) => Storable(goal, v)
    case Provide(_, v) => Harmless(goal, v)
  }

  ghost predicate Careful(goal: Goal, host: Host) {
    && (goal.everything ==> !host.recalls)
    && (forall t :: Harmless(goal, host.answer(t)))
    && (forall a :: a in host.earlier || a in host.later ==> HarmlessAct(goal, a))
    && forall t, n, fuel, a :: a in host.acts(t, n, fuel) ==> HarmlessAct(goal, a)
  }

  /** The module gets no function, no object and not the global from anywhere but its own variables, calls
      and object literals: not as a result, an argument or an import, and not by reading back what was
      stored, whoever stored it. */
  ghost predicate Tame(host: Host) {
    Careful(Goal({}, true), host)
  }

  /** The host does not hand the global to the module; anything else it may. */
  ghost predicate Reserved(host: Host) {
    Careful(Goal({}, false), host)
  }

  /** The module keeps the global in variables: it is no property, no result, no argument, and it is stored
      nowhere else. */
  predicate Confined(p: File, s: State) {
    && (forall n, i :: 0 <= n < |p.nodes| && p.nodes[n].Object? && 0 <= i < |p.nodes[n].properties| ==>
          Root !in ValuesAt(p, s, p.nodes[n].properties[i].value))
    && (forall f :: f in s.results ==> Root !in s.results[f])
    && (forall n, i :: 0 <= n < |p.nodes| && p.nodes[n].Call? && 0 <= i < |p.nodes[n].arguments| ==>
          Root !in ValuesAt(p, s, p.nodes[n].arguments[i]))
    && (forall n :: 0 <= n < |p.nodes| && p.nodes[n].Assignment? && AssignedBinding(p, n) == None ==>
          Root !in ValuesAt(p, s, p.nodes[n].right))
  }

  // ---- What a run keeps ------------------------------------------------------------------------

  /** The values `allowed` describe value `v`. */
  ghost predicate Covers(goal: Goal, m: Machine, v: Value, allowed: Values) {
    match v
    case Prim => true
    case Global => Root in allowed
    case Ref(a) => !goal.everything || (a < |m.heap| && NodeValue(m.heap[a].origin) in allowed)
  }

  /** The binding in the analysis for variable `x` of a frame. */
  ghost function VariableBinding(p: File, scope: NodeId, x: string): Binding {
    if IsBody(p, scope) && Binding(scope, x) !in Plain(p) then Binding(p.parent[scope], x) else Binding(scope, x)
  }

  /** Value `v` may be held by a variable with binding `b`. */
  ghost predicate Holdable(p: File, s: State, goal: Goal, m: Machine, v: Value, b: Binding) {
    && Covers(goal, m, v, BindingValues(s, b))
    && forall d :: 0 <= d < |p.nodes| && DeclaredBinding(p, d) == Some(b) ==> Covers(goal, m, v, {NodeValue(d)})
  }

  ghost predicate FrameSafe(p: File, s: State, goal: Goal, m: Machine, f: Frame) {
    && f.scope < |p.nodes|
    && f.vars.Keys == FrameNames(p, f.scope)
    && (forall x :: x in f.vars ==> Holdable(p, s, goal, m, f.vars[x], VariableBinding(p, f.scope, x)))
  }

  /** `env` is a chain of frames for the scopes around `scope`. */
  ghost predicate EnvMatches(p: File, m: Machine, env: seq<nat>, scope: NodeId)
    requires scope < |p.nodes| && OpensScope(p.nodes[scope])
    decreases |env|
  {
    && env != [] && env[0] < |m.frames| && m.frames[env[0]].scope == scope
    && (if scope == 0 then |env| == 1 else EnvMatches(p, m, env[1..], OuterScope(p, scope)))
  }

  ghost predicate CellSafe(p: File, s: State, goal: Goal, m: Machine, c: Cell) {
    && 0 < c.origin < |p.nodes| && (forall k :: k in c.stored ==> Storable(goal, c.stored[k]))
    && (if p.nodes[c.origin].Function? then c.fields == map[] && EnvMatches(p, m, c.env, OuterScope(p, c.origin))
        else p.nodes[c.origin].Object? &&
             forall k :: k in c.fields ==> Covers(goal, m, c.fields[k], FieldValues(p, s, c.origin, k)))
  }

  /** What the analysis knows of field `k` of the objects made by node `n`. */
  ghost function FieldValues(p: File, s: State, n: NodeId, k: string): Values {
    MemberOf(p, s, EvaluateBy(p, s), {NodeValue(n)}, Some(k))
  }

  ghost predicate StoresHarmless(goal: Goal, m: Machine) {
    && (forall k :: k in m.globals ==> Storable(goal, m.globals[k]))
    && (forall k :: k in m.lent ==> Storable(goal, m.lent[k]))
  }

  ghost predicate Safe(p: File, s: State, goal: Goal, m: Machine) {
    && (forall i :: 0 <= i < |m.frames| ==> FrameSafe(p, s, goal, m, m.frames[i]))
    && (forall i :: 0 <= i < |m.heap| ==> CellSafe(p, s, goal, m, m.heap[i]))
    && m.written <= goal.names && StoresHarmless(goal, m)
  }

  /** Frames and cells are only ever added, and keep what identifies them. */
  ghost predicate Grows(m: Machine, m': Machine) {
    && |m.frames| <= |m'.frames| && (forall i :: 0 <= i < |m.frames| ==> m'.frames[i].scope == m.frames[i].scope)
    && |m.heap| <= |m'.heap| && (forall i :: 0 <= i < |m.heap| ==>
          m'.heap[i].origin == m.heap[i].origin && m'.heap[i].env == m.heap[i].env)
  }

  lemma GrowsTransitive(a: Machine, b: Machine, c: Machine)
    requires Grows(a, b) && Grows(b, c)
    ensures Grows(a, c)
  {
  }

  lemma CoversGrows(goal: Goal, m: Machine, m': Machine, v: Value, allowed: Values, more: Values)
    requires Covers(goal, m, v, allowed) && Grows(m, m') && allowed <= more
    ensures Covers(goal, m', v, more)
  {
  }

  lemma {:induction false} EnvGrows(p: File, m: Machine, m': Machine, env: seq<nat>, scope: NodeId)
    requires scope < |p.nodes| && OpensScope(p.nodes[scope]) && EnvMatches(p, m, env, scope) && Grows(m, m')
    ensures EnvMatches(p, m', env, scope)
    decreases |env|
  {
    if scope > 0 {
      EnvGrows(p, m, m', env[1..], OuterScope(p, scope));
    }
  }

  lemma HoldableGrows(p: File, s: State, goal: Goal, m: Machine, m': Machine, v: Value, b: Binding)
    requires Holdable(p, s, goal, m, v, b) && Grows(m, m')
    ensures Holdable(p, s, goal, m', v, b)
  {
    hide DeclaredBinding, Covers, Grows, WellFormed;
    CoversGrows(goal, m, m', v, BindingValues(s, b), BindingValues(s, b));
    forall d | 0 <= d < |p.nodes| && DeclaredBinding(p, d) == Some(b) ensures Covers(goal, m', v, {NodeValue(d)}) {
      CoversGrows(goal, m, m', v, {NodeValue(d)}, {NodeValue(d)});
    }
  }

  lemma FrameGrows(p: File, s: State, goal: Goal, m: Machine, m': Machine, f: Frame)
    requires FrameSafe(p, s, goal, m, f) && Grows(m, m')
    ensures FrameSafe(p, s, goal, m', f)
  {
    hide FrameNames, Holdable, Grows, WellFormed, VariableBinding;
    forall x | x in f.vars ensures Holdable(p, s, goal, m', f.vars[x], VariableBinding(p, f.scope, x)) {
      HoldableGrows(p, s, goal, m, m', f.vars[x], VariableBinding(p, f.scope, x));
    }
  }

  lemma CellGrows(p: File, s: State, goal: Goal, m: Machine, m': Machine, c: Cell)
    requires CellSafe(p, s, goal, m, c) && Grows(m, m')
    ensures CellSafe(p, s, goal, m', c)
  {
    if p.nodes[c.origin].Function? {
      EnvGrows(p, m, m', c.env, OuterScope(p, c.origin));
    }
  }

  /** A machine that differs only in safe frames, safe cells and exported names is safe. */
  lemma SafeStep(p: File, s: State, goal: Goal, m: Machine, m': Machine)
    requires Safe(p, s, goal, m) && Grows(m, m') && m'.written <= goal.names && StoresHarmless(goal, m')
    requires forall i :: 0 <= i < |m'.frames| && !(i < |m.frames| && m'.frames[i] == m.frames[i]) ==>
               FrameSafe(p, s, goal, m', m'.frames[i])
    requires forall i :: 0 <= i < |m'.heap| && !(i < |m.heap| && m'.heap[i] == m.heap[i]) ==>
               CellSafe(p, s, goal, m', m'.heap[i])
    ensures Safe(p, s, goal, m')
  {
    forall i | 0 <= i < |m'.frames| ensures FrameSafe(p, s, goal, m', m'.frames[i]) {
      if i < |m.frames| && m'.frames[i] == m.frames[i] { FrameGrows(p, s, goal, m, m', m.frames[i]); }
    }
    forall i | 0 <= i < |m'.heap| ensures CellSafe(p, s, goal, m', m'.heap[i]) {
      if i < |m.heap| && m'.heap[i] == m.heap[i] { CellGrows(p, s, goal, m, m', m.heap[i]); }
    }
  }

  // ---- Single operations -------------------------------------------------------------------------

  lemma VarSet(p: File, s: State, goal: Goal, m: Machine, frame: nat, x: string, v: Value)
    requires Safe(p, s, goal, m)
    requires frame < |m.frames| && x in m.frames[frame].vars ==>
               Holdable(p, s, goal, m, v, VariableBinding(p, m.frames[frame].scope, x))
    ensures Safe(p, s, goal, SetVar(m, frame, x, v)) && Grows(m, SetVar(m, frame, x, v))
  {
    hide FrameNames, Holdable, WellFormed, CellSafe, VariableBinding;
    var m' := SetVar(m, frame, x, v);
    if frame < |m.frames| && x in m.frames[frame].vars {
      var f, f' := m.frames[frame], m'.frames[frame];
      assert FrameSafe(p, s, goal, m, f);
      assert f'.vars.Keys == f.vars.Keys;
      assert Grows(m, m');
      forall y | y in f'.vars ensures Holdable(p, s, goal, m', f'.vars[y], VariableBinding(p, f'.scope, y)) {
        HoldableGrows(p, s, goal, m, m', f'.vars[y], VariableBinding(p, f'.scope, y));
      }
      assert FrameSafe(p, s, goal, m', f');
    }
    SafeStep(p, s, goal, m, m');
  }

  /** A new frame is safe: its variables are undefined, or take the value of a parameter. */
  lemma FrameMade(p: File, s: State, goal: Goal, m: Machine, env: seq<nat>, scope: NodeId)
    requires Safe(p, s, goal, m) && scope < |p.nodes| && OpensScope(p.nodes[scope])
    requires IsBody(p, scope) ==> EnvMatches(p, m, env, OuterScope(p, scope))
    ensures var m' := NewFrame(p, m, env, scope); Safe(p, s, goal, m') && Grows(m, m')
  {
    hide FrameNames, Holdable, CellSafe, BodyVars, ParamNames, Plain;
    var m' := NewFrame(p, m, env, scope);
    var f := m'.frames[|m.frames|];
    forall x | x in f.vars ensures Holdable(p, s, goal, m', f.vars[x], VariableBinding(p, scope, x)) {
      if f.vars[x] == Prim {
        HarmlessHoldable(p, s, goal, m', Prim, VariableBinding(p, scope, x));
      } else {
        var outer := m.frames[env[0]];
        assert FrameSafe(p, s, goal, m, outer) && outer.scope == OuterScope(p, scope) == p.parent[scope];
        assert VariableBinding(p, outer.scope, x) == Binding(outer.scope, x) == VariableBinding(p, scope, x);
        HoldableGrows(p, s, goal, m, m', outer.vars[x], Binding(outer.scope, x));
      }
    }
    assert FrameSafe(p, s, goal, m', f);
    SafeStep(p, s, goal, m, m');
  }

  lemma HarmlessHoldable(p: File, s: State, goal: Goal, m: Machine, v: Value, b: Binding)
    requires Harmless(goal, v)
    ensures Holdable(p, s, goal, m, v, b)
  {
  }

  lemma CellMade(p: File, s: State, goal: Goal, m: Machine, c: Cell)
    requires Safe(p, s, goal, m) && CellSafe(p, s, goal, m, c)
    ensures var m' := m.(heap := m.heap + [c]); Safe(p, s, goal, m') && Grows(m, m')
  {
    var m' := m.(heap := m.heap + [c]);
    CellGrows(p, s, goal, m, m', c);
    SafeStep(p, s, goal, m, m');
  }

  lemma GlobalWritten(p: File, s: State, goal: Goal, m: Machine, name: string, v: Value)
    requires Safe(p, s, goal, m) && name in goal.names && Storable(goal, v)
    ensures Safe(p, s, goal, WriteGlobal(m, name, v)) && Grows(m, WriteGlobal(m, name, v))
  {
    SafeStep(p, s, goal, m, WriteGlobal(m, name, v));
  }

  lemma Ticked(p: File, s: State, goal: Goal, m: Machine)
    requires Safe(p, s, goal, m)
    ensures Safe(p, s, goal, Tick(m)) && Grows(m, Tick(m))
  {
    SafeStep(p, s, goal, m, Tick(m));
  }

  /** Storing a value, by the module or by the host. */
  lemma Stored(p: File, s: State, goal: Goal, m: Machine, target: Value, key: string, v: Value)
    requires Safe(p, s, goal, m) && Storable(goal, v)
    ensures Safe(p, s, goal, Store(m, target, key, v)) && Grows(m, Store(m, target, key, v))
  {
    hide FrameSafe, FieldValues, Covers;
    var m' := Store(m, target, key, v);
    if target.Ref? && target.address < |m.heap| {
      var c, c' := m.heap[target.address], m'.heap[target.address];
      assert CellSafe(p, s, goal, m, c);
      CellGrows(p, s, goal, m, m', c);
      assert CellSafe(p, s, goal, m', c');
    }
    SafeStep(p, s, goal, m, m');
  }

  lemma MemberStored(p: File, s: State, goal: Goal, m: Machine, target: Value, key: Key, v: Value)
    requires Safe(p, s, goal, m) && Storable(goal, v)
    requires target == Global && key.Some? ==> key.value in goal.names
    ensures Safe(p, s, goal, WriteMember(m, target, key, v)) && Grows(m, WriteMember(m, target, key, v))
  {
    hide Safe, Grows, Store, WriteGlobal;
    if key == None {
      Unchanged(p, s, goal, m);
    } else if target == Global {
      GlobalWritten(p, s, goal, m, key.value, v);
    } else {
      Stored(p, s, goal, m, target, key.value, v);
    }
  }

  lemma Unchanged(p: File, s: State, goal: Goal, m: Machine)
    requires Safe(p, s, goal, m)
    ensures Safe(p, s, goal, m) && Grows(m, m)
  {
  }

  /** What is read back from where it was stored. */
  lemma StoredRead(goal: Goal, host: Host, m: Machine, v: Value)
    requires Careful(goal, host) && Storable(goal, v)
    ensures var r := ReadStored(host, m, v);
            r.m == m && !r.out.Returned? && (r.out.Normal? ==> Harmless(goal, r.out.value))
  {
  }

  lemma LentRead(goal: Goal, host: Host, m: Machine, key: string)
    requires Careful(goal, host) && StoresHarmless(goal, m)
    ensures var r := ReadLent(host, m, key);
            r.m == m && !r.out.Returned? && (r.out.Normal? ==> Harmless(goal, r.out.value))
  {
    hide Careful;
    if key in m.lent { StoredRead(goal, host, m, m.lent[key]); }
  }

  /** The global has the aliases, and otherwise what was stored on it. */
  lemma GlobalRead(goal: Goal, host: Host, m: Machine, name: string, aliases: set<string>)
    requires Careful(goal, host) && StoresHarmless(goal, m)
    ensures var r := ReadGlobal(host, m, name, aliases);
            r.m == m && !r.out.Returned? &&
            (r.out.Normal? ==> Harmless(goal, r.out.value) || (r.out.value == Global && name in aliases))
  {
    hide Careful;
    if name in m.globals { StoredRead(goal, host, m, m.globals[name]); } else { LentRead(goal, host, m, name); }
  }

  lemma HarmlessCovered(goal: Goal, m: Machine, v: Value, allowed: Values)
    requires Harmless(goal, v)
    ensures Covers(goal, m, v, allowed)
  {
  }

  /** A member read gives what the abstract member lookup says. */
  lemma MemberRead(p: File, s: State, goal: Goal, host: Host, m: Machine, v: Value, key: Key, allowed: Values)
    requires Careful(goal, host) && Safe(p, s, goal, m) && Covers(goal, m, v, allowed) && HoldsNoGlobal(p, s, goal)
    ensures var r := ReadMember(host, m, v, key);
            r.m == m && !r.out.Returned? &&
            (r.out.Normal? ==> Covers(goal, m, r.out.value, MemberOf(p, s, EvaluateBy(p, s), allowed, key)))
  {
    hide Careful, FrameSafe, FieldValues, ReadGlobal, ReadLent, ReadStored, Guarded, WellFormed;
    var r, all := ReadMember(host, m, v, key), MemberOf(p, s, EvaluateBy(p, s), allowed, key);
    if v == Global && key.Some? {
      GlobalRead(goal, host, m, key.value, GLOBAL_ALIASES);
      if r.out == Normal(Global) && key.value in GLOBAL_ALIASES {
        assert Root in MemberOfOne(p, s, EvaluateBy(p, s), Root, key);
      }
    } else if key.Some? {
      LentRead(goal, host, m, key.value);
      if v.Ref? && v.address < |m.heap| {
        var c := m.heap[v.address];
        assert CellSafe(p, s, goal, m, c);
        if key.value in c.stored {
          StoredRead(goal, host, m, c.stored[key.value]);
        } else if key.value in c.fields {
          FieldCovered(p, s, goal, m, v, key.value, allowed);
        }
      }
    }
    if r.out.Normal? && Harmless(goal, r.out.value) { HarmlessCovered(goal, m, r.out.value, all); }
  }

  /** If only the global is followed, no object holds it. */
  ghost predicate HoldsNoGlobal(p: File, s: State, goal: Goal) {
    goal.everything || Confined(p, s)
  }

  lemma FieldCovered(p: File, s: State, goal: Goal, m: Machine, v: Value, key: string, allowed: Values)
    requires v.Ref? && v.address < |m.heap| && CellSafe(p, s, goal, m, m.heap[v.address]) && Covers(goal, m, v, allowed)
    requires key in m.heap[v.address].fields && HoldsNoGlobal(p, s, goal)
    ensures Covers(goal, m, m.heap[v.address].fields[key], MemberOf(p, s, EvaluateBy(p, s), allowed, Some(key)))
    ensures !goal.everything ==> m.heap[v.address].fields[key] != Global
  {
    hide Confined, WellFormed, Guarded;
    var c := m.heap[v.address];
    var one, all := FieldValues(p, s, c.origin, key), MemberOf(p, s, EvaluateBy(p, s), allowed, Some(key));
    if goal.everything {
      assert one <= all;
      CoversGrows(goal, m, m, c.fields[key], one, all);
    } else {
      NoGlobalField(p, s, c.origin, key);
    }
  }

  lemma NoGlobalField(p: File, s: State, n: NodeId, key: string)
    requires Confined(p, s) && n < |p.nodes| && p.nodes[n].Object?
    ensures Root !in FieldValues(p, s, n, key)
  {
    hide WellFormed, Guarded;
    var qs, rec := p.nodes[n].properties, EvaluateBy(p, s);
    forall i | 0 <= i < |qs| ensures Root !in PropertyValues(p, s, rec, qs[i], Some(key)) {
      assert rec(qs[i].value) == ValuesAt(p, s, qs[i].value);
    }
  }

  lemma HarmlessRead(p: File, s: State, goal: Goal, host: Host, m: Machine, v: Value, key: Key)
    requires Careful(goal, host) && Safe(p, s, goal, m) && Harmless(goal, v) && HoldsNoGlobal(p, s, goal)
    ensures var r := ReadMember(host, m, v, key);
            r.m == m && !r.out.Returned? && (r.out.Normal? ==> Harmless(goal, r.out.value))
  {
    hide Careful, FrameSafe, FieldValues, ReadGlobal, ReadLent, ReadStored, Guarded, WellFormed, Confined;
    if key.Some? {
      LentRead(goal, host, m, key.value);
      if v.Ref? && v.address < |m.heap| {
        var c := m.heap[v.address];
        assert CellSafe(p, s, goal, m, c);
        if key.value in c.stored {
          StoredRead(goal, host, m, c.stored[key.value]);
        } else if key.value in c.fields {
          FieldCovered(p, s, goal, m, v, key.value, {});
        }
      }
    }
  }

  // ---- Names ---------------------------------------------------------------------------------------

  lemma PlainIsName(p: File, b: Binding)
    requires b in Plain(p)
    ensures b in Names(p)
  {
    var n :| 0 <= n < |p.nodes| && b in PlainNames(p, n);
    assert b in PlainNames(p, n) + SelfNames(p, n);
  }

  /** The declared names of a scope are its frame's variables, save the `var` names of a function, which
      are variables of its body, and the name of a function declaration inside itself. */
  lemma NameOfScope(p: File, scope: NodeId, x: string)
    requires scope < |p.nodes| && OpensScope(p.nodes[scope])
    ensures x in FrameNames(p, scope) ==> VariableBinding(p, scope, x) in Names(p)
    ensures x in FrameNames(p, scope) && Binding(scope, x) in Names(p) ==>
      VariableBinding(p, scope, x) == Binding(scope, x)
    ensures Binding(scope, x) in Names(p) && x !in FrameNames(p, scope) ==>
              p.nodes[scope].Function? && (x in BodyVars(p, scope) || OwnName(p, scope, x))
  {
    if x in FrameNames(p, scope) { FrameNameIsName(p, scope, x); }
    if Binding(scope, x) in Names(p) {
      var n :| 0 <= n < |p.nodes| && Binding(scope, x) in PlainNames(p, n) + SelfNames(p, n);
      if Binding(scope, x) in PlainNames(p, n) {
        PlainHasFrame(p, scope, x, n);
      } else if Binding(scope, x) !in Plain(p) {
        assert n == scope && p.nodes[scope].fnName == Some(x);
      } else {
        var k :| 0 <= k < |p.nodes| && Binding(scope, x) in PlainNames(p, k);
        PlainHasFrame(p, scope, x, k);
      }
    }
  }

  /** The name of a function declaration inside itself, where it is no variable. */
  ghost predicate OwnName(p: File, f: NodeId, x: string) {
    && f < |p.nodes| && p.nodes[f].Function? && p.nodes[f].fkind == FunctionKind.Declaration &&
      p.nodes[f].fnName == Some(x)
    && Binding(f, x) !in Plain(p)
  }

  lemma PlainHasFrame(p: File, scope: NodeId, x: string, n: NodeId)
    requires scope < |p.nodes| && OpensScope(p.nodes[scope]) && n < |p.nodes| && Binding(scope, x) in PlainNames(p, n)
    ensures x in FrameNames(p, scope) || (p.nodes[scope].Function? && x in BodyVars(p, scope))
    ensures Binding(scope, x) in Plain(p)
  {
    hide PlainNames, WellFormed;
    assert Binding(scope, x) in Plain(p);
    if p.nodes[scope].Function? && n == scope { assert x in ParamNames(p, scope); }
  }

  lemma FrameNameIsName(p: File, scope: NodeId, x: string)
    requires scope < |p.nodes| && OpensScope(p.nodes[scope]) && x in FrameNames(p, scope)
    ensures VariableBinding(p, scope, x) in Names(p)
  {
    hide PlainNames, WellFormed;
    var b := VariableBinding(p, scope, x);
    if p.nodes[scope].Function? && p.nodes[scope].fnName == Some(x) {
      assert b in PlainNames(p, scope) + SelfNames(p, scope);
    } else {
      assert b in Plain(p);
      PlainIsName(p, b);
    }
  }

  /** Where a run finds a name, against what the analysis looks up. */
  ghost predicate Agrees(p: File, m: Machine, x: string, frame: Option<nat>, b: Option<Binding>) {
    match frame
    case None => b == None
    case Some(f) =>
      && f < |m.frames| && x in m.frames[f].vars && m.frames[f].scope < |p.nodes| && b.Some?
      && (b.value == VariableBinding(p, m.frames[f].scope, x) ||
          Shadowed(p, b.value, VariableBinding(p, m.frames[f].scope, x)))
  }

  /** `inner` is the name of a function declaration inside itself, `outer` the same name around it. */
  ghost predicate Shadowed(p: File, inner: Binding, outer: Binding) {
    && inner.scope < |p.nodes| && inner.name == outer.name && inner !in Plain(p)
    && DeclaredBinding(p, inner.scope) == Some(outer)
  }

  lemma RootIsProgram(p: File)
    ensures |p.nodes| > 0 && p.nodes[0].Program?
  {
  }

  lemma {:induction false} NameResolved(p: File, s: State, goal: Goal, m: Machine, env: seq<nat>, scope: NodeId,
                                        x: string)
    requires Shaped(p) && Safe(p, s, goal, m)
    requires scope < |p.nodes| && OpensScope(p.nodes[scope]) && EnvMatches(p, m, env, scope) &&
      SeesVariable(p, scope, x)
    ensures Agrees(p, m, x, Resolve(m, env, x), Lookup(p, Names(p), scope, x))
    decreases |env|
  {
    hide FrameNames, Plain, WellFormed, CellSafe, Names, BodyVars, VariableBinding, Shaped, IsBody;
    RootIsProgram(p);
    assert FrameSafe(p, s, goal, m, m.frames[env[0]]);
    NameOfScope(p, scope, x);
    if x in m.frames[env[0]].vars {
      if Binding(scope, x) !in Names(p) { BodyLooksOut(p, scope, x); }
    } else if scope > 0 {
      NameResolved(p, s, goal, m, env[1..], OuterScope(p, scope), x);
      if Binding(scope, x) in Names(p) {
        OwnNameResolved(p, s, goal, m, env[1..], scope, x);
      }
    } else {
      assert env[1..] == [];
    }
  }

  /** A `var` of a function is looked up from its body. */
  lemma BodyLooksOut(p: File, b: NodeId, x: string)
    requires b < |p.nodes| && OpensScope(p.nodes[b]) && x in FrameNames(p, b) && Binding(b, x) !in Names(p)
    ensures Lookup(p, Names(p), b, x) == Some(VariableBinding(p, b, x))
  {
    hide PlainNames, SelfNames, FrameNames, Names, Plain;
    FrameNameIsName(p, b, x);
    assert IsBody(p, b);
    assert OuterScope(p, b) == p.parent[b];
  }

  /** Inside a function declaration, its name is the variable around it. */
  lemma OwnNameResolved(p: File, s: State, goal: Goal, m: Machine, env: seq<nat>, d: NodeId, x: string)
    requires Shaped(p) && Safe(p, s, goal, m) && 0 < d < |p.nodes| && OwnName(p, d, x)
    requires EnvMatches(p, m, env, OuterScope(p, d))
    ensures Resolve(m, env, x) == Some(env[0]) && env[0] < |m.frames| && x in m.frames[env[0]].vars
    ensures Shadowed(p, Binding(d, x), VariableBinding(p, m.frames[env[0]].scope, x))
  {
    hide FrameNames, Plain, WellFormed, CellSafe, Names, BodyVars;
    assert FrameSafe(p, s, goal, m, m.frames[env[0]]);
    DeclaredOutside(p, d);
  }

  lemma DeclaredOutside(p: File, d: NodeId)
    requires Shaped(p) && d < |p.nodes| && DeclaredBinding(p, d).Some?
    ensures var b := DeclaredBinding(p, d).value;
      && b in Plain(p) && b.name in FrameNames(p, b.scope) && VariableBinding(p, b.scope, b.name) == b
      && !p.nodes[b.scope].Function?
  {
    var b := DeclaredBinding(p, d).value;
    assert Underneath(p, d) || !p.nodes[OuterScope(p, d)].Function?;
    assert b in PlainNames(p, d);
    assert b in Plain(p);
  }

  /** Reading a name gives what its abstract lookup says. */
  lemma NameRead(p: File, s: State, goal: Goal, host: Host, m: Machine, env: seq<nat>, scope: NodeId, x: string)
    requires Careful(goal, host) && Shaped(p) && Safe(p, s, goal, m) && DeclarationsMet(p, s)
    requires scope < |p.nodes| && OpensScope(p.nodes[scope]) && EnvMatches(p, m, env, scope) &&
      SeesVariable(p, scope, x)
    ensures var r := ReadName(host, m, env, x);
            r.m == m && !r.out.Returned? && (r.out.Normal? ==> Covers(goal, m, r.out.value, NameValues(p, s, scope, x)))
  {
    hide FrameNames, Plain, WellFormed, Lookup, Names, CellSafe, SeesVariable, VariableBinding, Shaped;
    hide Careful, ReadGlobal;
    NameResolved(p, s, goal, m, env, scope, x);
    var frame := Resolve(m, env, x);
    if frame == None {
      GlobalRead(goal, host, m, x, GLOBAL_NAMES);
      var r := ReadName(host, m, env, x);
      if r.out.Normal? && Harmless(goal, r.out.value) { HarmlessCovered(goal, m, r.out.value, FreeValues(x)); }
    } else {
      var f := m.frames[frame.value];
      assert FrameSafe(p, s, goal, m, f);
      var b := Lookup(p, Names(p), scope, x).value;
      if b != VariableBinding(p, f.scope, x) {
        assert b in Declared(p, b.scope);
        CoversGrows(goal, m, m, f.vars[x], {NodeValue(b.scope)}, BindingValues(s, b));
      }
    }
  }

  lemma AssignedIsNoDeclaration(p: File, n: NodeId, around: Binding)
    requires StableDeclarations(p) && n < |p.nodes| && AssignedBinding(p, n).Some?
    requires AssignedBinding(p, n).value == around || Shadowed(p, AssignedBinding(p, n).value, around)
    ensures AssignedBinding(p, n).value == around
    ensures forall d :: 0 <= d < |p.nodes| ==> DeclaredBinding(p, d) != Some(around)
  {
    hide Plain, WellFormed, AssignedBinding, PlainNames;
  }

  /** Assigning a value that the analysis lets flow into the assigned binding. */
  lemma NameAssigned(p: File, s: State, goal: Goal, m: Machine, env: seq<nat>, n: NodeId, scope: NodeId, x: string,
                     v: Value)
    requires Shaped(p) && Safe(p, s, goal, m) && StableDeclarations(p) && n < |p.nodes| && scope == ScopeOf(p, n)
    requires EnvMatches(p, m, env, scope) && SeesVariable(p, scope, x) &&
      AssignedBinding(p, n) == Lookup(p, Names(p), scope, x)
    requires AssignedBinding(p, n).Some? ==> Covers(goal, m, v, BindingValues(s, AssignedBinding(p, n).value))
    requires AssignedBinding(p, n).None? ==> x in goal.names && Storable(goal, v)
    ensures var m' := WriteName(m, env, x, v); Safe(p, s, goal, m') && Grows(m, m')
  {
    hide FrameNames, Plain, WellFormed, Lookup, Names, CellSafe, SeesVariable, VariableBinding, Shaped;
    NameResolved(p, s, goal, m, env, scope, x);
    var frame := Resolve(m, env, x);
    if frame == None {
      GlobalWritten(p, s, goal, m, x, v);
    } else {
      AssignedIsNoDeclaration(p, n, VariableBinding(p, m.frames[frame.value].scope, x));
      VarSet(p, s, goal, m, frame.value, x, v);
    }
  }

  /** Writing a primitive to a name is always safe, if an undeclared name is exported. */
  lemma NameUpdated(p: File, s: State, goal: Goal, m: Machine, env: seq<nat>, scope: NodeId, x: string)
    requires Shaped(p) && Safe(p, s, goal, m)
    requires scope < |p.nodes| && OpensScope(p.nodes[scope]) && EnvMatches(p, m, env, scope) &&
      SeesVariable(p, scope, x)
    requires Lookup(p, Names(p), scope, x).None? ==> x in goal.names
    ensures var m' := WriteName(m, env, x, Prim); Safe(p, s, goal, m') && Grows(m, m')
  {
    hide FrameNames, Plain, WellFormed, Lookup, Names, CellSafe, SeesVariable, Shaped;
    NameResolved(p, s, goal, m, env, scope, x);
    var frame := Resolve(m, env, x);
    if frame == None { GlobalWritten(p, s, goal, m, x, Prim); } else { VarSet(p, s, goal, m, frame.value, x, Prim); }
  }
}
