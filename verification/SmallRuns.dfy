/** How files of a few nodes run. */
module SmallRuns {
  import opened Wrappers
  import opened Syntax
  import opened AbstractValues
  import opened RunSemantics
  import opened Soundness

  // ---- Runs --------------------------------------------------------------------------------------------

  /** Around this node no host code runs, and nothing throws. */
  ghost predicate Idle(host: Host, n: NodeId) {
    forall t, fuel :: !host.throws(t, n, fuel, false) && !host.throws(t, n, fuel, true) && host.acts(t, n, fuel) == []
  }

  /** No host code acts, and nothing throws. */
  ghost predicate Calm(host: Host) {
    host.earlier == [] && host.later == [] && forall n: NodeId :: Idle(host, n)
  }

  /** A calm host is as careful as its answers. */
  lemma CalmIsCareful(goal: Goal, host: Host)
    requires Calm(host) && (goal.everything ==> !host.recalls) && forall t :: Harmless(goal, host.answer(t))
    ensures Careful(goal, host)
  {
    forall t, n: NodeId, fuel ensures host.acts(t, n, fuel) == [] { assert Idle(host, n); }
  }

  /** The module body starts when its functions are made and other modules have acted. */
  lemma ModuleStarts(p: File, host: Host, m: Machine, fuel: nat)
    requires Hoist(p, NewFrame(p, EMPTY, [], 0), [0], 0, p.nodes[0].body) == m
    ensures RunModule(p, host, fuel) ==
            RunList(p, host, HostActs(p, host, m, host.earlier, fuel), [0], p.nodes[0].body, fuel)
    ensures host.earlier == [] ==> RunModule(p, host, fuel) == RunList(p, host, m, [0], p.nodes[0].body, fuel)
  {
    hide RunList, Hoist, NewFrame, WellFormed;
    NothingDone(p, host, m, fuel);
  }

  lemma NothingDone(p: File, host: Host, m: Machine, fuel: nat)
    ensures HostActs(p, host, m, [], fuel) == m
  {
  }

  lemma NodeRuns(p: File, host: Host, m: Machine, env: seq<nat>, n: NodeId, fuel: nat, r: Result)
    requires Idle(host, n) && fuel > 0 && n < |p.nodes| && RunNode(p, host, m, env, n, fuel - 1) == r
    ensures Run(p, host, m, env, n, fuel) == r
  {
    hide WellFormed, RunNode;
    NothingDone(p, host, r.m, fuel - 1);
  }

  lemma NameRuns(p: File, host: Host, m: Machine, env: seq<nat>, n: NodeId, fuel: nat)
    requires Idle(host, n) && fuel > 0 && n < |p.nodes| && p.nodes[n].Identifier?
    ensures ReadName(host, m, env, p.nodes[n].name).m == m ==>
      Run(p, host, m, env, n, fuel) == ReadName(host, m, env, p.nodes[n].name)
  {
    hide WellFormed, ReadName;
    NodeRuns(p, host, m, env, n, fuel, ReadName(host, m, env, p.nodes[n].name));
  }

  lemma LiteralRuns(p: File, host: Host, m: Machine, env: seq<nat>, n: NodeId, fuel: nat)
    requires Idle(host, n) && fuel > 0 && n < |p.nodes|
    requires p.nodes[n].Literal? || (p.nodes[n].Function? && p.nodes[n].fkind == FunctionKind.Declaration)
    ensures Run(p, host, m, env, n, fuel) == Done(m, Prim)
  {
    hide WellFormed;
    NodeRuns(p, host, m, env, n, fuel, Done(m, Prim));
  }

  lemma StatementRuns(p: File, host: Host, m: Machine, env: seq<nat>, n: NodeId, fuel: nat, r: Result)
    requires Idle(host, n) && fuel > 0 && n < |p.nodes| && p.nodes[n].ExpressionStatement?
    requires r == Run(p, host, m, env, p.nodes[n].expression, fuel - 1) && r.out.Normal?
    ensures Run(p, host, m, env, n, fuel) == Done(r.m, Prim)
  {
    hide WellFormed;
    NodeRuns(p, host, m, env, n, fuel, Done(r.m, Prim));
  }

  lemma MemberRuns(p: File, host: Host, m: Machine, env: seq<nat>, n: NodeId, fuel: nat, r: Result)
    requires Idle(host, n) && fuel > 0 && n < |p.nodes| && p.nodes[n].Member?
    requires r == Run(p, host, m, env, p.nodes[n].receiver, fuel - 1) && r.out.Normal?
    ensures Run(p, host, m, env, n, fuel) == ReadMember(host, r.m, r.out.value, KeyAt(p, p.nodes[n].property))
  {
    hide WellFormed, ReadMember;
    NodeRuns(p, host, m, env, n, fuel, ReadMember(host, r.m, r.out.value, KeyAt(p, p.nodes[n].property)));
  }

  lemma NameAssignmentRuns(p: File, host: Host, m: Machine, env: seq<nat>, n: NodeId, fuel: nat, r: Result)
    requires Idle(host, n) && fuel > 0 && n < |p.nodes| && p.nodes[n].Assignment?
    requires p.nodes[n].left < |p.nodes| && p.nodes[p.nodes[n].left].Identifier?
    requires r == Run(p, host, m, env, p.nodes[n].right, fuel - 1) && r.out.Normal?
    ensures Run(p, host, m, env, n, fuel) ==
      Done(WriteName(r.m, env, p.nodes[p.nodes[n].left].name, r.out.value), r.out.value)
  {
    hide WellFormed, WriteName;
    NodeRuns(p, host, m, env, n, fuel,
             Done(WriteName(r.m, env, p.nodes[p.nodes[n].left].name, r.out.value), r.out.value));
  }

  /** Writing a member. */
  lemma MemberWriteRuns(p: File, host: Host, m: Machine, env: seq<nat>, n: NodeId, fuel: nat, receiver: Result,
                        right: Result)
    requires Idle(host, n) && fuel > 0 && n < |p.nodes| && p.nodes[n].Assignment?
    requires p.nodes[n].left < |p.nodes| && p.nodes[p.nodes[n].left].Member?
    requires receiver == Run(p, host, m, env, p.nodes[p.nodes[n].left].receiver, fuel - 1) && receiver.out.Normal?
    requires right == Run(p, host, receiver.m, env, p.nodes[n].right, fuel - 1) && right.out.Normal?
    ensures
      Run(p, host, m, env, n, fuel) ==
        Done(WriteMember(right.m, receiver.out.value, KeyAt(p, p.nodes[p.nodes[n].left].property), right.out.value),
             right.out.value)
  {
    hide WellFormed, Run, WriteMember;
    var key := KeyAt(p, p.nodes[p.nodes[n].left].property);
    var done := Done(WriteMember(right.m, receiver.out.value, key, right.out.value), right.out.value);
    assert RunAssignment(p, host, m, env, p.nodes[n].left, p.nodes[n].right, fuel - 1) == done;
    NodeRuns(p, host, m, env, n, fuel, done);
  }

  /** Writing a member of the global. */
  lemma GlobalWriteRuns(p: File, host: Host, m: Machine, env: seq<nat>, n: NodeId, fuel: nat, receiver: Result,
                        v: Value)
    requires Idle(host, n) && fuel > 0 && n < |p.nodes| && p.nodes[n].Assignment?
    requires p.nodes[n].left < |p.nodes| && p.nodes[p.nodes[n].left].Member?
    requires receiver == Run(p, host, m, env, p.nodes[p.nodes[n].left].receiver, fuel - 1) &&
      receiver.out == Normal(Global)
    requires Run(p, host, receiver.m, env, p.nodes[n].right, fuel - 1) == Done(receiver.m, v)
    requires KeyAt(p, p.nodes[p.nodes[n].left].property).Some?
    ensures Run(p, host, m, env, n, fuel) ==
      Done(WriteGlobal(receiver.m, KeyAt(p, p.nodes[p.nodes[n].left].property).value, v), v)
  {
    hide WellFormed, Run, WriteGlobal;
    MemberWriteRuns(p, host, m, env, n, fuel, receiver, Done(receiver.m, v));
  }

  lemma CallRuns(p: File, host: Host, m: Machine, env: seq<nat>, n: NodeId, fuel: nat, r: Result)
    requires Idle(host, n) && fuel > 0 && n < |p.nodes| && p.nodes[n].Call?
    requires r == RunList(p, host, m, env, [p.nodes[n].callee] + p.nodes[n].arguments, fuel - 1) && r.out.Normal? &&
      |r.values| > 0
    ensures Run(p, host, m, env, n, fuel) == Apply(p, host, r.m, r.values[0], r.values[1..], fuel - 1)
  {
    hide WellFormed, Apply, RunList;
    NodeRuns(p, host, m, env, n, fuel, Apply(p, host, r.m, r.values[0], r.values[1..], fuel - 1));
  }

  lemma BlockRuns(p: File, host: Host, m: Machine, env: seq<nat>, n: NodeId, fuel: nat)
    requires Idle(host, n) && fuel > 0 && n < |p.nodes| && p.nodes[n].Block?
    ensures var inner := [|m.frames|] + env;
      Run(p, host, m, env, n, fuel) ==
        RunList(p, host, Hoist(p, NewFrame(p, m, env, n), inner, |m.frames|, p.nodes[n].body), inner, p.nodes[n].body,
                fuel - 1).(values := [])
  {
    hide WellFormed, RunList, Hoist, NewFrame;
    var inner, body := [|m.frames|] + env, p.nodes[n].body;
    NodeRuns(p, host, m, env, n, fuel,
             RunList(p, host, Hoist(p, NewFrame(p, m, env, n), inner, |m.frames|, body), inner, body,
                     fuel - 1).(values := []));
  }

  lemma NoNodesRun(p: File, host: Host, m: Machine, env: seq<nat>, fuel: nat)
    ensures RunList(p, host, m, env, [], fuel) == Result(m, Normal(Prim), [])
  {
  }

  lemma NextNodeRuns(p: File, host: Host, m: Machine, env: seq<nat>, n: NodeId, ns: seq<NodeId>, fuel: nat, r: Result,
                     rest: Result)
    requires r == Run(p, host, m, env, n, fuel) && r.out.Normal?
    requires rest == RunList(p, host, r.m, env, ns, fuel)
    ensures RunList(p, host, m, env, [n] + ns, fuel) == rest.(values := [r.out.value] + rest.values)
  {
    hide WellFormed, Run;
    assert ([n] + ns)[1..] == ns;
  }

  lemma LastNodeRuns(p: File, host: Host, m: Machine, env: seq<nat>, n: NodeId, fuel: nat, r: Result)
    requires r == Run(p, host, m, env, n, fuel) && r.out.Normal?
    ensures RunList(p, host, m, env, [n], fuel) == Result(r.m, Normal(Prim), [r.out.value])
  {
    hide WellFormed, Run;
    NoNodesRun(p, host, r.m, env, fuel);
    NextNodeRuns(p, host, m, env, n, [], fuel, r, Result(r.m, Normal(Prim), []));
    assert [n] + [] == [n];
  }

  /** Variables start without a value, unless they share the name of a parameter. */
  lemma FrameStarts(p: File, m: Machine, env: seq<nat>, scope: NodeId, vars: map<string, Value>)
    requires IsBody(p, scope) ==> BodyVars(p, p.parent[scope]) !! ParamNames(p, p.parent[scope])
    requires vars.Keys == FrameNames(p, scope) && forall x :: x in vars ==> vars[x] == Prim
    ensures NewFrame(p, m, env, scope) == m.(frames := m.frames + [Frame(scope, vars)])
  {
    hide FrameNames, BodyVars, ParamNames, Plain;
    forall x | x in FrameNames(p, scope) ensures Initial(p, m, env, scope, x) == Prim {
      if IsBody(p, scope) { assert !(x in BodyVars(p, p.parent[scope]) && x in ParamNames(p, p.parent[scope])); }
    }
    assert (map x | x in FrameNames(p, scope) :: Initial(p, m, env, scope, x)) == vars;
  }

  lemma {:induction false} NothingHoisted(p: File, m: Machine, env: seq<nat>, frame: nat, body: seq<NodeId>)
    requires forall n :: n in body && n < |p.nodes| ==> !p.nodes[n].Function? && !p.nodes[n].Export?
    ensures Hoist(p, m, env, frame, body) == m
    decreases |body|
  {
    hide WellFormed;
    if body != [] { NothingHoisted(p, m, env, frame, body[1..]); }
  }

  lemma FoundInFrame(host: Host, m: Machine, env: seq<nat>, x: string)
    requires env != [] && env[0] < |m.frames| && x in m.frames[env[0]].vars
    ensures ReadName(host, m, env, x) == Done(m, m.frames[env[0]].vars[x])
  {
  }

  lemma FoundBeyond(host: Host, m: Machine, env: seq<nat>, x: string)
    requires env != [] && !(env[0] < |m.frames| && x in m.frames[env[0]].vars)
    ensures ReadName(host, m, env, x) == ReadName(host, m, env[1..], x)
  {
  }

  lemma {:induction false} FoundNowhere(m: Machine, env: seq<nat>, x: string)
    requires forall i :: i in env && i < |m.frames| ==> x !in m.frames[i].vars
    ensures Resolve(m, env, x) == None
    decreases |env|
  {
    if env != [] { FoundNowhere(m, env[1..], x); }
  }

  lemma WindowIsGlobal(host: Host, m: Machine, env: seq<nat>)
    requires "window" !in m.globals && forall i :: i in env && i < |m.frames| ==> "window" !in m.frames[i].vars
    ensures ReadName(host, m, env, "window") == Done(m, Global)
  {
    FoundNowhere(m, env, "window");
    assert "window" in GLOBAL_NAMES;
  }

  lemma PatternRuns(p: File, host: Host, m: Machine, env: seq<nat>, frame: nat, n: NodeId, v: Value, fuel: nat,
                    r: Result)
    requires Idle(host, n) && fuel > 0 && n < |p.nodes| && BindNode(p, host, m, env, frame, n, v, fuel - 1) == r
    ensures Bind(p, host, m, env, frame, n, v, fuel) == r
  {
    hide WellFormed, BindNode;
    NothingDone(p, host, r.m, fuel - 1);
  }

  lemma NameBound(p: File, host: Host, m: Machine, env: seq<nat>, frame: nat, n: NodeId, v: Value, fuel: nat)
    requires Idle(host, n) && fuel > 0 && n < |p.nodes| && p.nodes[n].Identifier?
    ensures Bind(p, host, m, env, frame, n, v, fuel) == Done(SetVar(m, frame, p.nodes[n].name, v), Prim)
  {
    hide WellFormed, SetVar;
    PatternRuns(p, host, m, env, frame, n, v, fuel, Done(SetVar(m, frame, p.nodes[n].name, v), Prim));
  }

  /** A declaration of one variable. */
  lemma DeclarationRuns(p: File, host: Host, m: Machine, env: seq<nat>, n: NodeId, id: NodeId, init: NodeId, fuel: nat,
                        frame: nat, r: Result)
    requires Idle(host, n) && Idle(host, id) && fuel > 1
    requires n < |p.nodes| && p.nodes[n].VariableDeclaration? && p.nodes[n].declarators == [Declarator(id, Some(init))]
    requires id < |p.nodes| && p.nodes[id].Identifier?
    requires if p.nodes[n].isVar then VarFrame(p, m, env) == Some(frame) else env != [] && env[0] == frame
    requires r == Run(p, host, m, env, init, fuel - 1) && r.out.Normal?
    ensures Run(p, host, m, env, n, fuel) == Done(SetVar(r.m, frame, p.nodes[id].name, r.out.value), Prim)
  {
    hide WellFormed, Run, SetVar, VarFrame, Bind;
    var ds := [Declarator(id, Some(init))];
    assert ds[1..] == [];
    var bound := SetVar(r.m, frame, p.nodes[id].name, r.out.value);
    NameBound(p, host, r.m, env, frame, id, r.out.value, fuel - 1);
    assert RunDeclarators(p, host, bound, env, frame, [], fuel - 1) == Done(bound, Prim);
    assert RunDeclarators(p, host, m, env, frame, ds, fuel - 1) == Done(bound, Prim);
    NodeRuns(p, host, m, env, n, fuel, Done(bound, Prim));
  }

  /** Calling a declared function binds its parameters and runs its body. */
  lemma InvokeRuns(p: File, host: Host, m: Machine, f: Value, args: seq<Value>, fuel: nat, bound: Machine, r: Result)
    requires IsFunction(p, m, f) && p.nodes[m.heap[f.address].origin].fkind == FunctionKind.Declaration
    requires
      var cell := m.heap[f.address];
      var env := [|m.frames|] + cell.env;
      && BindParameters(p, host, NewFrame(p, Tick(m), cell.env, cell.origin), env, |m.frames|,
                        p.nodes[cell.origin].params, args, fuel)
           == Done(bound, Prim)
      && r == Run(p, host, bound, env, p.nodes[cell.origin].fnBody, fuel)
    ensures r.out.Normal? ==> Apply(p, host, m, f, args, fuel) == Done(r.m, Prim)
  {
    hide WellFormed, Run, NewFrame, BindParameters;
    var cell := m.heap[f.address];
    assert Entered(p, m, f) == NewFrame(p, Tick(m), cell.env, cell.origin);
    assert Invoke(p, host, m, f, args, fuel) == CallResult(r, false);
  }

  lemma NothingBound(p: File, host: Host, m: Machine, env: seq<nat>, frame: nat, args: seq<Value>, fuel: nat)
    ensures BindParameters(p, host, m, env, frame, [], args, fuel) == Done(m, Prim)
  {
  }

  /** A parameter without an argument takes its default value. */
  lemma DefaultBound(p: File, host: Host, m: Machine, env: seq<nat>, frame: nat, n: NodeId, left: NodeId, right: NodeId,
                     fuel: nat, v: Value)
    requires Idle(host, n) && Idle(host, left) && fuel > 1 && n < |p.nodes| &&
      p.nodes[n] == AssignmentPattern(left, right)
    requires left < |p.nodes| && p.nodes[left].Identifier?
    requires !host.choose(m.clock) && Run(p, host, Tick(m), env, right, fuel - 1) == Done(Tick(m), v)
    ensures BindParameters(p, host, m, env, frame, [n], [], fuel) ==
      Done(SetVar(Tick(m), frame, p.nodes[left].name, v), Prim)
  {
    hide WellFormed, Run, SetVar, Bind;
    var bound := SetVar(Tick(m), frame, p.nodes[left].name, v);
    NameBound(p, host, Tick(m), env, frame, left, v, fuel - 1);
    PatternRuns(p, host, m, env, frame, n, Prim, fuel, Done(bound, Prim));
    assert [n][1..] == [];
    NothingBound(p, host, bound, env, frame, [], fuel);
  }

  /** A parameter takes the value of its argument. */
  lemma ArgumentBound(p: File, host: Host, m: Machine, env: seq<nat>, frame: nat, n: NodeId, fuel: nat, v: Value)
    requires Idle(host, n) && fuel > 0 && n < |p.nodes| && p.nodes[n].Identifier?
    ensures BindParameters(p, host, m, env, frame, [n], [v], fuel) == Done(SetVar(m, frame, p.nodes[n].name, v), Prim)
  {
    hide WellFormed, SetVar, Bind;
    NameBound(p, host, m, env, frame, n, v, fuel);
    assert [n][1..] == [] && [v][1..] == [];
    NothingBound(p, host, SetVar(m, frame, p.nodes[n].name, v), env, frame, [], fuel);
  }

  /** An object literal with one property makes an object with one field. */
  lemma ObjectRuns(p: File, host: Host, m: Machine, env: seq<nat>, n: NodeId, q: Property, key: string, fuel: nat,
                   v: Value)
    requires Idle(host, n) && fuel > 0 && n < |p.nodes| && p.nodes[n] == Object([q]) && KeyAt(p, q.key) == Some(key)
    requires Run(p, host, m, env, q.value, fuel - 1) == Done(m, v)
    ensures Run(p, host, m, env, n, fuel) == Allocate(m, Cell(n, [], map[key := v], map[]))
  {
    hide WellFormed, Run, Fields;
    LastNodeRuns(p, host, m, env, q.value, fuel - 1, Done(m, v));
    assert PropertyNodes([q]) == [q.value];
    OneField(p, q, key, v);
    NodeRuns(p, host, m, env, n, fuel, Allocate(m, Cell(n, [], map[key := v], map[])));
  }

  /** `{}` makes an object without fields. */
  lemma EmptyObjectRuns(p: File, host: Host, m: Machine, env: seq<nat>, n: NodeId, fuel: nat)
    requires Idle(host, n) && fuel > 0 && n < |p.nodes| && p.nodes[n] == Object([])
    ensures Run(p, host, m, env, n, fuel) == Allocate(m, Cell(n, [], map[], map[]))
  {
    hide WellFormed;
    assert PropertyNodes([]) == [];
    NodeRuns(p, host, m, env, n, fuel, Allocate(m, Cell(n, [], map[], map[])));
  }

  lemma OneField(p: File, q: Property, key: string, v: Value)
    requires KeyAt(p, q.key) == Some(key)
    ensures Fields(p, [q], [v]) == map[key := v]
  {
    assert [q][..0] == [] && [v][..0] == [];
    assert Fields(p, [], []) == map[];
  }

  lemma FieldRead(host: Host, m: Machine, a: nat, key: string)
    requires a < |m.heap| && m.heap[a].stored == map[] && key in m.heap[a].fields
    ensures ReadMember(host, m, Ref(a), Some(key)) == Done(m, m.heap[a].fields[key])
  {
  }

  lemma HostReturns(p: File, host: Host, m: Machine, args: seq<Value>, fuel: nat)
    ensures Apply(p, host, m, Prim, args, fuel) == Done(Tick(m), host.answer(m.clock))
  {
    hide WellFormed;
  }

  lemma CalledIsInvoked(p: File, host: Host, m: Machine, callee: Value, args: seq<Value>, fuel: nat)
    requires IsFunction(p, m, callee)
    ensures Apply(p, host, m, callee, args, fuel) == Invoke(p, host, m, callee, args, fuel)
  {
    hide WellFormed, Invoke;
  }

  /** A call of a host function, after which the host acts. */
  lemma HostRuns(p: File, host: Host, m: Machine, env: seq<nat>, n: NodeId, fuel: nat, r: Result)
    requires fuel > 1 && n < |p.nodes| && p.nodes[n].Call? && forall t, left, after :: !host.throws(t, n, left, after)
    requires r == RunList(p, host, m, env, [p.nodes[n].callee] + p.nodes[n].arguments, fuel - 1) && r.out.Normal?
    requires |r.values| > 0 && r.values[0] == Prim
    ensures
      Run(p, host, m, env, n, fuel) ==
        Done(HostActs(p, host, Tick(r.m), host.acts(r.m.clock + 1, n, fuel), fuel - 1), host.answer(r.m.clock))
  {
    hide WellFormed, RunList, Apply, HostActs;
    HostReturns(p, host, r.m, r.values[1..], fuel - 1);
    assert RunNode(p, host, m, env, n, fuel - 1) == Done(Tick(r.m), host.answer(r.m.clock));
  }

  lemma HostCalls(p: File, host: Host, m: Machine, callee: Value, args: seq<Value>, fuel: nat)
    requires fuel > 0 && IsFunction(p, m, callee)
    ensures HostActs(p, host, m, [Invocation(callee, args)], fuel) == Apply(p, host, m, callee, args, fuel - 1).m
  {
    hide WellFormed, Invoke, Apply;
    CalledIsInvoked(p, host, m, callee, args, fuel - 1);
    assert [Invocation(callee, args)][1..] == [];
  }

  lemma HostStores(p: File, host: Host, m: Machine, target: Value, key: string, v: Value, fuel: nat)
    ensures HostActs(p, host, m, [Put(target, key, v)], fuel) == Store(m, target, key, v)
  {
    hide WellFormed, Store;
    assert [Put(target, key, v)][1..] == [];
  }
}
