/**
 What a module in the analysed fragment does when it runs.

 Only the flow of the browser global, of functions and of objects is followed. All other
 data, host objects and host functions included, is one value, `Prim`. What data cannot tell
 is left to a `Host`: which way a branch goes, what host functions return, where an exception
 ends what is running, and what host code does. Host code acts before the module body, after
 any node, and after the module has run, in host functions, getters, setters, conversions and
 other modules: it calls functions of the module, changes any object, and provides what the
 module imports. The theorems quantify over hosts.

 A property that is not found in an object literal is found where it was last stored. The
 analysis does not follow such stores, so it is up to the host whether a run goes on when
 something other than a primitive is read back from there.
 */
module RunSemantics {
  import opened Wrappers
  import opened Syntax
  import opened AbstractValues

  datatype Value = Prim | Global | Ref(address: nat)

  /** The variables of one activation of a scope. */
  datatype Frame = Frame(scope: NodeId, vars: map<string, Value>)

  /** A function or object made by node `origin`; `stored` holds later member writes. */
  datatype Cell = Cell(origin: NodeId, env: seq<nat>, fields: map<string, Value>, stored: map<string, Value>)

  /** `lent` holds what is found under a key of a host object. All host objects are one, which is also the
      prototype of every object; before a key is read from another, the host can put there what that one holds. */
  datatype Machine = Machine(
    frames: seq<Frame>,
    heap: seq<Cell>,
    globals: map<string, Value>,
    lent: map<string, Value>,
    written: set<string>,
    clock: nat)

  const EMPTY := Machine([], [], map[], map[], {}, 0)

  datatype Outcome = Normal(value: Value) | Returned(value: Value) | Stopped

  datatype Result = Result(m: Machine, out: Outcome, values: seq<Value>)

  /** Host code calls a function, changes an object, or gives an imported name its value. */
  datatype Act =
    | Invocation(callee: Value, args: seq<Value>)
    | Put(target: Value, key: string, value: Value)
    | Provide(name: string, value: Value)

  /** What the program text does not decide. Branches and results go by the time, which then moves on, as it
      does with every call. Host code acts when a node has run, and exceptions come before or after; both go
      by the time, the node and the fuel that was left. If the host does not recall, reading back a function,
      an object or the global from where it was stored ends what is running. */
  datatype Host = Host(
    choose: nat -> bool,
    recalls: bool,
    answer: nat -> Value,
    earlier: seq<Act>,
    acts: (nat, NodeId, nat) -> seq<Act>,
    later: seq<Act>,
    throws: (nat, NodeId, nat, bool) -> bool)

  function Done(m: Machine, v: Value): Result {
    Result(m, Normal(v), [])
  }

  function Stop(m: Machine): Result {
    Result(m, Stopped, [])
  }

  function Tick(m: Machine): Machine {
    m.(clock := m.clock + 1)
  }

  // ---- Variables -------------------------------------------------------------------------

  ghost function Plain(p: File): set<Binding> {
    set n, b | 0 <= n < |p.nodes| && b in PlainNames(p, n) :: b
  }

  /** The block is the body of a function. */
  predicate IsBody(p: File, n: NodeId) {
    0 < n < |p.nodes| && p.nodes[n].Block? && p.nodes[p.parent[n]].Function? && p.nodes[p.parent[n]].fnBody == n
  }

  /** The names of the parameters of a function. */
  ghost function ParamNames(p: File, f: NodeId): set<string>
    requires f < |p.nodes|
  {
    set b | b in PlainNames(p, f) && b.scope == f :: b.name
  }

  /** The names declared in the scope of a function other than by its parameters: by `var`. */
  ghost function BodyVars(p: File, f: NodeId): set<string> {
    set n, b | 0 <= n < |p.nodes| && n != f && b in PlainNames(p, n) && b.scope == f :: b.name
  }

  /** The variables of a scope. A call makes two: one of its parameters and, for a function
      expression, its own name; and one of its body, which holds the `var` names, the names
      declared in the body block, and the functions declared there. */
  ghost function FrameNames(p: File, scope: NodeId): set<string> {
    if scope >= |p.nodes| then {}
    else if p.nodes[scope].Function? then
      ParamNames(p, scope) +
      (if p.nodes[scope].fkind == FunctionKind.Expression &&
       p.nodes[scope].fnName.Some? then {p.nodes[scope].fnName.value} else {})
    else
      (set b | b in Plain(p) && b.scope == scope :: b.name) +
      (if IsBody(p, scope) then BodyVars(p, p.parent[scope]) else {})
  }

  /** A `var` with the name of a parameter starts with the value of the parameter. */
  ghost function Initial(p: File, m: Machine, env: seq<nat>, scope: NodeId, x: string): Value {
    if IsBody(p, scope) && x in BodyVars(p, p.parent[scope]) && Binding(scope, x) !in Plain(p) &&
      x in ParamNames(p, p.parent[scope]) &&
       env != [] && env[0] < |m.frames| && x in m.frames[env[0]].vars
    then m.frames[env[0]].vars[x] else Prim
  }

  ghost function NewFrame(p: File, m: Machine, env: seq<nat>, scope: NodeId): Machine {
    m.(frames := m.frames + [Frame(scope, map x | x in FrameNames(p, scope) :: Initial(p, m, env, scope, x))])
  }

  ghost function SetVar(m: Machine, frame: nat, x: string, v: Value): Machine {
    if frame < |m.frames| && x in m.frames[frame].vars then
      m.(frames := m.frames[frame := Frame(m.frames[frame].scope, m.frames[frame].vars[x := v])])
    else m
  }

  /** The innermost frame of `env` that has variable `x`. */
  ghost function Resolve(m: Machine, env: seq<nat>, x: string): Option<nat> {
    if env == [] then None
    else if env[0] < |m.frames| && x in m.frames[env[0]].vars then Some(env[0])
    else Resolve(m, env[1..], x)
  }

  /** The frame that `var` declarations go to. */
  ghost function VarFrame(p: File, m: Machine, env: seq<nat>): Option<nat> {
    if env == [] then None
    else if env[0] < |m.frames| && (m.frames[env[0]].scope == 0 || IsBody(p, m.frames[env[0]].scope)) then Some(env[0])
    else VarFrame(p, m, env[1..])
  }

  /** Reads back what was stored outside of object literals. */
  ghost function ReadStored(host: Host, m: Machine, stored: Value): Result {
    if stored == Prim || host.recalls then Done(m, stored) else Stop(m)
  }

  /** Reads what the host objects hold under a key. */
  ghost function ReadLent(host: Host, m: Machine, key: string): Result {
    if key in m.lent then ReadStored(host, m, m.lent[key]) else Done(m, Prim)
  }

  ghost function ReadGlobal(host: Host, m: Machine, name: string, aliases: set<string>): Result {
    if name in m.globals then ReadStored(host, m, m.globals[name])
    else if name in aliases then Done(m, Global)
    else ReadLent(host, m, name)
  }

  ghost function ReadName(host: Host, m: Machine, env: seq<nat>, x: string): Result {
    var frame := Resolve(m, env, x);
    if frame.Some? && frame.value < |m.frames| && x in m.frames[frame.value].vars then
      Done(m, m.frames[frame.value].vars[x])
    else ReadGlobal(host, m, x, GLOBAL_NAMES)
  }

  ghost function WriteGlobal(m: Machine, name: string, v: Value): Machine {
    m.(globals := m.globals[name := v], written := m.written + {name})
  }

  ghost function WriteName(m: Machine, env: seq<nat>, x: string, v: Value): Machine {
    var frame := Resolve(m, env, x);
    if frame.Some? then SetVar(m, frame.value, x, v) else WriteGlobal(m, x, v)
  }

  // ---- Members -----------------------------------------------------------------------------

  ghost function ReadMember(host: Host, m: Machine, v: Value, key: Key): Result {
    if key == None then Done(m, Prim)
    else
      match v
      case Prim => ReadLent(host, m, key.value)
      case Global => ReadGlobal(host, m, key.value, GLOBAL_ALIASES)
      case Ref(a) =>
        if a >= |m.heap| then Done(m, Prim)
        else if key.value in m.heap[a].stored then ReadStored(host, m, m.heap[a].stored[key.value])
        else if key.value in m.heap[a].fields then Done(m, m.heap[a].fields[key.value])
        else ReadLent(host, m, key.value)
  }

  ghost function Store(m: Machine, target: Value, key: string, v: Value): Machine {
    match target
    case Prim => m.(lent := m.lent[key := v])
    case Global => m.(globals := m.globals[key := v])
    case Ref(a) =>
      if a < |m.heap| then m.(heap := m.heap[a := m.heap[a].(stored := m.heap[a].stored[key := v])]) else m
  }

  /** The module writes a member. */
  ghost function WriteMember(m: Machine, target: Value, key: Key, v: Value): Machine {
    if key == None then m
    else if target == Global then WriteGlobal(m, key.value, v)
    else Store(m, target, key.value, v)
  }

  ghost function Allocate(m: Machine, c: Cell): Result {
    Done(m.(heap := m.heap + [c]), Ref(|m.heap|))
  }

  /** The fields of a new object: the last property of a name wins. */
  ghost function Fields(p: File, qs: seq<Property>, vs: seq<Value>): map<string, Value>
    requires |qs| == |vs|
    decreases |qs|
  {
    if qs == [] then map[]
    else
      var last := |qs| - 1;
      var before := Fields(p, qs[..last], vs[..last]);
      var key := KeyAt(p, qs[last].key);
      if key.Some? then before[key.value := vs[last]] else before
  }

  /** The declaration that an export wraps. */
  function Exported(p: File, n: NodeId): NodeId {
    if n < |p.nodes| && p.nodes[n].Export? && |p.nodes[n].parts| == 1 then p.nodes[n].parts[0] else n
  }

  /** Makes the functions declared directly in a block and binds their names in frame `frame`. */
  ghost function Hoist(p: File, m: Machine, env: seq<nat>, frame: nat, body: seq<NodeId>): Machine
    decreases |body|
  {
    if body == [] then m
    else
      var n := Exported(p, body[0]);
      if n < |p.nodes| && p.nodes[n].Function? && p.nodes[n].fkind == FunctionKind.Declaration &&
        p.nodes[n].fnName.Some? then
        var made := m.(heap := m.heap + [Cell(n, env, map[], map[])]);
        Hoist(p, SetVar(made, frame, p.nodes[n].fnName.value, Ref(|m.heap|)), env, frame, body[1..])
      else Hoist(p, m, env, frame, body[1..])
  }

  // ---- Running -----------------------------------------------------------------------------

  ghost function PropertyNodes(qs: seq<Property>): seq<NodeId> {
    seq(|qs|, i requires 0 <= i < |qs| => qs[i].value)
  }

  /** Runs node `n` for at most `fuel` nested steps. An exception may end it before or after. */
  ghost function Run(p: File, host: Host, m: Machine, env: seq<nat>, n: NodeId, fuel: nat): Result
    decreases fuel, 4
  {
    if fuel == 0 || n >= |p.nodes| || host.throws(m.clock, n, fuel, false) then Stop(m)
    else Interrupted(p, host, RunNode(p, host, m, env, n, fuel - 1), n, fuel)
  }

  /** When node `n` has run, host code may act, and an exception may come. */
  ghost function Interrupted(p: File, host: Host, r: Result, n: NodeId, fuel: nat): Result
    requires fuel > 0
    decreases fuel, 3
  {
    var after := HostActs(p, host, r.m, host.acts(r.m.clock, n, fuel), fuel - 1);
    if host.throws(r.m.clock, n, fuel, true) then Stop(after) else r.(m := after)
  }

  ghost function RunNode(p: File, host: Host, m: Machine, env: seq<nat>, n: NodeId, fuel: nat): Result
    requires n < |p.nodes|
    decreases fuel, 9
  {
    match p.nodes[n]
    case Block(_, _, body) =>
      var entered := NewFrame(p, m, env, n);
      var inner := [|m.frames|] + env;
      RunList(p, host, Hoist(p, entered, inner, |m.frames|, body), inner, body, fuel).(values := [])
    case VariableDeclaration(isVar, ds) =>
      var frame := if isVar then VarFrame(p, m, env) else if env == [] then None else Some(env[0]);
      if frame == None then Stop(m) else RunDeclarators(p, host, m, env, frame.value, ds, fuel)
    case Return(argument) =>
      if argument == None then Result(m, Returned(Prim), [])
      else
        var r := Run(p, host, m, env, argument.value, fuel);
        if r.out.Normal? then Result(r.m, Returned(r.out.value), []) else r
    case ExpressionStatement(e) =>
      var r := Run(p, host, m, env, e, fuel);
      if r.out.Normal? then Done(r.m, Prim) else r
    case If(test, c, o) =>
      var r := Run(p, host, m, env, test, fuel);
      if !r.out.Normal? then r
      else if host.choose(r.m.clock) then Statement(Run(p, host, Tick(r.m), env, c, fuel))
      else if o.Some? then Statement(Run(p, host, Tick(r.m), env, o.value, fuel))
      else Done(Tick(r.m), Prim)
    case While(test, body) =>
      var r := Run(p, host, m, env, test, fuel);
      if !r.out.Normal? then r
      else if !host.choose(r.m.clock) then Done(Tick(r.m), Prim)
      else
        var once := Run(p, host, Tick(r.m), env, body, fuel);
        if once.out.Normal? then Run(p, host, once.m, env, n, fuel) else once
    case Identifier(name) => ReadName(host, m, env, name)
    case Literal(_, _) => Done(m, Prim)
    case OtherDeclaration(_, _) => Done(m, Prim)
    case Function(kind, _, _, _, _, _) =>
      if kind == FunctionKind.Declaration then Done(m, Prim) else Allocate(m, Cell(n, env, map[], map[]))
    case Object(qs) =>
      var r := RunList(p, host, m, env, PropertyNodes(qs), fuel);
      if !r.out.Normal? || |r.values| != |qs| then r.(values := [])
      else Allocate(r.m, Cell(n, [], Fields(p, qs, r.values), map[]))
    case Conditional(test, c, a) =>
      var r := Run(p, host, m, env, test, fuel);
      if !r.out.Normal? then r
      else Run(p, host, Tick(r.m), env, if host.choose(r.m.clock) then c else a, fuel)
    case Logical(left, right) =>
      var r := Run(p, host, m, env, left, fuel);
      if !r.out.Normal? then r
      else if host.choose(r.m.clock) then Done(Tick(r.m), r.out.value)
      else Run(p, host, Tick(r.m), env, right, fuel)
    case Chain(e) =>
      // An optional chain may break off anywhere.
      var r := Run(p, host, m, env, e, fuel);
      if r.out.Stopped? && host.choose(r.m.clock) then Done(Tick(r.m), Prim) else r
    case Sequence(es) =>
      var r := RunList(p, host, m, env, es, fuel);
      if r.out.Normal? && |r.values| > 0 then Done(r.m, r.values[|r.values| - 1]) else r.(values := [])
    case Export(parts) =>
      var r := RunList(p, host, m, env, parts, fuel);
      if r.out.Normal? then Done(r.m, Prim) else r.(values := [])
    case Operator(parts) =>
      var r := RunList(p, host, m, env, parts, fuel);
      if r.out.Normal? then Done(r.m, Prim) else r.(values := [])
    case Assignment(_, left, right) => RunAssignment(p, host, m, env, left, right, fuel)
    case Update(target) => RunUpdate(p, host, m, env, target, fuel)
    case Member(receiver, property, _) =>
      var r := Run(p, host, m, env, receiver, fuel);
      if r.out.Normal? then ReadMember(host, r.m, r.out.value, KeyAt(p, property)) else r
    case Call(callee, args) =>
      var r := RunList(p, host, m, env, [callee] + args, fuel);
      if r.out.Normal? && |r.values| > 0 then Apply(p, host, r.m, r.values[0], r.values[1..], fuel)
      else r.(values := [])
    case _ => Stop(m)
  }

  function Statement(r: Result): Result {
    if r.out.Normal? then Done(r.m, Prim) else r
  }

  /** Runs nodes in order, until one does not end normally. */
  ghost function RunList(p: File, host: Host, m: Machine, env: seq<nat>, ns: seq<NodeId>, fuel: nat): Result
    decreases fuel, 5, |ns|
  {
    if ns == [] then Result(m, Normal(Prim), [])
    else
      var r := Run(p, host, m, env, ns[0], fuel);
      if !r.out.Normal? then r
      else
        var rest := RunList(p, host, r.m, env, ns[1..], fuel);
        rest.(values := [r.out.value] + rest.values)
  }

  ghost function RunAssignment(p: File, host: Host, m: Machine, env: seq<nat>, left: NodeId, right: NodeId,
                               fuel: nat): Result
    decreases fuel, 5
  {
    if left >= |p.nodes| then Stop(m)
    else
      match p.nodes[left]
      case Identifier(name) =>
        var r := Run(p, host, m, env, right, fuel);
        if r.out.Normal? then Done(WriteName(r.m, env, name, r.out.value), r.out.value) else r
      case Member(receiver, property, _) =>
        var r := Run(p, host, m, env, receiver, fuel);
        if !r.out.Normal? then r
        else
          var q := Run(p, host, r.m, env, right, fuel);
          if q.out.Normal? then Done(WriteMember(q.m, r.out.value, KeyAt(p, property), q.out.value), q.out.value) else q
      case _ => Stop(m)
  }

  ghost function RunUpdate(p: File, host: Host, m: Machine, env: seq<nat>, target: NodeId, fuel: nat): Result
    decreases fuel, 5
  {
    if target >= |p.nodes| then Stop(m)
    else
      match p.nodes[target]
      case Identifier(name) => Done(WriteName(m, env, name, Prim), Prim)
      case Member(receiver, property, _) =>
        var r := Run(p, host, m, env, receiver, fuel);
        if r.out.Normal? then Done(WriteMember(r.m, r.out.value, KeyAt(p, property), Prim), Prim) else r
      case _ => Stop(m)
  }

  ghost function RunDeclarators(p: File, host: Host, m: Machine, env: seq<nat>, frame: nat, ds: seq<Declarator>,
                                fuel: nat): Result
    decreases fuel, 5, |ds|
  {
    if ds == [] then Done(m, Prim)
    else if ds[0].init == None then RunDeclarators(p, host, m, env, frame, ds[1..], fuel)
    else
      var r := Run(p, host, m, env, ds[0].init.value, fuel);
      if !r.out.Normal? then r
      else
        var b := Bind(p, host, r.m, env, frame, ds[0].id, r.out.value, fuel);
        if b.out.Normal? then RunDeclarators(p, host, b.m, env, frame, ds[1..], fuel) else b
  }

  /** Matches value `v` against a pattern whose variables live in frame `frame`. */
  ghost function Bind(p: File, host: Host, m: Machine, env: seq<nat>, frame: nat, n: NodeId, v: Value,
                      fuel: nat): Result
    decreases fuel, 4
  {
    if fuel == 0 || n >= |p.nodes| || host.throws(m.clock, n, fuel, false) then Stop(m)
    else Interrupted(p, host, BindNode(p, host, m, env, frame, n, v, fuel - 1), n, fuel)
  }

  ghost function BindNode(p: File, host: Host, m: Machine, env: seq<nat>, frame: nat, n: NodeId, v: Value,
                          fuel: nat): Result
    requires n < |p.nodes|
    decreases fuel, 9
  {
    match p.nodes[n]
    case Identifier(name) => Done(SetVar(m, frame, name, v), Prim)
    case AssignmentPattern(left, right) =>
      if host.choose(m.clock) then Bind(p, host, Tick(m), env, frame, left, v, fuel)
      else
        var r := Run(p, host, Tick(m), env, right, fuel);
        if r.out.Normal? then Bind(p, host, r.m, env, frame, left, r.out.value, fuel) else r
    case ObjectPattern(entries) => BindEntries(p, host, m, env, frame, entries, v, fuel)
    case _ => Stop(m)
  }

  ghost function BindEntries(p: File, host: Host, m: Machine, env: seq<nat>, frame: nat, entries: seq<PatternEntry>,
                             v: Value, fuel: nat): Result
    decreases fuel, 5, |entries|
  {
    if entries == [] then Done(m, Prim)
    else if !entries[0].Entry? then Stop(m)
    else
      var r := ReadMember(host, m, v, KeyAt(p, entries[0].key));
      if !r.out.Normal? then r
      else
        var b := Bind(p, host, r.m, env, frame, entries[0].value, r.out.value, fuel);
        if b.out.Normal? then BindEntries(p, host, b.m, env, frame, entries[1..], v, fuel) else b
  }

  ghost function BindParameters(p: File, host: Host, m: Machine, env: seq<nat>, frame: nat, params: seq<NodeId>,
                                args: seq<Value>, fuel: nat): Result
    decreases fuel, 5, |params|
  {
    if params == [] then Done(m, Prim)
    else
      var b := Bind(p, host, m, env, frame, params[0], if args == [] then Prim else args[0], fuel);
      if b.out.Normal? then
        BindParameters(p, host, b.m, env, frame, params[1..], if args == [] then [] else args[1..], fuel)
      else b
  }

  predicate IsFunction(p: File, m: Machine, v: Value) {
    v.Ref? && v.address < |m.heap| && m.heap[v.address].origin < |p.nodes| &&
      p.nodes[m.heap[v.address].origin].Function?
  }

  /** Calls a value. Anything but a function of the module belongs to the host. */
  ghost function Apply(p: File, host: Host, m: Machine, callee: Value, args: seq<Value>, fuel: nat): Result
    decreases fuel, 8
  {
    if IsFunction(p, m, callee) then Invoke(p, host, m, callee, args, fuel) else Done(Tick(m), host.answer(m.clock))
  }

  /** The machine in which the parameters of a called function are bound. */
  ghost function Entered(p: File, m: Machine, callee: Value): Machine
    requires IsFunction(p, m, callee)
  {
    var cell := m.heap[callee.address];
    var node := p.nodes[cell.origin];
    var made := NewFrame(p, Tick(m), cell.env, cell.origin);
    if node.fkind == FunctionKind.Expression && node.fnName.Some? && node.fnName.value !in ParamNames(p, cell.origin)
    then SetVar(made, |m.frames|, node.fnName.value, callee) else made
  }

  /** Calls a function of the module. */
  ghost function Invoke(p: File, host: Host, m: Machine, callee: Value, args: seq<Value>, fuel: nat): Result
    requires IsFunction(p, m, callee)
    decreases fuel, 6
  {
    var cell := m.heap[callee.address];
    var node := p.nodes[cell.origin];
    var env := [|m.frames|] + cell.env;
    var bound := BindParameters(p, host, Entered(p, m, callee), env, |m.frames|, node.params, args, fuel);
    if !bound.out.Normal? then CallResult(bound, true)
    else CallResult(Run(p, host, bound.m, env, node.fnBody, fuel), node.fkind == Arrow && node.concise)
  }

  /** The value of a call, from how its body ended; only a concise body gives its own value. */
  function CallResult(r: Result, concise: bool): Result {
    if r.out.Returned? then Done(r.m, r.out.value)
    else if r.out.Normal? && !concise then Done(r.m, Prim)
    else r
  }

  predicate IsImported(p: File, name: string) {
    exists n :: 0 <= n < |p.nodes| && p.nodes[n].OtherDeclaration? && ScopeOf(p, n) == 0 && name in p.nodes[n].names
  }

  /** Host code acts, whether or not a function that it calls throws. */
  ghost function HostActs(p: File, host: Host, m: Machine, acts: seq<Act>, fuel: nat): Machine
    decreases fuel, 6, |acts|
  {
    if acts == [] then m
    else
      var next :=
        match acts[0]
        case Invocation(callee, args) =>
          if fuel > 0 && IsFunction(p, m, callee) then Invoke(p, host, m, callee, args, fuel - 1).m else m
        case Put(target, key, v) => Store(m, target, key, v)
        case Provide(name, v) => if IsImported(p, name) then SetVar(m, 0, name, v) else m;
      HostActs(p, host, next, acts[1..], fuel)
  }

  /** Runs the whole module. Other modules may act when its functions are made. */
  ghost function RunModule(p: File, host: Host, fuel: nat): Result {
    var body := p.nodes[0].body;
    var started := HostActs(p, host, Hoist(p, NewFrame(p, EMPTY, [], 0), [0], 0, body), host.earlier, fuel);
    RunList(p, host, started, [0], body, fuel)
  }

  /** Runs the module and then whatever the host does later. */
  ghost function RunPage(p: File, host: Host, fuel: nat): Machine {
    HostActs(p, host, RunModule(p, host, fuel).m, host.later, fuel)
  }
}
