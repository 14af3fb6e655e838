/** What one step of evaluation finds, read off the tree. */
module ValueLaws {
  import opened Wrappers
  import opened Syntax
  import opened AbstractValues
  import opened ScopeLaws

  // ---- Array indices as text ------------------------------------------------------------------------

  /** An index is written in decimal without leading zeros. */
  lemma {:induction false} IndexIsDecimal(i: nat)
    ensures var t := IndexText(i);
      && IsDigits(t) && DigitsValue(t) == i && (|t| > 1 ==> t[0] != '0')
    decreases i
  {
    if i >= 10 {
      IndexIsDecimal(i / 10);
      var head := IndexText(i / 10);
      assert IndexText(i)[..|head|] == head;
      if |head| == 1 { assert head[..0] == "" && DigitsValue(head[..0]) == 0; }
    }
  }

  /** Every decimal text without leading zeros is the text of its value. */
  lemma {:induction false} DecimalIsIndex(t: string)
    requires |t| > 0 && (forall i :: 0 <= i < |t| ==> '0' <= t[i] <= '9') && (|t| > 1 ==> t[0] != '0')
    ensures IndexText(DigitsValue(t)) == t
    decreases |t|
  {
    var head, last := t[..|t| - 1], t[|t| - 1];
    if |t| > 1 {
      DecimalIsIndex(head);
      PositiveValue(head);
      assert t == head + [last];
      assert DigitsValue(t) / 10 == DigitsValue(head);
    } else {
      assert head == "";
    }
  }

  lemma {:induction false} PositiveValue(t: string)
    requires |t| > 0 && (forall i :: 0 <= i < |t| ==> '0' <= t[i] <= '9') && t[0] != '0'
    ensures DigitsValue(t) > 0
  {
    if |t| > 1 { PositiveValue(t[..|t| - 1]); }
  }

  // ---- Members ----------------------------------------------------------------------------------------

  /** The single text an expression is known to be. */
  ghost predicate OnlyText(values: Values, text: string) {
    Text(text) in values && forall other: string :: Text(other) in values ==> other == text
  }

  /** The name that a member access or a property uses. */
  ghost predicate Uses(p: File, rec: Evaluator, property: NodeId, computed: bool, key: Key) {
    if computed then
      if key.Some? then OnlyText(rec(property), key.value)
      else forall text: string :: !OnlyText(rec(property), text)
    else if property >= |p.nodes| then key == None
    else
      match p.nodes[property]
      case Identifier(name) => key == Some(name)
      case Literal(_, text) => key == Some(text)
      case _ => key == None
  }

  lemma SameAsSingle(keys: set<string>, text: string)
    requires text in keys && forall other | other in keys :: other == text
    ensures |keys| == 1
  {
    assert keys == {text};
  }

  lemma KeyIsUsed(p: File, rec: Evaluator, property: NodeId, computed: bool, key: Key)
    ensures KeyOf(p, rec, property, computed) == key <==> Uses(p, rec, property, computed, key)
  {
    hide WellFormed;
    if computed {
      var keys := set v | v in rec(property) && v.Text? :: v.text;
      forall text: string ensures text in keys <==> Text(text) in rec(property) {
        if Text(text) in rec(property) { assert Text(text).text in keys; }
      }
      if |keys| == 1 {
        var only := Single(keys);
        forall other | other in keys
          ensures other == only
        {
          SingletonElement(keys, other);
          SingletonElement(keys, only);
        }
        assert OnlyText(rec(property), only);
      } else {
        forall text: string ensures !OnlyText(rec(property), text) {
          if OnlyText(rec(property), text) {
            SameAsSingle(keys, text);
            assert false;
          }
        }
      }
    }
  }

  /** Property `q` of an object literal gives `v` under `key`. */
  ghost predicate PropertyGives(p: File, s: State, rec: Evaluator, q: Property, key: Key, v: Abstract) {
    match q.kind
    case Spread => false
    case Get => Uses(p, rec, q.key, q.computed, key) && q.value in s.results && v in s.results[q.value]
    case _ => Uses(p, rec, q.key, q.computed, key) && v in rec(q.value)
  }

  /** Value `o` gives `v` under `key`: the global under its own names and for the two builtins that run text,
      `Object` and `Reflect` for their members, and the literals of the file for what stands in them. */
  ghost predicate Gives(p: File, s: State, rec: Evaluator, o: Abstract, key: Key, v: Abstract) {
    match o
    case Root =>
      || (v == Root && (key == Some("window") || key == Some("self") || key == Some("globalThis")))
      || (v == Builtin("eval") && key == Some("eval"))
      || (v == Builtin("Function") && key == Some("Function"))
    case Builtin(name) =>
      (name == "Object" || name == "Reflect") &&
      v == BuiltinMember(name, match key case None => "null" case Some(text) => text)
    case NodeValue(n) =>
      n < |p.nodes| &&
      match p.nodes[n] {
        case Object(qs) => exists i :: 0 <= i < |qs| && PropertyGives(p, s, rec, qs[i], key, v)
        case Array(elements) =>
          key.Some? && key.value != "" && (forall i :: 0 <= i < |key.value| ==> '0' <= key.value[i] <= '9') &&
          var index := DigitsValue(key.value);
          index < |elements| && elements[index].Some? && v in rec(elements[index].value)
        case _ => false
      }
    case _ => false
  }

  lemma MembersAre(p: File, s: State, rec: Evaluator, o: Abstract, key: Key, v: Abstract)
    ensures v in MemberOfOne(p, s, rec, o, key) <==> Gives(p, s, rec, o, key, v)
  {
    hide WellFormed, KeyOf, Uses;
    if o.NodeValue? && o.node < |p.nodes| && p.nodes[o.node].Object? {
      var qs := p.nodes[o.node].properties;
      forall i | 0 <= i < |qs|
        ensures v in PropertyValues(p, s, rec, qs[i], key) <==> PropertyGives(p, s, rec, qs[i], key, v)
      {
        KeyIsUsed(p, rec, qs[i].key, qs[i].computed, key);
      }
    }
  }

  /** Following `path` from `o`: each value on the way gives the next. */
  ghost predicate Leads(p: File, s: State, rec: Evaluator, o: Abstract, path: seq<Key>, v: Abstract)
    decreases |path|
  {
    if path == [] then v == o
    else exists next: Abstract :: Gives(p, s, rec, o, path[0], next) && Leads(p, s, rec, next, path[1..], v)
  }

  lemma {:induction false} PathLeads(p: File, s: State, rec: Evaluator, start: Values, path: seq<Key>, v: Abstract)
    ensures v in AlongPath(p, s, rec, start, path) <==> exists o: Abstract :: o in start && Leads(p, s, rec, o, path, v)
    decreases |path|
  {
    hide Gives, MemberOfOne, WellFormed;
    if path == [] {
      assert v in start ==> Leads(p, s, rec, v, path, v);
    } else {
      var inner := MemberOf(p, s, rec, start, path[0]);
      PathLeads(p, s, rec, inner, path[1..], v);
      forall o: Abstract, next: Abstract
        ensures next in MemberOfOne(p, s, rec, o, path[0]) <==> Gives(p, s, rec, o, path[0], next)
      {
        MembersAre(p, s, rec, o, path[0], next);
      }
      if next: Abstract :| next in inner && Leads(p, s, rec, next, path[1..], v) {
        var o :| o in start && next in MemberOfOne(p, s, rec, o, path[0]);
        assert Leads(p, s, rec, o, path, v);
      }
      if o: Abstract :| o in start && Leads(p, s, rec, o, path, v) {
        var next: Abstract :| Gives(p, s, rec, o, path[0], next) && Leads(p, s, rec, next, path[1..], v);
        assert next in inner;
      }
    }
  }

  // ---- One step -----------------------------------------------------------------------------------------

  /** An undeclared name: the global, one of the tracked builtins, or nothing known. */
  predicate FreeGives(name: string, v: Abstract) {
    || (v == Root && (name == "window" || name == "self" || name == "globalThis" || name == "global"))
    || (v == Builtin(name) && (name == "Object" || name == "Reflect" || name == "eval" || name == "Function"))
  }

  /** What scope `a` declares hides what is declared above it. */
  ghost predicate Sees(p: File, n: NodeId, a: NodeId, name: string)
    requires n < |p.nodes|
  {
    && a < |p.nodes| && Above(p, a, n) && OpensScope(p.nodes[a]) && Binding(a, name) in Syntax.Names(p)
    && forall c: NodeId :: a < c < |p.nodes| && Above(p, c, n) && OpensScope(p.nodes[c]) ==>
         Binding(c, name) !in Syntax.Names(p)
  }

  /** A node finds `v`, when `rec` finds what the nodes below it do. */
  ghost predicate Finds(p: File, s: State, rec: Evaluator, n: NodeId, v: Abstract)
    requires n < |p.nodes|
  {
    match p.nodes[n]
    case This =>
      && v == Root && !p.isModule
      && forall f: NodeId :: 0 < f < |p.nodes| && Above(p, f, n) && p.nodes[f].Function? ==> p.nodes[f].fkind == Arrow
    case Identifier(name) =>
      || (exists a: NodeId :: Sees(p, n, a, name) && Binding(a, name) in s.env && v in s.env[Binding(a, name)])
      || ((forall a: NodeId :: !Sees(p, n, a, name)) && FreeGives(name, v))
    case Literal(tagged, text) => tagged && v == Text(text)
    case Function(_, _, _, _, _, _) => v == NodeValue(n)
    case Object(_) => v == NodeValue(n)
    case Array(_) => v == NodeValue(n)
    case Conditional(_, consequent, alternate) => v in rec(consequent) || v in rec(alternate)
    case Logical(left, right) => v in rec(left) || v in rec(right)
    case Chain(expression) => v in rec(expression)
    case Sequence(expressions) => |expressions| > 0 && v in rec(expressions[|expressions| - 1])
    case Assignment(_, _, right) => v in rec(right)
    case Member(receiver, property, computed) =>
      exists o: Abstract, key: Key ::
        o in rec(receiver) && Uses(p, rec, property, computed, key) && Gives(p, s, rec, o, key, v)
    case Call(callee, _) =>
      exists f: NodeId :: NodeValue(f) in rec(callee) && f in s.results && v in s.results[f]
    case _ => false
  }

  lemma NameFinds(p: File, s: State, n: NodeId, name: string, v: Abstract)
    requires n < |p.nodes|
    ensures v in NameValues(p, s, ScopeOf(p, n), name) <==>
      || (exists a: NodeId :: Sees(p, n, a, name) && Binding(a, name) in s.env && v in s.env[Binding(a, name)])
      || ((forall a: NodeId :: !Sees(p, n, a, name)) && FreeGives(name, v))
  {
    hide WellFormed, Syntax.Names, ScopeOf, Lookup;
    var scope, names := ScopeOf(p, n), Syntax.Names(p);
    ScopeIsNearest(p, n);
    LookupIsNearest(p, names, scope, name);
    forall a: NodeId | a < |p.nodes| && OpensScope(p.nodes[a]) ensures Above(p, a, n) <==> Above(p, a, scope) {
      if Above(p, a, n) { AboveIsLine(p, a, scope, n); }
      if Above(p, a, scope) { AboveTransitive(p, a, scope, n); }
    }
    var found := Lookup(p, names, scope, name);
    forall a: NodeId ensures Sees(p, n, a, name) <==> found == Some(Binding(a, name)) {
    }
    if found.Some? { assert Sees(p, n, found.value.scope, name); }
  }

  lemma ThisFinds(p: File, n: NodeId)
    requires n < |p.nodes|
    ensures ThisOwner(p, ScopeOf(p, n)) == 0 <==>
      forall f: NodeId :: 0 < f < |p.nodes| && Above(p, f, n) && p.nodes[f].Function? ==> p.nodes[f].fkind == Arrow
  {
    hide WellFormed, ScopeOf, ThisOwner;
    var scope := ScopeOf(p, n);
    ScopeIsNearest(p, n);
    ThisIsGlobal(p, scope);
    forall f: NodeId | f < |p.nodes| && p.nodes[f].Function? ensures Above(p, f, n) <==> Above(p, f, scope) {
      if Above(p, f, n) { AboveIsLine(p, f, scope, n); }
      if Above(p, f, scope) { AboveTransitive(p, f, scope, n); }
    }
  }

  /** One step of evaluation finds exactly this. */
  lemma StepFinds(p: File, s: State, rec: Evaluator, n: NodeId, v: Abstract)
    requires n < |p.nodes|
    ensures v in Step(p, s, rec, n) <==> Finds(p, s, rec, n, v)
  {
    hide WellFormed, Above, ScopeOf, ThisOwner, Sees, FreeGives, NameValues, KeyOf, Uses, Gives, MemberOfOne;
    match p.nodes[n]
    case This => ThisFinds(p, n);
    case Identifier(name) => NameFinds(p, s, n, name, v);
    case Member(receiver, property, computed) =>
      forall key: Key
        ensures KeyOf(p, rec, property, computed) == key <==> Uses(p, rec, property, computed, key)
      {
        KeyIsUsed(p, rec, property, computed, key);
      }
      forall o: Abstract, key: Key ensures v in MemberOfOne(p, s, rec, o, key) <==> Gives(p, s, rec, o, key, v) {
        MembersAre(p, s, rec, o, key, v);
      }
    case Call(callee, _) =>
      if w :| w in rec(callee) && v in ResultsOf(s, w) { assert w == NodeValue(w.node); }
      if f: NodeId :| NodeValue(f) in rec(callee) && f in s.results && v in s.results[f] {
        assert v in ResultsOf(s, NodeValue(f));
      }
    case _ =>
  }
}
