/**
 The guarded evaluation: how it grows with the state, and how it compares with the unguarded
 equations.
 */
module GuardedEvaluation {
  import opened Wrappers
  import opened Syntax
  import opened AbstractValues

  /** No computed member access and no computed property. */
  ghost predicate NonComputed(p: File) {
    && (forall n :: 0 <= n < |p.nodes| && p.nodes[n].Member? ==> !p.nodes[n].computed)
    && (forall n, i :: 0 <= n < |p.nodes| && p.nodes[n].Object? && 0 <= i < |p.nodes[n].properties| ==>
          !p.nodes[n].properties[i].computed)
  }

  ghost predicate Below(s: State, t: State) {
    && (forall b :: b in s.env ==> s.env[b] <= BindingValues(t, b))
    && (forall f :: f in s.results ==> s.results[f] <= ResultsOf(t, NodeValue(f)))
  }

  /** Node `k` is the value of a property of an object literal, or an element of an array. */
  ghost predicate Held(p: File, k: NodeId) {
    || (exists n, i :: 0 <= n < |p.nodes| && p.nodes[n].Object? && 0 <= i < |p.nodes[n].properties| &&
          p.nodes[n].properties[i].value == k)
    || (exists n, i :: 0 <= n < |p.nodes| && p.nodes[n].Array? && 0 <= i < |p.nodes[n].elements| &&
          p.nodes[n].elements[i] == Some(k))
  }

  /** The subexpressions whose values one step reads. */
  ghost predicate Reads(p: File, n: NodeId, k: NodeId)
    requires n < |p.nodes|
  {
    match p.nodes[n]
    case Conditional(_, c, a) => k == c || k == a
    case Logical(l, r) => k == l || k == r
    case Chain(e) => k == e
    case Sequence(es) => es != [] && k == es[|es| - 1]
    case Assignment(_, _, r) => k == r
    case Member(o, _, _) => k == o || Held(p, k)
    case Call(callee, _) => k == callee
    case _ => false
  }

  lemma MemberOfMonotone(p: File, s: State, t: State, rec: Evaluator, rec': Evaluator,
                         objects: Values, objects': Values, key: Key)
    requires NonComputed(p) && Below(s, t) && objects <= objects'
    requires forall k :: Held(p, k) ==> rec(k) <= rec'(k)
    ensures MemberOf(p, s, rec, objects, key) <= MemberOf(p, t, rec', objects', key)
  {
    forall o, v | o in objects && v in MemberOfOne(p, s, rec, o, key)
      ensures v in MemberOfOne(p, t, rec', o, key)
    {
      if o.NodeValue? && o.node < |p.nodes| {
        var node := p.nodes[o.node];
        if node.Object? {
          var i :| 0 <= i < |node.properties| && v in PropertyValues(p, s, rec, node.properties[i], key);
          assert Held(p, node.properties[i].value);
          assert v in PropertyValues(p, t, rec', node.properties[i], key);
        } else if node.Array? && key.Some? && IsDigits(key.value) && DigitsValue(key.value) < |node.elements| {
          var e := node.elements[DigitsValue(key.value)];
          assert e.Some? ==> Held(p, e.value);
        }
      }
    }
  }

  lemma StepMonotone(p: File, s: State, t: State, rec: Evaluator, rec': Evaluator, n: NodeId)
    requires NonComputed(p) && Below(s, t) && n < |p.nodes|
    requires forall k :: Reads(p, n, k) ==> rec(k) <= rec'(k)
    ensures Step(p, s, rec, n) <= Step(p, t, rec', n)
  {
    match p.nodes[n]
    case Member(o, property, computed) =>
      assert Reads(p, n, o);
      forall k | Held(p, k) ensures rec(k) <= rec'(k) { assert Reads(p, n, k); }
      MemberOfMonotone(p, s, t, rec, rec', rec(o), rec'(o), KeyOf(p, rec, property, computed));
    case Conditional(_, c, a) => assert Reads(p, n, c) && Reads(p, n, a);
    case Logical(l, r) => assert Reads(p, n, l) && Reads(p, n, r);
    case Sequence(es) => assert es != [] ==> Reads(p, n, es[|es| - 1]);
    case Call(callee, _) => assert Reads(p, n, callee);
    case Chain(e) => assert Reads(p, n, e);
    case Assignment(_, _, r) => assert Reads(p, n, r);
    case _ =>
  }

  // ---- The guard against the equations ------------------------------------------------

  lemma {:induction false} UnrolledMonotone(p: File, s: State, t: State, h: nat, h': nat, n: NodeId)
    requires NonComputed(p) && Below(s, t) && h <= h'
    ensures Unrolled(p, s, h, n) <= Unrolled(p, t, h', n)
    decreases h
  {
    if h > 0 && n < |p.nodes| {
      forall k | Reads(p, n, k) ensures UnrolledBy(p, s, h - 1)(k) <= UnrolledBy(p, t, h' - 1)(k) {
        UnrolledMonotone(p, s, t, h - 1, h' - 1, k);
      }
      StepMonotone(p, s, t, UnrolledBy(p, s, h - 1), UnrolledBy(p, t, h' - 1), n);
    }
  }

  lemma BelowReflexive(s: State)
    ensures Below(s, s)
  {
    forall f | f in s.results ensures s.results[f] <= ResultsOf(s, NodeValue(f)) {}
  }

  /** The number of nodes not under evaluation: the measure of the guarded recursion. */
  ghost function Remaining(p: File, evaluating: set<NodeId>): nat {
    |IdsFrom(p, 0) - evaluating|
  }

  lemma RemainingDrops(p: File, evaluating: set<NodeId>, n: NodeId)
    requires n < |p.nodes| && n !in evaluating
    ensures Remaining(p, evaluating) == Remaining(p, evaluating + {n}) + 1
  {
    assert IdsFrom(p, 0) - evaluating == (IdsFrom(p, 0) - (evaluating + {n})) + {n};
  }

  /** Every value the guarded evaluation returns has a finite derivation in the unguarded equations. */
  lemma {:induction false} GuardedIsDerived(p: File, s: State, evaluating: set<NodeId>, n: NodeId)
    requires NonComputed(p)
    ensures Guarded(p, s, evaluating, n) <= Unrolled(p, s, Remaining(p, evaluating), n)
    decreases Remaining(p, evaluating)
  {
    hide WellFormed, Step, Reads, Remaining;
    if n < |p.nodes| && n !in evaluating {
      RemainingDrops(p, evaluating, n);
      var inner := evaluating + {n};
      var rec, rec' := GuardedBy(p, s, inner), UnrolledBy(p, s, Remaining(p, inner));
      forall k | Reads(p, n, k) ensures rec(k) <= rec'(k) {
        GuardedIsDerived(p, s, inner, k);
      }
      BelowReflexive(s);
      StepMonotone(p, s, s, rec, rec', n);
    }
  }

  /** With static keys, guarded evaluation grows with the state. */
  lemma {:induction false} GuardedMonotone(p: File, s: State, t: State, evaluating: set<NodeId>, n: NodeId)
    requires NonComputed(p) && Below(s, t)
    ensures Guarded(p, s, evaluating, n) <= Guarded(p, t, evaluating, n)
    decreases Remaining(p, evaluating)
  {
    hide WellFormed, Step, Reads, Remaining;
    if n < |p.nodes| && n !in evaluating {
      RemainingDrops(p, evaluating, n);
      var inner := evaluating + {n};
      forall k | Reads(p, n, k) ensures GuardedBy(p, s, inner)(k) <= GuardedBy(p, t, inner)(k) {
        GuardedMonotone(p, s, t, inner, k);
      }
      StepMonotone(p, s, t, GuardedBy(p, s, inner), GuardedBy(p, t, inner), n);
    }
  }

  /** An expression whose evaluation looks into no object. */
  predicate Flat(p: File, n: NodeId)
    decreases |p.nodes| - n
  {
    n < |p.nodes| ==>
      match p.nodes[n]
      case Conditional(_, c, a) => c > n && a > n && Flat(p, c) && Flat(p, a)
      case Logical(l, r) => l > n && r > n && Flat(p, l) && Flat(p, r)
      case Chain(e) => e > n && Flat(p, e)
      case Sequence(es) => es != [] ==> es[|es| - 1] > n && Flat(p, es[|es| - 1])
      case Assignment(_, _, r) => r > n && Flat(p, r)
      case Call(callee, _) => callee > n && Flat(p, callee)
      case Member(_, _, _) => false
      case _ => true
  }

  /** Property values and elements are flat, as they are when they are identifiers. */
  ghost predicate FlatHeld(p: File) {
    forall k :: Held(p, k) ==> Flat(p, k)
  }

  /** A guard that can only come from evaluating an expression around `n`. */
  ghost predicate Clear(p: File, evaluating: set<NodeId>, n: NodeId) {
    forall m :: m in evaluating ==>
      if Flat(p, n) then !Flat(p, m) || m < n else !Flat(p, m) && m < n
  }

  lemma ReadsClear(p: File, evaluating: set<NodeId>, n: NodeId, k: NodeId)
    requires FlatHeld(p) && n < |p.nodes| && Clear(p, evaluating, n) && Reads(p, n, k)
    ensures Clear(p, evaluating + {n}, k)
  {
    if !(p.nodes[n].Member? && Held(p, k)) {
      assert k in Children(p.nodes[n]);
      ChildIsLater(p, n, k);
      assert Flat(p, n) ==> Flat(p, k);
    } else {
      assert Flat(p, k) && !Flat(p, n);
    }
  }

  /** With flat property values the guard never cuts a derivation. */
  lemma {:induction false} GuardNeverCuts(p: File, s: State, h: nat, evaluating: set<NodeId>, n: NodeId)
    requires NonComputed(p) && FlatHeld(p) && Clear(p, evaluating, n)
    ensures Unrolled(p, s, h, n) <= Guarded(p, s, evaluating, n)
    decreases h
  {
    if h > 0 && n < |p.nodes| {
      assert n !in evaluating;
      forall k | Reads(p, n, k)
        ensures UnrolledBy(p, s, h - 1)(k) <= GuardedBy(p, s, evaluating + {n})(k)
      {
        ReadsClear(p, evaluating, n, k);
        GuardNeverCuts(p, s, h - 1, evaluating + {n}, k);
      }
      BelowReflexive(s);
      StepMonotone(p, s, s, UnrolledBy(p, s, h - 1), GuardedBy(p, s, evaluating + {n}), n);
    }
  }

  /** With flat property values, evaluation meets its own unguarded equation exactly. */
  lemma EvaluateEquation(p: File, s: State, n: NodeId)
    requires NonComputed(p) && FlatHeld(p) && n < |p.nodes|
    ensures ValuesAt(p, s, n) == Step(p, s, EvaluateBy(p, s), n)
  {
    forall k | Reads(p, n, k)
      ensures Guarded(p, s, {n}, k) == ValuesAt(p, s, k)
    {
      ReadsClear(p, {}, n, k);
      assert {} + {n} == {n};
      GuardedIsDerived(p, s, {n}, k);
      GuardNeverCuts(p, s, Remaining(p, {n}), {}, k);
      GuardedIsDerived(p, s, {}, k);
      GuardNeverCuts(p, s, Remaining(p, {}), {n}, k);
    }
    assert {} + {n} == {n};
    BelowReflexive(s);
    StepMonotone(p, s, s, GuardedBy(p, s, {n}), EvaluateBy(p, s), n);
    StepMonotone(p, s, s, EvaluateBy(p, s), GuardedBy(p, s, {n}), n);
  }

  function EvaluateBy(p: File, s: State): Evaluator
  {
    GuardedBy(p, s, {})
  }
}
