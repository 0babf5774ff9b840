/** Rule expressions as trees, their meaning, and the trees on which the machine keeps that meaning. */
module Trees {
  import opened Polish
  import opened Operators

  datatype Tree<+V> = Leaf(value: V) | Negation(of: Tree<V>) | Node(op: Binary, left: Tree<V>, right: Tree<V>)

  function Listing<V>(t: Tree<V>): (parts: seq<Part<V>>)
    ensures parts != []
  {
    match t
    case Leaf(v) => [Expr(v)]
    case Negation(u) => [Operator(Not)] + Listing(u)
    case Node(op, l, r) => [Operator(op)] + Listing(l) + Listing(r)
  }

  /** The meaning of a rule: left to right, stopping as soon as the left operand decides. */
  function Denote(t: Tree<Outcome>): Outcome {
    match t
    case Leaf(v) => v
    case Negation(u) => Denote(u).Negate()
    case Node(op, l, r) => if Decides(op, Denote(l)) then Denote(l) else Denote(r)
  }

  predicate SameShape<V, W>(t: Tree<V>, u: Tree<W>) {
    match (t, u)
    case (Leaf(_), Leaf(_)) => true
    case (Negation(t1), Negation(u1)) => SameShape(t1, u1)
    case (Node(p, t1, t2), Node(q, u1, u2)) => p == q && SameShape(t1, u1) && SameShape(t2, u2)
    case _ => false
  }

  /**
   Trees that keep their meaning as the right operand of `op`: below an even number of negations they
   are again `op` nodes; only a leaf may carry an odd number of negations.
   */
  predicate KeepsRight<V>(op: Binary, t: Tree<V>, even: bool) {
    match t
    case Leaf(_) => true
    case Negation(u) => KeepsRight(op, u, !even)
    case Node(p, l, r) => even && p == op && KeepsRight(op, l, true) && KeepsRight(op, r, true)
  }

  /** Trees that keep their meaning on the machine: nothing is asked of left operands but this again. */
  predicate Keeps<V>(t: Tree<V>) {
    match t
    case Leaf(_) => true
    case Negation(u) => Keeps(u)
    case Node(op, l, r) => Keeps(l) && KeepsRight(op, r, true)
  }

  lemma {:induction false} KeepsIsShape<V, W>(t: Tree<V>, u: Tree<W>)
    requires SameShape(t, u)
    ensures Keeps(t) == Keeps(u)
    ensures forall op: Binary, even :: KeepsRight(op, t, even) == KeepsRight(op, u, even)
  {
    match t
    case Leaf(_) =>
    case Negation(t1) => KeepsIsShape(t1, u.of);
    case Node(_, l, r) => KeepsIsShape(l, u.left); KeepsIsShape(r, u.right);
  }
}

/** The machine on leaf outcomes, as total functions with one rewriting lemma for each kind of step. */
module OutcomeMachine {
  import opened Wrappers
  import opened Polish
  import opened Operators
  import opened VirtualMachine
  import opened Trees

  /** The operator step that the newest pending operator takes on outcomes, if it can take one. */
  function OneStep(s: State<Outcome>): Option<State<Outcome>> {
    if s.ops == [] || s.values == [] then None
    else
      var op, rest, n := s.ops[|s.ops| - 1], s.ops[..|s.ops| - 1], |s.values|;
      var v := s.values[n - 1];
      if op == Not then Some(State(s.skip, rest, s.values[..n - 1] + [v.Negate()]))
      else if n >= 2 then Some(State(s.skip, rest, s.values[..n - 2] + [Combine(op, s.values[n - 2], v)]))
      else if Decides(op, v) then Some(State(s.skip + 1, rest, [v]))
      else None
  }

  function Settled(s: State<Outcome>): State<Outcome>
    decreases |s.ops|
  {
    var step := OneStep(s);
    if step.None? then s else Settled(step.value)
  }

  lemma OutcomesOperate(op: BooleanOperator, vs: seq<Outcome>)
    ensures Outcomes().operate(op, vs) == OperateOutcome(op, vs)
    ensures Outcomes().shortCircuit(op, vs) == ShortCircuitOutcome(op, vs)
  {
  }

  lemma OperateStep(s: State<Outcome>)
    requires s.ops != [] && |s.values| >= Operand(s.ops[|s.ops| - 1])
    ensures var op, n := s.ops[|s.ops| - 1], |s.values|;
            var v := OperateOutcome(op, s.values[n - Operand(op)..]);
            v.Some? && OneStep(s) == Some(State(s.skip, s.ops[..|s.ops| - 1], s.values[..n - Operand(op)] + [v.value]))
  {
    var op, n := s.ops[|s.ops| - 1], |s.values|;
    var taken := s.values[n - Operand(op)..];
    assert if op == Not then taken == [s.values[n - 1]] else taken == [s.values[n - 2], s.values[n - 1]];
  }

  lemma ShortStep(s: State<Outcome>)
    requires s.ops != [] && |s.values| < Operand(s.ops[|s.ops| - 1])
    ensures var op, n := s.ops[|s.ops| - 1], |s.values|;
            match ShortCircuitOutcome(op, s.values)
            case None => OneStep(s).None?
            case Some((v, consumed)) =>
              n >= consumed && consumed == 1 && Operand(op) == 2
              && OneStep(s) == Some(State(s.skip + Operand(op) - consumed, s.ops[..|s.ops| - 1], s.values[..n - consumed] + [v]))
  {
    if s.values != [] {
      assert s.values[..0] + [s.values[0]] == [s.values[0]];
    }
  }

  lemma OperateSettles(s: State<Outcome>)
    requires s.ops != [] && |s.values| >= Operand(s.ops[|s.ops| - 1])
    ensures Lawful(Outcomes()) && OneStep(s).Some? && |OneStep(s).value.ops| < |s.ops|
    ensures Settle(Outcomes(), s) == Settle(Outcomes(), OneStep(s).value)
  {
    hide Settle, Lawful, OneStep, Outcomes, OperateOutcome;
    TablesAreLawful();
    SettleOnce(Outcomes(), s);
    var op, n := s.ops[|s.ops| - 1], |s.values|;
    OutcomesOperate(op, s.values[n - Operand(op)..]);
    OperateStep(s);
  }

  lemma ShortSettles(s: State<Outcome>)
    requires s.ops != [] && |s.values| < Operand(s.ops[|s.ops| - 1])
    ensures Lawful(Outcomes()) && (OneStep(s).Some? ==> |OneStep(s).value.ops| < |s.ops|)
    ensures Settle(Outcomes(), s) == match OneStep(s) case None => Ok(s) case Some(t) => Settle(Outcomes(), t)
  {
    hide Settle, Lawful, OneStep, Outcomes, ShortCircuitOutcome;
    TablesAreLawful();
    SettleOnce(Outcomes(), s);
    OutcomesOperate(s.ops[|s.ops| - 1], s.values);
    ShortStep(s);
  }

  /** The machine over outcomes takes the steps of `OneStep`. */
  lemma OneStepSettles(s: State<Outcome>)
    ensures Lawful(Outcomes())
    ensures Settle(Outcomes(), s) == match OneStep(s) case None => Ok(s) case Some(t) => Settle(Outcomes(), t)
    ensures OneStep(s).Some? ==> |OneStep(s).value.ops| < |s.ops|
  {
    hide Settle, Lawful, Outcomes;
    TablesAreLawful();
    if s.ops == [] {
      SettleOnce(Outcomes(), s);
    } else if |s.values| >= Operand(s.ops[|s.ops| - 1]) {
      OperateSettles(s);
    } else {
      ShortSettles(s);
    }
  }

  lemma {:induction false} SettledIsSettle(s: State<Outcome>)
    ensures Lawful(Outcomes()) && Settle(Outcomes(), s) == Ok(Settled(s))
    decreases |s.ops|
  {
    hide Lawful, Settle, OneStep;
    TablesAreLawful();
    OneStepSettles(s);
    if OneStep(s).Some? {
      SettledIsSettle(OneStep(s).value);
    }
  }

  function FedPart(s: State<Outcome>, part: Part<Outcome>): State<Outcome> {
    match part
    case Operator(op) => if s.skip == 0 then PushOp(s, op) else s.(skip := s.skip + Operand(op) - 1)
    case Expr(v) => if s.skip == 0 then Settled(Push(s, v)) else s.(skip := s.skip - 1)
  }

  function Fed(s: State<Outcome>, parts: seq<Part<Outcome>>): State<Outcome>
    decreases |parts|
  {
    if parts == [] then s else Fed(FedPart(s, parts[0]), parts[1..])
  }

  lemma {:induction false} FedIsFeedAll(s: State<Outcome>, parts: seq<Part<Outcome>>)
    ensures Lawful(Outcomes()) && FeedAll(Outcomes(), s, parts) == Ok(Fed(s, parts))
    decreases |parts|
  {
    TablesAreLawful();
    if parts != [] {
      if parts[0].Expr? && s.skip == 0 {
        SettledIsSettle(Push(s, parts[0].value));
      }
      FedIsFeedAll(FedPart(s, parts[0]), parts[1..]);
    }
  }

  lemma {:induction false} FedAppend(s: State<Outcome>, a: seq<Part<Outcome>>, b: seq<Part<Outcome>>)
    ensures Fed(s, a + b) == Fed(Fed(s, a), b)
  {
    FedIsFeedAll(s, a + b);
    FedIsFeedAll(s, a);
    FedIsFeedAll(Fed(s, a), b);
    FeedAllAppend(Outcomes(), s, a, b);
  }

  lemma FedOperator(s: State<Outcome>, op: BooleanOperator, rest: seq<Part<Outcome>>)
    requires s.skip == 0
    ensures Fed(s, [Operator(op)] + rest) == Fed(PushOp(s, op), rest)
  {
    assert ([Operator(op)] + rest)[1..] == rest;
  }

  lemma FedLeaf(s: State<Outcome>, v: Outcome)
    requires s.skip == 0
    ensures Fed(s, [Expr(v)]) == Settled(Push(s, v))
  {
    assert [Expr(v)][1..] == [];
  }

  lemma SettledNot(k: nat, ops: seq<BooleanOperator>, below: seq<Outcome>, v: Outcome)
    ensures Settled(State(k, ops + [Not], below + [v])) == Settled(State(k, ops, below + [v.Negate()]))
  {
    assert (ops + [Not])[..|ops|] == ops && (below + [v])[..|below|] == below;
  }

  lemma SettledBoth(k: nat, ops: seq<BooleanOperator>, op: Binary, l: Outcome, r: Outcome)
    ensures Settled(State(k, ops + [op], [l, r])) == Settled(State(k, ops, [Combine(op, l, r)]))
  {
    assert (ops + [op])[..|ops|] == ops && [l, r][..0] + [Combine(op, l, r)] == [Combine(op, l, r)];
  }

  lemma SettledOne(k: nat, ops: seq<BooleanOperator>, op: Binary, v: Outcome)
    ensures Settled(State(k, ops + [op], [v])) ==
            if Decides(op, v) then Settled(State(k + 1, ops, [v])) else State(k, ops + [op], [v])
  {
    assert (ops + [op])[..|ops|] == ops;
  }

  /** Operands still owed for skipping stay owed while the operators settle. */
  lemma {:induction false} SettledSkip(s: State<Outcome>, k: nat)
    ensures Settled(s.(skip := s.skip + k)) == Settled(s).(skip := Settled(s).skip + k)
    decreases |s.ops|
  {
    hide OneStep;
    OneStepSkip(s, k);
    match OneStep(s)
    case None =>
    case Some(t) => SettledSkip(t, k);
  }

  lemma OneStepSkip(s: State<Outcome>, k: nat)
    ensures OneStep(s.(skip := s.skip + k)) ==
            match OneStep(s) case None => None case Some(t) => Some(t.(skip := t.skip + k))
    ensures OneStep(s).Some? ==> |OneStep(s).value.ops| < |s.ops|
  {
  }

  /** A skipped tree costs exactly one owed operand, whatever its leaves. */
  lemma {:induction false} FedSkips(s: State<Outcome>, t: Tree<Outcome>)
    requires s.skip > 0
    ensures Fed(s, Listing(t)) == s.(skip := s.skip - 1)
    decreases t
  {
    match t
    case Leaf(v) =>
      assert [Expr(v)][1..] == [];
    case Negation(u) =>
      assert Listing(t)[1..] == Listing(u);
      FedSkips(s, u);
    case Node(op, l, r) =>
      var more := s.(skip := s.skip + 1);
      assert Listing(t)[1..] == Listing(l) + Listing(r);
      FedAppend(more, Listing(l), Listing(r));
      FedSkips(more, l);
      FedSkips(s, r);
  }

  function Nots(n: nat): (ops: seq<BooleanOperator>)
    ensures |ops| == n
  {
    if n == 0 then [] else Nots(n - 1) + [Not]
  }

  function NegateTimes(n: nat, v: Outcome): (w: Outcome)
    ensures w == if n % 2 == 0 then v else v.Negate()
  {
    if n == 0 then v else NegateTimes(n - 1, v.Negate())
  }

  lemma {:induction false} NotsSettle(
      k: nat, ops: seq<BooleanOperator>, nots: nat, below: seq<Outcome>, v: Outcome)
    ensures Settled(State(k, ops + Nots(nots), below + [v])) == Settled(State(k, ops, below + [NegateTimes(nots, v)]))
    decreases nots
  {
    hide Settled;
    if nots == 0 {
      assert ops + Nots(0) == ops;
    } else {
      calc {
        Settled(State(k, ops + Nots(nots), below + [v]));
        { assert ops + Nots(nots) == ops + Nots(nots - 1) + [Not]; }
        Settled(State(k, ops + Nots(nots - 1) + [Not], below + [v]));
        { SettledNot(k, ops + Nots(nots - 1), below, v); }
        Settled(State(k, ops + Nots(nots - 1), below + [v.Negate()]));
        { NotsSettle(k, ops, nots - 1, below, v.Negate()); }
        Settled(State(k, ops, below + [NegateTimes(nots - 1, v.Negate())]));
      }
    }
  }

  function Neutral(op: Binary): Outcome {
    Matched(op == And)
  }

  /** A left operand that decides settles its operator and skips exactly the right operand. */
  lemma DecidedNode(base: seq<BooleanOperator>, op: Binary, v: Outcome, r: Tree<Outcome>)
    requires Decides(op, v)
    ensures Fed(Settled(State(0, base + [op], [v])), Listing(r)) == Settled(State(0, base, [v]))
  {
    var done := Settled(State(0, base, [v]));
    calc {
      Settled(State(0, base + [op], [v]));
      { SettledOne(0, base, op, v); }
      Settled(State(1, base, [v]));
      { SettledSkip(State(0, base, [v]), 1); }
      done.(skip := done.skip + 1);
    }
    FedSkips(done.(skip := done.skip + 1), r);
  }

  lemma WaitingNode(base: seq<BooleanOperator>, op: Binary)
    ensures Settled(State(0, base + [op], [Neutral(op)])) == State(0, base + [op], [Neutral(op)])
  {
    SettledOne(0, base, op, Neutral(op));
  }

  lemma FedNode(s: State<Outcome>, op: Binary, l: Tree<Outcome>, r: Tree<Outcome>)
    requires s.skip == 0
    ensures Fed(s, Listing(Node(op, l, r))) == Fed(Fed(PushOp(s, op), Listing(l)), Listing(r))
  {
    assert Listing(Node(op, l, r)) == [Operator(op)] + (Listing(l) + Listing(r));
    FedOperator(s, op, Listing(l) + Listing(r));
    FedAppend(PushOp(s, op), Listing(l), Listing(r));
  }

  // ----- what the machine returns, with no stack

  /**
   What `op` yields below `nots` negations when it holds `held` and the machine reads a tree: the tree's own operators
   act on the held value first, since the machine does not know where an operand begins.
   */
  function RightOf(op: Binary, nots: nat, held: Outcome, t: Tree<Outcome>): Outcome
    decreases t
  {
    match t
    case Leaf(v) => Combine(op, held, NegateTimes(nots, v))
    case Negation(u) => RightOf(op, nots + 1, held, u)
    case Node(inner, l, r) =>
      var v := NegateTimes(nots, RightOf(inner, 0, held, l));
      if Decides(op, v) then v else RightOf(op, 0, v, r)
  }

  /** What the machine makes of a tree when it holds no value. */
  function Accumulated(t: Tree<Outcome>): Outcome {
    match t
    case Leaf(v) => v
    case Negation(u) => Accumulated(u).Negate()
    case Node(op, l, r) =>
      var v := Accumulated(l);
      if Decides(op, v) then v else RightOf(op, 0, v, r)
  }

  lemma LeafSettles(base: seq<BooleanOperator>, op: Binary, nots: nat, held: Outcome, v: Outcome)
    ensures Settled(State(0, base + [op] + Nots(nots), [held, v])) ==
            Settled(State(0, base, [Combine(op, held, NegateTimes(nots, v))]))
  {
    hide Settled;
    assert [held] + [v] == [held, v] && [held] + [NegateTimes(nots, v)] == [held, NegateTimes(nots, v)];
    NotsSettle(0, base + [op], nots, [held], v);
    SettledBoth(0, base, op, held, NegateTimes(nots, v));
  }

  lemma LeftSettles(base: seq<BooleanOperator>, op: Binary, nots: nat, v: Outcome)
    ensures Settled(State(0, base + [op] + Nots(nots), [v])) == Settled(State(0, base + [op], [NegateTimes(nots, v)]))
  {
    hide Settled;
    NotsSettle(0, base + [op], nots, [], v);
    assert [] + [v] == [v] && [] + [NegateTimes(nots, v)] == [NegateTimes(nots, v)];
  }

  /** An operator that holds a value settles, on any tree, to what `RightOf` says. */
  lemma {:induction false} ReadsRight(base: seq<BooleanOperator>, op: Binary, nots: nat, held: Outcome, t: Tree<Outcome>)
    ensures Fed(State(0, base + [op] + Nots(nots), [held]), Listing(t)) ==
            Settled(State(0, base, [RightOf(op, nots, held, t)]))
    decreases t
  {
    hide Settled, Fed, Listing;
    var ops := base + [op] + Nots(nots);
    match t
    case Leaf(v) =>
      ListingLeaf(v);
      FedLeaf(State(0, ops, [held]), v);
      assert [held] + [v] == [held, v];
      LeafSettles(base, op, nots, held, v);
    case Negation(u) =>
      ListingNegation(u);
      FedOperator(State(0, ops, [held]), Not, Listing(u));
      assert ops + [Not] == base + [op] + Nots(nots + 1);
      ReadsRight(base, op, nots + 1, held, u);
    case Node(inner, l, r) =>
      var c := RightOf(inner, 0, held, l);
      var v := NegateTimes(nots, c);
      calc {
        Fed(State(0, ops, [held]), Listing(t));
        { FedNode(State(0, ops, [held]), inner, l, r); }
        Fed(Fed(State(0, ops + [inner], [held]), Listing(l)), Listing(r));
        { assert ops + [inner] == ops + [inner] + Nots(0); ReadsRight(ops, inner, 0, held, l); }
        Fed(Settled(State(0, ops, [c])), Listing(r));
        { LeftSettles(base, op, nots, c); }
        Fed(Settled(State(0, base + [op], [v])), Listing(r));
        { RightRead(base, op, v, r); if !Decides(op, v) { ReadsRight(base, op, 0, v, r); } }
        Settled(State(0, base, [RightOf(op, nots, held, t)]));
      }
  }

  lemma ListingLeaf(v: Outcome)
    ensures Listing(Leaf(v)) == [Expr(v)]
  {
  }

  lemma ListingNegation(u: Tree<Outcome>)
    ensures Listing(Negation(u)) == [Operator(Not)] + Listing(u)
  {
  }

  /** The right operand of a node whose left operand came out as `v`. */
  lemma RightRead(base: seq<BooleanOperator>, op: Binary, v: Outcome, r: Tree<Outcome>)
    ensures Decides(op, v) ==> Fed(Settled(State(0, base + [op], [v])), Listing(r)) == Settled(State(0, base, [v]))
    ensures !Decides(op, v) ==>
              Settled(State(0, base + [op], [v])) == State(0, base + [op], [v]) && base + [op] + Nots(0) == base + [op]
  {
    hide Settled, Fed;
    if Decides(op, v) {
      DecidedNode(base, op, v, r);
    } else {
      WaitingNode(base, op);
      assert v == Neutral(op);
    }
  }

  lemma {:induction false} Reads(ops: seq<BooleanOperator>, t: Tree<Outcome>)
    ensures Fed(State(0, ops, []), Listing(t)) == Settled(State(0, ops, [Accumulated(t)]))
    decreases t
  {
    hide Settled, Fed, Listing;
    match t
    case Leaf(v) =>
      ListingLeaf(v);
      FedLeaf(State(0, ops, []), v);
      assert [] + [v] == [v];
    case Negation(u) =>
      ListingNegation(u);
      FedOperator(State(0, ops, []), Not, Listing(u));
      Reads(ops + [Not], u);
      assert [] + [Accumulated(u)] == [Accumulated(u)] && [] + [Accumulated(t)] == [Accumulated(t)];
      SettledNot(0, ops, [], Accumulated(u));
    case Node(op, l, r) =>
      var v := Accumulated(l);
      calc {
        Fed(State(0, ops, []), Listing(t));
        { FedNode(State(0, ops, []), op, l, r); }
        Fed(Fed(State(0, ops + [op], []), Listing(l)), Listing(r));
        { Reads(ops + [op], l); }
        Fed(Settled(State(0, ops + [op], [v])), Listing(r));
        { RightRead(ops, op, v, r); if !Decides(op, v) { ReadsRight(ops, op, 0, v, r); } }
        Settled(State(0, ops, [Accumulated(t)]));
      }
  }

  /** On every tree, whatever its leaves evaluate to, the machine returns the accumulated value. */
  lemma RunAccumulates(t: Tree<Outcome>)
    ensures Lawful(Outcomes()) && Run(Outcomes(), Listing(t)) == Ok(Accumulated(t))
  {
    FedIsFeedAll(Start<Outcome>(), Listing(t));
    Reads([], t);
  }

  // ----- where it is the meaning

  lemma {:induction false} RightKept(op: Binary, nots: nat, t: Tree<Outcome>)
    requires KeepsRight(op, t, nots % 2 == 0)
    ensures RightOf(op, nots, Neutral(op), t) == NegateTimes(nots, Denote(t))
    decreases t
  {
    match t
    case Leaf(_) =>
    case Negation(u) => RightKept(op, nots + 1, u);
    case Node(_, l, r) =>
      RightKept(op, 0, l);
      RightKept(op, 0, r);
  }

  lemma {:induction false} Kept(t: Tree<Outcome>)
    requires Keeps(t)
    ensures Accumulated(t) == Denote(t)
  {
    match t
    case Leaf(_) =>
    case Negation(u) => Kept(u);
    case Node(op, l, r) =>
      Kept(l);
      RightKept(op, 0, r);
  }

  /** The machine returns exactly the left-to-right short-circuit value, errors included. */
  lemma RunKeepsMeaning(t: Tree<Outcome>)
    requires Keeps(t)
    ensures Lawful(Outcomes()) && Run(Outcomes(), Listing(t)) == Ok(Denote(t))
  {
    RunAccumulates(t);
    Kept(t);
  }
}
