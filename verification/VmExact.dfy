/**
 The trees that keep their meaning are exactly those of `Trees.Keeps`: any other tree has leaf results without an error
 on which the machine returns the opposite of the meaning.
 */
module ExactMeaning {
  import opened Wrappers
  import opened Polish
  import opened Operators
  import opened VirtualMachine
  import opened Trees
  import opened OutcomeMachine

  predicate ErrorFree(t: Tree<Outcome>) {
    match t
    case Leaf(v) => v.Matched?
    case Negation(u) => ErrorFree(u)
    case Node(_, l, r) => ErrorFree(l) && ErrorFree(r)
  }

  /** `u` gives the leaves of `t` results, none of them an error. */
  predicate Assigns<V>(t: Tree<V>, u: Tree<Outcome>) {
    SameShape(t, u) && ErrorFree(u)
  }

  /** Leaf results that make the meaning of a tree come out as asked. */
  function Valued<V>(t: Tree<V>, flag: bool): (u: Tree<Outcome>)
    ensures Assigns(t, u) && Denote(u) == Matched(flag)
  {
    match t
    case Leaf(_) => Leaf(Matched(flag))
    case Negation(u) => Negation(Valued(u, !flag))
    case Node(op, l, r) => Node(op, Valued(l, flag), Valued(r, flag))
  }

  lemma {:induction false} NoErrorComes(op: Binary, nots: nat, held: Outcome, u: Tree<Outcome>)
    requires ErrorFree(u) && held.Matched?
    ensures RightOf(op, nots, held, u).Matched? && Denote(u).Matched?
    decreases u
  {
    match u
    case Leaf(_) =>
    case Negation(v) => NoErrorComes(op, nots + 1, held, v);
    case Node(inner, l, r) =>
      NoErrorComes(inner, 0, held, l);
      var v := NegateTimes(nots, RightOf(inner, 0, held, l));
      NoErrorComes(op, 0, v, r);
  }

  /** `op`, holding its neutral value, always yields the meaning of its right operand negated `flips` times. */
  ghost predicate Tracks<V>(op: Binary, nots: nat, flips: nat, t: Tree<V>) {
    forall u: Tree<Outcome> | Assigns(t, u) :: RightOf(op, nots, Neutral(op), u) == NegateTimes(flips, Denote(u))
  }

  function Flip(times: nat, b: bool): bool {
    if times % 2 == 0 then b else !b
  }

  /** What tracking says of a node: `c` and `e` come out of its operands, whose meanings are `x` and `y`. */
  predicate Corner(op: Binary, inner: Binary, nots: nat, flips: nat, c: bool, e: bool, x: bool, y: bool) {
    (if Flip(nots, c) == (op == And) then e else op == Or) == Flip(flips, if x == (inner == And) then y else x)
  }

  /** What comes out of the left operand of a node below `op`. */
  function LeftOut(op: Binary, inner: Binary, l: Tree<Outcome>): bool
    requires ErrorFree(l)
  {
    NoErrorComes(inner, 0, Neutral(op), l);
    RightOf(inner, 0, Neutral(op), l).flag
  }

  function MeaningOf(u: Tree<Outcome>): bool
    requires ErrorFree(u)
  {
    NoErrorComes(And, 0, Neutral(And), u);
    Denote(u).flag
  }

  lemma NodeTracks<V>(op: Binary, nots: nat, flips: nat, t: Tree<V>, l: Tree<Outcome>, r: Tree<Outcome>)
    requires t.Node? && Tracks(op, nots, flips, t) && Assigns(t.left, l) && Assigns(t.right, r)
    ensures Corner(op, t.op, nots, flips, LeftOut(op, t.op, l), LeftOut(op, op, r), MeaningOf(l), MeaningOf(r))
  {
    var u := Node(t.op, l, r);
    assert Assigns(t, u);
    NoErrorComes(t.op, 0, Neutral(op), l);
    NoErrorComes(op, 0, Neutral(op), r);
    NoErrorComes(op, nots, Neutral(op), u);
    assert RightOf(op, nots, Neutral(op), u) == NegateTimes(flips, Denote(u));
  }

  lemma TracksFlags<V>(op: Binary, flips: nat, t: Tree<V>)
    requires forall u: Tree<Outcome> | Assigns(t, u) :: LeftOut(op, op, u) == Flip(flips, MeaningOf(u))
    ensures Tracks(op, 0, flips, t)
  {
    forall u: Tree<Outcome> | Assigns(t, u) ensures RightOf(op, 0, Neutral(op), u) == NegateTimes(flips, Denote(u)) {
      NoErrorComes(op, 0, Neutral(op), u);
      assert LeftOut(op, op, u) == Flip(flips, MeaningOf(u));
    }
  }

  /** Both operands with each of the two meanings. */
  lemma Corners<V>(op: Binary, nots: nat, flips: nat, t: Tree<V>)
    requires t.Node? && Tracks(op, nots, flips, t)
    ensures var c0, c1 := LeftOut(op, t.op, Valued(t.left, false)), LeftOut(op, t.op, Valued(t.left, true));
            var e0, e1 := LeftOut(op, op, Valued(t.right, false)), LeftOut(op, op, Valued(t.right, true));
            && Corner(op, t.op, nots, flips, c0, e0, false, false) && Corner(op, t.op, nots, flips, c0, e1, false, true)
            && Corner(op, t.op, nots, flips, c1, e0, true, false) && Corner(op, t.op, nots, flips, c1, e1, true, true)
  {
    hide Tracks, LeftOut, Corner;
    NodeTracks(op, nots, flips, t, Valued(t.left, false), Valued(t.right, false));
    NodeTracks(op, nots, flips, t, Valued(t.left, false), Valued(t.right, true));
    NodeTracks(op, nots, flips, t, Valued(t.left, true), Valued(t.right, false));
    NodeTracks(op, nots, flips, t, Valued(t.left, true), Valued(t.right, true));
  }

  /** Which nodes can track at all; the others would yield a constant where the meaning is none. */
  lemma TrackingNodes<V>(op: Binary, nots: nat, flips: nat, t: Tree<V>)
    requires t.Node? && Tracks(op, nots, flips, t)
    ensures t.op == op ==> (nots + flips) % 2 == 0 ==> nots % 2 == 0
    ensures t.op == op ==> (nots + flips) % 2 == 1 ==> nots % 2 == 1
    ensures t.op != op ==> flips % 2 == 1
  {
    hide Tracks, LeftOut;
    Corners(op, nots, flips, t);
  }

  /** The right operand, seen past a left one that leaves the decision to it. */
  lemma RightTracks<V>(op: Binary, nots: nat, flips: nat, t: Tree<V>)
    requires t.Node? && Tracks(op, nots, flips, t)
    ensures t.op != op || nots % 2 == 0 ==> Tracks(op, 0, flips, t.right)
  {
    hide Tracks, LeftOut;
    Corners(op, nots, flips, t);
    if t.op != op || nots % 2 == 0 {
      var l := Valued(t.left, t.op == And);
      forall u: Tree<Outcome> | Assigns(t.right, u) ensures LeftOut(op, op, u) == Flip(flips, MeaningOf(u)) {
        NodeTracks(op, nots, flips, t, l, u);
      }
      TracksFlags(op, flips, t.right);
    }
  }

  /** The left operand of a node of the same operator, seen before a right one of each meaning. */
  lemma LeftTracks<V>(op: Binary, nots: nat, flips: nat, t: Tree<V>)
    requires t.Node? && t.op == op && Tracks(op, nots, flips, t)
    ensures Tracks(op, 0, nots, t.left)
  {
    hide Tracks, LeftOut;
    Corners(op, nots, flips, t);
    forall u: Tree<Outcome> | Assigns(t.left, u) ensures LeftOut(op, op, u) == Flip(nots, MeaningOf(u)) {
      NodeTracks(op, nots, flips, t, u, Valued(t.right, false));
      NodeTracks(op, nots, flips, t, u, Valued(t.right, true));
    }
    TracksFlags(op, nots, t.left);
  }

  lemma LeafNeverOpposes<V>(op: Binary, nots: nat, v: V)
    ensures !Tracks(op, nots, nots + 1, Leaf(v))
  {
    var u: Tree<Outcome> := Leaf(Neutral(op));
    assert Assigns(Leaf(v), u) && RightOf(op, nots, Neutral(op), u) != NegateTimes(nots + 1, Denote(u));
  }

  /** No right operand always comes out as the opposite of what it means. */
  lemma {:induction false} NeverOpposes<V>(op: Binary, nots: nat, t: Tree<V>)
    ensures !Tracks(op, nots, nots + 1, t)
    decreases t
  {
    hide LeftOut;
    if Tracks(op, nots, nots + 1, t) {
      match t
      case Leaf(v) => LeafNeverOpposes(op, nots, v);
      case Negation(v) =>
        NegationTracks(op, nots, nots + 1, t);
        NeverOpposes(op, nots + 1, v);
      case Node(inner, l, r) =>
        TrackingNodes(op, nots, nots + 1, t);
        if inner == op {
          LeftTracks(op, nots, nots + 1, t);
          TracksParity(op, nots, 1, l);
          NeverOpposes(op, 0, l);
        } else {
          RightTracks(op, nots, nots + 1, t);
          TracksParity(op, nots + 1, 1, r);
          NeverOpposes(op, 0, r);
        }
    }
  }

  lemma NegationTracks<V>(op: Binary, nots: nat, flips: nat, t: Tree<V>)
    requires t.Negation? && Tracks(op, nots, flips, t)
    ensures Tracks(op, nots + 1, flips + 1, t.of)
  {
    forall u: Tree<Outcome> | Assigns(t.of, u)
      ensures RightOf(op, nots + 1, Neutral(op), u) == NegateTimes(flips + 1, Denote(u))
    {
      assert Assigns(t, Negation(u));
    }
  }

  lemma TracksParity<V>(op: Binary, flips: nat, other: nat, t: Tree<V>)
    requires Tracks(op, 0, flips, t) && flips % 2 == other % 2
    ensures Tracks(op, 0, other, t)
  {
  }

  /** A right operand that always comes out as it means belongs to the class. */
  lemma {:induction false} TrackedKeeps<V>(op: Binary, nots: nat, t: Tree<V>)
    requires Tracks(op, nots, nots, t)
    ensures KeepsRight(op, t, nots % 2 == 0)
    decreases t
  {
    hide Tracks, LeftOut;
    match t
    case Leaf(_) =>
    case Negation(v) =>
      NegationTracks(op, nots, nots, t);
      TrackedKeeps(op, nots + 1, v);
    case Node(inner, l, r) =>
      TrackingNodes(op, nots, nots, t);
      RightTracks(op, nots, nots, t);
      if inner == op {
        LeftTracks(op, nots, nots, t);
        TracksParity(op, nots, 0, l);
        TracksParity(op, nots, 0, r);
        TrackedKeeps(op, 0, l);
        TrackedKeeps(op, 0, r);
      } else {
        TracksParity(op, nots, 1, r);
        NeverOpposes(op, 0, r);
      }
  }

  /** The machine's value is the meaning on all results without an error. */
  ghost predicate Meant<V>(t: Tree<V>) {
    forall u: Tree<Outcome> | Assigns(t, u) :: Accumulated(u) == Denote(u)
  }

  lemma {:induction false} NoErrorAccumulates(u: Tree<Outcome>)
    requires ErrorFree(u)
    ensures Accumulated(u).Matched?
    decreases u
  {
    match u
    case Leaf(_) =>
    case Negation(v) => NoErrorAccumulates(v);
    case Node(op, l, r) =>
      NoErrorAccumulates(l);
      NoErrorComes(op, 0, Accumulated(l), r);
  }

  function ValueOf(u: Tree<Outcome>): bool
    requires ErrorFree(u)
  {
    NoErrorAccumulates(u);
    Accumulated(u).flag
  }

  lemma NodeMeant<V>(t: Tree<V>, l: Tree<Outcome>, r: Tree<Outcome>)
    requires t.Node? && Meant(t) && Assigns(t.left, l) && Assigns(t.right, r)
    ensures (if ValueOf(l) == (t.op == And) then LeftOut(t.op, t.op, r) else t.op == Or) ==
            (if MeaningOf(l) == (t.op == And) then MeaningOf(r) else t.op == Or)
  {
    var u := Node(t.op, l, r);
    assert Assigns(t, u);
    NoErrorComes(t.op, 0, Neutral(t.op), l);
    NoErrorComes(t.op, 0, Neutral(t.op), r);
    NoErrorAccumulates(l);
    assert Accumulated(u) == Denote(u);
  }

  lemma MeantRight<V>(t: Tree<V>)
    requires t.Node? && Meant(t)
    ensures Tracks(t.op, 0, 0, t.right)
  {
    hide Meant, Tracks, LeftOut;
    var l := Valued(t.left, t.op == And);
    NodeMeant(t, l, Valued(t.right, true));
    NodeMeant(t, l, Valued(t.right, false));
    forall u: Tree<Outcome> | Assigns(t.right, u) ensures LeftOut(t.op, t.op, u) == Flip(0, MeaningOf(u)) {
      NodeMeant(t, l, u);
    }
    TracksFlags(t.op, 0, t.right);
  }

  lemma MeantLeft<V>(t: Tree<V>)
    requires t.Node? && Meant(t)
    ensures Meant(t.left)
  {
    var l, yes, no := Valued(t.left, t.op == And), Valued(t.right, true), Valued(t.right, false);
    forall u: Tree<Outcome> | Assigns(t.left, u) ensures Accumulated(u) == Denote(u) {
      NodeMeant(t, l, yes);
      NodeMeant(t, l, no);
      NodeMeant(t, u, yes);
      NodeMeant(t, u, no);
      NoErrorAccumulates(u);
      NoErrorComes(And, 0, Neutral(And), u);
      assert ValueOf(u) == MeaningOf(u);
    }
  }

  lemma MeantNegation<V>(t: Tree<V>)
    requires t.Negation? && Meant(t)
    ensures Meant(t.of)
  {
    forall u: Tree<Outcome> | Assigns(t.of, u) ensures Accumulated(u) == Denote(u) {
      assert Assigns(t, Negation(u));
      assert Accumulated(Negation(u)) == Denote(Negation(u));
    }
  }

  lemma {:induction false} MeantKeeps<V>(t: Tree<V>)
    requires Meant(t)
    ensures Keeps(t)
  {
    hide Meant, Tracks;
    match t
    case Leaf(_) =>
    case Negation(v) =>
      MeantNegation(t);
      MeantKeeps(v);
    case Node(op, l, r) =>
      MeantLeft(t);
      MeantKeeps(l);
      MeantRight(t);
      TrackedKeeps(op, 0, r);
  }

  /** A tree outside the class has leaf results, none of them an error, on which the machine does not return its meaning. */
  lemma MeaningLost<V>(t: Tree<V>) returns (u: Tree<Outcome>)
    requires !Keeps(t)
    ensures SameShape(t, u) && ErrorFree(u)
    ensures Denote(u).Matched? && Lawful(Outcomes()) && Run(Outcomes(), Listing(u)) == Ok(Denote(u).Negate())
  {
    if Meant(t) {
      MeantKeeps(t);
    }
    u :| Assigns(t, u) && Accumulated(u) != Denote(u);
    NoErrorAccumulates(u);
    NoErrorComes(And, 0, Neutral(And), u);
    RunAccumulates(u);
  }

  /** Whatever its leaves evaluate to, running the tree's listing returns the tree's meaning. */
  ghost predicate Faithful<V>(t: Tree<V>)
    requires Lawful(Outcomes())
  {
    forall u: Tree<Outcome> | SameShape(t, u) :: Run(Outcomes(), Listing(u)) == Ok(Denote(u))
  }

  /** The same, as long as no leaf ends in an error. */
  ghost predicate FaithfulWithoutErrors<V>(t: Tree<V>)
    requires Lawful(Outcomes())
  {
    forall u: Tree<Outcome> | SameShape(t, u) && ErrorFree(u) :: Run(Outcomes(), Listing(u)) == Ok(Denote(u))
  }

  /** The exact condition under which the stack machine computes what a rule means, with leaf errors and without. */
  lemma FaithfulExactlyWhenKept<V>(t: Tree<V>)
    ensures Lawful(Outcomes())
    ensures Faithful(t) <==> Keeps(t)
    ensures FaithfulWithoutErrors(t) <==> Keeps(t)
  {
    TablesAreLawful();
    if Keeps(t) {
      forall u: Tree<Outcome> | SameShape(t, u) ensures Run(Outcomes(), Listing(u)) == Ok(Denote(u)) {
        KeepsIsShape(t, u);
        RunKeepsMeaning(u);
      }
    } else {
      var u := MeaningLost(t);
    }
  }
}
