/**
 Arity checking: running the machine on units accepts exactly the expressions that every valuation accepts.
 Short-circuited operands are counted so that no valuation changes whether exactly one value remains.
 */
module Arity {
  import opened Wrappers
  import opened Polish
  import opened Operators
  import opened VirtualMachine

  function Binaries(ops: seq<BooleanOperator>): nat {
    if ops == [] then 0 else Binaries(ops[..|ops| - 1]) + Operand(ops[|ops| - 1]) - 1
  }

  predicate EndsInNot(ops: seq<BooleanOperator>) {
    ops != [] && ops[|ops| - 1] == Not
  }

  function Erase<V>(parts: seq<Part<V>>): seq<Part<()>> {
    MapParts(_ => (), parts)
  }

  function ValidateArity<V>(parts: seq<Part<V>>): Result<(), EvalPolishError> {
    TablesAreLawful();
    Run(Units(), Erase(parts))
  }

  /** How a machine on real values and the counting machine stand to each other between two parts. */
  ghost predicate Tracks<V>(s: State<V>, u: State<()>) {
    && u.skip == 0
    && |u.values| == |s.values|
    && if s.skip == 0 then u.ops == s.ops
       else
         && |s.values| == 1
         && !EndsInNot(s.ops)
         && s.ops <= u.ops
         && Binaries(u.ops[|s.ops|..]) == s.skip
  }

  lemma {:induction false} ShortTracks<V(!new)>(table: Table<V>, s: State<V>, u: State<()>)
    requires Lawful(table)
    requires u.skip == 0 && |u.values| == |s.values| == 1 && s.ops <= u.ops
    requires s.skip == Binaries(u.ops[|s.ops|..]) > 0
    ensures Settle(table, s).Ok? && Settle(table, s).value.skip > 0 && Tracks(Settle(table, s).value, u)
    decreases |s.ops|
  {
    hide Settle, Lawful, Binaries;
    SettleOnce(table, s);
    if s.ops != [] {
      var op, rest := s.ops[|s.ops| - 1], s.ops[..|s.ops| - 1];
      var next := if op == Not then table.operate(op, s.values[0..])
                  else if table.shortCircuit(op, s.values).Some? then Some(table.shortCircuit(op, s.values).value.0)
                  else None;
      if next.Some? {
        BinariesCons(op, u.ops[|s.ops|..]);
        assert u.ops[|rest|..] == [op] + u.ops[|s.ops|..];
        ShortTracks(table, State(s.skip + Operand(op) - 1, rest, s.values[..0] + [next.value]), u);
      }
    }
  }

  lemma {:induction false} BinariesCons(op: BooleanOperator, ops: seq<BooleanOperator>)
    ensures Binaries([op] + ops) == Operand(op) - 1 + Binaries(ops)
    decreases |ops|
  {
    if ops == [] {
      assert [op][..0] == [];
    } else {
      BinariesCons(op, ops[..|ops| - 1]);
      assert ([op] + ops)[..|ops|] == [op] + ops[..|ops| - 1];
    }
  }

  lemma {:induction false} SettleTracks<V(!new)>(table: Table<V>, s: State<V>, u: State<()>)
    requires Lawful(table) && Lawful(Units())
    requires s.skip == u.skip == 0 && s.ops == u.ops && |s.values| == |u.values|
    ensures Settle(table, s).Ok? && Settle(Units(), u).Ok?
    ensures Tracks(Settle(table, s).value, Settle(Units(), u).value)
    decreases |s.ops|
  {
    hide Settle, Lawful;
    SettleOnce(table, s);
    SettleOnce(Units(), u);
    if s.ops != [] {
      var op, rest := s.ops[|s.ops| - 1], s.ops[..|s.ops| - 1];
      var n := |s.values|;
      if n >= Operand(op) {
        var cut := n - Operand(op);
        var v := table.operate(op, s.values[cut..]);
        var w := Units().operate(op, u.values[cut..]);
        SettleTracks(table, State(0, rest, s.values[..cut] + [v.value]), State(0, rest, u.values[..cut] + [w.value]));
      } else if table.shortCircuit(op, s.values).Some? {
        var (v, consumed) := table.shortCircuit(op, s.values).value;
        assert u.ops[|rest|..] == [op];
        BinariesCons(op, []);
        assert [op] + [] == [op];
        ShortTracks(table, State(1, rest, s.values[..0] + [v]), u);
      }
    }
  }

  /** One skipped operand: the counting machine drops exactly one pending binary operator. */
  lemma {:induction false} SkipTracks(base: seq<BooleanOperator>, u: State<()>)
    requires Lawful(Units())
    requires u.skip == 0 && base <= u.ops && !EndsInNot(base)
    requires |u.values| == 1 || (|u.values| == 2 && Binaries(u.ops[|base|..]) > 0)
    ensures Settle(Units(), u).Ok?
    ensures var w := Settle(Units(), u).value;
            && w.skip == 0 && |w.values| == 1 && base <= w.ops
            && Binaries(w.ops[|base|..]) == Binaries(u.ops[|base|..]) - (|u.values| - 1)
            && (Binaries(w.ops[|base|..]) == 0 ==> w.ops == base)
    decreases |u.ops|
  {
    hide Settle, Lawful;
    SettleOnce(Units(), u);
    var extra := u.ops[|base|..];
    if extra == [] {
      assert u.ops == base;
    } else {
      var op, rest := u.ops[|u.ops| - 1], u.ops[..|u.ops| - 1];
      var n := |u.values|;
      assert Binaries(extra) == Binaries(rest[|base|..]) + Operand(op) - 1 by {
        assert extra[|extra| - 1] == op && extra[..|extra| - 1] == rest[|base|..];
      }
      if n >= Operand(op) {
        var next := State(0, rest, u.values[..n - Operand(op)] + [()]);
        assert Settle(Units(), u) == Settle(Units(), next);
        SkipTracks(base, next);
      }
    }
  }

  lemma {:induction false} FeedTracks<V(!new)>(table: Table<V>, s: State<V>, u: State<()>, part: Part<V>, unit: Part<()>)
    requires Lawful(table) && Lawful(Units()) && Tracks(s, u)
    requires match part case Operator(op) => unit == Operator(op) case Expr(_) => unit == Expr(())
    ensures Feed(table, s, part).Ok? && Feed(Units(), u, unit).Ok?
    ensures Tracks(Feed(table, s, part).value, Feed(Units(), u, unit).value)
  {
    match part
    case Operator(op) =>
      if s.skip > 0 {
        var before, after := u.ops[|s.ops|..], (u.ops + [op])[|s.ops|..];
        assert after == before + [op];
        assert after[..|after| - 1] == before;
      }
    case Expr(v) =>
      if s.skip == 0 {
        SettleTracks(table, Push(s, v), Push(u, ()));
      } else {
        SkipTracks(s.ops, Push(u, ()));
      }
  }

  lemma {:induction false} FeedAllTracks<V(!new)>(table: Table<V>, s: State<V>, u: State<()>, parts: seq<Part<V>>)
    requires Lawful(table) && Lawful(Units()) && Tracks(s, u)
    ensures FeedAll(table, s, parts).Ok? && FeedAll(Units(), u, Erase(parts)).Ok?
    ensures Tracks(FeedAll(table, s, parts).value, FeedAll(Units(), u, Erase(parts)).value)
    decreases |parts|
  {
    if parts != [] {
      var units := Erase(parts);
      assert units[1..] == Erase(parts[1..]);
      FeedTracks(table, s, u, parts[0], units[0]);
      FeedAllTracks(table, Feed(table, s, parts[0]).value, Feed(Units(), u, units[0]).value, parts[1..]);
    }
  }

  /**
   Acceptance does not depend on the values: under every lawful operator table a sequence of parts runs to a
   value exactly when it passes the arity check, and otherwise both report the same error.
   */
  lemma ArityDecidesAcceptance<V(!new)>(table: Table<V>, parts: seq<Part<V>>)
    requires Lawful(table)
    ensures match ValidateArity(parts)
            case Ok(_) => Run(table, parts).Ok?
            case Err(e) => Run(table, parts) == Err(e) && e != MissingOperands
  {
    TablesAreLawful();
    FeedAllTracks(table, Start(), Start(), parts);
    var s, u := FeedAll(table, Start(), parts).value, FeedAll(Units(), Start(), Erase(parts)).value;
  }
}
