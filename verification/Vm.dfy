/** Small result types shared by every module. */
module Wrappers {
  datatype Option<+T> = None | Some(value: T)

  datatype Result<+T, +E> = Ok(value: T) | Err(error: E)

  type byte = n: int | 0 <= n < 256
}

/** The prefix ("polish") notation of access rules: a flat sequence of operators and leaves. */
module Polish {
  datatype BooleanOperator = And | Or | Not

  type Binary = op: BooleanOperator | op != Not witness And

  datatype Part<+V> = Operator(op: BooleanOperator) | Expr(value: V)

  datatype EvalPolishError = IncompleteExpression | ExtraOperands | MissingOperands

  function Operand(op: BooleanOperator): nat {
    match op
    case And => 2
    case Or => 2
    case Not => 1
  }

  function MapParts<V, W>(f: V -> W, parts: seq<Part<V>>): (mapped: seq<Part<W>>)
    ensures |mapped| == |parts|
  {
    if parts == [] then []
    else [match parts[0] case Operator(op) => Operator(op) case Expr(v) => Expr(f(v))] + MapParts(f, parts[1..])
  }

  lemma {:induction false} MapPartsAppend<V, W>(f: V -> W, a: seq<Part<V>>, b: seq<Part<V>>)
    ensures MapParts(f, a + b) == MapParts(f, a) + MapParts(f, b)
  {
    if a == [] {
      assert a + b == b;
    } else {
      assert (a + b)[1..] == a[1..] + b;
      MapPartsAppend(f, a[1..], b);
    }
  }
}

/**
 The operator tables: how the three boolean operators act on a kind of value.
 A table is the pair of operations that the virtual machine asks of its operators.
 Both see the value stack with its newest value last.
 */
module Operators {
  import opened Wrappers
  import opened Polish

  datatype Table<!V> = Table(
    operate: (BooleanOperator, seq<V>) -> Option<V>,
    shortCircuit: (BooleanOperator, seq<V>) -> Option<(V, nat)>)

  /**
   What the machine relies on: given exactly its operands an operator yields a value, and a short circuit
   consumes one existing value of a binary operator. It keeps every stack index and count in range.
   */
  ghost predicate Lawful<V(!new)>(table: Table<V>) {
    && (forall op: BooleanOperator, vs: seq<V> {:trigger table.operate(op, vs)} ::
          |vs| == Operand(op) ==> table.operate(op, vs).Some?)
    && (forall op: BooleanOperator, vs: seq<V> {:trigger table.shortCircuit(op, vs)} ::
          table.shortCircuit(op, vs).Some? ==> vs != [] && op != Not && table.shortCircuit(op, vs).value.1 == 1)
  }

  /**
   A leaf outcome: whether the leaf matched, or why that could not be decided. The operators pass errors
   on and never look inside, so a number stands for each error.
   */
  datatype Outcome = Matched(flag: bool) | Failed(error: int) {
    function Negate(): Outcome {
      match this
      case Matched(b) => Matched(!b)
      case Failed(e) => Failed(e)
    }
  }

  function OperateBool(op: BooleanOperator, vs: seq<bool>): Option<bool> {
    match op
    case And => if |vs| < 1 then None else if !vs[0] then Some(false) else if |vs| < 2 then None else Some(vs[1])
    case Or => if |vs| < 1 then None else if vs[0] then Some(true) else if |vs| < 2 then None else Some(vs[1])
    case Not => if |vs| < 1 then None else Some(!vs[0])
  }

  function ShortCircuitBool(op: BooleanOperator, vs: seq<bool>): Option<(bool, nat)> {
    if vs == [] then None
    else match op
      case And => if !vs[|vs| - 1] then Some((false, 1)) else None
      case Or => if vs[|vs| - 1] then Some((true, 1)) else None
      case Not => None
  }

  /** The right operand's error wins when both operands are errors. */
  function Combine(op: Binary, l: Outcome, r: Outcome): Outcome {
    match (r, l)
    case (Failed(e), _) => Failed(e)
    case (Matched(_), Failed(e)) => Failed(e)
    case (Matched(y), Matched(x)) => Matched(if op == And then x && y else x || y)
  }

  function OperateOutcome(op: BooleanOperator, vs: seq<Outcome>): Option<Outcome> {
    match op
    case And => if |vs| < 2 then None else Some(Combine(And, vs[0], vs[1]))
    case Or => if |vs| < 2 then None else Some(Combine(Or, vs[0], vs[1]))
    case Not => if |vs| < 1 then None else Some(vs[0].Negate())
  }

  /** A left operand decides a binary operator when it is an error or the operator's dominating value. */
  predicate Decides(op: Binary, v: Outcome) {
    v.Failed? || v.flag == (op == Or)
  }

  function ShortCircuitOutcome(op: BooleanOperator, vs: seq<Outcome>): Option<(Outcome, nat)> {
    if vs == [] || op == Not then None
    else
      var v := vs[|vs| - 1];
      if Decides(op, v) then Some((v, 1)) else None
  }

  function OperateUnit(op: BooleanOperator, vs: seq<()>): Option<()> {
    if |vs| < Operand(op) then None else Some(())
  }

  function Booleans(): Table<bool> {
    Table((op, vs) => OperateBool(op, vs), (op, vs) => ShortCircuitBool(op, vs))
  }

  function Outcomes(): Table<Outcome> {
    Table((op, vs) => OperateOutcome(op, vs), (op, vs) => ShortCircuitOutcome(op, vs))
  }

  /** The arity table never short-circuits: it only counts. */
  function Units(): Table<()> {
    Table((op, vs) => OperateUnit(op, vs), (op: BooleanOperator, vs: seq<()>) => None)
  }

  lemma TablesAreLawful()
    ensures Lawful(Booleans()) && Lawful(Outcomes()) && Lawful(Units())
  {
  }
}

/** The short-circuiting stack machine that runs a prefix expression. */
module VirtualMachine {
  import opened Wrappers
  import opened Polish
  import opened Operators

  /** A machine state; `skip` is the number of operands still to be skipped. */
  datatype State<+V> = State(skip: nat, ops: seq<BooleanOperator>, values: seq<V>)

  function Push<V>(s: State<V>, v: V): State<V> {
    s.(values := s.values + [v])
  }

  function PushOp<V>(s: State<V>, op: BooleanOperator): State<V> {
    s.(ops := s.ops + [op])
  }

  function Start<V>(): State<V> { State(0, [], []) }

  /** Apply or short-circuit pending operators, newest first, until one must wait. */
  function Settle<V(!new)>(table: Table<V>, s: State<V>): (r: Result<State<V>, EvalPolishError>)
    requires Lawful(table)
    decreases |s.ops|
  {
    if s.ops == [] then Ok(s)
    else
      var op, rest := s.ops[|s.ops| - 1], s.ops[..|s.ops| - 1];
      var n := |s.values|;
      if n >= Operand(op) then
        match table.operate(op, s.values[n - Operand(op)..])
        case None => Err(MissingOperands)
        case Some(v) => Settle(table, State(s.skip, rest, s.values[..n - Operand(op)] + [v]))
      else
        match table.shortCircuit(op, s.values)
        case None => Ok(s)
        case Some((v, consumed)) =>
          Settle(table, State(s.skip + Operand(op) - consumed, rest, s.values[..n - consumed] + [v]))
  }

  function Feed<V(!new)>(table: Table<V>, s: State<V>, part: Part<V>): Result<State<V>, EvalPolishError>
    requires Lawful(table)
  {
    match part
    case Operator(op) => Ok(if s.skip == 0 then PushOp(s, op) else s.(skip := s.skip + Operand(op) - 1))
    case Expr(v) => if s.skip == 0 then Settle(table, Push(s, v)) else Ok(s.(skip := s.skip - 1))
  }

  function FeedAll<V(!new)>(table: Table<V>, s: State<V>, parts: seq<Part<V>>): Result<State<V>, EvalPolishError>
    requires Lawful(table)
    decreases |parts|
  {
    if parts == [] then Ok(s)
    else match Feed(table, s, parts[0])
      case Err(e) => Err(e)
      case Ok(next) => FeedAll(table, next, parts[1..])
  }

  function Finish<V>(s: State<V>): Result<V, EvalPolishError> {
    if s.ops != [] || s.skip != 0 || s.values == [] then Err(IncompleteExpression)
    else if |s.values| != 1 then Err(ExtraOperands)
    else Ok(s.values[0])
  }

  function Run<V(!new)>(table: Table<V>, parts: seq<Part<V>>): Result<V, EvalPolishError>
    requires Lawful(table)
  {
    match FeedAll(table, Start(), parts)
    case Err(e) => Err(e)
    case Ok(s) => Finish(s)
  }

  /** Settling unfolds by one operator; the operands and values it takes are there. */
  lemma SettleOnce<V(!new)>(table: Table<V>, s: State<V>)
    requires Lawful(table)
    ensures s.ops == [] ==> Settle(table, s) == Ok(s)
    ensures s.ops != [] ==>
              var op, rest, n := s.ops[|s.ops| - 1], s.ops[..|s.ops| - 1], |s.values|;
              if n >= Operand(op) then
                var v := table.operate(op, s.values[n - Operand(op)..]);
                v.Some? && Settle(table, s) == Settle(table, State(s.skip, rest, s.values[..n - Operand(op)] + [v.value]))
              else
                match table.shortCircuit(op, s.values)
                case None => Settle(table, s) == Ok(s)
                case Some((v, consumed)) =>
                  n >= 1 && Operand(op) == 2 && consumed == 1
                  && Settle(table, s) == Settle(table, State(s.skip + 1, rest, s.values[..n - 1] + [v]))
  {
  }

  /** The machine itself, updated in place. */
  class VM<V(!new)> {
    const table: Table<V>
    var shortCircuit: nat
    var ops: seq<BooleanOperator>
    var values: seq<V>

    constructor (table: Table<V>)
      ensures this.table == table && Abs() == Start()
    {
      this.table := table;
      shortCircuit, ops, values := 0, [], [];
    }

    function Abs(): State<V>
      reads this
    {
      State(shortCircuit, ops, values)
    }

    method TryEval() returns (r: Result<(), EvalPolishError>)
      requires Lawful(table)
      modifies this
      ensures match Settle(table, old(Abs()))
              case Ok(s) => r == Ok(()) && Abs() == s
              case Err(e) => r == Err(e)
    {
      hide Settle, Lawful;
      while ops != []
        invariant Settle(table, Abs()) == Settle(table, old(Abs()))
        decreases |ops|
      {
        var op := ops[|ops| - 1];
        SettleOnce(table, Abs());
        if |values| >= Operand(op) {
          var cut := |values| - Operand(op);
          var value := table.operate(op, values[cut..]);
          if value.None? {
            return Err(MissingOperands);
          }
          values := values[..cut] + [value.value];
          ops := ops[..|ops| - 1];
        } else {
          var taken := table.shortCircuit(op, values);
          if taken.None? {
            break;
          }
          var (value, consumed) := taken.value;
          values := values[..|values| - consumed] + [value];
          shortCircuit := shortCircuit + (Operand(op) - consumed);
          ops := ops[..|ops| - 1];
        }
      }
      SettleOnce(table, Abs());
      return Ok(());
    }

    method TryRun(parts: seq<Part<V>>) returns (r: Result<V, EvalPolishError>)
      requires Lawful(table) && Abs() == Start()
      modifies this
      ensures r == Run(table, parts)
    {
      for i := 0 to |parts|
        invariant FeedAll(table, Start(), parts) == FeedAll(table, Abs(), parts[i..])
      {
        assert parts[i..][1..] == parts[i + 1..];
        ghost var before := Abs();
        match parts[i] {
          case Operator(op) =>
            if shortCircuit == 0 {
              ops := ops + [op];
            } else {
              shortCircuit := shortCircuit + (Operand(op) - 1);
            }
          case Expr(value) =>
            if shortCircuit == 0 {
              values := values + [value];
              var settled := TryEval();
              if settled.Err? {
                return Err(settled.error);
              }
            } else {
              shortCircuit := shortCircuit - 1;
            }
        }
        assert Feed(table, before, parts[i]) == Ok(Abs());
      }
      if ops != [] || shortCircuit != 0 || values == [] {
        return Err(IncompleteExpression);
      }
      if |values| != 1 {
        return Err(ExtraOperands);
      }
      return Ok(values[0]);
    }
  }

  /** A lawful table never lacks operands, so a run can only end incomplete or with extra operands. */
  lemma {:induction false} SettleSucceeds<V(!new)>(table: Table<V>, s: State<V>)
    requires Lawful(table)
    ensures Settle(table, s).Ok?
    decreases |s.ops|
  {
    if s.ops != [] {
      var op, rest := s.ops[|s.ops| - 1], s.ops[..|s.ops| - 1];
      var n := |s.values|;
      if n >= Operand(op) {
        var v := table.operate(op, s.values[n - Operand(op)..]);
        SettleSucceeds(table, State(s.skip, rest, s.values[..n - Operand(op)] + [v.value]));
      } else if table.shortCircuit(op, s.values).Some? {
        var (v, consumed) := table.shortCircuit(op, s.values).value;
        SettleSucceeds(table, State(s.skip + Operand(op) - consumed, rest, s.values[..n - consumed] + [v]));
      }
    }
  }

  lemma {:induction false} FeedAllAppend<V(!new)>(table: Table<V>, s: State<V>, a: seq<Part<V>>, b: seq<Part<V>>)
    requires Lawful(table)
    ensures FeedAll(table, s, a + b) ==
            match FeedAll(table, s, a)
            case Err(e) => Err(e)
            case Ok(m) => FeedAll(table, m, b)
    decreases |a|
  {
    if a == [] {
      assert a + b == b;
    } else {
      assert (a + b)[1..] == a[1..] + b;
      match Feed(table, s, a[0])
      case Err(e) =>
      case Ok(next) => FeedAllAppend(table, next, a[1..], b);
    }
  }
}
