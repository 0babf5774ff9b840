/** Written rules as syntax trees: what the precedence of the infix grammar makes of a run of tokens. */
module Syntaxes {
  import opened Wrappers
  import opened Polish
  import opened Patterns
  import opened Atoms
  import opened Lexer
  import opened Trees
  import opened Grammar

  datatype Syntax =
    | Pattern(tokens: Tokens, negated: bool, atom: Atom)
    | Scoped(keyword: Token, inner: Syntax)
    | Group(inner: Syntax)
    | Negated(keyword: Token, inner: Syntax)
    | Chain(left: Syntax, keyword: Token, op: Binary, right: Syntax)

  function Yield(e: Syntax): (ts: Tokens) {
    match e
    case Pattern(tokens, _, _) => tokens
    case Scoped(k, inner) => [k] + Yield(inner)
    case Group(inner) => [Symbol('(')] + Yield(inner) + [Symbol(')')]
    case Negated(k, inner) => [k] + Yield(inner)
    case Chain(l, k, _, r) => Yield(l) + [k] + Yield(r)
  }

  function TreeOf(e: Syntax): Tree<Atom> {
    match e
    case Pattern(_, negated, atom) => if negated then Negation(Leaf(atom)) else Leaf(atom)
    case Scoped(_, inner) => TreeOf(inner)
    case Group(inner) => TreeOf(inner)
    case Negated(_, inner) => Negation(TreeOf(inner))
    case Chain(l, _, op, r) => Node(op, TreeOf(l), TreeOf(r))
  }

  /** The tokens of a single pattern of a kind and the leaf they stand for. */
  predicate IsPattern(kind: Kind, tokens: Tokens, negated: bool, atom: Atom) {
    match kind
    case MethodKind =>
      var body := if negated then tokens[if tokens == [] then 0 else 1..] else tokens;
      (negated ==> IsKeyword(tokens, "not")) && |body| == 1 && IsText(body) && atom == Method(body[0].text)
    case _ =>
      && !negated && IsText(tokens) && (|tokens| == 1 || (|tokens| == 3 && IsColon(tokens[1..]) && IsText(tokens[2..])))
      && var value := if |tokens| == 1 then "*" else tokens[2].text;
         atom == if kind == HeaderKind then Header(tokens[0].text, value) else Query(tokens[0].text, value)
  }

  predicate IsOperand(oracle: Oracle, level: Level, e: Syntax)
    decreases e, 0
  {
    match level
    case Inside(kind) => e.Pattern? && IsPattern(kind, e.tokens, e.negated, e.atom) && Valid(oracle, e.atom)
    case Locations =>
      && e.Scoped? && KindOf([e.keyword]).Some?
      && var inside := Inside(KindOf([e.keyword]).value);
         if e.inner.Group? then IsComposite(oracle, inside, e.inner.inner) else IsOperand(oracle, inside, e.inner)
  }

  predicate IsTerm(oracle: Oracle, level: Level, e: Syntax)
    decreases e, 1
  {
    match e
    case Negated(k, inner) => IsKeyword([k], "not") && IsTerm(oracle, level, inner)
    case Group(inner) => IsComposite(oracle, level, inner)
    case _ => IsOperand(oracle, level, e)
  }

  /** `and` and `or` on one level, grouping to the left, below negation and brackets. */
  predicate IsComposite(oracle: Oracle, level: Level, e: Syntax)
    decreases e, 2
  {
    match e
    case Chain(l, k, op, r) =>
      BinaryKeyword([k]) == Some(op) && IsComposite(oracle, level, l) && IsTerm(oracle, level, r)
    case _ => IsTerm(oracle, level, e)
  }

  predicate ValidTree(oracle: Oracle, t: Tree<Atom>) {
    match t
    case Leaf(atom) => Valid(oracle, atom)
    case Negation(u) => ValidTree(oracle, u)
    case Node(_, l, r) => ValidTree(oracle, l) && ValidTree(oracle, r)
  }

  lemma {:induction false} ValidTreeLists(oracle: Oracle, t: Tree<Atom>)
    requires ValidTree(oracle, t)
    ensures ValidParts(oracle, Listing(t))
  {
    match t
    case Leaf(_) =>
    case Negation(u) => ValidTreeLists(oracle, u);
    case Node(_, l, r) => ValidTreeLists(oracle, l); ValidTreeLists(oracle, r);
  }

  lemma {:induction false} OperandValid(oracle: Oracle, level: Level, e: Syntax)
    requires IsOperand(oracle, level, e)
    ensures ValidTree(oracle, TreeOf(e))
    decreases e, 0
  {
    if e.Scoped? {
      var inside := Inside(KindOf([e.keyword]).value);
      if e.inner.Group? {
        CompositeValid(oracle, inside, e.inner.inner);
      } else {
        OperandValid(oracle, inside, e.inner);
      }
    }
  }

  lemma {:induction false} CompositeValid(oracle: Oracle, level: Level, e: Syntax)
    requires IsComposite(oracle, level, e) || IsTerm(oracle, level, e)
    ensures ValidTree(oracle, TreeOf(e))
    decreases e, 1
  {
    match e
    case Chain(l, _, _, r) =>
      if IsComposite(oracle, level, e) {
        CompositeValid(oracle, level, l);
        CompositeValid(oracle, level, r);
      }
    case Group(inner) => CompositeValid(oracle, level, inner);
    case Negated(_, inner) => CompositeValid(oracle, level, inner);
    case _ => OperandValid(oracle, level, e);
  }
}

/** A successful infix parse is the prefix listing of the tree that the grammar's precedence gives. */
module InfixSoundness {
  import opened Wrappers
  import opened Polish
  import opened Patterns
  import opened Atoms
  import opened Lexer
  import opened Trees
  import opened Grammar
  import opened Syntaxes

  ghost predicate Gives(e: Syntax, ts: Tokens, parts: Parts, rest: Tokens) {
    ts == Yield(e) + rest && parts == Listing(TreeOf(e))
  }

  lemma KeywordAlone(ts: Tokens)
    requires ts != []
    ensures KindOf(ts) == KindOf([ts[0]]) && BinaryKeyword(ts) == BinaryKeyword([ts[0]])
    ensures IsKeyword(ts, "not") == IsKeyword([ts[0]], "not")
  {
  }

  lemma PairSound(oracle: Oracle, kind: Kind, ts: Tokens, rest: Tokens, atom: Atom) returns (e: Syntax)
    requires kind != MethodKind && PairPattern(oracle, kind, ts) == Found(Ok(atom), rest)
    ensures IsOperand(oracle, Inside(kind), e) && Gives(e, ts, [Expr(atom)], rest)
  {
    var n := if IsColon(ts[1..]) && IsText(ts[2..]) then 3 else 1;
    e := Pattern(ts[..n], false, atom);
    if n == 3 {
      assert ts[..n][1..][0] == ts[1..][0] && ts[..n][2..][0] == ts[2..][0];
    }
  }

  lemma MethodSound(oracle: Oracle, ts: Tokens, rest: Tokens, atom: Atom) returns (e: Syntax)
    requires MethodPattern(oracle, ts) == Found(Ok(atom), rest)
    ensures IsOperand(oracle, Inside(MethodKind), e) && Gives(e, ts, [Expr(atom)], rest)
    ensures e == Pattern(ts[..1], false, atom)
  {
    e := Pattern(ts[..1], false, atom);
  }

  lemma InsideSound(oracle: Oracle, kind: Kind, ts: Tokens, rest: Tokens, parts: Parts) returns (e: Syntax)
    requires InsidePattern(oracle, kind, ts) == Found(Ok(parts), rest)
    ensures IsOperand(oracle, Inside(kind), e) && Gives(e, ts, parts, rest)
  {
    if kind == MethodKind && IsKeyword(ts, "not") && MethodPattern(oracle, ts[1..]).Found? {
      var atom := MethodPattern(oracle, ts[1..]).value.value;
      e := MethodSound(oracle, ts[1..], rest, atom);
      assert ts == [ts[0]] + ts[1..];
      assert ([ts[0]] + e.tokens)[1..] == e.tokens;
      e := Pattern([ts[0]] + e.tokens, true, atom);
    } else if kind == MethodKind {
      e := MethodSound(oracle, ts, rest, MethodPattern(oracle, ts).value.value);
    } else {
      e := PairSound(oracle, kind, ts, rest, PairPattern(oracle, kind, ts).value.value);
    }
  }

  lemma {:induction false} OperandSound(oracle: Oracle, level: Level, ts: Tokens, rest: Tokens, parts: Parts)
    returns (e: Syntax)
    requires LevelOperand(oracle, level, ts) == Found(Ok(parts), rest)
    ensures IsOperand(oracle, level, e) && Gives(e, ts, parts, rest)
    ensures !e.Negated? && !e.Group? && !e.Chain?
    decreases |ts|, 1
  {
    match level
    case Inside(kind) => e := InsideSound(oracle, kind, ts, rest, parts);
    case Locations =>
      var kind := KindOf(ts).value;
      KeywordAlone(ts);
      if Bracketed(oracle, Inside(kind), ts[1..]).Found? {
        e := BracketedSound(oracle, Inside(kind), ts[1..], rest, parts);
      } else {
        e := InsideSound(oracle, kind, ts[1..], rest, parts);
      }
      assert ts == [ts[0]] + ts[1..] == [ts[0]] + Yield(e) + rest;
      e := Scoped(ts[0], e);
  }

  lemma {:induction false} BracketedSound(oracle: Oracle, level: Level, ts: Tokens, rest: Tokens, parts: Parts)
    returns (e: Syntax)
    requires Bracketed(oracle, level, ts) == Found(Ok(parts), rest)
    ensures e.Group? && IsComposite(oracle, level, e.inner) && Gives(e, ts, parts, rest)
    decreases |ts|, 0
  {
    hide Composite, IsComposite, Yield, Listing, TreeOf;
    var close := Composite(oracle, level, ts[1..]).rest;
    var inner := CompositeSound(oracle, level, ts[1..], close, parts);
    assert close == [Symbol(')')] + rest && ts == [Symbol('(')] + ts[1..];
    GroupGives(inner, ts[1..], close, rest, parts);
    e := Group(inner);
  }

  lemma GroupGives(inner: Syntax, ts: Tokens, close: Tokens, rest: Tokens, parts: Parts)
    requires Gives(inner, ts, parts, close) && close == [Symbol(')')] + rest
    ensures Gives(Group(inner), [Symbol('(')] + ts, parts, rest)
  {
    assert [Symbol('(')] + (Yield(inner) + close) == Yield(Group(inner)) + rest;
  }

  lemma {:induction false} TermSound(oracle: Oracle, level: Level, ts: Tokens, rest: Tokens, parts: Parts)
    returns (e: Syntax)
    requires Term(oracle, level, ts) == Found(Ok(parts), rest)
    ensures IsTerm(oracle, level, e) && !e.Chain? && Gives(e, ts, parts, rest)
    decreases |ts|, 2
  {
    if IsKeyword(ts, "not") && Term(oracle, level, ts[1..]).Found? {
      var inner := Term(oracle, level, ts[1..]);
      e := TermSound(oracle, level, ts[1..], rest, inner.value.value);
      KeywordAlone(ts);
      assert ts == [ts[0]] + ts[1..] == [ts[0]] + Yield(e) + rest;
      e := Negated(ts[0], e);
    } else if LevelOperand(oracle, level, ts).Found? {
      e := OperandSound(oracle, level, ts, rest, parts);
    } else {
      e := BracketedSound(oracle, level, ts, rest, parts);
    }
  }

  /** Once a pattern is invalid the whole composite is. */
  lemma {:induction false} JoinedKeepsError(oracle: Oracle, level: Level, error: InvalidPatternExpr, ts: Tokens)
    ensures Joined(oracle, level, Err(error), ts).value == Err(error)
    decreases |ts|
  {
    if BinaryKeyword(ts).Some? {
      match Term(oracle, level, ts[1..])
      case Missing =>
      case Found(_, rest) => JoinedKeepsError(oracle, level, error, rest);
    }
  }

  lemma {:induction false} JoinedSound(
      oracle: Oracle, level: Level, left: Syntax, ts: Tokens, rest: Tokens, parts: Parts)
    returns (e: Syntax)
    requires IsComposite(oracle, level, left)
    requires Joined(oracle, level, Ok(Listing(TreeOf(left))), ts) == Found(Ok(parts), rest)
    ensures IsComposite(oracle, level, e) && Gives(e, Yield(left) + ts, parts, rest)
    decreases |ts|, 2
  {
    hide Term, IsTerm, BinaryKeyword, Listing, TreeOf, Yield, IsComposite;
    e := left;
    if BinaryKeyword(ts).Some? {
      assert ts != [] by {
        KeywordNeedsToken(ts);
      }
      var op := BinaryKeyword(ts).value;
      match Term(oracle, level, ts[1..])
      case Missing =>
      case Found(Err(error), next) =>
        JoinedKeepsError(oracle, level, error, next);
      case Found(Ok(right), next) =>
        var r := TermSound(oracle, level, ts[1..], next, right);
        KeywordAlone(ts);
        var more := Chain(left, ts[0], op, r);
        ChainJoins(oracle, level, left, ts[0], op, r);
        e := JoinedSound(oracle, level, more, next, rest, parts);
        assert ts == [ts[0]] + ts[1..];
        assert Yield(left) + ts == Yield(more) + next;
    }
  }

  lemma KeywordNeedsToken(ts: Tokens)
    ensures BinaryKeyword(ts).Some? ==> ts != []
  {
  }

  /** A chain of one more operand is a composite, and its listing is what joining makes. */
  lemma ChainJoins(oracle: Oracle, level: Level, left: Syntax, k: Token, op: Binary, right: Syntax)
    requires IsComposite(oracle, level, left) && BinaryKeyword([k]) == Some(op) && IsTerm(oracle, level, right)
    ensures IsComposite(oracle, level, Chain(left, k, op, right)) && Yield(Chain(left, k, op, right)) == Yield(left) + [k] + Yield(right)
    ensures Join(op, Ok(Listing(TreeOf(left))), Ok(Listing(TreeOf(right)))) == Ok(Listing(TreeOf(Chain(left, k, op, right))))
  {
  }

  lemma {:induction false} CompositeSound(oracle: Oracle, level: Level, ts: Tokens, rest: Tokens, parts: Parts)
    returns (e: Syntax)
    requires Composite(oracle, level, ts) == Found(Ok(parts), rest)
    ensures IsComposite(oracle, level, e) && Gives(e, ts, parts, rest)
    decreases |ts|, 3
  {
    match Term(oracle, level, ts)
    case Found(Err(error), next) =>
      JoinedKeepsError(oracle, level, error, next);
    case Found(Ok(first), next) =>
      var t := TermSound(oracle, level, ts, next, first);
      e := JoinedSound(oracle, level, t, next, rest, parts);
  }

  /** A written rule: its client profile, and its location patterns if it has any. */
  datatype RuleSyntax = RuleSyntax(profile: Token, atom: Atom, scope: Option<(Token, Syntax)>)

  predicate IsRule(oracle: Oracle, r: RuleSyntax) {
    && Valid(oracle, r.atom)
    && (if IsKeyword([r.profile], "*?") then r.atom == Any
        else !r.profile.Symbol? && r.atom == ClientName(CanonicalizeNamePattern(r.profile.text)))
    && (r.scope.Some? ==>
          && (IsKeyword([r.scope.value.0], "with") || IsKeyword([r.scope.value.0], "without"))
          && IsComposite(oracle, Locations, r.scope.value.1))
  }

  function RuleYield(r: RuleSyntax): Tokens {
    [r.profile] + match r.scope case None => [] case Some((k, e)) => [k] + Yield(e)
  }

  /** `with` narrows the profile by the location patterns, `without` by their negation. */
  function RuleTree(r: RuleSyntax): Tree<Atom> {
    match r.scope
    case None => Leaf(r.atom)
    case Some((k, e)) =>
      Node(And, Leaf(r.atom), if IsKeyword([k], "with") then TreeOf(e) else Negation(TreeOf(e)))
  }

  lemma ProfileSound(oracle: Oracle, ts: Tokens, rest: Tokens, atom: Atom)
    requires Profile(oracle, ts) == Found(Ok(atom), rest)
    ensures ts == [ts[0]] + rest && IsRule(oracle, RuleSyntax(ts[0], atom, None))
  {
    if !IsKeyword(ts, "*?") {
      CanonicalizeIdempotent(ts[0].text);
    }
  }

  lemma InfixSound(oracle: Oracle, ts: Tokens, parts: Parts) returns (r: RuleSyntax)
    requires InfixParts(oracle, ts) == Some(Ok(parts))
    ensures IsRule(oracle, r) && ts == RuleYield(r) && parts == Listing(RuleTree(r))
    ensures ValidTree(oracle, RuleTree(r))
  {
    var profile := Profile(oracle, ts);
    ProfileSound(oracle, ts, profile.rest, profile.value.value);
    r := RuleSyntax(ts[0], profile.value.value, None);
    var rest := profile.rest;
    match Scope(oracle, rest)
    case Missing =>
    case Found(_, _) =>
      var e := ScopeSound(oracle, rest);
      r := r.(scope := Some((rest[0], e)));
      CompositeValid(oracle, Locations, e);
      assert rest == [rest[0]] + Yield(e);
  }

  lemma ScopeSound(oracle: Oracle, ts: Tokens) returns (e: Syntax)
    requires Scope(oracle, ts).Found? && Scope(oracle, ts).value.Ok? && Scope(oracle, ts).rest == []
    ensures ts != [] && (IsKeyword([ts[0]], "with") || IsKeyword([ts[0]], "without"))
    ensures IsComposite(oracle, Locations, e) && ts[1..] == Yield(e)
    ensures Scope(oracle, ts).value.value ==
            Listing(if IsKeyword([ts[0]], "with") then TreeOf(e) else Negation(TreeOf(e)))
  {
    var patterns := Composite(oracle, Locations, ts[1..]);
    e := CompositeSound(oracle, Locations, ts[1..], [], patterns.value.value);
    assert Yield(e) + [] == Yield(e);
  }
}

/** Every tree of location patterns can be written down, and parses back to its own listing. */
module InfixCompleteness {
  import opened Wrappers
  import opened Polish
  import opened Text
  import opened Patterns
  import opened Atoms
  import opened Lexer
  import opened Trees
  import opened Grammar
  import opened Syntaxes

  predicate IsLocationTree(t: Tree<Atom>) {
    match t
    case Leaf(atom) => atom.Method? || atom.Header? || atom.Query?
    case Negation(u) => IsLocationTree(u)
    case Node(_, l, r) => IsLocationTree(l) && IsLocationTree(r)
  }

  function WriteAtom(atom: Atom): Tokens
    requires atom.Method? || atom.Header? || atom.Query?
  {
    match atom
    case Method(p) => [Unquoted("method"), Quoted(p)]
    case Header(k, v) => [Unquoted("header"), Quoted(k), Symbol(':'), Quoted(v)]
    case Query(k, v) => [Unquoted("query"), Quoted(k), Symbol(':'), Quoted(v)]
  }

  /** A chain of operators is written without brackets on its left, every other operand with them. */
  function Write(t: Tree<Atom>): Tokens
    requires IsLocationTree(t)
    decreases t, 1
  {
    match t
    case Node(op, l, r) => Write(l) + [Unquoted(if op == And then "and" else "or")] + WriteTerm(r)
    case _ => WriteTerm(t)
  }

  function WriteTerm(t: Tree<Atom>): Tokens
    requires IsLocationTree(t)
    decreases t, if t.Node? then 2 else 0
  {
    match t
    case Leaf(atom) => WriteAtom(atom)
    case Negation(u) => [Unquoted("not")] + WriteTerm(u)
    case Node(_, _, _) => [Symbol('(')] + Write(t) + [Symbol(')')]
  }

  lemma Differ(word: string, keyword: string)
    requires word != "" && keyword != "" && Lower(word[0]) != Lower(keyword[0])
    ensures !EqIgnoreAsciiCase(word, keyword)
  {
  }

  lemma Keywords()
    ensures EqIgnoreAsciiCase("not", "not") && EqIgnoreAsciiCase("and", "and") && EqIgnoreAsciiCase("or", "or")
    ensures EqIgnoreAsciiCase("method", "method") && EqIgnoreAsciiCase("header", "header")
    ensures EqIgnoreAsciiCase("query", "query")
    ensures !EqIgnoreAsciiCase("or", "and") && !EqIgnoreAsciiCase("query", "header")
    ensures !EqIgnoreAsciiCase("method", "header") && !EqIgnoreAsciiCase("method", "query")
    ensures !EqIgnoreAsciiCase("method", "not") && !EqIgnoreAsciiCase("header", "not") && !EqIgnoreAsciiCase("query", "not")
  {
    Differ("or", "and");
    Differ("query", "header");
    Differ("method", "header");
    Differ("method", "query");
    Differ("method", "not");
    Differ("header", "not");
    Differ("query", "not");
  }

  lemma WrittenPair(oracle: Oracle, kind: Kind, k: string, v: string, rest: Tokens)
    requires kind != MethodKind && oracle.compiles(k) && oracle.compiles(v)
    ensures InsidePattern(oracle, kind, [Quoted(k), Symbol(':'), Quoted(v)] + rest) ==
            Found(Single(NewPair(oracle, kind, k, v)), rest)
  {
    var ts := [Quoted(k), Symbol(':'), Quoted(v)] + rest;
    assert ts[1..][0] == Symbol(':') && ts[2..][0] == Quoted(v) && ts[3..] == rest;
  }

  lemma WrittenAtom(oracle: Oracle, atom: Atom, rest: Tokens)
    requires (atom.Method? || atom.Header? || atom.Query?) && Valid(oracle, atom)
    ensures LevelOperand(oracle, Locations, WriteAtom(atom) + rest) == Found(Ok([Expr(atom)]), rest)
  {
    Keywords();
    var ts := WriteAtom(atom) + rest;
    match atom
    case Method(p) =>
      assert ts[1..] == [Quoted(p)] + rest && ts[1..][1..] == rest;
    case Header(k, v) =>
      assert ts[1..] == [Quoted(k), Symbol(':'), Quoted(v)] + rest;
      WrittenPair(oracle, HeaderKind, k, v, rest);
    case Query(k, v) =>
      assert ts[1..] == [Quoted(k), Symbol(':'), Quoted(v)] + rest;
      WrittenPair(oracle, QueryKind, k, v, rest);
  }

  lemma TermOfAtom(oracle: Oracle, atom: Atom, rest: Tokens)
    requires IsLocationTree(Leaf(atom)) && Valid(oracle, atom)
    ensures Term(oracle, Locations, WriteAtom(atom) + rest) == Found(Ok([Expr(atom)]), rest)
  {
    Keywords();
    WrittenAtom(oracle, atom, rest);
    assert (WriteAtom(atom) + rest)[0] == WriteAtom(atom)[0];
  }

  lemma TermNegated(oracle: Oracle, ts: Tokens, parts: Parts, rest: Tokens)
    requires Term(oracle, Locations, ts) == Found(Ok(parts), rest)
    ensures Term(oracle, Locations, [Unquoted("not")] + ts) == Found(Ok([Operator(Not)] + parts), rest)
  {
    Keywords();
    assert ([Unquoted("not")] + ts)[1..] == ts;
  }

  lemma TermBracketed(oracle: Oracle, ts: Tokens, parts: Parts, rest: Tokens)
    requires Composite(oracle, Locations, ts) == Found(Ok(parts), [Symbol(')')] + rest)
    ensures Term(oracle, Locations, [Symbol('(')] + ts) == Found(Ok(parts), rest)
  {
    hide Composite;
    assert ([Symbol('(')] + ts)[1..] == ts && ([Symbol(')')] + rest)[1..] == rest;
  }

  lemma {:induction false} WrittenTerm(oracle: Oracle, t: Tree<Atom>, rest: Tokens)
    requires IsLocationTree(t) && ValidTree(oracle, t)
    ensures Term(oracle, Locations, WriteTerm(t) + rest) == Found(Ok(Listing(t)), rest)
    decreases t, if t.Node? then 2 else 0
  {
    hide Term, Composite, WriteAtom, Write, Joined;
    match t
    case Leaf(atom) => TermOfAtom(oracle, atom, rest);
    case Negation(u) =>
      WrittenTerm(oracle, u, rest);
      TermNegated(oracle, WriteTerm(u) + rest, Listing(u), rest);
      assert WriteTerm(t) + rest == [Unquoted("not")] + (WriteTerm(u) + rest);
    case Node(_, _, _) =>
      var close := [Symbol(')')] + rest;
      WrittenComposite(oracle, t, close);
      ClosingStays(oracle, Listing(t), rest);
      TermBracketed(oracle, Write(t) + close, Listing(t), rest);
      assert WriteTerm(t) + rest == [Symbol('(')] + (Write(t) + close);
  }

  lemma ClosingStays(oracle: Oracle, parts: Parts, rest: Tokens)
    ensures Joined(oracle, Locations, Ok(parts), [Symbol(')')] + rest) == Found(Ok(parts), [Symbol(')')] + rest)
  {
  }

  /** One more operator word and term behind a composite. */
  lemma JoinsNext(oracle: Oracle, op: Binary, left: Parts, right: Parts, ts: Tokens, rest: Tokens)
    requires Term(oracle, Locations, ts) == Found(Ok(right), rest)
    ensures Joined(oracle, Locations, Ok(left), [Unquoted(if op == And then "and" else "or")] + ts) ==
            Joined(oracle, Locations, Ok([Operator(op)] + left + right), rest)
  {
    hide Term;
    Keywords();
    var tail := [Unquoted(if op == And then "and" else "or")] + ts;
    assert tail[1..] == ts;
  }

  lemma {:induction false} WrittenComposite(oracle: Oracle, t: Tree<Atom>, rest: Tokens)
    requires IsLocationTree(t) && ValidTree(oracle, t)
    ensures Composite(oracle, Locations, Write(t) + rest) == Joined(oracle, Locations, Ok(Listing(t)), rest)
    decreases t, 1
  {
    hide Term, Joined, WriteTerm;
    match t
    case Node(op, l, r) =>
      var word := Unquoted(if op == And then "and" else "or");
      assert Write(t) + rest == Write(l) + ([word] + (WriteTerm(r) + rest));
      hide Write;
      WrittenComposite(oracle, l, [word] + (WriteTerm(r) + rest));
      WrittenTerm(oracle, r, rest);
      JoinsNext(oracle, op, Listing(l), Listing(r), WriteTerm(r) + rest, rest);
    case _ =>
      WrittenTerm(oracle, t, rest);
  }

  lemma JoinsNothing(oracle: Oracle, parts: Parts)
    ensures Joined(oracle, Locations, Ok(parts), []) == Found(Ok(parts), [])
  {
  }

  lemma ScopedRule(oracle: Oracle, body: Tokens, parts: Parts)
    requires Composite(oracle, Locations, body) == Found(Ok(parts), [])
    ensures InfixParts(oracle, [Unquoted("*?"), Unquoted("with")] + body) == Some(Ok([Operator(And)] + [Expr(Any)] + parts))
  {
    hide Composite;
    var ts := [Unquoted("*?"), Unquoted("with")] + body;
    assert ts[1..] == [Unquoted("with")] + body && ts[1..][1..] == body;
    assert EqIgnoreAsciiCase("*?", "*?") && EqIgnoreAsciiCase("with", "with");
  }

  /** Writing location patterns behind a profile and parsing the rule gives back the tree's prefix listing. */
  lemma WrittenRuleParses(oracle: Oracle, t: Tree<Atom>)
    requires IsLocationTree(t) && ValidTree(oracle, t)
    ensures InfixParts(oracle, [Unquoted("*?"), Unquoted("with")] + Write(t)) == Some(Ok(Listing(Node(And, Leaf(Any), t))))
  {
    hide Composite, Joined, Write, InfixParts;
    assert Write(t) + [] == Write(t);
    WrittenComposite(oracle, t, []);
    JoinsNothing(oracle, Listing(t));
    ScopedRule(oracle, Write(t), Listing(t));
    assert Listing(Node(And, Leaf(Any), t)) == [Operator(And)] + [Expr(Any)] + Listing(t);
  }
}

/** From written rule to stored rule to decision. */
module RuleMeaning {
  import InfixCompleteness
  import opened Wrappers
  import opened Polish
  import opened Operators
  import opened VirtualMachine
  import opened OutcomeMachine
  import opened Arity
  import opened Text
  import opened Patterns
  import opened Atoms
  import opened Lexer
  import opened Trees
  import opened Grammar
  import opened RuleStorage
  import opened Syntaxes
  import opened InfixSoundness

  function MapTree<V, W>(f: V -> W, t: Tree<V>): (u: Tree<W>)
    ensures SameShape(t, u)
  {
    match t
    case Leaf(v) => Leaf(f(v))
    case Negation(of) => Negation(MapTree(f, of))
    case Node(op, l, r) => Node(op, MapTree(f, l), MapTree(f, r))
  }

  lemma {:induction false} MapListing<V, W>(f: V -> W, t: Tree<V>)
    ensures MapParts(f, Listing(t)) == Listing(MapTree(f, t))
  {
    match t
    case Leaf(v) =>
      assert [Expr(v)][1..] == [];
    case Negation(u) =>
      hide MapParts;
      MapOperator(f, Not, Listing(u));
      MapListing(f, u);
    case Node(op, l, r) =>
      hide MapParts;
      assert Listing(t) == [Operator(op)] + (Listing(l) + Listing(r));
      MapOperator(f, op, Listing(l) + Listing(r));
      MapPartsAppend(f, Listing(l), Listing(r));
      MapListing(f, l);
      MapListing(f, r);
  }

  lemma MapOperator<V, W>(f: V -> W, op: BooleanOperator, rest: seq<Part<V>>)
    ensures MapParts(f, [Operator(op)] + rest) == [Operator(op)] + MapParts(f, rest)
  {
    assert ([Operator(op)] + rest)[1..] == rest;
  }

  lemma {:induction false} EraseMapped<V, W>(f: V -> W, parts: seq<Part<V>>)
    ensures Erase(MapParts(f, parts)) == Erase(parts)
    decreases |parts|
  {
    if parts != [] {
      assert MapParts(f, parts)[1..] == MapParts(f, parts[1..]);
      EraseMapped(f, parts[1..]);
    }
  }

  /** The listing of any tree passes the arity check. */
  lemma ListingHasArity<V>(t: Tree<V>)
    ensures ValidateArity(Listing(t)).Ok?
  {
    var failed := MapTree(_ => Failed(0), t);
    RunAccumulates(failed);
    ArityDecidesAcceptance(Outcomes(), Listing(failed));
    MapListing(_ => Failed(0), t);
    EraseMapped(_ => Failed(0), Listing(t));
  }

  /** A rule that parses can be stored and loaded again unchanged; the arity check on reload always passes. */
  lemma ParsedRuleReloads(oracle: Oracle, text: string, tokens: Tokens, parts: Parts)
    requires Lex(text) == Some(tokens) && InfixParts(oracle, tokens) == Some(Ok(parts))
    ensures Deserialize(oracle, Printed(parts)) == Ok(parts)
  {
    var r := InfixSound(oracle, tokens, parts);
    ValidTreeLists(oracle, RuleTree(r));
    ListingHasArity(RuleTree(r));
    StoredRuleLoads(oracle, parts);
  }

  /** Evaluating stored parts for a request, given as the outcome of every leaf. */
  function EvalParts(request: Atom -> Outcome, parts: Parts): Result<Outcome, EvalPolishError> {
    TablesAreLawful();
    Run(Outcomes(), MapParts(request, parts))
  }

  /**
   A parsed rule decides every request by its meaning when its location patterns are joined by `and` alone, with
   negations in pairs except on single patterns; `Keeps` is that condition, read off the tree. In any
   case it evaluates, to what the machine accumulates.
   */
  lemma ParsedRuleMeans(oracle: Oracle, tokens: Tokens, parts: Parts, request: Atom -> Outcome) returns (r: RuleSyntax)
    requires InfixParts(oracle, tokens) == Some(Ok(parts))
    ensures IsRule(oracle, r) && tokens == RuleYield(r) && parts == Listing(RuleTree(r))
    ensures Keeps(RuleTree(r)) <==> (r.scope.Some? ==> KeepsRight(And, RuleTree(r).right, true))
    ensures Keeps(RuleTree(r)) ==> EvalParts(request, parts) == Ok(Denote(MapTree(request, RuleTree(r))))
    ensures EvalParts(request, parts) == Ok(Accumulated(MapTree(request, RuleTree(r))))
  {
    r := InfixSound(oracle, tokens, parts);
    var t := RuleTree(r);
    var u := MapTree(request, t);
    MapListing(request, t);
    KeepsIsShape(t, u);
    RunAccumulates(u);
    if Keeps(t) {
      RunKeepsMeaning(u);
    }
  }

  function Methods(): Tree<Atom> {
    Node(Or, Leaf(Method("GET")), Leaf(Method("POST")))
  }

  /**
   A rule outside that condition: `*? with method "GET" or method "POST"` means that a GET request matches, but
   the machine applies `or` to the profile's value and the first method, and then waits for the second alone.
   */
  lemma OrLosesItsMeaning(oracle: Oracle, request: Atom -> Outcome)
    requires Valid(oracle, Method("GET")) && Valid(oracle, Method("POST"))
    requires request(Any) == Matched(true) && request(Method("GET")) == Matched(true) && request(Method("POST")) == Matched(false)
    ensures var t, tokens := Node(And, Leaf(Any), Methods()), Lex(OR_RULE);
            && tokens.Some? && InfixParts(oracle, tokens.value) == Some(Ok(Listing(t)))
            && Denote(MapTree(request, t)) == Matched(true)
            && EvalParts(request, Listing(t)) == Ok(Matched(false))
  {
    OrRuleLexes();
    hide Lex, InfixParts, EvalParts;
    OrRuleEvaluates(oracle, request);
  }

  /** The text `*? with method "GET" or method "POST"`. */
  const OR_RULE := "*?" + " " + ("with" + " " + ("method" + " " + ("\"GET\"" + (" " + OR_POST))))
  const OR_POST := "or" + " " + ("method" + " " + "\"POST\"")

  lemma PlainQuote(p: string)
    requires '\\' !in p && '"' !in p
    ensures Quote(p) == "\"" + p + "\""
  {
    hide Replace;
    ReplaceNothing(p, '\\', "\\\\");
    ReplaceNothing(p, '"', "\\\"");
  }

  lemma OrPostLexes()
    ensures Lex(OR_POST) == Some([Unquoted("or"), Unquoted("method"), Quoted("POST")])
  {
    hide Lex, Quote;
    PlainQuote("POST");
    assert "\"" + "POST" + "\"" == "\"POST\"";
    assert Quote("POST") + "" == "\"POST\"";
    LexQuoted("POST", "");
    EmptyLexes();
    LexWord("method", "\"POST\"");
    LexWord("or", "method" + " " + "\"POST\"");
    assert [Quoted("POST")] + [] == [Quoted("POST")];
    assert [Unquoted("method")] + [Quoted("POST")] == [Unquoted("method"), Quoted("POST")];
    assert [Unquoted("or")] + [Unquoted("method"), Quoted("POST")] == [Unquoted("or"), Unquoted("method"), Quoted("POST")];
  }

  lemma OrRuleLexes()
    ensures Lex(OR_RULE) == Some([Unquoted("*?"), Unquoted("with")] + InfixCompleteness.Write(Methods()))
  {
    hide Lex, Quote;
    PlainQuote("GET");
    assert "\"" + "GET" + "\"" == "\"GET\"";
    var rest := "\"GET\"" + (" " + OR_POST);
    LexWord("*?", "with" + " " + ("method" + " " + rest));
    LexWord("with", "method" + " " + rest);
    LexWord("method", rest);
    LexQuoted("GET", " " + OR_POST);
    LexSpace(OR_POST);
    OrPostLexes();
    var post := [Unquoted("or"), Unquoted("method"), Quoted("POST")];
    var scope := [Unquoted("method"), Quoted("GET")] + post;
    assert [Unquoted("method")] + ([Quoted("GET")] + post) == scope;
    assert [Unquoted("*?")] + ([Unquoted("with")] + scope) == [Unquoted("*?"), Unquoted("with")] + scope;
    OrRuleTokens();
  }

  lemma OrRuleTokens()
    ensures InfixCompleteness.Write(Methods()) ==
            [Unquoted("method"), Quoted("GET")] + [Unquoted("or"), Unquoted("method"), Quoted("POST")]
  {
    assert InfixCompleteness.WriteTerm(Leaf(Method("POST"))) == [Unquoted("method"), Quoted("POST")];
    assert InfixCompleteness.Write(Leaf(Method("GET"))) == [Unquoted("method"), Quoted("GET")];
  }

  lemma EmptyLexes()
    ensures Lex("") == Some([])
  {
  }

  lemma OrRuleEvaluates(oracle: Oracle, request: Atom -> Outcome)
    requires Valid(oracle, Method("GET")) && Valid(oracle, Method("POST"))
    requires request(Any) == Matched(true) && request(Method("GET")) == Matched(true) && request(Method("POST")) == Matched(false)
    ensures var t := Node(And, Leaf(Any), Methods());
            && InfixParts(oracle, [Unquoted("*?"), Unquoted("with")] + InfixCompleteness.Write(Methods())) == Some(Ok(Listing(t)))
            && Denote(MapTree(request, t)) == Matched(true)
            && EvalParts(request, Listing(t)) == Ok(Matched(false))
  {
    InfixCompleteness.WrittenRuleParses(oracle, Methods());
    var t := Node(And, Leaf(Any), Methods());
    MapListing(request, t);
    var u := MapTree(request, t);
    assert u == Node(And, Leaf(Matched(true)), Node(Or, Leaf(Matched(true)), Leaf(Matched(false))));
    RunAccumulates(u);
  }
}
