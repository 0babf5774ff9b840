/**
 The two grammars of access rules over tokens. Every rule is an ordered choice: it either fails or matches a
 nonempty run of tokens; a pattern that does not compile is a value of the match, not a failure to match.
 */
module Grammar {
  import opened Wrappers
  import opened Polish
  import opened Text
  import opened Patterns
  import opened Atoms
  import opened Lexer

  type Tokens = seq<Token>
  type Parts = seq<Part<Atom>>
  type Checked<T> = Result<T, InvalidPatternExpr>

  datatype Match<+T> = Missing | Found(value: T, rest: Tokens)

  ghost predicate Shortens<T>(m: Match<T>, ts: Tokens) {
    m.Found? ==> |m.rest| < |ts|
  }

  predicate IsText(ts: Tokens) {
    ts != [] && !ts[0].Symbol?
  }

  /** A keyword is recognised only unquoted. */
  predicate IsKeyword(ts: Tokens, word: string) {
    ts != [] && ts[0].Unquoted? && EqIgnoreAsciiCase(ts[0].text, word)
  }

  predicate IsWordToken(ts: Tokens, word: string) {
    IsText(ts) && EqIgnoreAsciiCase(ts[0].text, word)
  }

  predicate IsColon(ts: Tokens) {
    ts != [] && match ts[0] case Symbol(c) => c == ':' case t => EqIgnoreAsciiCase(t.text, ":")
  }

  predicate IsSymbolToken(ts: Tokens, c: char) {
    ts != [] && ts[0] == Symbol(c)
  }

  function ParseNormal(oracle: Oracle, expr: string, text: string): Checked<string> {
    if oracle.compiles(text) then Ok(text) else Err(InvalidPattern(expr))
  }

  function ParseClientName(oracle: Oracle, text: string): Checked<Atom> {
    if !oracle.compiles(text) then Err(InvalidPattern("client_name_pattern"))
    else
      var canonical := CanonicalizeNamePattern(text);
      if !oracle.compiles(canonical) || !oracle.reachable(ClientNames, canonical) then
        Err(InvalidPattern("client_name_pattern"))
      else Ok(ClientName(canonical))
  }

  datatype Kind = HeaderKind | QueryKind | MethodKind

  function NewPair(oracle: Oracle, kind: Kind, key: string, value: string): Checked<Atom> {
    if kind == HeaderKind then
      if oracle.reachable(HeaderNames, key) && oracle.reachable(HeaderValues, value) then Ok(Header(key, value))
      else Err(InvalidAtomic("header_pattern"))
    else if oracle.reachable(QueryKeys, key) && oracle.reachable(QueryValues, value) then Ok(Query(key, value))
    else Err(InvalidAtomic("query_pattern"))
  }

  function KeyExpr(kind: Kind): string { if kind == HeaderKind then "header_key" else "query_key" }
  function ValueExpr(kind: Kind): string { if kind == HeaderKind then "header_value" else "query_value" }

  /** `key:value`, or a bare key with the value pattern `*`. */
  function PairPattern(oracle: Oracle, kind: Kind, ts: Tokens): (m: Match<Checked<Atom>>)
    ensures Shortens(m, ts)
  {
    if !IsText(ts) then Missing
    else
      var key := ParseNormal(oracle, KeyExpr(kind), ts[0].text);
      if IsColon(ts[1..]) && IsText(ts[2..]) then
        var value := ParseNormal(oracle, ValueExpr(kind), ts[2].text);
        Found(
          match key
          case Err(e) => Err(e)
          case Ok(k) => match value case Err(e) => Err(e) case Ok(v) => NewPair(oracle, kind, k, v),
          ts[3..])
      else
        Found(
          match ParseNormal(oracle, ValueExpr(kind), "*")
          case Err(e) => Err(e)
          case Ok(v) => match key case Err(e) => Err(e) case Ok(k) => NewPair(oracle, kind, k, v),
          ts[1..])
  }

  function MethodPattern(oracle: Oracle, ts: Tokens): (m: Match<Checked<Atom>>)
    ensures Shortens(m, ts)
  {
    if !IsText(ts) then Missing
    else
      Found(
        match ParseNormal(oracle, "method_pattern", ts[0].text)
        case Err(e) => Err(e)
        case Ok(p) =>
          if oracle.reachable(HttpMethods, p) then Ok(Method(p)) else Err(InvalidAtomic("method_pattern")),
        ts[1..])
  }

  function KindPattern(oracle: Oracle, kind: Kind, ts: Tokens): (m: Match<Checked<Atom>>)
    ensures Shortens(m, ts)
  {
    if kind == MethodKind then MethodPattern(oracle, ts) else PairPattern(oracle, kind, ts)
  }

  function ClientNameToken(oracle: Oracle, ts: Tokens): (m: Match<Checked<Atom>>)
    ensures Shortens(m, ts)
  {
    if IsText(ts) then Found(ParseClientName(oracle, ts[0].text), ts[1..]) else Missing
  }

  // ----- the prefix grammar, read back from storage

  function WithAtom(oracle: Oracle, ts: Tokens): (m: Match<Checked<Atom>>)
    ensures Shortens(m, ts)
  {
    var header := if IsWordToken(ts, "header") then PairPattern(oracle, HeaderKind, ts[1..]) else Missing;
    if header.Found? then header
    else
      var query := if IsKeyword(ts, "query") then PairPattern(oracle, QueryKind, ts[1..]) else Missing;
      if query.Found? then query
      else if IsKeyword(ts, "method") then MethodPattern(oracle, ts[1..])
      else Missing
  }

  function AtomicLocationRuleExpr(oracle: Oracle, ts: Tokens): (m: Match<Checked<Atom>>)
    ensures Shortens(m, ts)
  {
    if IsKeyword(ts, "*?") then Found(Ok(Any), ts[1..])
    else
      var scoped := if IsKeyword(ts, "with") then WithAtom(oracle, ts[1..]) else Missing;
      if scoped.Found? then scoped else ClientNameToken(oracle, ts)
  }

  function RulePart(oracle: Oracle, ts: Tokens): (m: Match<Checked<Part<Atom>>>)
    ensures Shortens(m, ts)
  {
    if IsKeyword(ts, "not") then Found(Ok(Operator(Not)), ts[1..])
    else if IsKeyword(ts, "and") then Found(Ok(Operator(And)), ts[1..])
    else if IsKeyword(ts, "or") then Found(Ok(Operator(Or)), ts[1..])
    else match AtomicLocationRuleExpr(oracle, ts)
      case Missing => Missing
      case Found(Ok(atom), rest) => Found(Ok(Expr(atom)), rest)
      case Found(Err(e), rest) => Found(Err(e), rest)
  }

  /** All parts up to the end of the tokens; the first invalid pattern is the result's error. */
  function PolishParts(oracle: Oracle, ts: Tokens): Option<Checked<Parts>>
    decreases |ts|
  {
    if ts == [] then Some(Ok([]))
    else match RulePart(oracle, ts)
      case Missing => None
      case Found(part, rest) =>
        match PolishParts(oracle, rest)
        case None => None
        case Some(more) =>
          Some(match part
               case Err(e) => Err(e)
               case Ok(p) => match more case Err(e) => Err(e) case Ok(ps) => Ok([p] + ps))
  }

  // ----- the infix grammar, written by the user

  /** What an operand of a composite is: a location pattern, or inside its brackets a pattern of one kind. */
  datatype Level = Locations | Inside(kind: Kind)

  function Prefixed(op: BooleanOperator, parts: Checked<Parts>): Checked<Parts> {
    match parts case Err(e) => Err(e) case Ok(ps) => Ok([Operator(op)] + ps)
  }

  function Join(op: Binary, l: Checked<Parts>, r: Checked<Parts>): Checked<Parts> {
    match l
    case Err(e) => Err(e)
    case Ok(x) => match r case Err(e) => Err(e) case Ok(y) => Ok([Operator(op)] + x + y)
  }

  function Single(atom: Checked<Atom>): Checked<Parts> {
    match atom case Err(e) => Err(e) case Ok(a) => Ok([Expr(a)])
  }

  function LiftAtom(m: Match<Checked<Atom>>): Match<Checked<Parts>> {
    match m case Missing => Missing case Found(a, rest) => Found(Single(a), rest)
  }

  /** One pattern of a kind; a method pattern may be negated without brackets. */
  function InsidePattern(oracle: Oracle, kind: Kind, ts: Tokens): (m: Match<Checked<Parts>>)
    ensures Shortens(m, ts)
  {
    var negated := if kind == MethodKind && IsKeyword(ts, "not") then LiftAtom(MethodPattern(oracle, ts[1..])) else Missing;
    if negated.Found? then Found(Prefixed(Not, negated.value), negated.rest)
    else LiftAtom(KindPattern(oracle, kind, ts))
  }

  function KindOf(ts: Tokens): Option<Kind> {
    if IsKeyword(ts, "header") then Some(HeaderKind)
    else if IsKeyword(ts, "query") then Some(QueryKind)
    else if IsKeyword(ts, "method") then Some(MethodKind)
    else None
  }

  function BinaryKeyword(ts: Tokens): Option<Binary> {
    if IsKeyword(ts, "and") then Some(And) else if IsKeyword(ts, "or") then Some(Or) else None
  }

  function LevelOperand(oracle: Oracle, level: Level, ts: Tokens): (m: Match<Checked<Parts>>)
    ensures Shortens(m, ts)
    decreases |ts|, 1
  {
    match level
    case Inside(kind) => InsidePattern(oracle, kind, ts)
    case Locations =>
      match KindOf(ts)
      case None => Missing
      case Some(kind) =>
        var grouped := Bracketed(oracle, Inside(kind), ts[1..]);
        if grouped.Found? then grouped else InsidePattern(oracle, kind, ts[1..])
  }

  function Bracketed(oracle: Oracle, level: Level, ts: Tokens): (m: Match<Checked<Parts>>)
    ensures Shortens(m, ts)
    decreases |ts|, 0
  {
    if !IsSymbolToken(ts, '(') then Missing
    else match Composite(oracle, level, ts[1..])
      case Missing => Missing
      case Found(parts, rest) => if IsSymbolToken(rest, ')') then Found(parts, rest[1..]) else Missing
  }

  /** A negation, an operand, or a bracketed composite, tried in this order. */
  function Term(oracle: Oracle, level: Level, ts: Tokens): (m: Match<Checked<Parts>>)
    ensures Shortens(m, ts)
    decreases |ts|, 2
  {
    var negated := if IsKeyword(ts, "not") then Term(oracle, level, ts[1..]) else Missing;
    if negated.Found? then Found(Prefixed(Not, negated.value), negated.rest)
    else
      var operand := LevelOperand(oracle, level, ts);
      if operand.Found? then operand else Bracketed(oracle, level, ts)
  }

  /** `and` and `or` bind alike and to the left. */
  function Joined(oracle: Oracle, level: Level, left: Checked<Parts>, ts: Tokens): (m: Match<Checked<Parts>>)
    ensures m.Found? && |m.rest| <= |ts|
    decreases |ts|, 2
  {
    match BinaryKeyword(ts)
    case None => Found(left, ts)
    case Some(op) =>
      match Term(oracle, level, ts[1..])
      case Missing => Found(left, ts)
      case Found(right, rest) => Joined(oracle, level, Join(op, left, right), rest)
  }

  function Composite(oracle: Oracle, level: Level, ts: Tokens): (m: Match<Checked<Parts>>)
    ensures Shortens(m, ts)
    decreases |ts|, 3
  {
    match Term(oracle, level, ts)
    case Missing => Missing
    case Found(first, rest) => Joined(oracle, level, first, rest)
  }

  function Profile(oracle: Oracle, ts: Tokens): (m: Match<Checked<Atom>>)
    ensures Shortens(m, ts)
  {
    if IsKeyword(ts, "*?") then Found(Ok(Any), ts[1..]) else ClientNameToken(oracle, ts)
  }

  function Scope(oracle: Oracle, ts: Tokens): (m: Match<Checked<Parts>>)
    ensures Shortens(m, ts)
  {
    var scoped := if IsKeyword(ts, "with") then Composite(oracle, Locations, ts[1..]) else Missing;
    if scoped.Found? then scoped
    else if IsKeyword(ts, "without") then
      match Composite(oracle, Locations, ts[1..])
      case Missing => Missing
      case Found(parts, rest) => Found(Prefixed(Not, parts), rest)
    else Missing
  }

  /** A whole rule: a client profile, optionally narrowed by location patterns, and nothing after it. */
  function InfixParts(oracle: Oracle, ts: Tokens): Option<Checked<Parts>> {
    match Profile(oracle, ts)
    case Missing => None
    case Found(profile, rest) =>
      match Scope(oracle, rest)
      case Missing => if rest == [] then Some(Single(profile)) else None
      case Found(patterns, end) => if end == [] then Some(Join(And, Single(profile), patterns)) else None
  }
}

/** Storing a rule and loading it again. */
module RuleStorage {
  import opened Wrappers
  import opened Polish
  import opened Text
  import opened Patterns
  import opened Atoms
  import opened Lexer
  import opened Grammar
  import Arity

  datatype LoadError = LexError | ParseError | PatternError(source: InvalidPatternExpr) | InvalidPolish(reason: EvalPolishError)

  function Deserialize(oracle: Oracle, text: string): Result<Parts, LoadError> {
    match Lex(text)
    case None => Err(LexError)
    case Some(tokens) =>
      match PolishParts(oracle, tokens)
      case None => Err(ParseError)
      case Some(Err(e)) => Err(PatternError(e))
      case Some(Ok(parts)) =>
        match Arity.ValidateArity(parts)
        case Err(e) => Err(InvalidPolish(e))
        case Ok(_) => Ok(parts)
  }

  function PartTokens(part: Part<Atom>): Tokens {
    match part
    case Operator(_) => [Unquoted(PrintPart(part))]
    case Expr(Any) => [Unquoted("*?")]
    case Expr(ClientName(p)) => [Quoted(p)]
    case Expr(Method(p)) => [Unquoted("With"), Unquoted("Method"), Quoted(p)]
    case Expr(Header(k, v)) => [Unquoted("With"), Unquoted("Header"), Quoted(k), Symbol(':'), Quoted(v)]
    case Expr(Query(k, v)) => [Unquoted("With"), Unquoted("Query"), Quoted(k), Symbol(':'), Quoted(v)]
  }

  function PartsTokens(parts: Parts): Tokens {
    if parts == [] then [] else PartTokens(parts[0]) + PartsTokens(parts[1..])
  }

  lemma LexPair(k: string, v: string, rest: string)
    ensures Lex(Quote(k) + ":" + Quote(v) + " " + rest) == Prepend([Quoted(k), Symbol(':'), Quoted(v)], Lex(rest))
  {
    hide Lex, Quote;
    var end := " " + rest;
    calc {
      Lex(Quote(k) + ":" + Quote(v) + " " + rest);
      { assert Quote(k) + ":" + Quote(v) + " " + rest == Quote(k) + (":" + (Quote(v) + end)); }
      Lex(Quote(k) + (":" + (Quote(v) + end)));
      { LexQuoted(k, ":" + (Quote(v) + end)); }
      Prepend([Quoted(k)], Lex(":" + (Quote(v) + end)));
      { LexColon(Quote(v) + end); }
      Prepend([Quoted(k)], Prepend([Symbol(':')], Lex(Quote(v) + end)));
      { LexQuoted(v, end); LexSpace(rest); }
      Prepend([Quoted(k)], Prepend([Symbol(':')], Prepend([Quoted(v)], Lex(rest))));
      { PrependTwice([Symbol(':')], [Quoted(v)], Lex(rest));
        PrependTwice([Quoted(k)], [Symbol(':')] + [Quoted(v)], Lex(rest));
        assert [Quoted(k)] + ([Symbol(':')] + [Quoted(v)]) == [Quoted(k), Symbol(':'), Quoted(v)]; }
      Prepend([Quoted(k), Symbol(':'), Quoted(v)], Lex(rest));
    }
  }

  lemma LexWith(word: string, rest: string)
    requires IsWord(word)
    ensures Lex("With " + word + " " + rest) == Prepend([Unquoted("With"), Unquoted(word)], Lex(rest))
  {
    hide Lex;
    LexWord(word, rest);
    LexWord("With", word + " " + rest);
    assert "With " + word + " " + rest == "With" + " " + (word + " " + rest);
    PrependTwice([Unquoted("With")], [Unquoted(word)], Lex(rest));
    assert [Unquoted("With")] + [Unquoted(word)] == [Unquoted("With"), Unquoted(word)];
  }

  lemma LexMethod(p: string, rest: string)
    ensures Lex("With Method " + Quote(p) + " " + rest) ==
            Prepend([Unquoted("With"), Unquoted("Method"), Quoted(p)], Lex(rest))
  {
    hide Lex, Quote;
    LexSpace(rest);
    LexQuoted(p, " " + rest);
    LexWith("Method", Quote(p) + (" " + rest));
    assert "With Method " + Quote(p) + " " + rest == "With " + "Method" + " " + (Quote(p) + (" " + rest));
    var head := [Unquoted("With"), Unquoted("Method")];
    PrependTwice(head, [Quoted(p)], Lex(rest));
    assert head + [Quoted(p)] == [Unquoted("With"), Unquoted("Method"), Quoted(p)];
  }

  lemma LexScopedPair(word: string, k: string, v: string, rest: string)
    requires IsWord(word)
    ensures Lex("With " + word + " " + Quote(k) + ":" + Quote(v) + " " + rest) ==
            Prepend([Unquoted("With"), Unquoted(word), Quoted(k), Symbol(':'), Quoted(v)], Lex(rest))
  {
    hide Lex, Quote;
    var pair := Quote(k) + ":" + Quote(v) + " " + rest;
    LexPair(k, v, rest);
    LexWith(word, pair);
    assert "With " + word + " " + Quote(k) + ":" + Quote(v) + " " + rest == "With " + word + " " + pair;
    var head, tail := [Unquoted("With"), Unquoted(word)], [Quoted(k), Symbol(':'), Quoted(v)];
    PrependTwice(head, tail, Lex(rest));
    assert head + tail == [Unquoted("With"), Unquoted(word), Quoted(k), Symbol(':'), Quoted(v)];
  }

  lemma LexPart(part: Part<Atom>, rest: string)
    ensures Lex(PrintPart(part) + " " + rest) == Prepend(PartTokens(part), Lex(rest))
  {
    hide Lex, Quote;
    match part
    case Operator(op) =>
      LexWord(PrintPart(part), rest);
    case Expr(Any) =>
      LexWord("*?", rest);
    case Expr(ClientName(p)) =>
      LexQuoted(p, " " + rest);
      LexSpace(rest);
      assert Quote(p) + " " + rest == Quote(p) + (" " + rest);
    case Expr(Method(p)) =>
      LexMethod(p, rest);
    case Expr(Header(k, v)) =>
      LexScopedPair("Header", k, v, rest);
      assert PrintPart(part) + " " + rest == "With " + "Header" + " " + Quote(k) + ":" + Quote(v) + " " + rest;
    case Expr(Query(k, v)) =>
      LexScopedPair("Query", k, v, rest);
      assert PrintPart(part) + " " + rest == "With " + "Query" + " " + Quote(k) + ":" + Quote(v) + " " + rest;
  }

  lemma {:induction false} LexPrinted(parts: Parts)
    ensures Lex(Printed(parts)) == Some(PartsTokens(parts))
    decreases |parts|
  {
    if parts != [] {
      LexPart(parts[0], Printed(parts[1..]));
      LexPrinted(parts[1..]);
    }
  }

  lemma Misspells(word: string, keyword: string, i: nat)
    requires i < |word| == |keyword| && Lower(word[i]) != Lower(keyword[i])
    ensures !EqIgnoreAsciiCase(word, keyword)
  {
  }

  lemma Capitalized(word: string, keyword: string)
    requires |word| == |keyword| > 0 && Lower(word[0]) == Lower(keyword[0]) && word[1..] == keyword[1..]
    ensures EqIgnoreAsciiCase(word, keyword)
  {
    forall i | 0 <= i < |word| ensures Lower(word[i]) == Lower(keyword[i]) {
      if i > 0 {
        assert word[i] == word[1..][i - 1] && keyword[i] == keyword[1..][i - 1];
      }
    }
  }

  /** The printed keywords are recognised as themselves and as nothing else. */
  lemma PrintedOperators()
    ensures EqIgnoreAsciiCase("NOT", "not") && EqIgnoreAsciiCase("AND", "and") && EqIgnoreAsciiCase("OR", "or")
    ensures !EqIgnoreAsciiCase("AND", "not")
    ensures !EqIgnoreAsciiCase("*?", "or")
  {
    Misspells("AND", "not", 0);
    Misspells("*?", "or", 0);
  }

  lemma PrintedScopes()
    ensures EqIgnoreAsciiCase("With", "with")
    ensures EqIgnoreAsciiCase("Header", "header")
    ensures EqIgnoreAsciiCase("Query", "query")
    ensures EqIgnoreAsciiCase("Method", "method") && !EqIgnoreAsciiCase("Method", "header")
  {
    assert "With"[1..] == "ith" == "with"[1..];
    Capitalized("With", "with");
    assert "Header"[1..] == "eader" == "header"[1..];
    Capitalized("Header", "header");
    assert "Query"[1..] == "uery" == "query"[1..];
    Capitalized("Query", "query");
    assert "Method"[1..] == "ethod" == "method"[1..];
    Capitalized("Method", "method");
    Misspells("Method", "header", 0);
  }

  lemma ParsePair(oracle: Oracle, kind: Kind, k: string, v: string, rest: Tokens)
    requires kind != MethodKind && oracle.compiles(k) && oracle.compiles(v)
    ensures PairPattern(oracle, kind, [Quoted(k), Symbol(':'), Quoted(v)] + rest) ==
            Found(NewPair(oracle, kind, k, v), rest)
  {
    var ts := [Quoted(k), Symbol(':'), Quoted(v)] + rest;
    assert ts[1..][0] == Symbol(':') && ts[2..][0] == Quoted(v) && ts[3..] == rest;
  }

  lemma ParseScoped(oracle: Oracle, atom: Atom, rest: Tokens)
    requires Valid(oracle, atom) && (atom.Method? || atom.Header? || atom.Query?)
    ensures WithAtom(oracle, PartTokens(Expr(atom))[1..] + rest) == Found(Ok(atom), rest)
  {
    PrintedScopes();
    var ts := PartTokens(Expr(atom))[1..] + rest;
    match atom
    case Method(p) =>
      assert ts[1..] == [Quoted(p)] + rest && ts[1..][1..] == rest;
    case Header(k, v) =>
      assert ts[1..] == [Quoted(k), Symbol(':'), Quoted(v)] + rest;
      ParsePair(oracle, HeaderKind, k, v, rest);
    case Query(k, v) =>
      assert ts[1..] == [Quoted(k), Symbol(':'), Quoted(v)] + rest;
      ParsePair(oracle, QueryKind, k, v, rest);
  }

  lemma ParseOperator(oracle: Oracle, op: BooleanOperator, rest: Tokens)
    ensures RulePart(oracle, PartTokens(Operator(op)) + rest) == Found(Ok(Operator(op)), rest)
  {
    hide AtomicLocationRuleExpr;
    PrintedOperators();
    var ts := PartTokens(Operator(op)) + rest;
    assert ts[0] == Unquoted(PrintPart(Operator(op))) && ts[1..] == rest;
  }

  lemma ParseShortAtom(oracle: Oracle, atom: Atom, rest: Tokens)
    requires Valid(oracle, atom) && (atom.Any? || atom.ClientName?)
    ensures RulePart(oracle, PartTokens(Expr(atom)) + rest) == Found(Ok(Expr(atom)), rest)
  {
    hide WithAtom;
    PrintedOperators();
    var ts := PartTokens(Expr(atom)) + rest;
    assert ts[0] == PartTokens(Expr(atom))[0] && ts[1..] == rest;
  }

  lemma ParseScopedPart(oracle: Oracle, atom: Atom, rest: Tokens)
    requires Valid(oracle, atom) && (atom.Method? || atom.Header? || atom.Query?)
    ensures RulePart(oracle, PartTokens(Expr(atom)) + rest) == Found(Ok(Expr(atom)), rest)
  {
    hide WithAtom;
    PrintedScopes();
    ParseScoped(oracle, atom, rest);
    var ts := PartTokens(Expr(atom)) + rest;
    assert ts[0] == Unquoted("With") && ts[1..] == PartTokens(Expr(atom))[1..] + rest;
  }

  lemma ParsePart(oracle: Oracle, part: Part<Atom>, rest: Tokens)
    requires part.Expr? ==> Valid(oracle, part.value)
    ensures RulePart(oracle, PartTokens(part) + rest) == Found(Ok(part), rest)
  {
    hide RulePart, PartTokens;
    match part
    case Operator(op) => ParseOperator(oracle, op, rest);
    case Expr(atom) =>
      if atom.Any? || atom.ClientName? {
        ParseShortAtom(oracle, atom, rest);
      } else {
        ParseScopedPart(oracle, atom, rest);
      }
  }

  lemma {:induction false} ParseTokens(oracle: Oracle, parts: Parts)
    requires ValidParts(oracle, parts)
    ensures PolishParts(oracle, PartsTokens(parts)) == Some(Ok(parts))
    decreases |parts|
  {
    hide RulePart, PartTokens;
    if parts != [] {
      ParsePart(oracle, parts[0], PartsTokens(parts[1..]));
      ParseTokens(oracle, parts[1..]);
      assert parts == [parts[0]] + parts[1..];
    }
  }

  /**
   A stored rule loads as itself, for pattern texts with any quotes, backslashes or keyword spellings, exactly
   when it passes the arity check.
   */
  lemma StoredRuleLoads(oracle: Oracle, parts: Parts)
    requires ValidParts(oracle, parts)
    ensures Deserialize(oracle, Printed(parts)) ==
            match Arity.ValidateArity(parts) case Ok(_) => Ok(parts) case Err(e) => Err(InvalidPolish(e))
  {
    LexPrinted(parts);
    ParseTokens(oracle, parts);
  }

  /** Printing is injective on stored rules: two rules with one text are the same rule. */
  lemma PrintedInjective(oracle: Oracle, a: Parts, b: Parts)
    requires ValidParts(oracle, a) && ValidParts(oracle, b) && Printed(a) == Printed(b)
    ensures a == b
  {
    LexPrinted(a);
    ParseTokens(oracle, a);
    LexPrinted(b);
    ParseTokens(oracle, b);
  }
}
