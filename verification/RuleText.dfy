/** Characters and words as the rule lexer and the pattern parser see them. */
module Text {
  import opened Wrappers

  /** What a tilde stands for in the names of identities. */
  const DHTTP_SUFFIX := ".dhttp.net"

  /** The Unicode `White_Space` characters. */
  predicate IsWhitespace(c: char) {
    var n := c as int;
    || 0x9 <= n <= 0xD || n == 0x20 || n == 0x85 || n == 0xA0 || n == 0x1680 || 0x2000 <= n <= 0x200A
    || n == 0x2028 || n == 0x2029 || n == 0x202F || n == 0x205F || n == 0x3000
  }

  function Lower(c: char): char {
    if 'A' <= c <= 'Z' then (c as int + 32) as char else c
  }

  predicate EqIgnoreAsciiCase(a: string, b: string) {
    |a| == |b| && forall i :: 0 <= i < |a| ==> Lower(a[i]) == Lower(b[i])
  }

  function Replace(s: string, c: char, with: string): string {
    if s == "" then ""
    else (if s[0] == c then with else [s[0]]) + Replace(s[1..], c, with)
  }

  lemma {:induction false} ReplaceAppend(s: string, t: string, c: char, with: string)
    ensures Replace(s + t, c, with) == Replace(s, c, with) + Replace(t, c, with)
  {
    if s == "" {
      assert s + t == t;
    } else {
      assert (s + t)[1..] == s[1..] + t;
      ReplaceAppend(s[1..], t, c, with);
    }
  }

  lemma {:induction false} ReplaceNothing(s: string, c: char, with: string)
    requires c !in s
    ensures Replace(s, c, with) == s
  {
    if s != "" {
      ReplaceNothing(s[1..], c, with);
      assert s == [s[0]] + s[1..];
    }
  }

  lemma {:induction false} ReplaceRemoves(s: string, c: char, with: string)
    requires c !in with
    ensures c !in Replace(s, c, with)
  {
    if s != "" {
      ReplaceRemoves(s[1..], c, with);
    }
  }

  /** The text before and after the first space. */
  function SplitOnce(s: string): (r: Option<(string, string)>)
    ensures r.Some? ==> s == r.value.0 + [' '] + r.value.1 && ' ' !in r.value.0
    ensures r.None? ==> ' ' !in s
  {
    if s == "" then None
    else if s[0] == ' ' then Some(("", s[1..]))
    else match SplitOnce(s[1..])
      case None => None
      case Some((a, b)) => Some(([s[0]] + a, b))
  }

  lemma {:induction false} SplitAt(a: string, b: string)
    requires ' ' !in a
    ensures SplitOnce(a + [' '] + b) == Some((a, b))
  {
    if a == "" {
      assert a + [' '] + b == [' '] + b;
    } else {
      assert (a + [' '] + b)[1..] == a[1..] + [' '] + b;
      SplitAt(a[1..], b);
      assert a == [a[0]] + a[1..];
    }
  }
}

/**
 Patterns are represented by their text: the kind and the compiled regex are functions of it, and two patterns
 are equal exactly when their texts are. Compilation and the reachability check are given as an oracle.
 */
module Patterns {
  import opened Wrappers
  import opened Text

  datatype Domain = ClientNames | HttpMethods | HeaderNames | HeaderValues | QueryKeys | QueryValues

  datatype Oracle = Oracle(compiles: string -> bool, reachable: (Domain, string) -> bool)

  datatype InvalidPatternExpr = InvalidPattern(expr: string) | InvalidAtomic(expr: string)

  const DHTTP_SUFFIX_REGEX := "\\.dhttp\\.net"

  function ExpandGlobOrExact(input: string): string {
    Replace(input, '~', DHTTP_SUFFIX)
  }

  function ExpandRegex(input: string): string {
    Replace(input, '~', DHTTP_SUFFIX_REGEX)
  }

  function CanonicalizeNamePattern(pattern: string): string {
    match SplitOnce(pattern)
    case Some((head, tail)) =>
      if head == "~" then "~ " + ExpandRegex(tail)
      else if head == "~*" then "~* " + ExpandRegex(tail)
      else if head == "=" then "= " + ExpandGlobOrExact(tail)
      else if head == "*" then "* " + ExpandGlobOrExact(tail)
      else ExpandGlobOrExact(pattern)
    case None => ExpandGlobOrExact(pattern)
  }

  predicate IsMarker(head: string) {
    head == "~" || head == "~*" || head == "=" || head == "*"
  }

  lemma MarkedCanonical(head: string, tail: string, with: string)
    requires IsMarker(head)
    requires with == if head == "~" || head == "~*" then DHTTP_SUFFIX_REGEX else DHTTP_SUFFIX
    ensures CanonicalizeNamePattern(head + " " + Replace(tail, '~', with)) == head + " " + Replace(tail, '~', with)
  {
    hide Replace, SplitOnce;
    ReplaceRemoves(tail, '~', with);
    ReplaceNothing(Replace(tail, '~', with), '~', with);
    assert head + " " == head + [' '];
    SplitAt(head, Replace(tail, '~', with));
  }

  lemma UnmarkedCanonical(pattern: string)
    requires SplitOnce(pattern).Some? ==> !IsMarker(SplitOnce(pattern).value.0)
    ensures CanonicalizeNamePattern(ExpandGlobOrExact(pattern)) == ExpandGlobOrExact(pattern)
  {
    var expanded := ExpandGlobOrExact(pattern);
    ReplaceRemoves(pattern, '~', DHTTP_SUFFIX);
    ReplaceNothing(expanded, '~', DHTTP_SUFFIX);
    match SplitOnce(expanded)
    case None =>
    case Some((head, tail)) =>
      assert '~' !in head by {
        assert expanded == head + [' '] + tail;
      }
      if IsMarker(head) {
        NoNewMarker(pattern, head, tail);
      }
  }

  /** Expansion brings in neither spaces nor markers, so a marker after it was one before. */
  lemma NoNewMarker(pattern: string, head: string, tail: string)
    requires SplitOnce(ExpandGlobOrExact(pattern)) == Some((head, tail)) && (head == "=" || head == "*")
    ensures SplitOnce(pattern).Some? && SplitOnce(pattern).value.0 == head
  {
    assert (head + [' '] + tail)[|head|] == ' ';
    if SplitOnce(pattern).None? {
      ExpandKeepsSpaceless(pattern);
      assert false;
    }
    var (a, b) := SplitOnce(pattern).value;
    ReplaceAppend(a + [' '], b, '~', DHTTP_SUFFIX);
    ReplaceAppend(a, [' '], '~', DHTTP_SUFFIX);
    ReplaceNothing([' '], '~', DHTTP_SUFFIX);
    ExpandKeepsSpaceless(a);
    SplitAt(ExpandGlobOrExact(a), ExpandGlobOrExact(b));
    ExpandSingle(a);
  }

  lemma {:induction false} ExpandGrows(s: string)
    ensures |ExpandGlobOrExact(s)| >= |s|
  {
    if s != "" {
      ExpandGrows(s[1..]);
    }
  }

  lemma ExpandSingle(s: string)
    ensures |ExpandGlobOrExact(s)| == 1 ==> ExpandGlobOrExact(s) == s
  {
    if s != "" {
      ExpandGrows(s[1..]);
    }
  }

  lemma {:induction false} ExpandKeepsSpaceless(s: string)
    requires ' ' !in s
    ensures ' ' !in ExpandGlobOrExact(s)
  {
    if s != "" {
      ExpandKeepsSpaceless(s[1..]);
    }
  }

  /** A canonical pattern text reparses to itself. */
  lemma CanonicalizeIdempotent(pattern: string)
    ensures CanonicalizeNamePattern(CanonicalizeNamePattern(pattern)) == CanonicalizeNamePattern(pattern)
  {
    match SplitOnce(pattern)
    case Some((head, tail)) =>
      assert "~" + " " == "~ " && "~*" + " " == "~* " && "=" + " " == "= " && "*" + " " == "* ";
      if head == "~" || head == "~*" {
        MarkedCanonical(head, tail, DHTTP_SUFFIX_REGEX);
      } else if head == "=" || head == "*" {
        MarkedCanonical(head, tail, DHTTP_SUFFIX);
      } else {
        UnmarkedCanonical(pattern);
      }
    case None => UnmarkedCanonical(pattern);
  }
}

/** The leaves of a rule and their printed form. */
module Atoms {
  import opened Wrappers
  import opened Polish
  import opened Text
  import opened Patterns

  datatype Atom =
    | Any
    | ClientName(pattern: string)
    | Method(pattern: string)
    | Header(key: string, value: string)
    | Query(key: string, value: string)

  /** What the constructors of the leaves have checked. */
  predicate Valid(oracle: Oracle, atom: Atom) {
    match atom
    case Any => true
    case ClientName(p) => CanonicalizeNamePattern(p) == p && oracle.compiles(p) && oracle.reachable(ClientNames, p)
    case Method(p) => oracle.compiles(p) && oracle.reachable(HttpMethods, p)
    case Header(k, v) =>
      oracle.compiles(k) && oracle.compiles(v) && oracle.reachable(HeaderNames, k) && oracle.reachable(HeaderValues, v)
    case Query(k, v) =>
      oracle.compiles(k) && oracle.compiles(v) && oracle.reachable(QueryKeys, k) && oracle.reachable(QueryValues, v)
  }

  predicate ValidParts(oracle: Oracle, parts: seq<Part<Atom>>) {
    forall i :: 0 <= i < |parts| && parts[i].Expr? ==> Valid(oracle, parts[i].value)
  }

  function EscapePattern(pattern: string): string {
    Replace(Replace(pattern, '\\', "\\\\"), '"', "\\\"")
  }

  function Quote(pattern: string): string {
    "\"" + EscapePattern(pattern) + "\""
  }

  function PrintAtom(atom: Atom): string {
    match atom
    case Any => "*?"
    case ClientName(p) => Quote(p)
    case Method(p) => "With Method " + Quote(p)
    case Header(k, v) => "With Header " + Quote(k) + ":" + Quote(v)
    case Query(k, v) => "With Query " + Quote(k) + ":" + Quote(v)
  }

  function PrintPart(part: Part<Atom>): string {
    match part
    case Operator(And) => "AND"
    case Operator(Or) => "OR"
    case Operator(Not) => "NOT"
    case Expr(atom) => PrintAtom(atom)
  }

  function Printed(parts: seq<Part<Atom>>): string {
    if parts == [] then "" else PrintPart(parts[0]) + " " + Printed(parts[1..])
  }

  lemma {:induction false} PrintedSnoc(parts: seq<Part<Atom>>, part: Part<Atom>)
    ensures Printed(parts + [part]) == Printed(parts) + PrintPart(part) + " "
  {
    hide PrintPart;
    if parts == [] {
      assert parts + [part] == [part] && [part][1..] == [];
    } else {
      assert (parts + [part])[1..] == parts[1..] + [part];
      PrintedSnoc(parts[1..], part);
    }
  }

  /** The stored text, built up part by part. */
  method Serialize(parts: seq<Part<Atom>>) returns (s: string)
    ensures s == Printed(parts)
  {
    s := "";
    for i := 0 to |parts|
      invariant s == Printed(parts[..i])
    {
      assert parts[..i + 1] == parts[..i] + [parts[i]];
      PrintedSnoc(parts[..i], parts[i]);
      s := s + PrintPart(parts[i]) + " ";
    }
    assert parts[..|parts|] == parts;
  }

  /** Both replacements together escape each quote and each backslash once. */
  function EscapeChar(c: char): string {
    if c == '\\' then "\\\\" else if c == '"' then "\\\"" else [c]
  }

  lemma {:induction false} EscapeCons(p: string)
    requires p != ""
    ensures EscapePattern(p) == EscapeChar(p[0]) + EscapePattern(p[1..])
  {
    var first := if p[0] == '\\' then "\\\\" else [p[0]];
    ReplaceAppend(first, Replace(p[1..], '\\', "\\\\"), '"', "\\\"");
    if p[0] == '\\' {
      ReplaceNothing("\\\\", '"', "\\\"");
    } else {
      assert [p[0]][1..] == "";
    }
  }
}

/** Tokens, and the lexer as ordered choices that never back out of a repetition. */
module Lexer {
  import opened Wrappers
  import opened Text
  import opened Atoms

  datatype Token = Unquoted(text: string) | Quoted(text: string) | Symbol(symbol: char)

  /** The longest run of characters inside quotes, decoded, and what follows it. */
  function QuotedChars(s: string): (r: (string, string))
    ensures |r.1| <= |s| && (r.1 == "" || r.1[0] == '"')
  {
    if |s| >= 2 && s[0] == '\\' && s[1] == '"' then
      var (chars, rest) := QuotedChars(s[2..]);
      (['"'] + chars, rest)
    else if |s| >= 2 && s[0] == '\\' && s[1] == '\\' then
      var (chars, rest) := QuotedChars(s[2..]);
      (['\\'] + chars, rest)
    else if s != "" && s[0] != '"' then
      var (chars, rest) := QuotedChars(s[1..]);
      ([s[0]] + chars, rest)
    else ("", s)
  }

  predicate IsSymbol(c: char) {
    c == ':' || c == '(' || c == ')'
  }

  predicate IsUnquotedChar(c: char) {
    !IsWhitespace(c) && !IsSymbol(c) && c != '"'
  }

  function UnquotedChars(s: string): (r: (string, string))
    ensures s == r.0 + r.1
  {
    if s != "" && IsUnquotedChar(s[0]) then
      var (chars, rest) := UnquotedChars(s[1..]);
      ([s[0]] + chars, rest)
    else ("", s)
  }

  function LexToken(s: string): (r: Option<(Token, string)>)
    requires s != "" && !IsWhitespace(s[0])
    ensures r.Some? ==> |r.value.1| < |s|
  {
    if s[0] == '"' then
      var (chars, rest) := QuotedChars(s[1..]);
      if rest == "" then None else Some((Quoted(chars), rest[1..]))
    else if IsSymbol(s[0]) then Some((Symbol(s[0]), s[1..]))
    else
      var (chars, rest) := UnquotedChars(s);
      Some((Unquoted(chars), rest))
  }

  function SkipWhitespace(s: string): (rest: string)
    ensures |rest| <= |s| && (rest == "" || !IsWhitespace(rest[0]))
  {
    if s != "" && IsWhitespace(s[0]) then SkipWhitespace(s[1..]) else s
  }

  function Lex(s: string): Option<seq<Token>>
    decreases |s|
  {
    var t := SkipWhitespace(s);
    if t == "" then Some([])
    else match LexToken(t)
      case None => None
      case Some((token, rest)) =>
        match Lex(rest)
        case None => None
        case Some(tokens) => Some([token] + tokens)
  }

  lemma QuotedCharsCons(c: char, tail: string)
    ensures QuotedChars(EscapeChar(c) + tail) == ([c] + QuotedChars(tail).0, QuotedChars(tail).1)
  {
    var s := EscapeChar(c) + tail;
    assert s[|EscapeChar(c)|..] == tail;
  }

  lemma NothingEscaped()
    ensures EscapePattern("") == ""
  {
  }

  lemma QuotedCharsEnd(rest: string)
    ensures QuotedChars("\"" + rest) == ("", "\"" + rest)
  {
  }

  lemma {:induction false} QuotedCharsDecode(p: string, rest: string)
    ensures QuotedChars(EscapePattern(p) + "\"" + rest) == (p, "\"" + rest)
  {
    hide QuotedChars, EscapePattern;
    if p == "" {
      NothingEscaped();
      assert EscapePattern(p) + "\"" + rest == "\"" + rest;
      QuotedCharsEnd(rest);
    } else {
      EscapeCons(p);
      var tail := EscapePattern(p[1..]) + "\"" + rest;
      assert EscapePattern(p) + "\"" + rest == EscapeChar(p[0]) + tail;
      QuotedCharsCons(p[0], tail);
      QuotedCharsDecode(p[1..], rest);
      assert p == [p[0]] + p[1..];
    }
  }

  function Prepend(tokens: seq<Token>, lexed: Option<seq<Token>>): Option<seq<Token>> {
    match lexed case None => None case Some(ts) => Some(tokens + ts)
  }

  lemma PrependTwice(a: seq<Token>, b: seq<Token>, lexed: Option<seq<Token>>)
    ensures Prepend(a, Prepend(b, lexed)) == Prepend(a + b, lexed)
  {
    if lexed.Some? {
      assert a + (b + lexed.value) == a + b + lexed.value;
    }
  }

  lemma LexQuoted(p: string, rest: string)
    ensures Lex(Quote(p) + rest) == Prepend([Quoted(p)], Lex(rest))
  {
    var s := Quote(p) + rest;
    assert s[1..] == EscapePattern(p) + "\"" + rest;
    QuotedCharsDecode(p, rest);
    assert ("\"" + rest)[1..] == rest;
    assert SkipWhitespace(s) == s;
  }

  predicate IsWord(word: string) {
    word != "" && forall i :: 0 <= i < |word| ==> IsUnquotedChar(word[i])
  }

  lemma {:induction false} UnquotedCharsWord(word: string, rest: string)
    requires forall i :: 0 <= i < |word| ==> IsUnquotedChar(word[i])
    requires rest == "" || !IsUnquotedChar(rest[0])
    ensures UnquotedChars(word + rest) == (word, rest)
  {
    if word == "" {
      assert word + rest == rest;
    } else {
      assert (word + rest)[1..] == word[1..] + rest;
      UnquotedCharsWord(word[1..], rest);
      assert word == [word[0]] + word[1..];
    }
  }

  lemma LexSpace(rest: string)
    ensures Lex(" " + rest) == Lex(rest)
  {
    assert (" " + rest)[1..] == rest;
  }

  lemma LexWord(word: string, rest: string)
    requires IsWord(word)
    ensures Lex(word + " " + rest) == Prepend([Unquoted(word)], Lex(rest))
  {
    var s := word + " " + rest;
    assert s == word + (" " + rest);
    assert s[0] == word[0];
    UnquotedCharsWord(word, " " + rest);
    assert SkipWhitespace(s) == s;
    LexSpace(rest);
  }

  lemma LexColon(rest: string)
    ensures Lex(":" + rest) == Prepend([Symbol(':')], Lex(rest))
  {
    var s := ":" + rest;
    assert s[1..] == rest && SkipWhitespace(s) == s;
  }
}
