/** The input languages of patterns, as hand-written automata over bytes. */
module Languages {
  import opened Wrappers

  type u16 = n: int | 0 <= n < 65536

  datatype DomainState = DomainState(kind: u16, len: u16, flags: u16)

  /** One implementation of the input language interface. */
  datatype Language = Language(
    start: DomainState,
    step: (DomainState, byte) -> Option<DomainState>,
    isAccept: DomainState -> bool,
    alphabet: seq<byte>)

  function Run(lang: Language, w: seq<byte>): Option<DomainState>
    decreases |w|
  {
    if w == [] then Some(lang.start)
    else match Run(lang, w[..|w| - 1])
      case None => None
      case Some(s) => lang.step(s, w[|w| - 1])
  }

  predicate InLanguage(lang: Language, w: seq<byte>) {
    Run(lang, w).Some? && lang.isAccept(Run(lang, w).value)
  }

  lemma {:induction false} RunStops(lang: Language, w: seq<byte>, i: nat)
    requires i <= |w| && Run(lang, w[..i]).None?
    ensures Run(lang, w).None?
    decreases |w| - i
  {
    if i < |w| {
      assert w[..i + 1][..i] == w[..i];
      RunStops(lang, w, i + 1);
    } else {
      assert w[..i] == w;
    }
  }

  method Accepts(lang: Language, input: seq<byte>) returns (accepted: bool)
    ensures accepted == InLanguage(lang, input)
  {
    var state := lang.start;
    for i := 0 to |input|
      invariant Run(lang, input[..i]) == Some(state)
    {
      assert input[..i + 1][..i] == input[..i];
      match lang.step(state, input[i])
      case None =>
        RunStops(lang, input, i + 1);
        return false;
      case Some(next) => state := next;
    }
    assert input[..|input|] == input;
    return lang.isAccept(state);
  }

  /** Only bytes of the listed alphabet ever take a step. */
  ghost predicate AlphabetSuffices(lang: Language) {
    forall s: DomainState, b: byte {:trigger lang.step(s, b)} :: lang.step(s, b).Some? ==> b in lang.alphabet
  }

  function Range(lo: byte, hi: int): (r: seq<byte>)
    requires lo <= hi <= 256
    ensures |r| == hi - lo && forall i :: 0 <= i < |r| ==> r[i] == lo + i
    ensures forall b: byte :: lo <= b < hi ==> b in r
    decreases hi - lo
  {
    if lo == hi then []
    else if lo == 255 then [255]
    else [lo] + Range(lo + 1, hi)
  }

  const UPPER := Range(65, 91)
  const LOWER := Range(97, 123)
  const DIGITS := Range(48, 58)

  predicate IsAlphanumeric(b: byte) { 65 <= b < 91 || 97 <= b < 123 || 48 <= b < 58 }
  predicate IsHexDigit(b: byte) { 65 <= b < 71 || 97 <= b < 103 || 48 <= b < 58 }

  // "!#$%&'*+-.^_`|~", digits, letters
  const TCHARS: seq<byte> :=
    [33, 35, 36, 37, 38, 39, 42, 43, 45, 46, 94, 95, 96, 124, 126] + DIGITS + LOWER + UPPER
  // letters, digits, "-._~!$&'()*+,;=:@%/"
  const URI_PATH_ALPHABET: seq<byte> :=
    UPPER + LOWER + DIGITS + [45, 46, 95, 126, 33, 36, 38, 39, 40, 41, 42, 43, 44, 59, 61, 58, 64, 37, 47]
  // letters, digits, "-._~!$'()*+,;:@%/?"
  const URI_QUERY_KEY_ALPHABET: seq<byte> :=
    UPPER + LOWER + DIGITS + [45, 46, 95, 126, 33, 36, 39, 40, 41, 42, 43, 44, 59, 58, 64, 37, 47, 63]
  // letters, digits, "-._~!$'()*+,;=:@%/?"
  const URI_QUERY_VALUE_ALPHABET: seq<byte> :=
    UPPER + LOWER + DIGITS + [45, 46, 95, 126, 33, 36, 39, 40, 41, 42, 43, 44, 59, 61, 58, 64, 37, 47, 63]
  const HOST_CHARS: seq<byte> := LOWER + UPPER + DIGITS + [45, 46]
  // tab, space, letters, digits, and the remaining visible ASCII characters
  const FIELD_VALUE_CHARS: seq<byte> :=
    [9, 32] + UPPER + LOWER + DIGITS + Range(33, 48) + Range(58, 65) + Range(91, 97) + Range(123, 127)

  const HYPHEN: byte := 45
  const DOT: byte := 46
  const SLASH: byte := 47
  const PERCENT: byte := 37

  function ClientNameStep(s: DomainState, b: byte): Option<DomainState> {
    if s.flags == 65535 || s.flags + 1 > 253 then None
    else
      var total := s.flags + 1;
      if s.kind == 0 && IsAlphanumeric(b) then Some(DomainState(1, 1, total))
      else if (s.kind == 1 || s.kind == 2) && (IsAlphanumeric(b) || b == HYPHEN) then
        if s.len == 65535 || s.len + 1 > 63 then None
        else Some(DomainState(if b == HYPHEN then 2 else 1, s.len + 1, total))
      else if s.kind == 1 && b == DOT then Some(DomainState(0, 0, total))
      else None
  }

  function ClientNameLanguage(): Language {
    Language(DomainState(0, 0, 0), (s, b: byte) => ClientNameStep(s, b), (s: DomainState) => s.kind == 1, HOST_CHARS)
  }

  function DomainNameLanguage(): Language { ClientNameLanguage() }

  function TokenStep(b: byte): Option<DomainState> {
    if b in TCHARS then Some(DomainState(0, 1, 0)) else None
  }

  function HttpMethodLanguage(): Language {
    Language(DomainState(0, 0, 0), (s, b: byte) => TokenStep(b), (s: DomainState) => s.len == 1, TCHARS)
  }

  function HeaderNameLanguage(): Language { HttpMethodLanguage() }

  function HeaderValueLanguage(): Language {
    Language(
      DomainState(0, 0, 0),
      (s: DomainState, b: byte) => if b in FIELD_VALUE_CHARS then Some(DomainState(0, 0, 0)) else None,
      (s: DomainState) => true,
      FIELD_VALUE_CHARS)
  }

  predicate IsUnreserved(b: byte) { IsAlphanumeric(b) || b == 45 || b == 46 || b == 95 || b == 126 }

  predicate IsSubDelim(b: byte) {
    b == 33 || b == 36 || b == 38 || b == 39 || b == 40 || b == 41 || b == 42 || b == 43 || b == 44 || b == 59 || b == 61
  }

  predicate IsPchar(b: byte) { IsUnreserved(b) || IsSubDelim(b) || b == 58 || b == 64 }
  predicate IsPathPlain(b: byte) { IsPchar(b) || b == SLASH }
  predicate IsQueryPlain(b: byte) { IsPchar(b) || b == SLASH || b == 63 }
  predicate IsQueryKeyPlain(b: byte) { IsQueryPlain(b) && b != 38 && b != 61 }
  predicate IsQueryValuePlain(b: byte) { IsQueryPlain(b) && b != 38 }

  function PathStep(s: DomainState, b: byte): Option<DomainState> {
    if s.kind == 0 && b == SLASH then Some(DomainState(1, 0, 0))
    else if s.kind == 1 && b == PERCENT then Some(DomainState(2, 0, 0))
    else if s.kind == 1 && IsPathPlain(b) then Some(DomainState(1, 0, 0))
    else if s.kind == 2 && IsHexDigit(b) then Some(DomainState(3, 0, 0))
    else if s.kind == 3 && IsHexDigit(b) then Some(DomainState(1, 0, 0))
    else None
  }

  function LocationPathLanguage(): Language {
    Language(DomainState(0, 0, 0), (s, b: byte) => PathStep(s, b), (s: DomainState) => s.kind == 1, URI_PATH_ALPHABET)
  }

  function QueryStep(plain: byte -> bool, s: DomainState, b: byte): Option<DomainState> {
    if s.kind == 0 && b == PERCENT then Some(DomainState(1, 0, 0))
    else if s.kind == 0 && plain(b) then Some(DomainState(0, 0, 0))
    else if s.kind == 1 && IsHexDigit(b) then Some(DomainState(2, 0, 0))
    else if s.kind == 2 && IsHexDigit(b) then Some(DomainState(0, 0, 0))
    else None
  }

  function QueryKeyLanguage(): Language {
    Language(DomainState(0, 0, 0), (s, b: byte) => QueryStep(IsQueryKeyPlain, s, b), (s: DomainState) => s.kind == 0, URI_QUERY_KEY_ALPHABET)
  }

  function QueryValueLanguage(): Language {
    Language(DomainState(0, 0, 0), (s, b: byte) => QueryStep(IsQueryValuePlain, s, b), (s: DomainState) => s.kind == 0, URI_QUERY_VALUE_ALPHABET)
  }

  lemma InAppend(b: byte, x: seq<byte>, y: seq<byte>)
    ensures b in x + y <==> b in x || b in y
  {
  }

  lemma LettersIn(b: byte, tail: seq<byte>)
    requires IsAlphanumeric(b) || b in tail
    ensures b in UPPER + LOWER + DIGITS + tail
  {
    InAppend(b, UPPER + LOWER + DIGITS, tail);
    InAppend(b, UPPER + LOWER, DIGITS);
    InAppend(b, UPPER, LOWER);
  }

  lemma HostAlphabet()
    ensures AlphabetSuffices(ClientNameLanguage())
  {
    forall s: DomainState, b: byte | ClientNameStep(s, b).Some? ensures b in HOST_CHARS {
      HostCharsHold(b);
    }
  }

  lemma HostCharsHold(b: byte)
    requires IsAlphanumeric(b) || b in [HYPHEN, DOT]
    ensures b in HOST_CHARS
  {
    InAppend(b, LOWER + UPPER + DIGITS, [45, 46]);
    InAppend(b, LOWER + UPPER, DIGITS);
    InAppend(b, LOWER, UPPER);
  }

  lemma PathAlphabet()
    ensures AlphabetSuffices(LocationPathLanguage())
  {
    forall s: DomainState, b: byte | PathStep(s, b).Some? ensures b in URI_PATH_ALPHABET {
      LettersIn(b, [45, 46, 95, 126, 33, 36, 38, 39, 40, 41, 42, 43, 44, 59, 61, 58, 64, 37, 47]);
    }
  }

  lemma QueryKeyAlphabet()
    ensures AlphabetSuffices(QueryKeyLanguage())
  {
    forall s: DomainState, b: byte | QueryStep(IsQueryKeyPlain, s, b).Some? ensures b in URI_QUERY_KEY_ALPHABET {
      LettersIn(b, [45, 46, 95, 126, 33, 36, 39, 40, 41, 42, 43, 44, 59, 58, 64, 37, 47, 63]);
    }
  }

  lemma QueryValueAlphabet()
    ensures AlphabetSuffices(QueryValueLanguage())
  {
    forall s: DomainState, b: byte | QueryStep(IsQueryValuePlain, s, b).Some? ensures b in URI_QUERY_VALUE_ALPHABET {
      LettersIn(b, [45, 46, 95, 126, 33, 36, 39, 40, 41, 42, 43, 44, 59, 61, 58, 64, 37, 47, 63]);
    }
  }

  /** Restricting the search to the listed alphabets loses no word of any language. */
  lemma AlphabetsSuffice()
    ensures AlphabetSuffices(ClientNameLanguage()) && AlphabetSuffices(DomainNameLanguage())
    ensures AlphabetSuffices(HttpMethodLanguage()) && AlphabetSuffices(HeaderNameLanguage())
    ensures AlphabetSuffices(HeaderValueLanguage()) && AlphabetSuffices(LocationPathLanguage())
    ensures AlphabetSuffices(QueryKeyLanguage()) && AlphabetSuffices(QueryValueLanguage())
  {
    HostAlphabet();
    PathAlphabet();
    QueryKeyAlphabet();
    QueryValueAlphabet();
  }
}

/** Breadth-first search for an input of a language on which a pattern's search automaton matches. */
module PatternSearch {
  import opened Wrappers
  import opened Languages

  /** A search DFA: states, transitions, end of input, and the match and dead states. */
  datatype Dfa = Dfa(
    states: set<int>,
    start: Option<int>,
    next: (int, byte) -> int,
    nextEoi: int -> int,
    isMatch: int -> bool,
    isDead: int -> bool)

  ghost predicate Closed(dfa: Dfa) {
    && (dfa.start.Some? ==> dfa.start.value in dfa.states)
    && forall q: int, b: byte {:trigger dfa.next(q, b)} :: q in dfa.states ==> dfa.next(q, b) in dfa.states
  }

  function RegexRun(dfa: Dfa, w: seq<byte>): int
    requires dfa.start.Some?
    decreases |w|
  {
    if w == [] then dfa.start.value else dfa.next(RegexRun(dfa, w[..|w| - 1]), w[|w| - 1])
  }

  /** No state before the last is dead. */
  ghost predicate Alive(dfa: Dfa, w: seq<byte>)
    requires dfa.start.Some?
  {
    forall i :: 0 <= i < |w| ==> !dfa.isDead(RegexRun(dfa, w[..i]))
  }

  ghost predicate PassesMatch(dfa: Dfa, w: seq<byte>)
    requires dfa.start.Some?
  {
    exists i :: 0 <= i <= |w| && dfa.isMatch(RegexRun(dfa, w[..i]))
  }

  /** An input of the language on which the pattern matches, reached without leaving a dead state. */
  ghost predicate Witnesses(dfa: Dfa, lang: Language, w: seq<byte>)
    requires dfa.start.Some?
  {
    && InLanguage(lang, w) && Alive(dfa, w)
    && (PassesMatch(dfa, w) || dfa.isMatch(dfa.nextEoi(RegexRun(dfa, w))))
  }

  datatype Node = Node(regex: int, domain: DomainState, matched: bool)

  function Follow(dfa: Dfa, lang: Language, n: Node, b: byte): Option<Node> {
    match lang.step(n.domain, b)
    case None => None
    case Some(d) =>
      var q := dfa.next(n.regex, b);
      Some(Node(q, d, n.matched || dfa.isMatch(q)))
  }

  /** The node a word leads to, if no dead state is left on the way. */
  function Trace(dfa: Dfa, lang: Language, w: seq<byte>): Option<Node>
    requires dfa.start.Some?
    decreases |w|
  {
    if w == [] then Some(Node(dfa.start.value, lang.start, dfa.isMatch(dfa.start.value)))
    else match Trace(dfa, lang, w[..|w| - 1])
      case None => None
      case Some(n) => if dfa.isDead(n.regex) then None else Follow(dfa, lang, n, w[|w| - 1])
  }

  lemma {:induction false} TraceMeans(dfa: Dfa, lang: Language, w: seq<byte>)
    requires dfa.start.Some?
    ensures Trace(dfa, lang, w).Some? <==> Alive(dfa, w) && Run(lang, w).Some?
    ensures Trace(dfa, lang, w).Some? ==>
              Trace(dfa, lang, w).value == Node(RegexRun(dfa, w), Run(lang, w).value, PassesMatch(dfa, w))
    decreases |w|
  {
    if w == [] {
      assert w[..0] == w;
      assert PassesMatch(dfa, w) == dfa.isMatch(dfa.start.value);
    } else {
      var init := w[..|w| - 1];
      TraceMeans(dfa, lang, init);
      assert forall i :: 0 <= i < |w| ==> w[..i] == init[..i];
      assert init[..|init|] == init && w[..|w|] == w;
      assert Alive(dfa, w) <==> Alive(dfa, init) && !dfa.isDead(RegexRun(dfa, init)) by {
        if Alive(dfa, w) {
          assert !dfa.isDead(RegexRun(dfa, w[..|init|]));
        }
        if Alive(dfa, init) && !dfa.isDead(RegexRun(dfa, init)) {
          forall i | 0 <= i < |w| ensures !dfa.isDead(RegexRun(dfa, w[..i])) {
            if i < |init| {
              assert !dfa.isDead(RegexRun(dfa, init[..i]));
            }
          }
        }
      }
      assert PassesMatch(dfa, w) <==> PassesMatch(dfa, init) || dfa.isMatch(RegexRun(dfa, w)) by {
        if PassesMatch(dfa, w) {
          var i :| 0 <= i <= |w| && dfa.isMatch(RegexRun(dfa, w[..i]));
          if i <= |init| {
            assert w[..i] == init[..i];
            assert dfa.isMatch(RegexRun(dfa, init[..i]));
          }
        }
        if PassesMatch(dfa, init) {
          var i :| 0 <= i <= |init| && dfa.isMatch(RegexRun(dfa, init[..i]));
          assert w[..i] == init[..i];
          assert dfa.isMatch(RegexRun(dfa, w[..i]));
        }
        if dfa.isMatch(RegexRun(dfa, w)) {
          assert dfa.isMatch(RegexRun(dfa, w[..|w|]));
        }
      }
    }
  }

  predicate Wins(dfa: Dfa, lang: Language, n: Node) {
    lang.isAccept(n.domain) && (n.matched || dfa.isMatch(dfa.nextEoi(n.regex)))
  }

  ghost predicate Leads(dfa: Dfa, lang: Language, n: Node)
    requires dfa.start.Some?
  {
    exists w :: Trace(dfa, lang, w) == Some(n)
  }

  /** Nodes with a successor on the listed alphabet among `known`. */
  ghost predicate Expanded(dfa: Dfa, lang: Language, n: Node, known: set<Node>) {
    !dfa.isDead(n.regex) ==>
      forall b: byte {:trigger lang.step(n.domain, b)} ::
        b in lang.alphabet && lang.step(n.domain, b).Some? ==> Follow(dfa, lang, n, b).value in known
  }

  ghost function AllNodes(dfa: Dfa): set<Node> {
    var domains := set k, l, f | 0 <= k < 65536 && 0 <= l < 65536 && 0 <= f < 65536 :: DomainState(k, l, f);
    set q, d, m | q in dfa.states && d in domains && m in {false, true} :: Node(q, d, m)
  }

  lemma NodeAmongAll(dfa: Dfa, n: Node)
    requires n.regex in dfa.states
    ensures n in AllNodes(dfa)
  {
    assert n == Node(n.regex, DomainState(n.domain.kind, n.domain.len, n.domain.flags), n.matched);
  }

  function Members<T>(s: seq<T>): set<T> { set x | x in s }

  /** A closed set of nodes holds every node that a word leads to. */
  lemma {:induction false} ClosedHoldsTrace(dfa: Dfa, lang: Language, seen: set<Node>, w: seq<byte>)
    requires dfa.start.Some? && AlphabetSuffices(lang)
    requires Trace(dfa, lang, []).value in seen && forall n | n in seen :: Expanded(dfa, lang, n, seen)
    requires Trace(dfa, lang, w).Some?
    ensures Trace(dfa, lang, w).value in seen
    decreases |w|
  {
    if w != [] {
      var init := w[..|w| - 1];
      ClosedHoldsTrace(dfa, lang, seen, init);
      var n := Trace(dfa, lang, init).value;
      assert Expanded(dfa, lang, n, seen);
      assert lang.step(n.domain, w[|w| - 1]).Some?;
    }
  }

  lemma WinnerWitnesses(dfa: Dfa, lang: Language, n: Node)
    requires dfa.start.Some? && Leads(dfa, lang, n) && Wins(dfa, lang, n)
    ensures exists w :: Witnesses(dfa, lang, w)
  {
    var w :| Trace(dfa, lang, w) == Some(n);
    TraceMeans(dfa, lang, w);
    assert Witnesses(dfa, lang, w);
  }

  lemma FollowLeads(dfa: Dfa, lang: Language, n: Node, b: byte)
    requires dfa.start.Some? && Leads(dfa, lang, n) && !dfa.isDead(n.regex) && lang.step(n.domain, b).Some?
    ensures Leads(dfa, lang, Follow(dfa, lang, n, b).value)
  {
    var w :| Trace(dfa, lang, w) == Some(n);
    assert (w + [b])[..|w|] == w;
    assert Trace(dfa, lang, w + [b]) == Follow(dfa, lang, n, b);
  }

  lemma NoWinnerNoWitness(dfa: Dfa, lang: Language, seen: set<Node>)
    requires dfa.start.Some? && AlphabetSuffices(lang)
    requires Trace(dfa, lang, []).value in seen && forall n | n in seen :: Expanded(dfa, lang, n, seen)
    requires forall n | n in seen :: !Wins(dfa, lang, n)
    ensures !exists w :: Witnesses(dfa, lang, w)
  {
    forall w ensures !Witnesses(dfa, lang, w) {
      TraceMeans(dfa, lang, w);
      if Witnesses(dfa, lang, w) {
        ClosedHoldsTrace(dfa, lang, seen, w);
        assert Wins(dfa, lang, Trace(dfa, lang, w).value);
      }
    }
  }

  /** The queue with what follows a node, for each byte of the alphabet that its domain state takes. */
  method Enqueued(dfa: Dfa, lang: Language, n: Node, waiting: seq<Node>) returns (queue: seq<Node>)
    requires Closed(dfa) && dfa.start.Some? && Leads(dfa, lang, n) && n.regex in dfa.states && !dfa.isDead(n.regex)
    requires dfa.isMatch(n.regex) ==> n.matched
    ensures waiting <= queue
    ensures forall m | m in queue :: m in waiting
              || (Leads(dfa, lang, m) && m.regex in dfa.states && (dfa.isMatch(m.regex) ==> m.matched))
    ensures forall j :: 0 <= j < |lang.alphabet| && lang.step(n.domain, lang.alphabet[j]).Some? ==>
              Follow(dfa, lang, n, lang.alphabet[j]).value in queue
  {
    queue := waiting;
    for i := 0 to |lang.alphabet|
      invariant waiting <= queue
      invariant forall m | m in queue :: m in waiting
                  || (Leads(dfa, lang, m) && m.regex in dfa.states && (dfa.isMatch(m.regex) ==> m.matched))
      invariant forall j :: 0 <= j < i && lang.step(n.domain, lang.alphabet[j]).Some? ==>
                  Follow(dfa, lang, n, lang.alphabet[j]).value in queue
    {
      var b := lang.alphabet[i];
      var nextDomain := lang.step(n.domain, b);
      if nextDomain.Some? {
        FollowLeads(dfa, lang, n, b);
        var nextRegex := dfa.next(n.regex, b);
        queue := queue + [Node(nextRegex, nextDomain.value, n.matched || dfa.isMatch(nextRegex))];
      }
    }
  }

  /** The search stops, and answers exactly whether some input of the language is a witness. */
  method Intersects(dfa: Dfa, lang: Language) returns (found: bool)
    requires Closed(dfa) && AlphabetSuffices(lang)
    ensures found <==> dfa.start.Some? && exists w :: Witnesses(dfa, lang, w)
  {
    if dfa.start.None? {
      return false;
    }
    ghost var first := Trace(dfa, lang, []).value;
    var seen: set<Node> := {};
    var queue: seq<Node> := [Node(dfa.start.value, lang.start, dfa.isMatch(dfa.start.value))];
    assert Trace(dfa, lang, []) == Some(queue[0]);
    hide Trace, Witnesses;
    while queue != []
      invariant first in seen || first in queue
      invariant forall n | n in seen || n in queue :: Leads(dfa, lang, n) && n.regex in dfa.states
      invariant forall n | n in seen || n in queue :: dfa.isMatch(n.regex) ==> n.matched
      invariant forall n | n in seen :: Expanded(dfa, lang, n, seen + Members(queue)) && !Wins(dfa, lang, n)
      decreases AllNodes(dfa) - seen, |queue|
    {
      var n := queue[0];
      ghost var known := seen + Members(queue);
      queue := queue[1..];
      assert known == seen + {n} + Members(queue);
      if n in seen {
        assert known == seen + Members(queue);
        continue;
      }
      NodeAmongAll(dfa, n);
      seen := seen + {n};
      var matched := n.matched || dfa.isMatch(n.regex);
      assert matched == n.matched;
      if lang.isAccept(n.domain) {
        var eoi := dfa.nextEoi(n.regex);
        if matched || dfa.isMatch(eoi) {
          WinnerWitnesses(dfa, lang, n);
          return true;
        }
      }
      if dfa.isDead(n.regex) {
        continue;
      }
      queue := Enqueued(dfa, lang, n, queue);
      assert known <= seen + Members(queue);
      assert Expanded(dfa, lang, n, seen + Members(queue));
    }
    assert seen + Members(queue) == seen;
    NoWinnerNoWitness(dfa, lang, seen);
    return false;
  }
}

/** What the automata accept, in the terms of the standards they follow. */
module LanguageMeanings {
  import opened Wrappers
  import opened Languages

  /** Pieces between separators, as many as there are separators plus one. */
  function Split<T(==)>(w: seq<T>, sep: T): (pieces: seq<seq<T>>)
    ensures pieces != []
    decreases |w|
  {
    if w == [] then [[]]
    else
      var init := Split(w[..|w| - 1], sep);
      if w[|w| - 1] == sep then init + [[]]
      else init[|init| - 1 := init[|init| - 1] + [w[|w| - 1]]]
  }

  function Join<T>(pieces: seq<seq<T>>, sep: T): seq<T>
    requires pieces != []
    decreases |pieces|
  {
    if |pieces| == 1 then pieces[0] else Join(pieces[..|pieces| - 1], sep) + [sep] + pieces[|pieces| - 1]
  }

  /** Splitting is characterised by joining back and by no piece holding a separator. */
  lemma {:induction false} SplitJoins<T>(w: seq<T>, sep: T)
    ensures Join(Split(w, sep), sep) == w
    ensures forall i :: 0 <= i < |Split(w, sep)| ==> sep !in Split(w, sep)[i]
    decreases |w|
  {
    if w != [] {
      var last := w[|w| - 1];
      var init := Split(w[..|w| - 1], sep);
      SplitJoins(w[..|w| - 1], sep);
      var pieces := Split(w, sep);
      assert w == w[..|w| - 1] + [last];
      if last == sep {
        assert pieces[..|pieces| - 1] == init;
      } else {
        assert pieces[..|pieces| - 1] == init[..|init| - 1];
      }
    }
  }

  predicate IsHostByte(b: byte) { IsAlphanumeric(b) || b == HYPHEN }

  /** What may still grow into a label: it starts with a letter or digit and is not too long. */
  predicate IsLabelPrefix(piece: seq<byte>) {
    |piece| <= 63 && (forall i :: 0 <= i < |piece| ==> IsHostByte(piece[i])) && (piece != [] ==> piece[0] != HYPHEN)
  }

  /** A host label of section 2.1 of RFC 1123. */
  predicate IsLabel(piece: seq<byte>) {
    IsLabelPrefix(piece) && piece != [] && piece[|piece| - 1] != HYPHEN
  }

  predicate IsHostName(w: seq<byte>) {
    |w| <= 253 && forall i :: 0 <= i < |Split(w, DOT)| ==> IsLabel(Split(w, DOT)[i])
  }

  predicate IsHostPrefix(w: seq<byte>) {
    var labels := Split(w, DOT);
    && |w| <= 253
    && (forall i :: 0 <= i < |labels| - 1 ==> IsLabel(labels[i]))
    && IsLabelPrefix(labels[|labels| - 1])
  }

  function LastLabel(w: seq<byte>): seq<byte> {
    Split(w, DOT)[|Split(w, DOT)| - 1]
  }

  lemma LabelSnoc(piece: seq<byte>, b: byte)
    ensures IsLabelPrefix(piece + [b]) <==>
            IsLabelPrefix(piece) && |piece| + 1 <= 63 && IsHostByte(b) && (piece == [] ==> b != HYPHEN)
  {
    var longer := piece + [b];
    assert longer[|piece|] == b && forall i :: 0 <= i < |piece| ==> longer[i] == piece[i];
    if IsLabelPrefix(longer) {
      forall i | 0 <= i < |piece| ensures IsHostByte(piece[i]) {
        assert IsHostByte(longer[i]);
      }
    }
  }

  /** How one more byte changes a host prefix. */
  lemma HostSnoc(init: seq<byte>, b: byte)
    ensures var w := init + [b];
            && (IsHostPrefix(w) <==>
                  |w| <= 253 && IsHostPrefix(init)
                  && if b == DOT then IsLabel(LastLabel(init)) else IsLabelPrefix(LastLabel(init) + [b]))
            && LastLabel(w) == if b == DOT then [] else LastLabel(init) + [b]
  {
    var w := init + [b];
    assert w[..|w| - 1] == init;
    var before, after := Split(init, DOT), Split(w, DOT);
    var n := |before| - 1;
    assert forall i :: 0 <= i < n ==> after[i] == before[i];
    if b == DOT {
      assert after[n] == before[n] && |after| == n + 2;
    } else {
      assert after[n] == before[n] + [b] && |after| == n + 1;
      LabelSnoc(before[n], b);
    }
  }

  function HostState(w: seq<byte>): DomainState
    requires IsHostPrefix(w)
  {
    var piece := LastLabel(w);
    DomainState(if piece == [] then 0 else if piece[|piece| - 1] == HYPHEN then 2 else 1, |piece|, |w|)
  }

  lemma {:induction false} HostRun(w: seq<byte>)
    ensures Run(ClientNameLanguage(), w) == if IsHostPrefix(w) then Some(HostState(w)) else None
    decreases |w|
  {
    hide Run, IsHostPrefix, HostState, ClientNameStep, ClientNameLanguage;
    if w == [] {
      HostEmpty();
    } else {
      var init, b := w[..|w| - 1], w[|w| - 1];
      HostRun(init);
      assert init + [b] == w;
      RunSnoc(ClientNameLanguage(), init, b);
      if IsHostPrefix(init) {
        HostStep(init, b);
        ClientNameSteps(HostState(init), b);
      } else {
        HostStays(init, b);
      }
    }
  }

  lemma ClientNameSteps(s: DomainState, b: byte)
    ensures ClientNameLanguage().step(s, b) == ClientNameStep(s, b)
  {
  }

  lemma RunSnoc(lang: Language, init: seq<byte>, b: byte)
    ensures Run(lang, init + [b]) == match Run(lang, init) case None => None case Some(s) => lang.step(s, b)
  {
    assert (init + [b])[..|init|] == init;
  }

  lemma HostEmpty()
    ensures IsHostPrefix([]) && Run(ClientNameLanguage(), []) == Some(HostState([]))
  {
  }

  lemma HostStays(init: seq<byte>, b: byte)
    ensures IsHostPrefix(init + [b]) ==> IsHostPrefix(init)
  {
    HostSnoc(init, b);
  }

  lemma HostStep(init: seq<byte>, b: byte)
    requires IsHostPrefix(init)
    ensures ClientNameStep(HostState(init), b) == if IsHostPrefix(init + [b]) then Some(HostState(init + [b])) else None
  {
    HostSnoc(init, b);
    LabelSnoc(LastLabel(init), b);
  }

  lemma HostNameIsPrefix(w: seq<byte>)
    ensures IsHostName(w) <==> IsHostPrefix(w) && IsLabel(LastLabel(w))
  {
    var pieces := Split(w, DOT);
    if IsHostName(w) {
      assert IsLabel(pieces[|pieces| - 1]);
    }
  }

  /** The client-name automaton accepts exactly the host names of section 2.1 of RFC 1123, of at most 253 bytes. */
  lemma ClientNamesAreHostNames(w: seq<byte>)
    ensures InLanguage(ClientNameLanguage(), w) <==> IsHostName(w)
  {
    HostRun(w);
    HostNameIsPrefix(w);
  }

  /** Plain bytes and percent-encoded ones, as in section 2.1 of RFC 3986. */
  predicate IsEncoded(plain: byte -> bool, w: seq<byte>)
    decreases |w|
  {
    || w == []
    || (w[0] != PERCENT && plain(w[0]) && IsEncoded(plain, w[1..]))
    || (w[0] == PERCENT && |w| >= 3 && IsHexDigit(w[1]) && IsHexDigit(w[2]) && IsEncoded(plain, w[3..]))
  }

  /** Running on from any state, reading from the left. */
  function RunFrom(lang: Language, s: DomainState, w: seq<byte>): Option<DomainState>
    decreases |w|
  {
    if w == [] then Some(s)
    else match lang.step(s, w[0])
      case None => None
      case Some(next) => RunFrom(lang, next, w[1..])
  }

  lemma {:induction false} RunFromSnoc(lang: Language, s: DomainState, w: seq<byte>, b: byte)
    ensures RunFrom(lang, s, w + [b]) ==
            match RunFrom(lang, s, w) case None => None case Some(next) => lang.step(next, b)
    decreases |w|
  {
    if w == [] {
      assert (w + [b])[1..] == [];
    } else {
      assert (w + [b])[1..] == w[1..] + [b];
      match lang.step(s, w[0])
      case None =>
      case Some(next) => RunFromSnoc(lang, next, w[1..], b);
    }
  }

  lemma {:induction false} RunIsRunFrom(lang: Language, w: seq<byte>)
    ensures Run(lang, w) == RunFrom(lang, lang.start, w)
    decreases |w|
  {
    if w != [] {
      var init := w[..|w| - 1];
      RunIsRunFrom(lang, init);
      RunFromSnoc(lang, lang.start, init, w[|w| - 1]);
      assert init + [w[|w| - 1]] == w;
    }
  }

  /** From `rest`, plain bytes and whole percent-encodings return to it and nothing else does. */
  ghost predicate Encodes(lang: Language, plain: byte -> bool, rest: DomainState, one: DomainState, two: DomainState) {
    && lang.isAccept(rest) && !lang.isAccept(one) && !lang.isAccept(two)
    && (forall b: byte {:trigger lang.step(rest, b)} :: lang.step(rest, b) ==
          if b == PERCENT then Some(one) else if plain(b) then Some(rest) else None)
    && (forall b: byte {:trigger lang.step(one, b)} :: lang.step(one, b) == if IsHexDigit(b) then Some(two) else None)
    && (forall b: byte {:trigger lang.step(two, b)} :: lang.step(two, b) == if IsHexDigit(b) then Some(rest) else None)
  }

  predicate EndsAccepting(lang: Language, s: DomainState, w: seq<byte>) {
    RunFrom(lang, s, w).Some? && lang.isAccept(RunFrom(lang, s, w).value)
  }

  lemma EndsStep(lang: Language, s: DomainState, w: seq<byte>)
    requires w != []
    ensures EndsAccepting(lang, s, w) <==>
            lang.step(s, w[0]).Some? && EndsAccepting(lang, lang.step(s, w[0]).value, w[1..])
  {
  }

  lemma {:induction false} EncodedRun(
      lang: Language, plain: byte -> bool, rest: DomainState, one: DomainState, two: DomainState, w: seq<byte>)
    requires Encodes(lang, plain, rest, one, two)
    ensures EndsAccepting(lang, rest, w) <==> IsEncoded(plain, w)
    decreases |w|
  {
    if w != [] {
      EndsStep(lang, rest, w);
      if w[0] != PERCENT {
        EncodedRun(lang, plain, rest, one, two, w[1..]);
      } else if |w| >= 2 {
        EndsStep(lang, one, w[1..]);
        assert w[1..][1..] == w[2..] && w[1..][0] == w[1];
        if |w| >= 3 {
          EndsStep(lang, two, w[2..]);
          assert w[2..][1..] == w[3..] && w[2..][0] == w[2];
          EncodedRun(lang, plain, rest, one, two, w[3..]);
        }
      }
    }
  }

  /** Location paths: a slash, then path characters of section 3.3 of RFC 3986 and slashes. */
  lemma LocationPathsAreEncoded(w: seq<byte>)
    ensures InLanguage(LocationPathLanguage(), w) <==> w != [] && w[0] == SLASH && IsEncoded(IsPathPlain, w[1..])
  {
    var lang, rest := LocationPathLanguage(), DomainState(1, 0, 0);
    RunIsRunFrom(lang, w);
    PathEncodes();
    if w != [] {
      EndsStep(lang, lang.start, w);
      EncodedRun(lang, IsPathPlain, rest, DomainState(2, 0, 0), DomainState(3, 0, 0), w[1..]);
    }
  }

  lemma PathEncodes()
    ensures Encodes(LocationPathLanguage(), IsPathPlain, DomainState(1, 0, 0), DomainState(2, 0, 0), DomainState(3, 0, 0))
  {
  }

  lemma QueryKeyEncodes()
    ensures Encodes(QueryKeyLanguage(), IsQueryKeyPlain, DomainState(0, 0, 0), DomainState(1, 0, 0), DomainState(2, 0, 0))
  {
  }

  lemma QueryValueEncodes()
    ensures Encodes(QueryValueLanguage(), IsQueryValuePlain, DomainState(0, 0, 0), DomainState(1, 0, 0), DomainState(2, 0, 0))
  {
  }

  /** Query keys: query characters of section 3.4 of RFC 3986 without `&` and `=`. */
  lemma QueryKeysAreEncoded(w: seq<byte>)
    ensures InLanguage(QueryKeyLanguage(), w) <==> IsEncoded(IsQueryKeyPlain, w)
  {
    RunIsRunFrom(QueryKeyLanguage(), w);
    QueryKeyEncodes();
    EncodedRun(QueryKeyLanguage(), IsQueryKeyPlain, DomainState(0, 0, 0), DomainState(1, 0, 0), DomainState(2, 0, 0), w);
  }

  /** Query values: query characters of section 3.4 of RFC 3986 without `&`. */
  lemma QueryValuesAreEncoded(w: seq<byte>)
    ensures InLanguage(QueryValueLanguage(), w) <==> IsEncoded(IsQueryValuePlain, w)
  {
    RunIsRunFrom(QueryValueLanguage(), w);
    QueryValueEncodes();
    EncodedRun(QueryValueLanguage(), IsQueryValuePlain, DomainState(0, 0, 0), DomainState(1, 0, 0), DomainState(2, 0, 0), w);
  }

  predicate AllTchars(w: seq<byte>) {
    w == [] || (AllTchars(w[..|w| - 1]) && w[|w| - 1] in TCHARS)
  }

  /** Methods and header names: the nonempty tokens of section 5.6.2 of RFC 9110. */
  lemma {:induction false} TokensAreTchars(w: seq<byte>)
    ensures Run(HttpMethodLanguage(), w) ==
            if AllTchars(w) then Some(DomainState(0, if w == [] then 0 else 1, 0)) else None
    ensures InLanguage(HttpMethodLanguage(), w) <==> w != [] && AllTchars(w)
    decreases |w|
  {
    if w != [] {
      TokensAreTchars(w[..|w| - 1]);
    }
  }
}

/** Client identity names: the validator that splits at dots, and normalisation. */
module Names {
  import opened Wrappers
  import opened Text
  import opened Languages
  import opened LanguageMeanings

  function Utf8(c: char): (bytes: seq<byte>)
    ensures bytes != []
    ensures (c as int < 128) ==> bytes == [c as int]
    ensures (c as int >= 128) ==> forall i :: 0 <= i < |bytes| ==> bytes[i] >= 128
  {
    var n := c as int;
    if n < 0x80 then [n]
    else if n < 0x800 then [0xC0 + n / 0x40, 0x80 + n % 0x40]
    else if n < 0x10000 then [0xE0 + n / 0x1000, 0x80 + n / 0x40 % 0x40, 0x80 + n % 0x40]
    else [0xF0 + n / 0x40000, 0x80 + n / 0x1000 % 0x40, 0x80 + n / 0x40 % 0x40, 0x80 + n % 0x40]
  }

  function Bytes(s: string): seq<byte> {
    if s == "" then [] else Bytes(s[..|s| - 1]) + Utf8(s[|s| - 1])
  }

  predicate IsLowerByte(b: byte) { 97 <= b < 123 }
  predicate IsDigitByte(b: byte) { 48 <= b < 58 }

  predicate IsDnsLabel(piece: string) {
    && 1 <= |Bytes(piece)| <= 63
    && piece[0] != '-' && piece[|piece| - 1] != '-'
    && forall i :: 0 <= i < |Bytes(piece)| ==>
         IsLowerByte(Bytes(piece)[i]) || IsDigitByte(Bytes(piece)[i]) || Bytes(piece)[i] == HYPHEN
  }

  predicate IsValidDnsLabels(name: string) {
    |Bytes(name)| <= 253 && forall i :: 0 <= i < |Split(name, '.')| ==> IsDnsLabel(Split(name, '.')[i])
  }

  predicate IsValidDnsName(name: string) {
    |Split(name, '.')| >= 2 && IsValidDnsLabels(name)
  }

  predicate IsAscii(s: string) {
    forall i :: 0 <= i < |s| ==> s[i] as int < 128
  }

  predicate HasUpper(s: string) {
    exists i :: 0 <= i < |s| && 'A' <= s[i] <= 'Z'
  }

  lemma {:induction false} AsciiBytes(s: string)
    requires IsAscii(s)
    ensures |Bytes(s)| == |s| && forall i :: 0 <= i < |s| ==> Bytes(s)[i] == s[i] as int
  {
    if s != "" {
      AsciiBytes(s[..|s| - 1]);
    }
  }

  /** Every character beyond ASCII contributes a byte of 128 or more. */
  lemma {:induction false} NonAsciiByte(s: string) returns (i: nat)
    requires !IsAscii(s)
    ensures i < |Bytes(s)| && Bytes(s)[i] >= 128
  {
    var init := s[..|s| - 1];
    if s[|s| - 1] as int >= 128 {
      i := |Bytes(init)|;
      assert Bytes(s)[i] == Utf8(s[|s| - 1])[0];
    } else {
      assert !IsAscii(init) by {
        var j :| 0 <= j < |s| && s[j] as int >= 128;
        assert init[j] == s[j];
      }
      i := NonAsciiByte(init);
    }
  }

  lemma SplitSnoc<T>(w: seq<T>, c: T, sep: T)
    ensures Split(w + [c], sep) ==
            var init := Split(w, sep);
            if c == sep then init + [[]] else init[|init| - 1 := init[|init| - 1] + [c]]
  {
    assert (w + [c])[..|w|] == w;
  }

  lemma NoBytes()
    ensures Bytes("") == []
  {
  }

  lemma BytesSnoc(s: string, c: char)
    ensures Bytes(s + [c]) == Bytes(s) + Utf8(c)
  {
    assert (s + [c])[..|s|] == s;
  }

  /** Splitting characters at dots and splitting their bytes at dots give the same pieces. */
  ghost predicate SplitsAlike(s: string) {
    var chars, bytes := Split(s, '.'), Split(Bytes(s), DOT);
    && |chars| == |bytes|
    && forall i :: 0 <= i < |chars| ==> IsAscii(chars[i]) && Bytes(chars[i]) == bytes[i]
  }

  lemma SplitsAlikeSnoc(s: string, c: char)
    requires SplitsAlike(s) && c as int < 128
    ensures SplitsAlike(s + [c])
  {
    hide Split, Bytes;
    BytesSnoc(s, c);
    var b: byte := c as int;
    SplitSnoc(s, c, '.');
    SplitSnoc(Bytes(s), b, DOT);
    var chars := Split(s, '.');
    BytesSnoc(chars[|chars| - 1], c);
    NoBytes();
    var after, afterBytes := Split(s + [c], '.'), Split(Bytes(s + [c]), DOT);
    assert Bytes(s + [c]) == Bytes(s) + [b];
    forall i | 0 <= i < |after| ensures IsAscii(after[i]) && Bytes(after[i]) == afterBytes[i] {
      if i < |chars| {
        assert IsAscii(chars[i]) && Bytes(chars[i]) == Split(Bytes(s), DOT)[i];
      }
    }
  }

  lemma {:induction false} SplitAscii(s: string)
    requires IsAscii(s)
    ensures SplitsAlike(s)
  {
    if s != "" {
      SplitAscii(s[..|s| - 1]);
      SplitsAlikeSnoc(s[..|s| - 1], s[|s| - 1]);
      assert s[..|s| - 1] + [s[|s| - 1]] == s;
    }
  }

  lemma LabelAgrees(piece: string)
    requires IsAscii(piece)
    ensures IsDnsLabel(piece) <==> IsLabel(Bytes(piece)) && !HasUpper(piece)
  {
    AsciiBytes(piece);
    if IsLabel(Bytes(piece)) && !HasUpper(piece) {
      forall i | 0 <= i < |piece|
        ensures IsLowerByte(Bytes(piece)[i]) || IsDigitByte(Bytes(piece)[i]) || Bytes(piece)[i] == HYPHEN
      {
        assert IsHostByte(Bytes(piece)[i]);
        assert !('A' <= piece[i] <= 'Z');
      }
    }
    if IsDnsLabel(piece) {
      forall i | 0 <= i < |piece| ensures !('A' <= piece[i] <= 'Z') && IsHostByte(Bytes(piece)[i]) {
      }
    }
  }

  lemma {:induction false} UpperOfPiece(s: string, i: nat)
    requires i < |Split(s, '.')| && HasUpper(Split(s, '.')[i])
    ensures HasUpper(s)
  {
    if s != "" {
      var init, c := s[..|s| - 1], s[|s| - 1];
      var before := Split(init, '.');
      assert init + [c] == s;
      UpperSnoc(init, c);
      if i < |before| {
        UpperSnoc(before[i], c);
        if HasUpper(before[i]) {
          UpperOfPiece(init, i);
        }
      }
    }
  }

  lemma {:induction false} PieceOfUpper(s: string) returns (i: nat)
    requires HasUpper(s)
    ensures i < |Split(s, '.')| && HasUpper(Split(s, '.')[i])
  {
    var init, c := s[..|s| - 1], s[|s| - 1];
    var before := Split(init, '.');
    assert init + [c] == s;
    UpperSnoc(init, c);
    UpperSnoc(before[|before| - 1], c);
    if HasUpper(init) {
      i := PieceOfUpper(init);
    } else {
      i := |before| - 1;
    }
  }

  lemma UpperSnoc(s: string, c: char)
    ensures HasUpper(s + [c]) <==> HasUpper(s) || 'A' <= c <= 'Z'
  {
    if HasUpper(s) {
      var i :| 0 <= i < |s| && 'A' <= s[i] <= 'Z';
      assert (s + [c])[i] == s[i];
    }
    assert (s + [c])[|s|] == c;
  }

  /**
   The byte automaton and the splitting validator agree: a string is valid exactly when the automaton accepts its
   UTF-8 bytes and it has no uppercase letter.
   */
  lemma ValidatorsAgree(name: string)
    ensures IsValidDnsLabels(name) <==> InLanguage(ClientNameLanguage(), Bytes(name)) && !HasUpper(name)
  {
    ClientNamesAreHostNames(Bytes(name));
    if IsAscii(name) {
      AsciiAgrees(name);
    } else {
      NonAsciiInvalid(name);
      var i := NonAsciiByte(name);
      HighByteNoHost(Bytes(name), i);
    }
  }

  lemma AsciiAgrees(name: string)
    requires IsAscii(name)
    ensures IsValidDnsLabels(name) <==> IsHostName(Bytes(name)) && !HasUpper(name)
  {
    SplitAscii(name);
    var labels, pieces := Split(name, '.'), Split(Bytes(name), DOT);
    if IsHostName(Bytes(name)) && !HasUpper(name) {
      forall i | 0 <= i < |labels| ensures IsDnsLabel(labels[i]) {
        LabelAgrees(labels[i]);
        assert IsLabel(pieces[i]);
        if HasUpper(labels[i]) {
          UpperOfPiece(name, i);
        }
      }
    }
    if IsValidDnsLabels(name) {
      forall i | 0 <= i < |labels| ensures IsLabel(pieces[i]) && !HasUpper(labels[i]) {
        LabelAgrees(labels[i]);
      }
      if HasUpper(name) {
        var i := PieceOfUpper(name);
      }
    }
  }

  /** A host name has only host bytes and dots. */
  lemma {:induction false} HighByteNoHost(w: seq<byte>, i: nat)
    requires i < |w| && w[i] >= 128
    ensures !IsHostPrefix(w) && !IsHostName(w)
    decreases |w|
  {
    hide IsHostPrefix, IsHostName;
    var init, b := w[..|w| - 1], w[|w| - 1];
    assert w == init + [b];
    HostNameIsPrefix(w);
    if i < |w| - 1 {
      HighByteNoHost(init, i);
      HostStays(init, b);
    } else {
      HostSnoc(init, b);
      LabelSnoc(LastLabel(init), b);
    }
  }

  lemma {:induction false} NonAsciiPiece(s: string) returns (i: nat)
    requires !IsAscii(s)
    ensures i < |Split(s, '.')| && !IsAscii(Split(s, '.')[i])
  {
    var init, c := s[..|s| - 1], s[|s| - 1];
    var before, after := Split(init, '.'), Split(s, '.');
    if c as int >= 128 {
      i := |after| - 1;
      assert after[i] == before[i] + [c];
      assert after[i][|before[i]|] == c;
    } else {
      assert !IsAscii(init) by {
        var j :| 0 <= j < |s| && s[j] as int >= 128;
        assert init[j] == s[j];
      }
      i := NonAsciiPiece(init);
      if c != '.' && i == |before| - 1 {
        var j :| 0 <= j < |before[i]| && before[i][j] as int >= 128;
        assert after[i][j] == before[i][j];
      }
    }
  }

  lemma NonAsciiInvalid(name: string)
    requires !IsAscii(name)
    ensures !IsValidDnsLabels(name)
  {
    var i := NonAsciiPiece(name);
    var j := NonAsciiByte(Split(name, '.')[i]);
  }

  // ----- normalisation

  function TrimStart(s: string): string {
    if s != "" && IsWhitespace(s[0]) then TrimStart(s[1..]) else s
  }

  function TrimEnd(s: string): string {
    if s != "" && IsWhitespace(s[|s| - 1]) then TrimEnd(s[..|s| - 1]) else s
  }

  function Trim(s: string): string { TrimEnd(TrimStart(s)) }

  function ToAsciiLowercase(s: string): (r: string)
    ensures |r| == |s|
  {
    seq(|s|, i requires 0 <= i < |s| => Lower(s[i]))
  }

  predicate EndsWith(s: string, suffix: string) {
    |s| >= |suffix| && s[|s| - |suffix|..] == suffix
  }

  function StripSuffix(s: string, suffix: string): Option<string> {
    if EndsWith(s, suffix) then Some(s[..|s| - |suffix|]) else None
  }

  /** Expand a partial identity name and return its canonical form. */
  function NormalizeName(input: string): Option<string> {
    var name := ToAsciiLowercase(Trim(input));
    var full :=
      if EndsWith(name, DHTTP_SUFFIX) then name
      else match StripSuffix(name, "~")
        case Some(partial) => partial + DHTTP_SUFFIX
        case None => name + DHTTP_SUFFIX;
    if IsValidDnsName(full) then Some(full) else None
  }

  /** Normalise a lookup name, expanding only an explicit trailing `~`. */
  function NormalizeDnsName(input: string): Option<string> {
    var name := ToAsciiLowercase(Trim(input));
    var bare := match StripSuffix(name, ".") case Some(s) => s case None => name;
    var full := match StripSuffix(bare, "~") case Some(partial) => partial + DHTTP_SUFFIX case None => bare;
    if IsValidDnsLabels(full) then Some(full) else None
  }

  function ValidateName(input: string): Result<(), ()> {
    if NormalizeName(input) == Some(input) then Ok(()) else Err(())
  }

  predicate IsNameChar(c: char) { 'a' <= c <= 'z' || '0' <= c <= '9' || c == '-' || c == '.' }

  lemma {:induction false} HostPrefixBytes(w: seq<byte>, i: nat)
    requires IsHostPrefix(w) && i < |w|
    ensures IsHostByte(w[i]) || w[i] == DOT
    decreases |w|
  {
    HostRun(w);
    HostRun(w[..|w| - 1]);
    if i < |w| - 1 {
      HostPrefixBytes(w[..|w| - 1], i);
    }
  }

  lemma ValidNameBytes(name: string)
    requires IsValidDnsLabels(name)
    ensures IsAscii(name) && IsHostPrefix(Bytes(name)) && IsLabel(LastLabel(Bytes(name))) && !HasUpper(name)
  {
    ValidatorsAgree(name);
    if !IsAscii(name) {
      NonAsciiInvalid(name);
    }
    ClientNamesAreHostNames(Bytes(name));
    HostNameIsPrefix(Bytes(name));
  }

  /** A valid name is nonempty, has only canonical characters and does not end in a dot. */
  lemma ValidNameChars(name: string)
    requires IsValidDnsLabels(name)
    ensures name != "" && name[|name| - 1] != '.' && forall i :: 0 <= i < |name| ==> IsNameChar(name[i])
  {
    hide IsHostPrefix, IsValidDnsLabels, Bytes, LastLabel;
    ValidNameBytes(name);
    AsciiBytes(name);
    forall i | 0 <= i < |name| ensures IsNameChar(name[i]) {
      HostPrefixBytes(Bytes(name), i);
      assert !('A' <= name[i] <= 'Z');
    }
    NoLastLabel(Bytes(name));
    assert name != "";
  }

  lemma NoLastLabel(w: seq<byte>)
    ensures w == [] || w[|w| - 1] == DOT ==> LastLabel(w) == []
  {
  }

  lemma CanonicalStays(name: string)
    requires IsValidDnsLabels(name)
    ensures ToAsciiLowercase(Trim(name)) == name && !EndsWith(name, "~") && !EndsWith(name, ".")
  {
    ValidNameChars(name);
    assert IsNameChar(name[0]) && IsNameChar(name[|name| - 1]);
    forall i | 0 <= i < |name| ensures Lower(name[i]) == name[i] {
      assert IsNameChar(name[i]);
    }
    assert name[|name| - 1..] == [name[|name| - 1]];
    assert "~" == ['~'] && "." == ['.'];
  }

  /** Every normalised name is in the client-name language, has no uppercase letter, and normalises to itself. */
  lemma NormalizedNames(input: string)
    requires NormalizeName(input).Some?
    ensures var name := NormalizeName(input).value;
            && InLanguage(ClientNameLanguage(), Bytes(name)) && !HasUpper(name) && EndsWith(name, DHTTP_SUFFIX)
            && NormalizeName(name) == Some(name)
  {
    var name := NormalizeName(input).value;
    ValidatorsAgree(name);
    CanonicalStays(name);
    var lowered := ToAsciiLowercase(Trim(input));
    if !EndsWith(lowered, DHTTP_SUFFIX) {
      var partial := match StripSuffix(lowered, "~") case Some(p) => p case None => lowered;
      assert name == partial + DHTTP_SUFFIX;
      assert name[|name| - |DHTTP_SUFFIX|..] == DHTTP_SUFFIX;
    }
  }

  lemma NormalizedDnsNames(input: string)
    requires NormalizeDnsName(input).Some?
    ensures var name := NormalizeDnsName(input).value;
            && InLanguage(ClientNameLanguage(), Bytes(name)) && !HasUpper(name)
            && NormalizeDnsName(name) == Some(name)
  {
    var name := NormalizeDnsName(input).value;
    ValidatorsAgree(name);
    CanonicalStays(name);
  }

  /** A name validates exactly when it is a valid canonical name under the identity suffix. */
  lemma ValidatesExactly(name: string)
    ensures ValidateName(name) == Ok(()) <==> IsValidDnsName(name) && EndsWith(name, DHTTP_SUFFIX)
  {
    if ValidateName(name) == Ok(()) {
      NormalizedNames(name);
    }
    if IsValidDnsName(name) && EndsWith(name, DHTTP_SUFFIX) {
      CanonicalStays(name);
    }
  }
}

/** What the search decides, for the automata that patterns compile to. */
module SearchMeaning {
  import opened Wrappers
  import opened Languages
  import opened LanguageMeanings
  import opened PatternSearch

  /** An input of the language on which the pattern matches, whatever states its run leaves. */
  ghost predicate MatchesInput(dfa: Dfa, lang: Language, w: seq<byte>)
    requires dfa.start.Some?
  {
    InLanguage(lang, w) && (PassesMatch(dfa, w) || dfa.isMatch(dfa.nextEoi(RegexRun(dfa, w))))
  }

  /** In a search DFA a dead state only leads to dead states and never matches. */
  ghost predicate DeadIsFinal(dfa: Dfa) {
    forall q: int {:trigger dfa.isDead(q)} :: dfa.isDead(q) ==>
      !dfa.isMatch(q) && !dfa.isMatch(dfa.nextEoi(q)) && forall b: byte :: dfa.isDead(dfa.next(q, b))
  }

  /**
   A dense DFA reports a match one byte late: a match state entered on a byte says that a match ended before it.
   When that byte is a percent sign, which is no word character and no line terminator, every assertion that holds
   before it holds at the end of the input too, so the match is also seen when the input ends there.
   */
  ghost predicate DelaysMatches(dfa: Dfa) {
    forall q: int {:trigger dfa.nextEoi(q)} :: dfa.isMatch(dfa.next(q, PERCENT)) ==> dfa.isMatch(dfa.nextEoi(q))
  }

  lemma {:induction false} DeadStays(dfa: Dfa, w: seq<byte>, i: nat)
    requires dfa.start.Some? && DeadIsFinal(dfa) && i <= |w| && dfa.isDead(RegexRun(dfa, w[..i]))
    ensures dfa.isDead(RegexRun(dfa, w))
    decreases |w| - i
  {
    if i < |w| {
      assert w[..i + 1][..i] == w[..i];
      DeadStays(dfa, w, i + 1);
    } else {
      assert w[..i] == w;
    }
  }

  /** A run that ends in a live state has left no dead one. */
  lemma LiveRun(dfa: Dfa, w: seq<byte>)
    requires dfa.start.Some? && DeadIsFinal(dfa) && !dfa.isDead(RegexRun(dfa, w))
    ensures Alive(dfa, w)
  {
    hide RegexRun, DeadIsFinal;
    forall i | 0 <= i < |w| ensures !dfa.isDead(RegexRun(dfa, w[..i])) {
      if dfa.isDead(RegexRun(dfa, w[..i])) {
        DeadStays(dfa, w, i);
      }
    }
  }

  /** The input languages of the patterns of a rule. */
  datatype InputKind =
    ClientName | DomainName | LocationPath | HttpMethod | HeaderName | HeaderValue | QueryKey | QueryValue

  function LanguageOf(kind: InputKind): Language {
    match kind
    case ClientName => ClientNameLanguage()
    case DomainName => DomainNameLanguage()
    case LocationPath => LocationPathLanguage()
    case HttpMethod => HttpMethodLanguage()
    case HeaderName => HeaderNameLanguage()
    case HeaderValue => HeaderValueLanguage()
    case QueryKey => QueryKeyLanguage()
    case QueryValue => QueryValueLanguage()
  }

  /** A prefix of a word is in the language, one byte short of it, or goes beyond it by a percent sign. */
  ghost predicate NearWord(lang: Language, u: seq<byte>) {
    || InLanguage(lang, u)
    || (exists b: byte :: InLanguage(lang, u + [b]))
    || (u != [] && u[|u| - 1] == PERCENT && InLanguage(lang, u[..|u| - 1]))
  }

  lemma AppendAccepted(lang: Language, u: seq<byte>, b: byte)
    requires Run(lang, u).Some? && lang.step(Run(lang, u).value, b).Some?
    requires lang.isAccept(lang.step(Run(lang, u).value, b).value)
    ensures NearWord(lang, u)
  {
    RunSnoc(lang, u, b);
    assert InLanguage(lang, u + [b]);
  }

  /** The states a word leads to before it ends take the byte that follows. */
  lemma PrefixRuns(lang: Language, w: seq<byte>, p: nat)
    requires InLanguage(lang, w) && p <= |w|
    ensures Run(lang, w[..p]).Some?
    ensures p < |w| ==> lang.step(Run(lang, w[..p]).value, w[p]).Some?
    ensures p == |w| ==> lang.isAccept(Run(lang, w[..p]).value)
  {
    hide Run;
    if Run(lang, w[..p]).None? {
      RunStops(lang, w, p);
    }
    if p < |w| {
      assert w[..p + 1] == w[..p] + [w[p]];
      RunSnoc(lang, w[..p], w[p]);
      if Run(lang, w[..p + 1]).None? {
        RunStops(lang, w, p + 1);
      }
    } else {
      assert w[..p] == w;
    }
  }

  /** A state that does not accept but takes a byte takes a letter to an accepting state. */
  lemma HostIsNear(w: seq<byte>, p: nat)
    requires InLanguage(ClientNameLanguage(), w) && p <= |w|
    ensures NearWord(ClientNameLanguage(), w[..p])
  {
    hide Run, NearWord;
    var lang, u := ClientNameLanguage(), w[..p];
    PrefixRuns(lang, w, p);
    if InLanguage(lang, u) {
      AcceptedIsNear(lang, u);
    } else {
      HostRun(u);
      AppendAccepted(lang, u, 97);
    }
  }

  lemma AcceptedIsNear(lang: Language, u: seq<byte>)
    requires InLanguage(lang, u)
    ensures NearWord(lang, u)
  {
  }

  lemma TokenIsNear(w: seq<byte>, p: nat)
    requires InLanguage(HttpMethodLanguage(), w) && p <= |w|
    ensures NearWord(HttpMethodLanguage(), w[..p])
  {
    hide Run, NearWord;
    var lang, u := HttpMethodLanguage(), w[..p];
    PrefixRuns(lang, w, p);
    TokensAreTchars(u);
    if u == [] {
      AppendAccepted(lang, u, w[0]);
    } else {
      AcceptedIsNear(lang, u);
    }
  }

  /** Where an escape has been begun: before its percent sign or after its last digit the word could end. */
  lemma {:induction false} EncodedStates(
      lang: Language, plain: byte -> bool, rest: DomainState, one: DomainState, two: DomainState, u: seq<byte>)
    requires Encodes(lang, plain, rest, one, two) && Run(lang, u).Some?
    requires lang.start != one && lang.start != two
    requires lang.start == rest || (forall b: byte {:trigger lang.step(lang.start, b)} ::
               lang.step(lang.start, b).Some? ==> lang.step(lang.start, b).value == rest)
    ensures Run(lang, u).value in {lang.start, rest, one, two}
    ensures Run(lang, u).value == lang.start && lang.start != rest ==> u == []
    ensures Run(lang, u).value == one ==>
              u != [] && u[|u| - 1] == PERCENT && Run(lang, u[..|u| - 1]) == Some(rest)
    decreases |u|
  {
    if u != [] {
      EncodedStates(lang, plain, rest, one, two, u[..|u| - 1]);
    }
  }

  lemma EncodedIsNear(lang: Language, plain: byte -> bool, rest: DomainState, one: DomainState, two: DomainState,
      w: seq<byte>, p: nat)
    requires Encodes(lang, plain, rest, one, two) && one != two && InLanguage(lang, w) && p <= |w|
    requires lang.start != one && lang.start != two
    requires lang.start == rest || (forall b: byte {:trigger lang.step(lang.start, b)} ::
               lang.step(lang.start, b).Some? ==> lang.step(lang.start, b).value == rest)
    ensures NearWord(lang, w[..p])
  {
    hide Run;
    var u := w[..p];
    PrefixRuns(lang, w, p);
    EncodedStates(lang, plain, rest, one, two, u);
    var s := Run(lang, u).value;
    if s == two {
      AppendAccepted(lang, u, 48);
    } else if s == lang.start && s != rest && !lang.isAccept(s) {
      AppendAccepted(lang, u, w[0]);
    }
  }

  lemma PathIsNear(w: seq<byte>, p: nat)
    requires InLanguage(LocationPathLanguage(), w) && p <= |w|
    ensures NearWord(LocationPathLanguage(), w[..p])
  {
    hide Run, NearWord, Encodes;
    PathEncodes();
    EncodedIsNear(LocationPathLanguage(), IsPathPlain, DomainState(1, 0, 0), DomainState(2, 0, 0), DomainState(3, 0, 0), w, p);
  }

  lemma QueryIsNear(w: seq<byte>, p: nat)
    ensures InLanguage(QueryKeyLanguage(), w) && p <= |w| ==> NearWord(QueryKeyLanguage(), w[..p])
    ensures InLanguage(QueryValueLanguage(), w) && p <= |w| ==> NearWord(QueryValueLanguage(), w[..p])
  {
    hide Run, NearWord, Encodes;
    var zero, one, two := DomainState(0, 0, 0), DomainState(1, 0, 0), DomainState(2, 0, 0);
    if InLanguage(QueryKeyLanguage(), w) && p <= |w| {
      QueryKeyEncodes();
      EncodedIsNear(QueryKeyLanguage(), IsQueryKeyPlain, zero, one, two, w, p);
    }
    if InLanguage(QueryValueLanguage(), w) && p <= |w| {
      QueryValueEncodes();
      EncodedIsNear(QueryValueLanguage(), IsQueryValuePlain, zero, one, two, w, p);
    }
  }

  lemma HeaderValueIsNear(w: seq<byte>, p: nat)
    requires InLanguage(HeaderValueLanguage(), w) && p <= |w|
    ensures NearWord(HeaderValueLanguage(), w[..p])
  {
    hide Run, NearWord;
    PrefixRuns(HeaderValueLanguage(), w, p);
    AcceptedIsNear(HeaderValueLanguage(), w[..p]);
  }

  /** Every prefix of a word of an input language is near a word. */
  lemma PrefixIsNear(kind: InputKind, w: seq<byte>, p: nat)
    requires InLanguage(LanguageOf(kind), w) && p <= |w|
    ensures NearWord(LanguageOf(kind), w[..p])
  {
    hide InLanguage, NearWord, ClientNameLanguage, HttpMethodLanguage, HeaderValueLanguage, LocationPathLanguage;
    hide QueryKeyLanguage, QueryValueLanguage;
    match kind
    case ClientName => HostIsNear(w, p);
    case DomainName => HostIsNear(w, p);
    case HttpMethod => TokenIsNear(w, p);
    case HeaderName => TokenIsNear(w, p);
    case HeaderValue => HeaderValueIsNear(w, p);
    case LocationPath => PathIsNear(w, p);
    case QueryKey => QueryIsNear(w, p);
    case QueryValue => QueryIsNear(w, p);
  }

  lemma LongerWitness(dfa: Dfa, lang: Language, u: seq<byte>, b: byte)
    requires dfa.start.Some? && DeadIsFinal(dfa) && dfa.isMatch(RegexRun(dfa, u)) && InLanguage(lang, u + [b])
    ensures Witnesses(dfa, lang, u + [b])
  {
    hide RegexRun, InLanguage, DeadIsFinal;
    var w := u + [b];
    MatchIsLive(dfa, RegexRun(dfa, u));
    LiveRun(dfa, u);
    assert w[..|u|] == u;
    forall i | 0 <= i < |w| ensures !dfa.isDead(RegexRun(dfa, w[..i])) {
      assert w[..i] == u[..i];
      assert u[..|u|] == u;
    }
  }

  lemma MatchIsLive(dfa: Dfa, q: int)
    requires DeadIsFinal(dfa) && dfa.isMatch(q)
    ensures !dfa.isDead(q)
  {
  }

  lemma ShorterWitness(dfa: Dfa, lang: Language, u: seq<byte>)
    requires dfa.start.Some? && DeadIsFinal(dfa) && DelaysMatches(dfa) && dfa.isMatch(RegexRun(dfa, u + [PERCENT]))
    requires InLanguage(lang, u)
    ensures Witnesses(dfa, lang, u)
  {
    hide InLanguage, DeadIsFinal;
    assert (u + [PERCENT])[..|u|] == u;
    DeadNeverMatches(dfa, RegexRun(dfa, u));
    LiveRun(dfa, u);
    assert dfa.isMatch(dfa.nextEoi(RegexRun(dfa, u)));
  }

  lemma DeadNeverMatches(dfa: Dfa, q: int)
    requires DeadIsFinal(dfa)
    ensures dfa.isDead(q) ==> !dfa.isMatch(dfa.nextEoi(q))
  {
  }

  /** A run that reaches a match state near a word of the language gives a witness there. */
  lemma MatchNearWord(dfa: Dfa, lang: Language, u: seq<byte>)
    requires dfa.start.Some? && DeadIsFinal(dfa) && DelaysMatches(dfa)
    requires dfa.isMatch(RegexRun(dfa, u)) && NearWord(lang, u)
    ensures exists v :: Witnesses(dfa, lang, v)
  {
    hide RegexRun, InLanguage, DeadIsFinal, DelaysMatches;
    if InLanguage(lang, u) {
      MatchIsLive(dfa, RegexRun(dfa, u));
      LiveRun(dfa, u);
      assert u[..|u|] == u;
      assert Witnesses(dfa, lang, u);
    } else if b: byte :| InLanguage(lang, u + [b]) {
      LongerWitness(dfa, lang, u, b);
    } else {
      var before := u[..|u| - 1];
      assert before + [PERCENT] == u;
      ShorterWitness(dfa, lang, before);
    }
  }

  /** The search's witnesses exist exactly when some input is matched: stopping at dead states loses none. */
  lemma WitnessesAreMatches(dfa: Dfa, kind: InputKind)
    requires dfa.start.Some? && DeadIsFinal(dfa) && DelaysMatches(dfa)
    ensures (exists w :: Witnesses(dfa, LanguageOf(kind), w)) <==> (exists w :: MatchesInput(dfa, LanguageOf(kind), w))
  {
    hide RegexRun, NearWord, Run, LanguageOf, InLanguage;
    var lang := LanguageOf(kind);
    if w :| Witnesses(dfa, lang, w) {
      assert MatchesInput(dfa, lang, w);
    }
    if w :| MatchesInput(dfa, lang, w) {
      if PassesMatch(dfa, w) {
        var p :| 0 <= p <= |w| && dfa.isMatch(RegexRun(dfa, w[..p]));
        PrefixIsNear(kind, w, p);
        MatchNearWord(dfa, lang, w[..p]);
      } else {
        LiveRun(dfa, w);
        assert Witnesses(dfa, lang, w);
      }
    }
  }

  datatype ReachabilityError = CompilePattern | EmptyIntersection

  /** A compiled pattern is accepted exactly when it matches some input of its language. */
  method ValidateReachable(compiled: Option<Dfa>, kind: InputKind) returns (r: Result<(), ReachabilityError>)
    requires compiled.Some? ==> Closed(compiled.value) && DeadIsFinal(compiled.value) && DelaysMatches(compiled.value)
    ensures r == Ok(()) <==>
            && compiled.Some? && compiled.value.start.Some?
            && exists w :: MatchesInput(compiled.value, LanguageOf(kind), w)
    ensures r == Err(CompilePattern) <==> compiled.None?
  {
    if compiled.None? {
      return Err(CompilePattern);
    }
    AlphabetsSuffice();
    var found := Intersects(compiled.value, LanguageOf(kind));
    if compiled.value.start.Some? {
      WitnessesAreMatches(compiled.value, kind);
    }
    return if found then Ok(()) else Err(EmptyIntersection);
  }

  // The delay matters: an automaton that matched as "/%" is read and was dead one byte later would have the input "/%41"
  // and no witness. Patterns do not compile to such automata.
}
