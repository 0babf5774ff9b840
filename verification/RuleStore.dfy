/** Insertion into sorted sequences, and the first or last element that satisfies a test. */
module Ordering {
  import opened Wrappers

  function Insert<T>(less: (T, T) -> bool, x: T, s: seq<T>): (r: seq<T>)
    ensures multiset(r) == multiset(s) + multiset{x}
  {
    if s == [] then [x]
    else if less(x, s[0]) then [x] + s
    else
      assert s == [s[0]] + s[1..];
      [s[0]] + Insert(less, x, s[1..])
  }

  function Sort<T>(less: (T, T) -> bool, s: seq<T>): (r: seq<T>)
    ensures multiset(r) == multiset(s)
  {
    if s == [] then []
    else
      assert s == [s[0]] + s[1..];
      Insert(less, s[0], Sort(less, s[1..]))
  }

  /** A strict order that compares any two different elements of `s`. */
  ghost predicate OrdersAll<T(!new)>(less: (T, T) -> bool, s: seq<T>) {
    && (forall x, y | x in s && y in s && x != y :: less(x, y) || less(y, x))
    && (forall x, y | x in s && y in s && less(x, y) :: x != y && !less(y, x))
    && (forall x, y, z | x in s && y in s && z in s && less(x, y) && less(y, z) :: less(x, z))
  }

  ghost predicate Distinct<T>(s: seq<T>) {
    forall i, j | 0 <= i < j < |s| :: s[i] != s[j]
  }

  ghost predicate Sorted<T>(less: (T, T) -> bool, s: seq<T>) {
    forall i, j | 0 <= i < j < |s| :: less(s[i], s[j])
  }

  lemma SameMembers<T>(a: seq<T>, b: seq<T>)
    requires multiset(a) == multiset(b)
    ensures forall x :: x in a <==> x in b
  {
    forall x ensures x in a <==> x in b {
      assert x in a <==> x in multiset(a);
      assert x in b <==> x in multiset(b);
    }
  }

  lemma {:induction false} InsertSorts<T(!new)>(less: (T, T) -> bool, x: T, s: seq<T>)
    requires OrdersAll(less, [x] + s) && Sorted(less, s) && x !in s
    ensures Sorted(less, Insert(less, x, s))
    decreases |s|
  {
    if s != [] && !less(x, s[0]) {
      assert x in [x] + s && s[0] in [x] + s;
      assert less(s[0], x);
      assert forall y :: y in [x] + s[1..] ==> y in [x] + s;
      InsertSorts(less, x, s[1..]);
      var tail := Insert(less, x, s[1..]);
      SameMembers(tail, s[1..] + [x]);
      forall j | 0 <= j < |tail| ensures less(s[0], tail[j]) {
        assert tail[j] in s[1..] + [x];
        if tail[j] != x {
          var k :| 0 <= k < |s[1..]| && s[1..][k] == tail[j];
          assert less(s[0], s[k + 1]);
        }
      }
    } else if s != [] {
      forall j | 0 <= j < |s| ensures less(x, s[j]) {
        if j > 0 {
          assert x in [x] + s && s[0] in [x] + s && s[j] in [x] + s;
          assert less(s[0], s[j]);
        }
      }
    }
  }

  lemma {:induction false} SortSorts<T(!new)>(less: (T, T) -> bool, s: seq<T>)
    requires OrdersAll(less, s) && Distinct(s)
    ensures Sorted(less, Sort(less, s))
    decreases |s|
  {
    if s != [] {
      var tail := s[1..];
      assert forall x :: x in tail ==> x in s;
      SortSorts(less, tail);
      SameMembers(Sort(less, tail), tail);
      assert s[0] !in tail;
      forall y | y in [s[0]] + Sort(less, tail) ensures y in s {
        if y != s[0] {
          assert y in tail;
        }
      }
      InsertSorts(less, s[0], Sort(less, tail));
    }
  }

  function FirstMatch<T>(test: T -> bool, s: seq<T>): Option<T> {
    if s == [] then None else if test(s[0]) then Some(s[0]) else FirstMatch(test, s[1..])
  }

  function LastMatch<T>(test: T -> bool, s: seq<T>): Option<T> {
    if s == [] then None
    else if test(s[|s| - 1]) then Some(s[|s| - 1])
    else LastMatch(test, s[..|s| - 1])
  }

  ghost predicate IsLeast<T(!new)>(less: (T, T) -> bool, test: T -> bool, s: seq<T>, x: T) {
    x in s && test(x) && forall y | y in s && test(y) && y != x :: less(x, y)
  }

  ghost predicate IsGreatest<T(!new)>(less: (T, T) -> bool, test: T -> bool, s: seq<T>, x: T) {
    x in s && test(x) && forall y | y in s && test(y) && y != x :: less(y, x)
  }

  lemma {:induction false} FirstIsLeast<T(!new)>(less: (T, T) -> bool, test: T -> bool, s: seq<T>)
    requires Sorted(less, s)
    ensures match FirstMatch(test, s)
            case None => forall x | x in s :: !test(x)
            case Some(x) => IsLeast(less, test, s, x)
    decreases |s|
  {
    if s != [] && !test(s[0]) {
      FirstIsLeast(less, test, s[1..]);
      assert s == [s[0]] + s[1..];
    }
  }

  lemma {:induction false} LastIsGreatest<T(!new)>(less: (T, T) -> bool, test: T -> bool, s: seq<T>)
    requires Sorted(less, s)
    ensures match LastMatch(test, s)
            case None => forall x | x in s :: !test(x)
            case Some(x) => IsGreatest(less, test, s, x)
    decreases |s|
  {
    if s != [] && !test(s[|s| - 1]) {
      LastIsGreatest(less, test, s[..|s| - 1]);
      assert s == s[..|s| - 1] + [s[|s| - 1]];
    }
  }

  /** What a sorted search finds depends only on the elements, not on the order they came in. */
  lemma FirstSorted<T(!new)>(less: (T, T) -> bool, test: T -> bool, s: seq<T>)
    requires OrdersAll(less, s) && Distinct(s)
    ensures match FirstMatch(test, Sort(less, s))
            case None => forall x | x in s :: !test(x)
            case Some(x) => IsLeast(less, test, s, x)
  {
    SortSorts(less, s);
    SameMembers(Sort(less, s), s);
    FirstIsLeast(less, test, Sort(less, s));
  }

  lemma LastSorted<T(!new)>(less: (T, T) -> bool, test: T -> bool, s: seq<T>)
    requires OrdersAll(less, s) && Distinct(s)
    ensures match LastMatch(test, Sort(less, s))
            case None => forall x | x in s :: !test(x)
            case Some(x) => IsGreatest(less, test, s, x)
  {
    SortSorts(less, s);
    SameMembers(Sort(less, s), s);
    LastIsGreatest(less, test, Sort(less, s));
  }
}

/** The stored tables of locations and rules, and the decisions taken from them. */
module RuleTables {
  import opened Wrappers
  import opened Polish
  import opened Operators
  import opened Text
  import opened Patterns
  import opened Atoms
  import opened Grammar
  import opened RuleMeaning
  import opened Ordering

  datatype RequestAction = Allow | Deny

  datatype Exprs = Exprs(infix: string, polish: Parts)

  datatype Rule = Rule(id: int, locationId: int, action: RequestAction, exprs: Exprs, createdAt: int, updatedAt: int)

  datatype Location = Location(id: int, pattern: string, createdAt: int)

  type Request = Atom -> Outcome

  /** The rule's action when it matches; an error in a leaf denies; a malformed rule is passed over. */
  function RuleEval(exprs: Exprs, action: RequestAction, request: Request): Option<RequestAction> {
    match EvalParts(request, exprs.polish)
    case Ok(Matched(flag)) => if flag then Some(action) else None
    case Ok(Failed(_)) => Some(Deny)
    case Err(_) => None
  }

  lemma SameEval(a: Exprs, b: Exprs, action: RequestAction, request: Request)
    requires a.polish == b.polish
    ensures RuleEval(a, action, request) == RuleEval(b, action, request)
  {
  }

  predicate Applies(request: Request, rule: Rule) {
    RuleEval(rule.exprs, rule.action, request).Some?
  }

  function InForce(request: Request): Rule -> bool {
    (r: Rule) => Applies(request, r)
  }

  function EffectOf(request: Request, rule: Option<Rule>): Option<RequestAction> {
    match rule case None => None case Some(r) => RuleEval(r.exprs, r.action, request)
  }

  predicate Older(a: Rule, b: Rule) {
    a.createdAt < b.createdAt || (a.createdAt == b.createdAt && a.id < b.id)
  }

  function Filter<T(!new)>(test: T -> bool, s: seq<T>): (r: seq<T>)
    ensures forall x :: x in r <==> x in s && test(x)
  {
    if s == [] then []
    else
      assert s == [s[0]] + s[1..];
      (if test(s[0]) then [s[0]] else []) + Filter(test, s[1..])
  }

  lemma {:induction false} FilterDistinct<T(!new)>(test: T -> bool, s: seq<T>)
    requires Distinct(s)
    ensures Distinct(Filter(test, s))
  {
    if s != [] {
      assert forall i, j | 0 <= i < j < |s[1..]| :: s[1..][i] == s[i + 1] && s[1..][j] == s[j + 1];
      FilterDistinct(test, s[1..]);
      assert s[0] !in s[1..];
    }
  }

  function IsAt(locationId: int): Rule -> bool {
    (r: Rule) => r.locationId == locationId
  }

  function AtLocation(locationId: int, rules: seq<Rule>): seq<Rule> {
    Filter(IsAt(locationId), rules)
  }

  /** Rule identifiers are primary keys. */
  ghost predicate UniqueIds(rules: seq<Rule>) {
    forall i, j | 0 <= i < j < |rules| :: rules[i].id != rules[j].id
  }

  lemma UniqueIdsOrder(rules: seq<Rule>)
    requires UniqueIds(rules)
    ensures OrdersAll(Older, rules) && Distinct(rules)
  {
    forall x, y | x in rules && y in rules && x != y ensures x.id != y.id {
      var i :| 0 <= i < |rules| && rules[i] == x;
      var j :| 0 <= j < |rules| && rules[j] == y;
    }
  }

  /** The rule that decides: evaluation runs through the rules in creation order, newest first. */
  function DecidingRule(request: Request, rules: seq<Rule>): Option<Rule> {
    LastMatch(InForce(request), Sort(Older, rules))
  }

  /** Independently of sorting: the newest of the rules that apply. */
  ghost predicate IsDeciding(request: Request, rules: seq<Rule>, rule: Option<Rule>) {
    match rule
    case None => forall r | r in rules :: !Applies(request, r)
    case Some(x) => IsGreatest(Older, InForce(request), rules, x)
  }

  lemma DecidingIsNewest(request: Request, rules: seq<Rule>)
    requires UniqueIds(rules)
    ensures IsDeciding(request, rules, DecidingRule(request, rules))
  {
    UniqueIdsOrder(rules);
    LastSorted(Older, InForce(request), rules);
  }

  lemma DecidingUnique(request: Request, rules: seq<Rule>, a: Option<Rule>, b: Option<Rule>)
    requires UniqueIds(rules) && IsDeciding(request, rules, a) && IsDeciding(request, rules, b)
    ensures a == b
  {
    UniqueIdsOrder(rules);
  }

  function Decision(request: Request, rules: seq<Rule>, locationId: int): Option<RequestAction> {
    EffectOf(request, DecidingRule(request, AtLocation(locationId, rules)))
  }

  lemma {:induction false} FilterIds(test: Rule -> bool, rules: seq<Rule>)
    requires UniqueIds(rules)
    ensures UniqueIds(Filter(test, rules))
  {
    if rules != [] {
      var tail := rules[1..];
      assert forall i, j | 0 <= i < j < |tail| :: tail[i] == rules[i + 1] && tail[j] == rules[j + 1];
      FilterIds(test, tail);
      forall x | x in Filter(test, tail) ensures x.id != rules[0].id {
        var i :| 0 <= i < |tail| && tail[i] == x;
        assert tail[i] == rules[i + 1];
      }
    }
  }

  /** A rule that is in force decides whatever else is in the table, as long as no newer one applies. */
  lemma DecisionIs(request: Request, rules: seq<Rule>, locationId: int, rule: Option<Rule>)
    requires UniqueIds(rules) && IsDeciding(request, AtLocation(locationId, rules), rule)
    ensures Decision(request, rules, locationId) == EffectOf(request, rule)
  {
    var here := AtLocation(locationId, rules);
    FilterIds(IsAt(locationId), rules);
    DecidingIsNewest(request, here);
    DecidingUnique(request, here, DecidingRule(request, here), rule);
  }
}

/** Collapsing duplicate rules, and the unique key that follows. */
module DuplicateCollapse {
  import opened Wrappers
  import opened Polish
  import opened Patterns
  import opened Atoms
  import opened Grammar
  import opened RuleStorage
  import opened Ordering
  import opened RuleTables

  /** The key of the unique index: location, action and the stored text of the polish form. */
  predicate SameKey(a: Rule, b: Rule) {
    a.locationId == b.locationId && a.action == b.action && Printed(a.exprs.polish) == Printed(b.exprs.polish)
  }

  predicate SameLogicalRule(a: Rule, b: Rule) {
    a.action == b.action && a.exprs.polish == b.exprs.polish
  }

  ghost predicate ValidRules(oracle: Oracle, rules: seq<Rule>) {
    forall r | r in rules :: ValidParts(oracle, r.exprs.polish)
  }

  /** On stored rules the text of the index distinguishes exactly what the service compares. */
  lemma KeyIsLogicalRule(oracle: Oracle, a: Rule, b: Rule)
    requires ValidParts(oracle, a.exprs.polish) && ValidParts(oracle, b.exprs.polish)
    ensures SameKey(a, b) <==> a.locationId == b.locationId && SameLogicalRule(a, b)
  {
    if Printed(a.exprs.polish) == Printed(b.exprs.polish) {
      PrintedInjective(oracle, a.exprs.polish, b.exprs.polish);
    }
  }

  predicate HasNewerDuplicate(rules: seq<Rule>, older: Rule) {
    exists newer | newer in rules :: SameKey(newer, older) && Older(older, newer)
  }

  function IsNewest(rules: seq<Rule>): Rule -> bool {
    (r: Rule) => !HasNewerDuplicate(rules, r)
  }

  function Collapsed(rules: seq<Rule>): seq<Rule> {
    Filter(IsNewest(rules), rules)
  }

  ghost predicate UniqueKeys(rules: seq<Rule>) {
    forall i, j | 0 <= i < j < |rules| :: !SameKey(rules[i], rules[j])
  }

  class RulesTable {
    var rules: seq<Rule>
    var uniqueIndex: bool

    constructor (rules: seq<Rule>)
      ensures this.rules == rules && !uniqueIndex
    {
      this.rules := rules;
      uniqueIndex := false;
    }

    /** Delete every row with a newer duplicate, judged on the table as it was, then create the unique index. */
    method Up()
      requires UniqueIds(rules)
      modifies this
      ensures rules == Collapsed(old(rules)) && uniqueIndex && UniqueKeys(rules) && UniqueIds(rules)
    {
      var table := rules;
      var kept: seq<Rule> := [];
      var i := |table|;
      while i > 0
        invariant 0 <= i <= |table|
        invariant kept == Filter(IsNewest(table), table[i..])
      {
        i := i - 1;
        assert table[i..][1..] == table[i + 1..];
        if !HasNewerDuplicate(table, table[i]) {
          kept := [table[i]] + kept;
        }
      }
      assert table[0..] == table;
      CollapsedUnique(table);
      FilterIds(IsNewest(table), table);
      rules := kept;
      uniqueIndex := true;
    }
  }

  /** After the collapse at most one row is left for each location, action and polish text. */
  lemma CollapsedUnique(rules: seq<Rule>)
    requires UniqueIds(rules)
    ensures UniqueKeys(Collapsed(rules))
  {
    var kept := Collapsed(rules);
    FilterIds(IsNewest(rules), rules);
    forall i, j | 0 <= i < j < |kept| ensures !SameKey(kept[i], kept[j]) {
      assert kept[i] in kept && kept[j] in kept;
      assert kept[i].id != kept[j].id;
      assert Older(kept[i], kept[j]) || Older(kept[j], kept[i]);
    }
  }

  /** Every row has a survivor with its key that is at least as new. */
  lemma {:induction false} Survivor(rules: seq<Rule>, row: Rule) returns (kept: Rule)
    requires UniqueIds(rules) && row in rules
    ensures kept in Collapsed(rules) && SameKey(kept, row) && (kept == row || Older(row, kept))
  {
    UniqueIdsOrder(rules);
    LastSorted(Older, r => SameKey(r, row), rules);
    kept := LastMatch(r => SameKey(r, row), Sort(Older, rules)).value;
  }

  /** Two rules with one key and valid texts take effect alike. */
  lemma SameKeyApplies(oracle: Oracle, a: Rule, b: Rule, request: Request)
    requires ValidParts(oracle, a.exprs.polish) && ValidParts(oracle, b.exprs.polish) && SameKey(a, b)
    ensures EffectOf(request, Some(a)) == EffectOf(request, Some(b)) && a.locationId == b.locationId
  {
    KeyIsLogicalRule(oracle, a, b);
  }

  lemma DecidingSurvives(oracle: Oracle, rules: seq<Rule>, request: Request, locationId: int, x: Rule)
    requires UniqueIds(rules) && ValidRules(oracle, rules) && IsDeciding(request, AtLocation(locationId, rules), Some(x))
    ensures x in Collapsed(rules)
  {
    hide RuleEval, SameKey, UniqueIds, Collapsed;
    var kept := Survivor(rules, x);
    CollapsedIn(rules, kept);
    SameKeyApplies(oracle, kept, x, request);
    assert kept in AtLocation(locationId, rules);
  }

  lemma CollapsedIn(rules: seq<Rule>, row: Rule)
    ensures row in Collapsed(rules) ==> row in rules
  {
  }

  /** The rows removed leave the newest-first decision unchanged, for every location and request. */
  lemma CollapseKeepsDecisions(oracle: Oracle, rules: seq<Rule>, request: Request, locationId: int)
    requires UniqueIds(rules) && ValidRules(oracle, rules)
    ensures Decision(request, Collapsed(rules), locationId) == Decision(request, rules, locationId)
  {
    hide Decision, UniqueIds, Applies, ValidRules, IsNewest;
    var all := AtLocation(locationId, rules);
    FilterIds(IsAt(locationId), rules);
    FilterIds(IsNewest(rules), rules);
    DecidingIsNewest(request, all);
    var rule := DecidingRule(request, all);
    if rule.Some? {
      DecidingSurvives(oracle, rules, request, locationId, rule.value);
    }
    DecisionIs(request, Collapsed(rules), locationId, rule);
    DecisionIs(request, rules, locationId, rule);
  }
}

/** Appending, listing and removing rules. */
module LocationService {
  import opened Wrappers
  import opened Polish
  import opened Patterns
  import opened Atoms
  import opened Grammar
  import opened Ordering
  import opened RuleTables
  import opened DuplicateCollapse

  /** Both tables with their automatically increasing keys. */
  datatype Tables = Tables(locations: seq<Location>, rules: seq<Rule>, nextLocation: int, nextRule: int)

  datatype RemoveRuleFailed = RuleSetNotExist | RuleNotExist(seqNo: nat) | RuleIdNotExist(id: int)

  ghost predicate Consistent(t: Tables) {
    && (forall l | l in t.locations :: l.id < t.nextLocation)
    && (forall r | r in t.rules :: r.id < t.nextRule && r.locationId < t.nextLocation)
    && UniqueIds(t.rules)
  }

  function HasPattern(pattern: string): Location -> bool {
    (l: Location) => l.pattern == pattern
  }

  function FindLocation(t: Tables, pattern: string): Option<int> {
    match FirstMatch(HasPattern(pattern), t.locations) case None => None case Some(l) => Some(l.id)
  }

  function Candidate(locationId: int, action: RequestAction): Rule -> bool {
    (r: Rule) => r.locationId == locationId && r.action == action
  }

  function HasPolish(polish: Parts): Rule -> bool {
    (r: Rule) => r.exprs.polish == polish
  }

  /** The stored rule with this action and polish form, if there is one. */
  function FindRule(t: Tables, locationId: int, action: RequestAction, polish: Parts): Option<Rule> {
    FirstMatch(HasPolish(polish), Sort(Older, Filter(Candidate(locationId, action), t.rules)))
  }

  /** A re-appended rule moves to the front by taking a new creation time. */
  function Refreshed(rules: seq<Rule>, id: int, now: int): (r: seq<Rule>)
    ensures |r| == |rules|
  {
    seq(|rules|, i requires 0 <= i < |rules| =>
      if rules[i].id == id then rules[i].(createdAt := now, updatedAt := now) else rules[i])
  }

  function WithLocation(t: Tables, pattern: string, now: int): (Tables, int) {
    match FindLocation(t, pattern)
    case Some(id) => (t, id)
    case None =>
      (t.(locations := t.locations + [Location(t.nextLocation, pattern, now)], nextLocation := t.nextLocation + 1),
       t.nextLocation)
  }

  function Appended(t: Tables, pattern: string, action: RequestAction, exprs: Exprs, now: int): (Tables, Rule) {
    var (u, locationId) := WithLocation(t, pattern, now);
    match FindRule(u, locationId, action, exprs.polish)
    case Some(existing) =>
      (u.(rules := Refreshed(u.rules, existing.id, now)), existing.(createdAt := now, updatedAt := now))
    case None =>
      var row := Rule(u.nextRule, locationId, action, exprs, now, now);
      (u.(rules := u.rules + [row], nextRule := u.nextRule + 1), row)
  }

  /** Keep the first of every group of equal logical rules, in the order the rules come in. */
  function Deduplicated(rules: seq<Rule>): (r: seq<Rule>)
    ensures forall x | x in r :: x in rules
  {
    if rules == [] then []
    else
      var unique, candidate := Deduplicated(rules[..|rules| - 1]), rules[|rules| - 1];
      if exists existing | existing in unique :: SameLogicalRule(existing, candidate) then unique
      else unique + [candidate]
  }

  function Visible(t: Tables, locationId: int): seq<Rule> {
    Deduplicated(Sort(Older, AtLocation(locationId, t.rules)))
  }

  predicate IsSelected(locationId: int, selected: seq<Rule>, r: Rule) {
    r.locationId == locationId && exists s | s in selected :: SameLogicalRule(r, s)
  }

  function HasIdIn(ids: seq<int>): Rule -> bool {
    (r: Rule) => r.id in ids
  }

  function Unselected(locationId: int, selected: seq<Rule>): Rule -> bool {
    (r: Rule) => !IsSelected(locationId, selected, r)
  }

  class Service {
    var locations: seq<Location>
    var rules: seq<Rule>
    var nextLocation: int
    var nextRule: int

    constructor ()
      ensures Abs() == Tables([], [], 1, 1) && Consistent(Abs())
    {
      locations, rules, nextLocation, nextRule := [], [], 1, 1;
    }

    function Abs(): Tables
      reads this
    {
      Tables(locations, rules, nextLocation, nextRule)
    }

    method MatchOrCreateLocation(pattern: string, now: int) returns (id: int)
      modifies this
      ensures (Abs(), id) == WithLocation(old(Abs()), pattern, now)
    {
      var found := FindLocation(Abs(), pattern);
      if found.Some? {
        return found.value;
      }
      id := nextLocation;
      locations := locations + [Location(id, pattern, now)];
      nextLocation := nextLocation + 1;
    }

    method RefreshRulePriority(existing: Rule, now: int) returns (row: Rule)
      modifies this`rules
      ensures rules == Refreshed(old(rules), existing.id, now) && row == existing.(createdAt := now, updatedAt := now)
    {
      row := existing.(createdAt := now, updatedAt := now);
      var i := 0;
      var table := rules;
      while i < |table|
        invariant 0 <= i <= |table| == |rules|
        invariant forall j :: 0 <= j < i ==> rules[j] == Refreshed(table, existing.id, now)[j]
        invariant forall j :: i <= j < |table| ==> rules[j] == table[j]
      {
        if rules[i].id == existing.id {
          rules := rules[i := rules[i].(createdAt := now, updatedAt := now)];
        }
        i := i + 1;
      }
    }

    method AppendRule(pattern: string, action: RequestAction, exprs: Exprs, now: int) returns (row: Rule)
      modifies this
      ensures (Abs(), row) == Appended(old(Abs()), pattern, action, exprs, now)
    {
      var locationId := MatchOrCreateLocation(pattern, now);
      var existing := FindRule(Abs(), locationId, action, exprs.polish);
      if existing.Some? {
        row := RefreshRulePriority(existing.value, now);
        return;
      }
      row := Rule(nextRule, locationId, action, exprs, now, now);
      rules := rules + [row];
      nextRule := nextRule + 1;
    }

    /** Remove the listed rules with all their duplicates, or nothing if one of the numbers is not listed. */
    method RemoveRules(pattern: string, numbers: seq<nat>) returns (r: Result<(), RemoveRuleFailed>)
      modifies this`rules
      ensures match FindLocation(old(Abs()), pattern)
              case None => r == Err(RuleSetNotExist) && rules == old(rules)
              case Some(locationId) =>
                var visible := Visible(old(Abs()), locationId);
                if forall i :: 0 <= i < |numbers| ==> numbers[i] < |visible| then
                  r == Ok(()) && exists selected: seq<Rule> ::
                    && |selected| == |numbers| && (forall i :: 0 <= i < |numbers| ==> selected[i] == visible[numbers[i]])
                    && rules == Filter(Unselected(locationId, selected), old(rules))
                else
                  rules == old(rules) && exists i ::
                    && 0 <= i < |numbers| && numbers[i] >= |visible| && r == Err(RuleNotExist(numbers[i]))
                    && forall j :: 0 <= j < i ==> numbers[j] < |visible|
    {
      var found := FindLocation(Abs(), pattern);
      if found.None? {
        return Err(RuleSetNotExist);
      }
      var visible := Visible(Abs(), found.value);
      var selected: seq<Rule> := [];
      for i := 0 to |numbers|
        invariant |selected| == i
        invariant forall j :: 0 <= j < i ==> numbers[j] < |visible| && selected[j] == visible[numbers[j]]
      {
        if numbers[i] >= |visible| {
          return Err(RuleNotExist(numbers[i]));
        }
        selected := selected + [visible[numbers[i]]];
      }
      rules := Filter(Unselected(found.value, selected), rules);
      return Ok(());
    }

    /** The least identifier that no rule has, if there is one. */
    method MissingId(ids: seq<int>) returns (missing: Option<int>)
      ensures match missing
              case None => forall id | id in ids :: exists r | r in rules :: r.id == id
              case Some(id) => id in ids && (forall r | r in rules :: r.id != id)
                               && forall other | other in ids && other < id :: exists r | r in rules :: r.id == other
    {
      missing := None;
      for i := 0 to |ids|
        invariant match missing
                  case None => forall j :: 0 <= j < i ==> exists r | r in rules :: r.id == ids[j]
                  case Some(id) => id in ids && (forall r | r in rules :: r.id != id)
                                   && forall j :: 0 <= j < i && ids[j] < id ==> exists r | r in rules :: r.id == ids[j]
      {
        if !exists r | r in rules :: r.id == ids[i] {
          if missing.None? || ids[i] < missing.value {
            missing := Some(ids[i]);
          }
        }
      }
    }

    method ForeignRule(matched: seq<Rule>, locationId: int) returns (foreign: Option<Rule>)
      ensures match foreign
              case None => forall x | x in matched :: x.locationId == locationId
              case Some(x) => x in matched && x.locationId != locationId
    {
      for i := 0 to |matched|
        invariant forall j :: 0 <= j < i ==> matched[j].locationId == locationId
      {
        if matched[i].locationId != locationId {
          return Some(matched[i]);
        }
      }
      return None;
    }

    /**
     Remove the rules with these identifiers with all their duplicates; a missing identifier, the least one, or else the
     identifier of another location's rule is reported and nothing is removed.
     */
    method RemoveRulesByIds(pattern: string, ids: seq<int>) returns (r: Result<(), RemoveRuleFailed>)
      modifies this`rules
      ensures match FindLocation(old(Abs()), pattern)
              case None => r == Err(RuleSetNotExist) && rules == old(rules)
              case Some(locationId) =>
                if exists id | id in ids :: forall x | x in old(rules) :: x.id != id then
                  rules == old(rules) && r.Err? && r.error.RuleIdNotExist? && r.error.id in ids
                  && (forall x | x in old(rules) :: x.id != r.error.id)
                  && forall id | id in ids && id < r.error.id :: exists x | x in old(rules) :: x.id == id
                else if exists x | x in old(rules) :: x.id in ids && x.locationId != locationId then
                  rules == old(rules)
                  && exists x | x in old(rules) :: x.id in ids && x.locationId != locationId && r == Err(RuleIdNotExist(x.id))
                else
                  && r == Ok(())
                  && forall x :: x in rules <==> (
                       && x in old(rules)
                       && !(x.locationId == locationId && exists s | s in old(rules) :: s.id in ids && SameLogicalRule(x, s)))
    {
      var found := FindLocation(Abs(), pattern);
      if found.None? {
        return Err(RuleSetNotExist);
      }
      var missing := MissingId(ids);
      if missing.Some? {
        return Err(RuleIdNotExist(missing.value));
      }
      var matched := Filter(HasIdIn(ids), rules);
      var foreign := ForeignRule(matched, found.value);
      if foreign.Some? {
        return Err(RuleIdNotExist(foreign.value.id));
      }
      RemovedExactly(rules, found.value, matched);
      rules := Filter(Unselected(found.value, matched), rules);
      return Ok(());
    }
  }

  /** The deduplicating loop over a drained vector. */
  method DeduplicateRules(rules: seq<Rule>) returns (unique: seq<Rule>)
    ensures unique == Deduplicated(rules)
  {
    unique := [];
    for i := 0 to |rules|
      invariant unique == Deduplicated(rules[..i])
    {
      assert rules[..i + 1][..i] == rules[..i];
      var duplicate := exists existing | existing in unique :: SameLogicalRule(existing, rules[i]);
      if !duplicate {
        unique := unique + [rules[i]];
      }
    }
    assert rules[..|rules|] == rules;
  }

  ghost predicate NoDuplicates(rules: seq<Rule>) {
    forall i, j | 0 <= i < j < |rules| :: !SameLogicalRule(rules[i], rules[j])
  }

  predicate HasLogical(rules: seq<Rule>, rule: Rule) {
    exists s | s in rules :: SameLogicalRule(s, rule)
  }

  lemma {:induction false} DeduplicatedUnique(rules: seq<Rule>)
    ensures NoDuplicates(Deduplicated(rules))
    decreases |rules|
  {
    if rules != [] {
      var unique, candidate := Deduplicated(rules[..|rules| - 1]), rules[|rules| - 1];
      DeduplicatedUnique(rules[..|rules| - 1]);
      if !HasLogical(unique, candidate) {
        forall i | 0 <= i < |unique| ensures !SameLogicalRule(unique[i], candidate) {
          assert unique[i] in unique;
        }
      }
    }
  }

  /** Nothing is lost: every rule keeps an equal one. */
  lemma {:induction false} DeduplicatedCovers(rules: seq<Rule>, rule: Rule)
    requires rule in rules
    ensures HasLogical(Deduplicated(rules), rule)
    decreases |rules|
  {
    var init, candidate := rules[..|rules| - 1], rules[|rules| - 1];
    var unique, all := Deduplicated(init), Deduplicated(rules);
    if rule in init {
      DeduplicatedCovers(init, rule);
      var s :| s in unique && SameLogicalRule(s, rule);
      assert s in all;
    } else if !HasLogical(unique, candidate) {
      assert all == unique + [candidate] && all[|all| - 1] == candidate;
      assert candidate in all && SameLogicalRule(candidate, rule);
    }
  }

  /** No rule before the i-th is logically equal to it. */
  predicate IsFirst(rules: seq<Rule>, i: nat)
    requires i < |rules|
  {
    forall j | 0 <= j < i :: !SameLogicalRule(rules[j], rules[i])
  }

  /** `kept` are exactly the first rules of their kind, in the order in which they came; `at` are their positions. */
  ghost predicate AreFirsts(rules: seq<Rule>, kept: seq<Rule>, at: seq<nat>) {
    && |at| == |kept|
    && (forall k | 0 <= k < |at| :: at[k] < |rules| && kept[k] == rules[at[k]] && IsFirst(rules, at[k]))
    && (forall k, m | 0 <= k < m < |at| :: at[k] < at[m])
    && (forall i | 0 <= i < |rules| && IsFirst(rules, i) :: i in at)
  }

  lemma {:induction false} DeduplicatedFirsts(rules: seq<Rule>) returns (at: seq<nat>)
    ensures AreFirsts(rules, Deduplicated(rules), at)
    decreases |rules|
  {
    if rules == [] {
      at := [];
    } else {
      hide AreFirsts, IsFirst;
      var n := |rules| - 1;
      var kept := Deduplicated(rules[..n]);
      var before := DeduplicatedFirsts(rules[..n]);
      FirstWhenNew(rules);
      at := if HasLogical(kept, rules[n]) then before else before + [n];
      FirstsExtend(rules, kept, before);
      hide SameLogicalRule;
    }
  }

  lemma FirstsExtend(rules: seq<Rule>, kept: seq<Rule>, at: seq<nat>)
    requires rules != [] && AreFirsts(rules[..|rules| - 1], kept, at)
    ensures !IsFirst(rules, |rules| - 1) ==> AreFirsts(rules, kept, at)
    ensures IsFirst(rules, |rules| - 1) ==> AreFirsts(rules, kept + [rules[|rules| - 1]], at + [|rules| - 1])
  {
    hide IsFirst;
    FirstInPrefix(rules, |rules| - 1);
    if IsFirst(rules, |rules| - 1) {
      FirstsGrow(rules, kept, at);
    }
  }

  lemma FirstsGrow(rules: seq<Rule>, kept: seq<Rule>, at: seq<nat>)
    requires rules != [] && AreFirsts(rules[..|rules| - 1], kept, at) && IsFirst(rules, |rules| - 1)
    ensures AreFirsts(rules, kept + [rules[|rules| - 1]], at + [|rules| - 1])
  {
    hide IsFirst;
    FirstInPrefix(rules, |rules| - 1);
    var n, more := |rules| - 1, at + [|rules| - 1];
    assert more[|at|] == n;
    forall i | 0 <= i < |rules| && IsFirst(rules, i) ensures i in more {
      if i < n {
        assert IsFirst(rules[..n], i) && i in at;
      }
    }
  }

  lemma FirstInPrefix(rules: seq<Rule>, n: nat)
    requires n <= |rules|
    ensures forall i | 0 <= i < n :: IsFirst(rules[..n], i) <==> IsFirst(rules, i)
  {
  }

  /** The last rule is the first of its kind exactly when none of those kept before is equal to it. */
  lemma FirstWhenNew(rules: seq<Rule>)
    requires rules != []
    ensures IsFirst(rules, |rules| - 1) <==> !HasLogical(Deduplicated(rules[..|rules| - 1]), rules[|rules| - 1])
  {
    var init, candidate := rules[..|rules| - 1], rules[|rules| - 1];
    if !IsFirst(rules, |rules| - 1) {
      var j :| 0 <= j < |init| && SameLogicalRule(rules[j], candidate);
      assert init[j] in init;
      DeduplicatedCovers(init, init[j]);
      var s :| s in Deduplicated(init) && SameLogicalRule(s, init[j]);
    }
    if HasLogical(Deduplicated(init), candidate) {
      var s :| s in Deduplicated(init) && SameLogicalRule(s, candidate);
      var j :| 0 <= j < |init| && init[j] == s;
      assert SameLogicalRule(rules[j], candidate);
    }
  }

  lemma {:induction false} DeduplicatedSame(rules: seq<Rule>)
    requires NoDuplicates(rules)
    ensures Deduplicated(rules) == rules
    decreases |rules|
  {
    hide SameLogicalRule;
    if rules != [] {
      var init, candidate := rules[..|rules| - 1], rules[|rules| - 1];
      assert NoDuplicates(init) by {
        assert forall i | 0 <= i < |init| :: init[i] == rules[i];
      }
      DeduplicatedSame(init);
      forall s | s in init ensures !SameLogicalRule(s, candidate) {
        var i :| 0 <= i < |init| && init[i] == s;
        assert rules[i] == s;
      }
    }
  }

  lemma {:induction false} FirstMatchIn<T>(test: T -> bool, s: seq<T>)
    ensures match FirstMatch(test, s)
            case None => forall x | x in s :: !test(x)
            case Some(x) => x in s && test(x)
  {
    if s != [] {
      assert s == [s[0]] + s[1..];
      FirstMatchIn(test, s[1..]);
    }
  }

  /** What `FindRule` finds: a rule with this location, action and polish form, whenever there is one. */
  lemma FindRuleFinds(t: Tables, locationId: int, action: RequestAction, polish: Parts)
    ensures match FindRule(t, locationId, action, polish)
            case None => forall r | r in t.rules :: !(r.locationId == locationId && r.action == action && r.exprs.polish == polish)
            case Some(r) => r in t.rules && r.locationId == locationId && r.action == action && r.exprs.polish == polish
  {
    var candidates := Filter(Candidate(locationId, action), t.rules);
    FirstMatchIn(HasPolish(polish), Sort(Older, candidates));
    SameMembers(Sort(Older, candidates), candidates);
  }

  lemma RefreshedMembers(rules: seq<Rule>, row: Rule, now: int)
    requires UniqueIds(rules) && row in rules
    ensures var after := Refreshed(rules, row.id, now);
            && UniqueIds(after)
            && forall r :: r in after <==> r == row.(createdAt := now, updatedAt := now) || (r in rules && r != row)
  {
    var after, moved := Refreshed(rules, row.id, now), row.(createdAt := now, updatedAt := now);
    var k :| 0 <= k < |rules| && rules[k] == row;
    assert forall i :: 0 <= i < |rules| && i != k ==> rules[i].id != row.id;
    assert after[k] == moved && forall i :: 0 <= i < |rules| && i != k ==> after[i] == rules[i];
    forall r | r in rules && r != row ensures r in after {
      var i :| 0 <= i < |rules| && rules[i] == r;
      assert after[i] == r;
    }
  }

  /** `row` stands in `after`, in place of `before` or as an additional row; every other row is as it was. */
  ghost predicate Replaces(rules: seq<Rule>, after: seq<Rule>, before: Option<Rule>, row: Rule) {
    && (forall r :: r in after <==> r == row || (r in rules && Some(r) != before))
    && match before
       case Some(prior) =>
         prior in rules && row == prior.(createdAt := row.createdAt, updatedAt := row.createdAt) && |after| == |rules|
       case None =>
         after == rules + [row]
         && forall r | r in rules :: !(r.locationId == row.locationId && SameLogicalRule(r, row))
  }

  lemma RowAdded(rules: seq<Rule>, row: Rule)
    requires UniqueIds(rules) && forall r | r in rules :: r.id < row.id
    requires forall r | r in rules :: !(r.locationId == row.locationId && SameLogicalRule(r, row))
    ensures Replaces(rules, rules + [row], None, row) && UniqueIds(rules + [row])
  {
    forall i | 0 <= i < |rules| ensures rules[i].id < row.id {
      assert rules[i] in rules;
    }
  }

  lemma RowMoved(rules: seq<Rule>, prior: Rule, now: int)
    requires UniqueIds(rules) && prior in rules && prior.createdAt < now
    ensures var after, row := Refreshed(rules, prior.id, now), prior.(createdAt := now, updatedAt := now);
            Replaces(rules, after, Some(prior), row) && UniqueIds(after)
  {
    RefreshedMembers(rules, prior, now);
    var row := prior.(createdAt := now, updatedAt := now);
  }

  /** The appended rule stands in the table as its newest row; every other row is as it was. */
  lemma AppendedRows(t: Tables, pattern: string, action: RequestAction, exprs: Exprs, now: int) returns (before: Option<Rule>)
    requires Consistent(t) && forall r | r in t.rules :: r.createdAt < now
    ensures var (u, row) := Appended(t, pattern, action, exprs, now);
            && Consistent(u) && row.createdAt == now && row.action == action && row.exprs.polish == exprs.polish
            && FindLocation(u, pattern) == Some(row.locationId)
            && Replaces(t.rules, u.rules, before, row)
  {
    hide FindRule, Refreshed, UniqueIds;
    var (s, locationId) := WithLocation(t, pattern, now);
    FindRuleFinds(s, locationId, action, exprs.polish);
    FirstMatchIn(HasPattern(pattern), t.locations);
    LocationFound(t, pattern, now);
    before := FindRule(s, locationId, action, exprs.polish);
    match before
    case Some(prior) => RowMoved(t.rules, prior, now);
    case None => RowAdded(t.rules, Rule(s.nextRule, locationId, action, exprs, now, now));
  }

  lemma LocationFound(t: Tables, pattern: string, now: int)
    ensures var (u, id) := WithLocation(t, pattern, now); FindLocation(u, pattern) == Some(id)
  {
    FirstMatchIn(HasPattern(pattern), t.locations);
    if FindLocation(t, pattern).None? {
      FirstMatchSnoc(HasPattern(pattern), t.locations, Location(t.nextLocation, pattern, now));
    }
  }

  lemma {:induction false} FirstMatchSnoc<T>(test: T -> bool, s: seq<T>, x: T)
    requires forall y | y in s :: !test(y)
    ensures FirstMatch(test, s + [x]) == if test(x) then Some(x) else None
  {
    if s == [] {
      assert (s + [x])[1..] == [];
    } else {
      assert (s + [x])[1..] == s[1..] + [x];
      FirstMatchSnoc(test, s[1..], x);
    }
  }

  /**
   Appending a rule, whether new or already stored, makes its location decide by that rule wherever it applies
   and exactly as before elsewhere; all other locations decide as before.
   */
  lemma AppendDecides(
      t: Tables, pattern: string, action: RequestAction, exprs: Exprs, now: int, request: Request, locationId: int)
    requires Consistent(t) && forall r | r in t.rules :: r.createdAt < now
    ensures var (u, row) := Appended(t, pattern, action, exprs, now);
            var effect := RuleEval(exprs, action, request);
            Decision(request, u.rules, locationId) ==
            if locationId == row.locationId && effect.Some? then effect else Decision(request, t.rules, locationId)
  {
    hide Appended, Replaces, Consistent, Decision, RuleEval;
    var before := AppendedRows(t, pattern, action, exprs, now);
    var (u, row) := Appended(t, pattern, action, exprs, now);
    ConsistentIds(t);
    ConsistentIds(u);
    SameEval(row.exprs, exprs, action, request);
    ReplacedDecides(request, t.rules, u.rules, before, row, locationId);
  }

  lemma ConsistentIds(t: Tables)
    requires Consistent(t)
    ensures UniqueIds(t.rules)
  {
  }

  /** The newest row of all decides where it applies; where it does not, neither it nor the row it replaced matters. */
  lemma ReplacedDecides(
      request: Request, rules: seq<Rule>, after: seq<Rule>, before: Option<Rule>, row: Rule, locationId: int)
    requires UniqueIds(rules) && UniqueIds(after) && Replaces(rules, after, before, row)
    requires forall r | r in rules :: r.createdAt < row.createdAt
    ensures Decision(request, after, locationId) ==
            if locationId == row.locationId && Applies(request, row) then EffectOf(request, Some(row))
            else Decision(request, rules, locationId)
  {
    hide Replaces, Decision, EffectOf, Applies, IsDeciding, UniqueIds, AtLocation;
    if locationId == row.locationId && Applies(request, row) {
      NewestDecides(request, rules, after, before, row);
      DecisionIs(request, after, locationId, Some(row));
    } else {
      var rule := DecidingAt(request, rules, locationId);
      OthersDecide(request, rules, after, before, row, locationId, rule);
      DecisionIs(request, after, locationId, rule);
      DecisionIs(request, rules, locationId, rule);
    }
  }

  lemma DecidingAt(request: Request, rules: seq<Rule>, locationId: int) returns (rule: Option<Rule>)
    requires UniqueIds(rules)
    ensures IsDeciding(request, AtLocation(locationId, rules), rule)
  {
    hide IsDeciding, UniqueIds;
    FilterIds(IsAt(locationId), rules);
    rule := DecidingRule(request, AtLocation(locationId, rules));
    DecidingIsNewest(request, AtLocation(locationId, rules));
  }

  lemma NewestDecides(request: Request, rules: seq<Rule>, after: seq<Rule>, before: Option<Rule>, row: Rule)
    requires Replaces(rules, after, before, row) && Applies(request, row)
    requires forall r | r in rules :: r.createdAt < row.createdAt
    ensures IsDeciding(request, AtLocation(row.locationId, after), Some(row))
  {
    hide Applies;
  }

  lemma OthersDecide(
      request: Request, rules: seq<Rule>, after: seq<Rule>, before: Option<Rule>, row: Rule, locationId: int, rule: Option<Rule>)
    requires Replaces(rules, after, before, row) && !(locationId == row.locationId && Applies(request, row))
    requires IsDeciding(request, AtLocation(locationId, rules), rule)
    ensures IsDeciding(request, AtLocation(locationId, after), rule)
  {
    hide RuleEval;
  }

  /** Appending keeps every stored rule's key unique. */
  lemma AppendKeepsUnique(oracle: Oracle, t: Tables, pattern: string, action: RequestAction, exprs: Exprs, now: int)
    requires Consistent(t) && UniqueKeys(t.rules) && ValidRules(oracle, t.rules) && ValidParts(oracle, exprs.polish)
    requires forall r | r in t.rules :: r.createdAt < now
    ensures var u := Appended(t, pattern, action, exprs, now).0;
            UniqueKeys(u.rules) && ValidRules(oracle, u.rules) && |u.rules| <= |t.rules| + 1
  {
    var before := AppendedRows(t, pattern, action, exprs, now);
    var (u, row) := Appended(t, pattern, action, exprs, now);
    forall i, j | 0 <= i < j < |u.rules| ensures !SameKey(u.rules[i], u.rules[j]) {
      var a, b := u.rules[i], u.rules[j];
      assert a in u.rules && b in u.rules;
      assert a.id != b.id;
      if a == row {
        RowKeyUnique(oracle, t, row, before, b);
      } else if b == row {
        RowKeyUnique(oracle, t, row, before, a);
      } else {
        KeysDiffer(t.rules, a, b);
      }
    }
  }

  lemma KeysDiffer(rules: seq<Rule>, a: Rule, b: Rule)
    requires UniqueKeys(rules) && a in rules && b in rules && a != b
    ensures !SameKey(a, b)
  {
    var i :| 0 <= i < |rules| && rules[i] == a;
    var j :| 0 <= j < |rules| && rules[j] == b;
    assert if i < j then !SameKey(rules[i], rules[j]) else !SameKey(rules[j], rules[i]);
  }

  lemma RowKeyUnique(oracle: Oracle, t: Tables, row: Rule, before: Option<Rule>, other: Rule)
    requires UniqueKeys(t.rules) && ValidRules(oracle, t.rules) && ValidParts(oracle, row.exprs.polish)
    requires other in t.rules && Some(other) != before
    requires before.Some? ==> before.value in t.rules && SameKey(before.value, row)
    requires before.None? ==> !(other.locationId == row.locationId && SameLogicalRule(other, row))
    ensures !SameKey(other, row) && !SameKey(row, other)
  {
    if before.Some? {
      KeysDiffer(t.rules, before.value, other);
    } else {
      KeyIsLogicalRule(oracle, other, row);
    }
  }

  /** Removing a newly appended rule again gives back the table of rules. */
  lemma RemoveUndoesAppend(t: Tables, pattern: string, action: RequestAction, exprs: Exprs, now: int)
    requires Consistent(t) && forall r | r in t.rules :: r.createdAt < now
    requires |Appended(t, pattern, action, exprs, now).0.rules| > |t.rules|
    ensures var (u, row) := Appended(t, pattern, action, exprs, now);
            Filter(Unselected(row.locationId, [row]), u.rules) == t.rules
  {
    var before := AppendedRows(t, pattern, action, exprs, now);
    var (u, row) := Appended(t, pattern, action, exprs, now);
    forall r | r in t.rules ensures Unselected(row.locationId, [row])(r) {
      assert !IsSelected(row.locationId, [row], r);
    }
    FilterAll(Unselected(row.locationId, [row]), t.rules);
    assert row in [row] && IsSelected(row.locationId, [row], row);
    FilterSnoc(Unselected(row.locationId, [row]), t.rules, row);
  }

  lemma {:induction false} FilterAll<T(!new)>(test: T -> bool, s: seq<T>)
    requires forall x | x in s :: test(x)
    ensures Filter(test, s) == s
  {
    if s != [] {
      assert s == [s[0]] + s[1..];
      FilterAll(test, s[1..]);
    }
  }

  lemma {:induction false} FilterSnoc<T(!new)>(test: T -> bool, s: seq<T>, x: T)
    ensures Filter(test, s + [x]) == Filter(test, s) + if test(x) then [x] else []
  {
    if s == [] {
      assert (s + [x])[1..] == [];
    } else {
      assert (s + [x])[1..] == s[1..] + [x];
      FilterSnoc(test, s[1..], x);
    }
  }

  /** After a removal no rule of the location equals a selected one, and every other rule is left alone. */
  lemma RemovedExactly(rules: seq<Rule>, locationId: int, selected: seq<Rule>)
    ensures forall r :: r in Filter(Unselected(locationId, selected), rules) <==>
              r in rules && !(r.locationId == locationId && exists s | s in selected :: SameLogicalRule(r, s))
  {
    forall r
      ensures r in Filter(Unselected(locationId, selected), rules) <==> r in rules && !IsSelected(locationId, selected, r)
    {
      assert Unselected(locationId, selected)(r) == !IsSelected(locationId, selected, r);
    }
  }
}

/** The evaluator over the live tables and the matcher held in memory. */
module Evaluators {
  import OutcomeMachine
  import Trees
  import opened Wrappers
  import opened Polish
  import opened Operators
  import opened Text
  import opened Patterns
  import opened Atoms
  import opened Grammar
  import opened RuleMeaning
  import opened Ordering
  import opened RuleTables
  import opened DuplicateCollapse
  import opened LocationService

  datatype Decided = Decided(location: string, action: RequestAction) | NoRuleSet(path: string) | NoRuleInSet(location: string)

  /** The priority of a location pattern, by its kind: exact, prefix, regex, normal prefix, common. */
  function Priority(pattern: string): nat {
    match SplitOnce(pattern)
    case None => if pattern == "/" then 4 else 3
    case Some((symbol, _)) => if symbol == "=" then 0 else if symbol == "^~" then 1 else 2
  }

  /** Locations by priority, then the newer first. */
  predicate Precedes(a: Location, b: Location) {
    Priority(a.pattern) < Priority(b.pattern)
    || (Priority(a.pattern) == Priority(b.pattern) && a.createdAt > b.createdAt)
  }

  /** Distinct keys: no two locations share both priority and creation time. */
  ghost predicate DistinctKeys(locations: seq<Location>) {
    forall i, j | 0 <= i < j < |locations| :: Precedes(locations[i], locations[j]) || Precedes(locations[j], locations[i])
  }

  function Covers(isMatch: (string, string) -> bool, path: string): Location -> bool {
    (l: Location) => isMatch(l.pattern, path)
  }

  function DatabaseEvaluate(
      isMatch: (string, string) -> bool, t: Tables, path: string, request: Request): Decided
  {
    match FirstMatch(Covers(isMatch, path), Sort(Precedes, t.locations))
    case None => NoRuleSet(path)
    case Some(l) =>
      match Decision(request, t.rules, l.id)
      case None => NoRuleInSet(l.pattern)
      case Some(action) => Decided(l.pattern, action)
  }

  /** One entry of the matcher: a location with its rules, oldest first. */
  datatype Entry = Entry(location: Location, rules: seq<(Exprs, RequestAction)>)

  function Pairs(rules: seq<Rule>): seq<(Exprs, RequestAction)> {
    if rules == [] then [] else Pairs(rules[..|rules| - 1]) + [(rules[|rules| - 1].exprs, rules[|rules| - 1].action)]
  }

  function LastEffect(request: Request, rules: seq<(Exprs, RequestAction)>): Option<RequestAction> {
    if rules == [] then None
    else
      var (exprs, action) := rules[|rules| - 1];
      var effect := RuleEval(exprs, action, request);
      if effect.Some? then effect else LastEffect(request, rules[..|rules| - 1])
  }

  /** The matcher keeps its entries in key order; rules come as loaded, are deduplicated, then sorted. */
  function BuildMatcher(locations: seq<Location>, load: int -> seq<Rule>): seq<Entry> {
    Entries(Sort(Precedes, locations), load)
  }

  function Entries(locations: seq<Location>, load: int -> seq<Rule>): seq<Entry> {
    if locations == [] then []
    else
      [Entry(locations[0], Pairs(Sort(Older, Deduplicated(load(locations[0].id)))))] + Entries(locations[1..], load)
  }

  function MatchRules(isMatch: (string, string) -> bool, matcher: seq<Entry>, path: string): Option<Entry> {
    FirstMatch((e: Entry) => isMatch(e.location.pattern, path), matcher)
  }

  function MatcherEvaluate(
      isMatch: (string, string) -> bool, matcher: seq<Entry>, path: string, request: Request): Decided
  {
    match MatchRules(isMatch, matcher, path)
    case None => NoRuleSet(path)
    case Some(entry) =>
      match LastEffect(request, entry.rules)
      case None => NoRuleInSet(entry.location.pattern)
      case Some(action) => Decided(entry.location.pattern, action)
  }

  lemma {:induction false} LastEffectIsDeciding(request: Request, rules: seq<Rule>)
    ensures LastEffect(request, Pairs(rules)) == EffectOf(request, LastMatch(InForce(request), rules))
    decreases |rules|
  {
    if rules != [] {
      var init := rules[..|rules| - 1];
      assert Pairs(rules)[..|Pairs(rules)| - 1] == Pairs(init);
      LastEffectIsDeciding(request, init);
    }
  }

  lemma {:induction false} EntriesMatch(
      isMatch: (string, string) -> bool, locations: seq<Location>, load: int -> seq<Rule>, path: string)
    ensures MatchRules(isMatch, Entries(locations, load), path) ==
            match FirstMatch(Covers(isMatch, path), locations)
            case None => None
            case Some(l) => Some(Entry(l, Pairs(Sort(Older, Deduplicated(load(l.id))))))
    decreases |locations|
  {
    if locations != [] {
      EntriesMatch(isMatch, locations[1..], load, path);
      assert Entries(locations, load)[1..] == Entries(locations[1..], load);
    }
  }

  /** The rules of one location, loaded in any order, decide as the live table does. */
  lemma LoadedDecides(oracle: Oracle, request: Request, rules: seq<Rule>, locationId: int, loaded: seq<Rule>)
    requires UniqueIds(rules) && UniqueKeys(rules) && ValidRules(oracle, rules)
    requires multiset(loaded) == multiset(AtLocation(locationId, rules))
    ensures LastEffect(request, Pairs(Sort(Older, Deduplicated(loaded)))) == Decision(request, rules, locationId)
  {
    var here := AtLocation(locationId, rules);
    FilterIds(IsAt(locationId), rules);
    SameMembers(loaded, here);
    LoadedDistinct(loaded, here);
    LoadedNoDuplicates(oracle, rules, locationId, loaded);
    DeduplicatedSame(loaded);
    LastEffectIsDeciding(request, Sort(Older, loaded));
    LoadedNewest(request, here, loaded);
    DecisionIs(request, rules, locationId, LastMatch(InForce(request), Sort(Older, loaded)));
  }

  lemma LoadedNewest(request: Request, here: seq<Rule>, loaded: seq<Rule>)
    requires UniqueIds(here) && Distinct(loaded) && forall r :: r in loaded <==> r in here
    ensures IsDeciding(request, here, LastMatch(InForce(request), Sort(Older, loaded)))
  {
    UniqueIdsOrder(here);
    assert OrdersAll(Older, loaded);
    LastSorted(Older, InForce(request), loaded);
  }

  lemma LoadedNoDuplicates(oracle: Oracle, rules: seq<Rule>, locationId: int, loaded: seq<Rule>)
    requires UniqueKeys(rules) && ValidRules(oracle, rules) && Distinct(loaded)
    requires forall r | r in loaded :: r in AtLocation(locationId, rules)
    ensures NoDuplicates(loaded)
  {
    forall i, j | 0 <= i < j < |loaded| ensures !SameLogicalRule(loaded[i], loaded[j]) {
      var a, b := loaded[i], loaded[j];
      assert a in loaded && b in loaded && a != b;
      KeysDiffer(rules, a, b);
      KeyIsLogicalRule(oracle, a, b);
    }
  }

  lemma LoadedDistinct(loaded: seq<Rule>, here: seq<Rule>)
    requires multiset(loaded) == multiset(here) && UniqueIds(here)
    ensures Distinct(loaded)
  {
    UniqueIdsOrder(here);
    forall i, j | 0 <= i < j < |loaded| ensures loaded[i] != loaded[j] {
      if loaded[i] == loaded[j] {
        CountTwice(loaded, i, j);
        CountOnce(here, loaded[i]);
      }
    }
  }

  lemma CountTwice<T>(s: seq<T>, i: nat, j: nat)
    requires i < j < |s| && s[i] == s[j]
    ensures multiset(s)[s[i]] >= 2
  {
    assert s == s[..i] + [s[i]] + s[i + 1..j] + [s[j]] + s[j + 1..];
  }

  lemma {:induction false} CountOnce<T>(s: seq<T>, x: T)
    requires Distinct(s)
    ensures multiset(s)[x] <= 1
  {
    if s != [] {
      assert s == [s[0]] + s[1..];
      CountOnce(s[1..], x);
    }
  }

  /**
   With unique rules and distinct location keys the matcher built from the store, its rows loaded in any order,
   and the evaluator over the live tables give the same decision or the same error for every path and request.
   */
  lemma EvaluatorsAgree(
      oracle: Oracle, isMatch: (string, string) -> bool, t: Tables, locations: seq<Location>, load: int -> seq<Rule>,
      path: string, request: Request)
    requires Consistent(t) && UniqueKeys(t.rules) && ValidRules(oracle, t.rules) && DistinctKeys(t.locations)
    requires multiset(locations) == multiset(t.locations)
    requires forall id :: multiset(load(id)) == multiset(AtLocation(id, t.rules))
    ensures MatcherEvaluate(isMatch, BuildMatcher(locations, load), path, request) ==
            DatabaseEvaluate(isMatch, t, path, request)
  {
    EntriesMatch(isMatch, Sort(Precedes, locations), load, path);
    SameFirst(isMatch, t.locations, locations, path);
    match FirstMatch(Covers(isMatch, path), Sort(Precedes, t.locations))
    case None =>
    case Some(l) => LoadedDecides(oracle, request, t.rules, l.id, load(l.id));
  }

  lemma SameFirst(isMatch: (string, string) -> bool, a: seq<Location>, b: seq<Location>, path: string)
    requires DistinctKeys(a) && multiset(a) == multiset(b)
    ensures FirstMatch(Covers(isMatch, path), Sort(Precedes, a)) == FirstMatch(Covers(isMatch, path), Sort(Precedes, b))
  {
    SameMembers(a, b);
    KeysOrder(a);
    forall i, j | 0 <= i < j < |b| ensures b[i] != b[j] {
      if b[i] == b[j] {
        CountTwice(b, i, j);
        CountOnce(a, b[i]);
      }
    }
    FirstSorted(Precedes, Covers(isMatch, path), a);
    FirstSorted(Precedes, Covers(isMatch, path), b);
  }

  lemma KeysOrder(locations: seq<Location>)
    requires DistinctKeys(locations)
    ensures OrdersAll(Precedes, locations) && Distinct(locations)
  {
    forall x, y | x in locations && y in locations && x != y ensures Precedes(x, y) || Precedes(y, x) {
      var i :| 0 <= i < |locations| && locations[i] == x;
      var j :| 0 <= j < |locations| && locations[j] == y;
    }
  }

  /** A rule that is the first of its kind in the order in which the rules were loaded. */
  ghost predicate FirstCopy(loaded: seq<Rule>, rule: Rule) {
    exists i | 0 <= i < |loaded| :: loaded[i] == rule && IsFirst(loaded, i)
  }

  lemma KeptAreFirstCopies(loaded: seq<Rule>, rule: Rule)
    ensures rule in Deduplicated(loaded) <==> FirstCopy(loaded, rule)
  {
    var at := DeduplicatedFirsts(loaded);
    var kept := Deduplicated(loaded);
    if rule in kept {
      var k :| 0 <= k < |kept| && kept[k] == rule;
      assert loaded[at[k]] == rule && IsFirst(loaded, at[k]);
    }
    if FirstCopy(loaded, rule) {
      var i :| 0 <= i < |loaded| && loaded[i] == rule && IsFirst(loaded, i);
      var k :| 0 <= k < |at| && at[k] == i;
      assert kept[k] == rule;
    }
  }

  /** Of the rules in force that are first copies, the newest. */
  ghost predicate NewestFirstCopy(request: Request, loaded: seq<Rule>, rule: Rule) {
    && FirstCopy(loaded, rule) && Applies(request, rule)
    && forall r | FirstCopy(loaded, r) && Applies(request, r) && r != rule :: Older(r, rule)
  }

  /** Without unique rules the newest row in force decides on one side, the newest first copy in force on the other. */
  lemma NewestFirstDecides(request: Request, here: seq<Rule>, loaded: seq<Rule>)
    requires UniqueIds(here) && multiset(loaded) == multiset(here)
    ensures var x, m := DecidingRule(request, here), DecidingRule(request, Deduplicated(loaded));
            && IsDeciding(request, here, x) && (x.Some? <==> m.Some?)
            && (m.Some? ==> NewestFirstCopy(request, loaded, m.value))
            && LastEffect(request, Pairs(Sort(Older, Deduplicated(loaded)))) == EffectOf(request, m)
  {
    hide FirstCopy, Applies, EffectOf, Pairs, LastEffect, Sort, UniqueIds, Deduplicated;
    var kept := Deduplicated(loaded);
    SameMembers(loaded, here);
    DecidingIsNewest(request, here);
    KeptIds(here, loaded);
    DecidingIsNewest(request, kept);
    LastEffectIsDeciding(request, Sort(Older, kept));
    forall r ensures r in kept <==> FirstCopy(loaded, r) {
      KeptAreFirstCopies(loaded, r);
    }
    var x, m := DecidingRule(request, here), DecidingRule(request, kept);
    if x.Some? {
      KeptInForce(request, loaded, x.value);
    }
    if m.Some? {
      assert m.value in loaded;
    }
  }

  /** A first copy in force, of another effect, that is newer than every first copy in force of this effect. */
  ghost predicate Overtakes(request: Request, loaded: seq<Rule>, rule: Rule, m: Rule) {
    && FirstCopy(loaded, m) && Applies(request, m) && EffectOf(request, Some(m)) != EffectOf(request, Some(rule))
    && forall c | FirstCopy(loaded, c) && Applies(request, c) && EffectOf(request, Some(c)) == EffectOf(request, Some(rule)) ::
         Older(c, m)
  }

  /**
   With duplicates the two evaluators differ for a request exactly when a first copy in force, of another effect than the
   newest rule in force, is newer than every first copy in force of that effect. Then the newest rule in force has an equal
   one that was loaded before it.
   */
  lemma DifferExactly(request: Request, here: seq<Rule>, loaded: seq<Rule>)
    requires UniqueIds(here) && multiset(loaded) == multiset(here)
    ensures var live, matched := EffectOf(request, DecidingRule(request, here)), LastEffect(request, Pairs(Sort(Older, Deduplicated(loaded))));
            && (matched != live <==> exists x, m :: IsDeciding(request, here, Some(x)) && Overtakes(request, loaded, x, m))
            && (matched != live ==> exists x :: IsDeciding(request, here, Some(x)) && x in loaded && !FirstCopy(loaded, x))
  {
    hide FirstCopy, Applies, EffectOf, Pairs, LastEffect, Sort, UniqueIds, Deduplicated, DecidingRule;
    NewestFirstDecides(request, here, loaded);
    SameMembers(loaded, here);
    var x, m := DecidingRule(request, here), DecidingRule(request, Deduplicated(loaded));
    if x.Some? {
      NewestDiffers(request, here, loaded, x.value, m.value);
    }
    forall y | IsDeciding(request, here, Some(y)) ensures x == Some(y) {
      DecidingUnique(request, here, x, Some(y));
    }
  }

  lemma NewestDiffers(request: Request, here: seq<Rule>, loaded: seq<Rule>, x: Rule, m: Rule)
    requires IsDeciding(request, here, Some(x)) && NewestFirstCopy(request, loaded, m) && forall r :: r in loaded <==> r in here
    ensures EffectOf(request, Some(m)) != EffectOf(request, Some(x)) ==> Overtakes(request, loaded, x, m) && !FirstCopy(loaded, x)
    ensures EffectOf(request, Some(m)) == EffectOf(request, Some(x)) ==> forall r :: !Overtakes(request, loaded, x, r)
  {
    hide FirstCopy, Applies, EffectOf;
    FirstCopyLoaded(loaded, m);
  }

  lemma FirstCopyLoaded(loaded: seq<Rule>, rule: Rule)
    requires FirstCopy(loaded, rule)
    ensures rule in loaded
  {
  }

  lemma KeptInForce(request: Request, loaded: seq<Rule>, rule: Rule)
    requires rule in loaded && Applies(request, rule)
    ensures exists s | s in Deduplicated(loaded) :: Applies(request, s)
  {
    DeduplicatedCovers(loaded, rule);
    var s :| s in Deduplicated(loaded) && SameLogicalRule(s, rule);
    assert Applies(request, s);
  }

  lemma KeptIds(here: seq<Rule>, loaded: seq<Rule>)
    requires UniqueIds(here) && multiset(loaded) == multiset(here)
    ensures UniqueIds(Deduplicated(loaded))
  {
    var kept := Deduplicated(loaded);
    var at := DeduplicatedFirsts(loaded);
    LoadedDistinct(loaded, here);
    SameMembers(loaded, here);
    forall k, m | 0 <= k < m < |kept| ensures kept[k].id != kept[m].id {
      assert loaded[at[k]] in here && loaded[at[m]] in here && loaded[at[k]] != loaded[at[m]];
      var i :| 0 <= i < |here| && here[i] == loaded[at[k]];
      var j :| 0 <= j < |here| && here[j] == loaded[at[m]];
      assert i != j;
      assert if i < j then here[i].id != here[j].id else here[j].id != here[i].id;
    }
  }

  function AnyRule(id: int, action: RequestAction, at: int): Rule {
    Rule(id, 1, action, Exprs("*?", [Expr(Any)]), at, at)
  }

  /**
   Without unique rules the two disagree: the matcher drops the newer of two equal rules, the live evaluator
   lets it decide.
   */
  lemma DuplicatesDisagree(request: Request)
    requires request(Any) == Matched(true)
    ensures var rules := [AnyRule(1, Allow, 1), AnyRule(2, Deny, 2), AnyRule(3, Allow, 3)];
            && UniqueIds(rules)
            && Decision(request, rules, 1) == Some(Allow)
            && LastEffect(request, Pairs(Sort(Older, Deduplicated(rules)))) == Some(Deny)
  {
    hide Decision, LastEffect, Sort, Deduplicated, Pairs;
    LiveAllows(request);
    MatcherDenies(request);
  }

  lemma LiveAllows(request: Request)
    requires request(Any) == Matched(true)
    ensures Decision(request, [AnyRule(1, Allow, 1), AnyRule(2, Deny, 2), AnyRule(3, Allow, 3)], 1) == Some(Allow)
  {
    hide EvalParts, Decision, DecidingRule;
    var rules := [AnyRule(1, Allow, 1), AnyRule(2, Deny, 2), AnyRule(3, Allow, 3)];
    AnyApplies(request);
    assert rules[2] in AtLocation(1, rules);
    DecisionIs(request, rules, 1, Some(rules[2]));
  }

  lemma MatcherDenies(request: Request)
    requires request(Any) == Matched(true)
    ensures var rules := [AnyRule(1, Allow, 1), AnyRule(2, Deny, 2), AnyRule(3, Allow, 3)];
            LastEffect(request, Pairs(Sort(Older, Deduplicated(rules)))) == Some(Deny)
  {
    hide EvalParts, Sort, Deduplicated, Pairs, LastEffect, LastMatch;
    var first, second, third := AnyRule(1, Allow, 1), AnyRule(2, Deny, 2), AnyRule(3, Allow, 3);
    AnyApplies(request);
    DeduplicatedSame([first, second]);
    assert first in [first, second] && SameLogicalRule(first, third);
    DeduplicatedSnoc([first, second], third);
    assert [first, second, third] == [first, second] + [third];
    LastEffectIsDeciding(request, Sort(Older, [first, second]));
    LoadedNewest(request, [first, second], [first, second]);
    assert first in [first, second] && second in [first, second];
  }

  lemma DeduplicatedSnoc(rules: seq<Rule>, rule: Rule)
    ensures Deduplicated(rules + [rule]) ==
            if HasLogical(Deduplicated(rules), rule) then Deduplicated(rules) else Deduplicated(rules) + [rule]
  {
    assert (rules + [rule])[..|rules|] == rules;
  }

  lemma AnyApplies(request: Request)
    requires request(Any) == Matched(true)
    ensures EvalParts(request, [Expr(Any)]) == Ok(Matched(true))
  {
    Trees.KeepsIsShape(Trees.Leaf(Any), Trees.Leaf(request(Any)));
    OutcomeMachine.RunKeepsMeaning(Trees.Leaf(request(Any)));
    MapListing(request, Trees.Leaf(Any));
  }
}
