/**
 * The matching engine's contract as the platform facade relies on it, and a
 * reference engine that meets it.
 *
 * An engine sees each catalog entry only through its rule list, and answers
 * with an INDEX into the list of rule lists it was given: `match` must name
 * exactly one entry or fail, `find` names at most one entry or fails.
 */
module PeculiarityInspector {
  import opened Wrappers
  import opened Peculiarities
  import opened AnyGroups
  import opened HasPecularities

  /** Why an engine query failed. */
  datatype Fault = NoMatch | MoreThanOneMatch

  type MatchQuery = (Snapshot, Comparator, seq<seq<Rule>>) -> Result<nat, Fault>
  type FindQuery = (Snapshot, Comparator, seq<seq<Rule>>) -> Result<Option<nat>, Fault>

  /** The two entry points of an engine: `match` (exactly one) and `find` (zero or one). */
  datatype Engine = Engine(matchOne: MatchQuery, findOne: FindQuery)

  /** The only promise callers rely on: whatever is returned is an entry of the list passed in. */
  ghost predicate ValidEngine(engine: Engine) {
    && (forall facts, compare, entries ::
          engine.matchOne(facts, compare, entries).Success? ==>
            engine.matchOne(facts, compare, entries).value < |entries|)
    && (forall facts, compare, entries ::
          engine.findOne(facts, compare, entries).Success? && engine.findOne(facts, compare, entries).value.Some? ==>
            engine.findOne(facts, compare, entries).value.value < |entries|)
  }

  // ---------------------------------------------------------------------------
  // Reference engine: an entry holds when all of its rules hold; a peculiarity
  // holds when its attribute is present and the comparator accepts the value;
  // an Any group holds when one of its peculiarities does.

  predicate PeculiarityHolds(facts: Snapshot, compare: Comparator, p: Peculiarity) {
    p.attribute in facts && compare(p.kind, facts[p.attribute], p.expected)
  }

  predicate RuleHolds(facts: Snapshot, compare: Comparator, rule: Rule) {
    match rule
    case Left(p) => PeculiarityHolds(facts, compare, p)
    case Right(group) => exists p :: p in group.pecularities && PeculiarityHolds(facts, compare, p)
  }

  predicate EntryHolds(facts: Snapshot, compare: Comparator, rules: seq<Rule>) {
    forall rule :: rule in rules ==> RuleHolds(facts, compare, rule)
  }

  /** Entry `i` is the one and only entry whose rules hold. */
  ghost predicate UniqueHolder(facts: Snapshot, compare: Comparator, entries: seq<seq<Rule>>, i: nat) {
    && i < |entries|
    && EntryHolds(facts, compare, entries[i])
    && forall j :: 0 <= j < |entries| && EntryHolds(facts, compare, entries[j]) ==> j == i
  }

  /** No entry's rules hold. */
  ghost predicate NoHolder(facts: Snapshot, compare: Comparator, entries: seq<seq<Rule>>) {
    forall j :: 0 <= j < |entries| ==> !EntryHolds(facts, compare, entries[j])
  }

  /** The indexes, from `k` on and in increasing order, of the entries whose rules hold. */
  function MatchingFrom(facts: Snapshot, compare: Comparator, entries: seq<seq<Rule>>, k: nat): (r: seq<nat>)
    requires k <= |entries|
    ensures forall i :: i in r <==> k <= i < |entries| && EntryHolds(facts, compare, entries[i])
    ensures forall a :: 0 <= a < |r| ==> k <= r[a]
    ensures forall a, b :: 0 <= a < b < |r| ==> r[a] < r[b]
    decreases |entries| - k
  {
    if k == |entries| then []
    else
      var rest := MatchingFrom(facts, compare, entries, k + 1);
      if EntryHolds(facts, compare, entries[k]) then
        [k] + rest
      else rest
  }

  /** Exactly-one semantics: the single holding entry, or a fault for none and for several. */
  function Match(facts: Snapshot, compare: Comparator, entries: seq<seq<Rule>>): (r: Result<nat, Fault>)
    ensures r.Success? ==> r.value < |entries| && UniqueHolder(facts, compare, entries, r.value)
    ensures forall i: nat :: UniqueHolder(facts, compare, entries, i) ==> r == Success(i)
    ensures r == Failure(NoMatch) <==> NoHolder(facts, compare, entries)
  {
    var matching := MatchingFrom(facts, compare, entries, 0);
    if |matching| == 1 then
      assert matching[0] in matching;
      Success(matching[0])
    else if |matching| == 0 then Failure(NoMatch)
    else
      assert matching[0] in matching && matching[1] in matching;
      Failure(MoreThanOneMatch)
  }

  /** Zero-or-one semantics: absence for none, the holding entry for one, a fault for several. */
  function Find(facts: Snapshot, compare: Comparator, entries: seq<seq<Rule>>): (r: Result<Option<nat>, Fault>)
    ensures r.Success? && r.value.Some? ==>
      r.value.value < |entries| && UniqueHolder(facts, compare, entries, r.value.value)
    ensures forall i: nat :: UniqueHolder(facts, compare, entries, i) ==> r == Success(Some(i))
    ensures r == Success(None) <==> NoHolder(facts, compare, entries)
    ensures r.Failure? ==> r.error == MoreThanOneMatch
  {
    var matching := MatchingFrom(facts, compare, entries, 0);
    if |matching| == 1 then
      assert matching[0] in matching;
      Success(Some(matching[0]))
    else if |matching| == 0 then Success(None)
    else
      assert matching[0] in matching && matching[1] in matching;
      Failure(MoreThanOneMatch)
  }

  function Reference(): Engine {
    Engine(Match, Find)
  }

  /** The reference engine keeps the contract the facade relies on. */
  lemma ReferenceIsValid()
    ensures ValidEngine(Reference())
  {
  }

  /** An entry without rules always holds, so a rule-less default wins when nothing else holds. */
  lemma DefaultEntryWins(facts: Snapshot, compare: Comparator, entries: seq<seq<Rule>>, d: nat)
    requires d < |entries| && entries[d] == []
    requires forall j :: 0 <= j < |entries| && j != d ==> !EntryHolds(facts, compare, entries[j])
    ensures Match(facts, compare, entries) == Success(d)
    ensures Find(facts, compare, entries) == Success(Some(d))
  {
    assert UniqueHolder(facts, compare, entries, d);
  }

  /** Two distinct entries that both hold make `match` fail instead of picking one. */
  lemma AmbiguityIsAFault(facts: Snapshot, compare: Comparator, entries: seq<seq<Rule>>, i: nat, j: nat)
    requires i < |entries| && j < |entries| && i != j
    requires EntryHolds(facts, compare, entries[i]) && EntryHolds(facts, compare, entries[j])
    ensures Match(facts, compare, entries) == Failure(MoreThanOneMatch)
    ensures Find(facts, compare, entries) == Failure(MoreThanOneMatch)
  {
    assert !NoHolder(facts, compare, entries);
  }

  // ---------------------------------------------------------------------------
  // Catalogs keyed on one attribute: entry i is the single condition
  // "attribute `key` is `labels[i]`", as in the version catalogs.

  ghost predicate KeyedCatalog(entries: seq<seq<Rule>>, key: AttributeKey, kind: MatchKind, labels: seq<string>) {
    && |entries| == |labels|
    && forall i :: 0 <= i < |entries| ==> entries[i] == [Left(Peculiarity(key, kind, labels[i]))]
  }

  ghost predicate Distinct(labels: seq<string>) {
    forall a, b :: 0 <= a < b < |labels| ==> labels[a] != labels[b]
  }

  /** In a keyed catalog with distinct labels, the entry found is exactly the one whose label is the attribute's value. */
  lemma KeyedCatalogSelectsByValue(facts: Snapshot, compare: Comparator, entries: seq<seq<Rule>>,
                                   key: AttributeKey, kind: MatchKind, labels: seq<string>)
    requires KeyedCatalog(entries, key, kind, labels) && Distinct(labels)
    requires ComparesByEquality(compare, kind)
    ensures forall j :: 0 <= j < |labels| ==>
      (Find(facts, compare, entries) == Success(Some(j)) <==> key in facts && facts[key] == labels[j])
    ensures forall j :: 0 <= j < |labels| ==>
      (Match(facts, compare, entries) == Success(j) <==> key in facts && facts[key] == labels[j])
    ensures Find(facts, compare, entries) == Success(None) <==> !(key in facts && facts[key] in labels)
    ensures Match(facts, compare, entries) == Failure(NoMatch) <==> !(key in facts && facts[key] in labels)
  {
    forall i | 0 <= i < |entries|
      ensures EntryHolds(facts, compare, entries[i]) <==> key in facts && facts[key] == labels[i]
    {
      var p := Peculiarity(key, kind, labels[i]);
      assert entries[i] == [Left(p)];
      assert RuleHolds(facts, compare, Left(p)) == PeculiarityHolds(facts, compare, p);
    }
    forall j | 0 <= j < |labels| && key in facts && facts[key] == labels[j]
      ensures UniqueHolder(facts, compare, entries, j)
    {
    }
    if key in facts && facts[key] in labels {
      var j :| 0 <= j < |labels| && labels[j] == facts[key];
      assert UniqueHolder(facts, compare, entries, j);
      assert !NoHolder(facts, compare, entries);
    }
  }
}
