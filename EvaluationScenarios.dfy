/**
 * Filters taken from the evaluator's test classes, with their verdicts
 * derived from the model (ComprehensiveFilterEvaluationTest,
 * UserJsonFilterTest, InOperatorJsonArrayTest).
 */
module EvaluationScenarios {
  import opened Wrappers
  import opened JavaStrings
  import opened FilterFieldTypes
  import opened FilterOperators
  import opened LogicalOperators
  import opened UserRequests
  import opened FilterConditions
  import opened FilterGroups
  import opened MarketingTargetFilters
  import opened FilterEvaluation

  /** createUser(smid, country, clientVersion, operatingSystem, browser), which also sets language "en". */
  function MakeUser(smid: string, country: string, version: string, os: string, browser: string): UserRecord {
    EmptyRecord.(smid := Some(smid), country := Some(country), clientVersion := Some(version),
                 operatingSystem := Some(os), browser := Some(browser), language := Some("en"))
  }

  /** A test condition: field type, operator, value, optional logical operator and order index. */
  function Cond(t: FilterFieldType, op: FilterOperator, v: string, lo: Option<LogicalOperator>, index: int): Condition {
    Condition(None, None, Some(t), Some(op), Some(v), lo, Some(index))
  }

  /** An active test filter for marketing target 1. */
  function ActiveFilter(name: string, conditions: seq<Condition>, groups: seq<Group>): Filter {
    Filter(None, Some(1), Some(name), None, Some(true), Some(conditions), Some(groups))
  }

  function NamedGroup(name: string, lo: LogicalOperator, index: int, conditions: seq<Condition>): Group {
    Group(None, Some(name), Some(lo), Some(index), Some(conditions))
  }

  /** createVersionComparisonFilter: CLIENT_VERSION > "2.0.0". */
  const VersionFilter: Filter :=
    ActiveFilter("Обновленный фильтр", [Cond(CLIENT_VERSION, GREATER_THAN, "2.0.0", None, 0)], [])

  /** CLIENT_VERSION > "2.0.0" holds for "2.2.1". */
  lemma VersionComparisonAcceptsNewer(o: Oracles)
    requires JavaDoubles(o)
    ensures FilterVerdict(Some(VersionFilter), MakeUser("12345", "UA", "2.2.1", "Android", "Chrome"), o) == Ok(true)
  {
    assert DotCount("2.2.1") == 2;
  }

  /** CLIENT_VERSION > "2.0.0" holds for "3.0.0". */
  lemma VersionComparisonAcceptsMajor(o: Oracles)
    requires JavaDoubles(o)
    ensures FilterVerdict(Some(VersionFilter), MakeUser("22222", "BY", "3.0.0", "iOS", "Safari"), o) == Ok(true)
  {
    assert DotCount("3.0.0") == 2;
  }

  /** CLIENT_VERSION > "2.0.0" fails for "2.0.0" itself. */
  lemma VersionComparisonRejectsEqual(o: Oracles)
    requires JavaDoubles(o)
    ensures FilterVerdict(Some(VersionFilter), MakeUser("33333", "UA", "2.0.0", "iOS", "Safari"), o) == Ok(false)
  {
    assert DotCount("2.0.0") == 2;
  }

  /** CLIENT_VERSION > "2.0.0" fails for "1.9.9". */
  lemma VersionComparisonRejectsOlder(o: Oracles)
    requires JavaDoubles(o)
    ensures FilterVerdict(Some(VersionFilter), MakeUser("44444", "RU", "1.9.9", "Android", "Chrome"), o) == Ok(false)
  {
    assert DotCount("1.9.9") == 2;
  }

  /** The root block of createAdvancedVersionRegionFilter: version >= "2.0.0" AND version <= "2.5.0". */
  const VersionRange: seq<Condition> :=
    [Cond(CLIENT_VERSION, GREATER_THAN_OR_EQUAL, "2.0.0", None, 0),
     Cond(CLIENT_VERSION, LESS_THAN_OR_EQUAL, "2.5.0", Some(AND), 1)]

  /** The "European Countries" group: UA, then DE, FR and IT joined by OR. */
  const EuCountries: seq<Condition> :=
    [Cond(COUNTRY, EQUAL, "UA", None, 0), Cond(COUNTRY, EQUAL, "DE", Some(OR), 1),
     Cond(COUNTRY, EQUAL, "FR", Some(OR), 2), Cond(COUNTRY, EQUAL, "IT", Some(OR), 3)]

  /** The "North America" group: US, then CA joined by OR. */
  const NaCountries: seq<Condition> :=
    [Cond(COUNTRY, EQUAL, "US", None, 0), Cond(COUNTRY, EQUAL, "CA", Some(OR), 1)]

  /** createAdvancedVersionRegionFilter: the version range, then (EU countries OR North America). */
  const AdvancedRegionFilter: Filter :=
    ActiveFilter("Advanced Regional Filter", VersionRange,
      [NamedGroup("European Countries", AND, 0, EuCountries), NamedGroup("North America", OR, 1, NaCountries)])

  /** An EQUAL condition on the record's country compares the two strings. */
  lemma CountryEquals(v: string, lo: Option<LogicalOperator>, i: int, u: UserRecord, o: Oracles)
    requires u.country.Some?
    ensures ConditionVerdict(Cond(COUNTRY, EQUAL, v, lo, i), u, o) == Ok(u.country.value == v)
  {
  }

  lemma VersionRangeVerdict(version: string, u: UserRecord, o: Oracles)
    requires JavaDoubles(o) && DotCount(version) >= 2
    requires u.clientVersion == Some(version)
    ensures ConditionsVerdict(Some(VersionRange), u, o)
         == Ok(CompareTo(version, "2.0.0") >= 0 && CompareTo(version, "2.5.0") <= 0)
  {
    DottedVersionsCompareAsStrings(version, "2.0.0", o);
    DottedVersionsCompareAsStrings(version, "2.5.0", o);
    assert ConditionVerdict(VersionRange[0], u, o) == Ok(CompareTo(version, "2.0.0") >= 0);
    assert ConditionVerdict(VersionRange[1], u, o) == Ok(CompareTo(version, "2.5.0") <= 0);
    assert FoldPrefix(VersionRange, 1, u, o) == Ok((CompareTo(version, "2.0.0") >= 0, AND));
  }

  lemma EuCountriesVerdict(country: string, u: UserRecord, o: Oracles)
    requires u.country == Some(country)
    ensures ConditionsVerdict(Some(EuCountries), u, o)
         == Ok(country == "UA" || country == "DE" || country == "FR" || country == "IT")
  {
    CountryEquals("UA", None, 0, u, o);
    CountryEquals("DE", Some(OR), 1, u, o);
    CountryEquals("FR", Some(OR), 2, u, o);
    CountryEquals("IT", Some(OR), 3, u, o);
    assert FoldPrefix(EuCountries, 1, u, o) == Ok((country == "UA", AND));
    assert FoldPrefix(EuCountries, 2, u, o) == Ok((country == "UA" || country == "DE", OR));
    assert FoldPrefix(EuCountries, 3, u, o) == Ok((country == "UA" || country == "DE" || country == "FR", OR));
  }

  lemma NaCountriesVerdict(country: string, u: UserRecord, o: Oracles)
    requires u.country == Some(country)
    ensures ConditionsVerdict(Some(NaCountries), u, o) == Ok(country == "US" || country == "CA")
  {
    CountryEquals("US", None, 0, u, o);
    CountryEquals("CA", Some(OR), 1, u, o);
    assert FoldPrefix(NaCountries, 1, u, o) == Ok((country == "US", AND));
  }

  /** The advanced filter accepts exactly the dotted versions between "2.0.0" and "2.5.0" (string order) in the six countries. */
  lemma AdvancedRegion(smid: string, country: string, version: string, os: string, browser: string, o: Oracles)
    requires JavaDoubles(o) && DotCount(version) >= 2
    ensures FilterVerdict(Some(AdvancedRegionFilter), MakeUser(smid, country, version, os, browser), o)
         == Ok(CompareTo(version, "2.0.0") >= 0 && CompareTo(version, "2.5.0") <= 0 &&
               (country == "UA" || country == "DE" || country == "FR" || country == "IT" ||
                country == "US" || country == "CA"))
  {
    var u := MakeUser(smid, country, version, os, browser);
    VersionRangeVerdict(version, u, o);
    EuCountriesVerdict(country, u, o);
    NaCountriesVerdict(country, u, o);
    var gs := AdvancedRegionFilter.groups.value;
    assert GroupFoldPrefix(gs, 1, u, o) == ConditionsVerdict(Some(EuCountries), u, o);
    assert GroupsVerdict(AdvancedRegionFilter.groups, u, o)
        == Ok(country == "UA" || country == "DE" || country == "FR" || country == "IT" ||
              country == "US" || country == "CA");
  }

  // The users of testAdvancedVersionRegionFilter, one lemma each: every one is
  // an instance of AdvancedRegion. Each instance unfolds the whole filter on
  // literal arguments, which is too costly to gather several in one lemma.

  /** A user of testAdvancedVersionRegionFilter from Ukraine with version "2.2.2" is accepted. */
  lemma AdvancedRegionAcceptsUkraine(o: Oracles)
    requires JavaDoubles(o)
    ensures FilterVerdict(Some(AdvancedRegionFilter), MakeUser("12345", "UA", "2.2.2", "Android", "Chrome"), o) == Ok(true)
  {
    AdvancedRegion("12345", "UA", "2.2.2", "Android", "Chrome", o);
  }

  /** A user from Germany with version "2.0.0", the lower bound, is accepted. */
  lemma AdvancedRegionAcceptsGermany(o: Oracles)
    requires JavaDoubles(o)
    ensures FilterVerdict(Some(AdvancedRegionFilter), MakeUser("67890", "DE", "2.0.0", "iOS", "Safari"), o) == Ok(true)
  {
    AdvancedRegion("67890", "DE", "2.0.0", "iOS", "Safari", o);
  }

  /** A user from France with version "2.5.0", the upper bound, is accepted. */
  lemma AdvancedRegionAcceptsFrance(o: Oracles)
    requires JavaDoubles(o)
    ensures FilterVerdict(Some(AdvancedRegionFilter), MakeUser("11111", "FR", "2.5.0", "Android", "Firefox"), o) == Ok(true)
  {
    AdvancedRegion("11111", "FR", "2.5.0", "Android", "Firefox", o);
  }

  /** A user from Italy with version "2.3.1" is accepted. */
  lemma AdvancedRegionAcceptsItaly(o: Oracles)
    requires JavaDoubles(o)
    ensures FilterVerdict(Some(AdvancedRegionFilter), MakeUser("22222", "IT", "2.3.1", "iOS", "Chrome"), o) == Ok(true)
  {
    AdvancedRegion("22222", "IT", "2.3.1", "iOS", "Chrome", o);
  }

  /** A user from the North America group (US) with version "2.1.5" is accepted. */
  lemma AdvancedRegionAcceptsUnitedStates(o: Oracles)
    requires JavaDoubles(o)
    ensures FilterVerdict(Some(AdvancedRegionFilter), MakeUser("33333", "US", "2.1.5", "Android", "Chrome"), o) == Ok(true)
  {
    AdvancedRegion("33333", "US", "2.1.5", "Android", "Chrome", o);
  }

  /** A user from the North America group (CA) with version "2.4.9" is accepted. */
  lemma AdvancedRegionAcceptsCanada(o: Oracles)
    requires JavaDoubles(o)
    ensures FilterVerdict(Some(AdvancedRegionFilter), MakeUser("44444", "CA", "2.4.9", "iOS", "Safari"), o) == Ok(true)
  {
    AdvancedRegion("44444", "CA", "2.4.9", "iOS", "Safari", o);
  }

  /** A user from a listed country with version "1.9.9", below the range, is rejected. */
  lemma AdvancedRegionRejectsOldVersion(o: Oracles)
    requires JavaDoubles(o)
    ensures FilterVerdict(Some(AdvancedRegionFilter), MakeUser("55555", "UA", "1.9.9", "Android", "Chrome"), o) == Ok(false)
  {
    AdvancedRegion("55555", "UA", "1.9.9", "Android", "Chrome", o);
  }

  /** A user from a listed country with version "2.5.1", above the range, is rejected. */
  lemma AdvancedRegionRejectsNewVersion(o: Oracles)
    requires JavaDoubles(o)
    ensures FilterVerdict(Some(AdvancedRegionFilter), MakeUser("66666", "DE", "2.5.1", "iOS", "Safari"), o) == Ok(false)
  {
    AdvancedRegion("66666", "DE", "2.5.1", "iOS", "Safari", o);
  }

  /** A user from an unlisted country (RU) within the range is rejected. */
  lemma AdvancedRegionRejectsRussia(o: Oracles)
    requires JavaDoubles(o)
    ensures FilterVerdict(Some(AdvancedRegionFilter), MakeUser("77777", "RU", "2.2.2", "Android", "Chrome"), o) == Ok(false)
  {
    AdvancedRegion("77777", "RU", "2.2.2", "Android", "Chrome", o);
  }

  /** A user from an unlisted country (BY) within the range is rejected. */
  lemma AdvancedRegionRejectsBelarus(o: Oracles)
    requires JavaDoubles(o)
    ensures FilterVerdict(Some(AdvancedRegionFilter), MakeUser("88888", "BY", "2.3.0", "iOS", "Safari"), o) == Ok(false)
  {
    AdvancedRegion("88888", "BY", "2.3.0", "iOS", "Safari", o);
  }

  /** A user from an unlisted country (CN) outside the range is rejected. */
  lemma AdvancedRegionRejectsChina(o: Oracles)
    requires JavaDoubles(o)
    ensures FilterVerdict(Some(AdvancedRegionFilter), MakeUser("99999", "CN", "3.0.0", "Windows", "Edge"), o) == Ok(false)
  {
    AdvancedRegion("99999", "CN", "3.0.0", "Windows", "Edge", o);
  }

  /** createCorrectFilter: version "2.2.2" and a group [RU (no operator), DE (OR)]. */
  const CorrectJsonFilter: Filter :=
    Filter(None, None, Some("ПРАВИЛЬНИЙ: Версія 2.2.2 і RU/DE"), None, Some(true),
      Some([Cond(CLIENT_VERSION, EQUAL, "2.2.2", None, 0)]),
      Some([NamedGroup("Країни RU або DE", AND, 0,
        [Cond(COUNTRY, EQUAL, "RU", None, 0), Cond(COUNTRY, EQUAL, "DE", Some(OR), 1)])]))

  /** createIncorrectFilter: the same, but with the group written [RU (OR), DE (no operator)]. */
  const IncorrectJsonFilter: Filter :=
    Filter(None, None, Some("НЕПРАВИЛЬНИЙ: Версія 2.2.2 і RU/DE"), None, Some(true),
      Some([Cond(CLIENT_VERSION, EQUAL, "2.2.2", None, 0)]),
      Some([NamedGroup("Країни RU або DE", AND, 0,
        [Cond(COUNTRY, EQUAL, "RU", Some(OR), 0), Cond(COUNTRY, EQUAL, "DE", None, 1)])]))

  /** The createUser(version, country) of UserJsonFilterTest. */
  function JsonTestUser(version: string, country: string): UserRecord {
    EmptyRecord.(clientVersion := Some(version), country := Some(country), smid := Some("123456789"),
                 operatingSystem := Some("Android 12"), browser := Some("Chrome"))
  }

  /**
   * Both spellings of the group mean version "2.2.2" and (RU or DE): in the
   * second, DE has no operator and reuses the OR carried from RU.
   */
  lemma JsonFiltersAgree(version: string, country: string, o: Oracles)
    ensures FilterVerdict(Some(CorrectJsonFilter), JsonTestUser(version, country), o)
         == Ok(version == "2.2.2" && (country == "RU" || country == "DE"))
    ensures FilterVerdict(Some(IncorrectJsonFilter), JsonTestUser(version, country), o)
         == Ok(version == "2.2.2" && (country == "RU" || country == "DE"))
  {
    var u := JsonTestUser(version, country);
    var ok := CorrectJsonFilter.groups.value[0].conditions.value;
    var bad := IncorrectJsonFilter.groups.value[0].conditions.value;
    CountryEquals("RU", None, 0, u, o);
    CountryEquals("DE", Some(OR), 1, u, o);
    CountryEquals("RU", Some(OR), 0, u, o);
    CountryEquals("DE", None, 1, u, o);
    var vs, ops := Verdicts(ok, u, o), Operators(ok);
    assert vs[0] == Ok(country == "RU") && vs[1] == Ok(country == "DE");
    assert ops[0] == None && ops[1] == Some(OR);
    assert Fold(vs, ops, 1) == Ok((country == "RU", AND));
    assert FoldPrefix(ok, 2, u, o) == Ok((country == "RU" || country == "DE", OR));
    var ws, qs := Verdicts(bad, u, o), Operators(bad);
    assert ws[0] == Ok(country == "RU") && ws[1] == Ok(country == "DE");
    assert qs[0] == Some(OR) && qs[1] == None;
    assert Fold(ws, qs, 1) == Ok((country == "RU", OR));
    assert FoldPrefix(bad, 2, u, o) == Ok((country == "RU" || country == "DE", OR));
  }

  /** The filter of InOperatorJsonArrayTest, with IN or NOT_IN over a JSON-style array. */
  function JsonArrayFilter(op: FilterOperator, a: string, b: string, c: string): Filter {
    ActiveFilter("VIP користувачі",
      [Cond(SMID, op, "[\"" + a + "\",\"" + b + "\",\"" + c + "\"]", None, 0)], [])
  }

  /**
   * The code splits on commas and trims only, so the JSON-style list never
   * matches a numeric smid: IN is false and NOT_IN true even for a listed smid.
   */
  lemma JsonArrayFilterVerdicts(smid: string, a: string, b: string, c: string, o: Oracles)
    requires IsDigits(smid) && IsDigits(a) && IsDigits(b) && IsDigits(c)
    ensures FilterVerdict(Some(JsonArrayFilter(IN, a, b, c)), EmptyRecord.(smid := Some(smid)), o) == Ok(false)
    ensures FilterVerdict(Some(JsonArrayFilter(NOT_IN, a, b, c)), EmptyRecord.(smid := Some(smid)), o) == Ok(true)
  {
    JsonArrayIsNotAList(a, b, c, smid);
  }

  /** testInOperatorWithJsonArray_ShouldReturnTrue expects true; the code gives false. */
  lemma JsonArrayTestSmid(o: Oracles)
    ensures FilterVerdict(Some(JsonArrayFilter(IN, "3586067540", "9876543210", "1111111111")),
                          EmptyRecord.(smid := Some("3586067540")), o) == Ok(false)
  {
    JsonArrayFilterVerdicts("3586067540", "3586067540", "9876543210", "1111111111", o);
  }
}
