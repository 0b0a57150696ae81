/**
 * MarketingTargetFilterService: the structural validation of a filter
 * before it is stored, and the conversion of stored filters back into
 * DTOs when they are loaded.
 */
module FilterService {
  import opened Wrappers
  import opened JavaStrings
  import opened FilterFieldTypes
  import opened FilterOperators
  import opened LogicalOperators
  import opened UserRequests
  import opened FilterConditions
  import opened FilterGroups
  import opened MarketingTargetFilters
  import FilterEvaluation

  // ---------------------------------------------------------------------
  // The version grammar of isValidVersion: [0-9]+(\.[0-9]+)*

  /** s is one or more digit runs separated by single dots. */
  predicate IsVersion(s: string)
    decreases |s|
  {
    var n := LeadingDigits(s);
    n > 0 && (n == |s| || (s[n] == '.' && IsVersion(s[n + 1..])))
  }

  /** The same language described by its characters. */
  ghost predicate VersionShaped(s: string) {
    |s| > 0 && IsDigit(s[0]) && IsDigit(s[|s| - 1]) &&
    (forall i :: 0 <= i < |s| ==> IsDigit(s[i]) || s[i] == '.') &&
    (forall i :: 0 <= i < |s| - 1 && s[i] == '.' ==> s[i + 1] != '.')
  }

  /** The recursive grammar and the character description agree, in both directions. */
  lemma {:induction false} IsVersionIff(s: string)
    ensures IsVersion(s) <==> VersionShaped(s)
    decreases |s|
  {
    var n := LeadingDigits(s);
    if n == 0 || n == |s| {
    } else if s[n] != '.' {
      assert !VersionShaped(s);
    } else {
      var rest := s[n + 1..];
      IsVersionIff(rest);
      assert forall i :: 0 <= i < |rest| ==> rest[i] == s[n + 1 + i];
      if VersionShaped(s) {
        assert |rest| > 0;
        assert IsDigit(rest[0]);
        assert VersionShaped(rest);
      }
      if VersionShaped(rest) {
        forall i | 0 <= i < |s| - 1 && s[i] == '.' ensures s[i + 1] != '.' {
          if i > n {
            assert rest[i - n - 1] == '.';
          }
        }
        assert VersionShaped(s);
      }
    }
  }

  /** isValidVersion: non-null, not blank, and matching the version grammar. */
  predicate IsValidVersion(version: Option<string>): (r: bool)
    ensures r ==> version.Some? && |version.value| > 0
    ensures r ==> IsDigit(version.value[0]) && IsDigit(version.value[|version.value| - 1])
    ensures r ==> forall i :: 0 <= i < |version.value| ==> IsDigit(version.value[i]) || version.value[i] == '.'
  {
    match version
    case None => false
    case Some(v) => IsVersionIff(v); Trim(v) != "" && IsVersion(v)
  }

  /** A version in the grammar has no surrounding blanks, so the blank test never rejects it. */
  lemma IsValidVersionIff(version: Option<string>)
    ensures IsValidVersion(version) <==> version.Some? && IsVersion(version.value)
  {
    if version.Some? && IsVersion(version.value) {
      IsVersionIff(version.value);
      TrimOfTrimmed(version.value);
    }
  }

  lemma AcceptedVersions()
    ensures IsVersion("1.0.0") && IsVersion("2")
  {
  }

  lemma RejectedVersions()
    ensures !IsVersion("") && !IsVersion("1.") && !IsVersion(".1") && !IsVersion("1..2") && !IsVersion("v1")
  {
  }

  // ---------------------------------------------------------------------
  // Structural validation

  /** Where a condition list sits: "root level", or "group '<name>'". */
  datatype Context = RootLevel | InGroup(groupName: string)

  /** The RuntimeException messages of validateFilterStructure, by kind and position. */
  datatype ValidationError =
    | FilterIsNull
    | NameRequired
    | TargetRequired
    | NothingToMatch
    | FieldTypeRequired(index: nat, context: Context)
    | OperatorRequired(index: nat, context: Context)
    | ValueRequired(index: nat, context: Context, operator: FilterOperator)
    | DistributionOperatorNotSupported
    | InvalidVersion(index: nat, context: Context, value: string)
    | GroupNameRequired(groupIndex: nat)
    | GroupOperatorRequired(groupIndex: nat, groupName: string)
    | GroupConditionsRequired(groupIndex: nat, groupName: string)

  predicate IsBlank(s: Option<string>) {
    s.None? || Trim(s.value) == ""
  }

  predicate NeedsValue(op: FilterOperator) {
    op != IS_NULL && op != IS_NOT_NULL
  }

  predicate DistributionOperator(op: FilterOperator) {
    op == IN || op == NOT_IN || op == EQUAL || op == NOT_EQUAL
  }

  predicate OrderingOperator(op: FilterOperator) {
    op == GREATER_THAN || op == GREATER_THAN_OR_EQUAL || op == LESS_THAN || op == LESS_THAN_OR_EQUAL
  }

  /** The checks of validateConditions on condition i, in their order. */
  function ConditionIssue(c: Condition, i: nat, context: Context): Option<ValidationError> {
    if c.fieldType.None? then Some(FieldTypeRequired(i, context))
    else if c.operator.None? then Some(OperatorRequired(i, context))
    else if NeedsValue(c.operator.value) && IsBlank(c.fieldValue) then Some(ValueRequired(i, context, c.operator.value))
    else if c.fieldType.value == DISTRIBUTION_GROUPS_FILE && !DistributionOperator(c.operator.value) then
      Some(DistributionOperatorNotSupported)
    else if c.fieldType.value == CLIENT_VERSION && OrderingOperator(c.operator.value) && !IsValidVersion(c.fieldValue) then
      Some(InvalidVersion(i, context, c.fieldValue.value))
    else None
  }

  /** The first issue among cs[from..], visiting the conditions in order. */
  function FirstConditionIssue(cs: seq<Condition>, context: Context, from: nat): Option<ValidationError>
    requires from <= |cs|
    decreases |cs| - from
  {
    if from == |cs| then None
    else if ConditionIssue(cs[from], from, context).Some? then ConditionIssue(cs[from], from, context)
    else FirstConditionIssue(cs, context, from + 1)
  }

  /** validateConditions: a null or empty list passes. */
  function ConditionsIssue(conditions: Option<seq<Condition>>, context: Context): Option<ValidationError> {
    if conditions.None? then None else FirstConditionIssue(conditions.value, context, 0)
  }

  /** validateConditions: stops at the first condition that fails a check. */
  method ValidateConditions(conditions: Option<seq<Condition>>, context: Context) returns (r: Option<ValidationError>)
    ensures r == ConditionsIssue(conditions, context)
  {
    if conditions.None? || |conditions.value| == 0 {
      return None;
    }
    var cs := conditions.value;
    var i := 0;
    while i < |cs|
      invariant 0 <= i <= |cs|
      invariant FirstConditionIssue(cs, context, 0) == FirstConditionIssue(cs, context, i)
    {
      var condition := cs[i];
      if condition.fieldType.None? {
        return Some(FieldTypeRequired(i, context));
      }
      if condition.operator.None? {
        return Some(OperatorRequired(i, context));
      }
      var operator := condition.operator.value;
      if operator != IS_NULL && operator != IS_NOT_NULL {
        if condition.fieldValue.None? || Trim(condition.fieldValue.value) == "" {
          return Some(ValueRequired(i, context, operator));
        }
      }
      if condition.fieldType.value == DISTRIBUTION_GROUPS_FILE {
        if operator != IN && operator != NOT_IN && operator != EQUAL && operator != NOT_EQUAL {
          return Some(DistributionOperatorNotSupported);
        }
      }
      if condition.fieldType.value == CLIENT_VERSION &&
         (operator == GREATER_THAN || operator == GREATER_THAN_OR_EQUAL ||
          operator == LESS_THAN || operator == LESS_THAN_OR_EQUAL)
      {
        if !IsValidVersion(condition.fieldValue) {
          return Some(InvalidVersion(i, context, condition.fieldValue.value));
        }
      }
      i := i + 1;
    }
    return None;
  }

  /** The checks of validateGroups on group i, in their order. */
  function GroupIssue(g: Group, i: nat): Option<ValidationError> {
    if IsBlank(g.groupName) then Some(GroupNameRequired(i))
    else if g.logicalOperator.None? then Some(GroupOperatorRequired(i, g.groupName.value))
    else if g.conditions.None? || |g.conditions.value| == 0 then Some(GroupConditionsRequired(i, g.groupName.value))
    else ConditionsIssue(g.conditions, InGroup(g.groupName.value))
  }

  /** The first issue among gs[from..], visiting the groups in order. */
  function FirstGroupIssue(gs: seq<Group>, from: nat): Option<ValidationError>
    requires from <= |gs|
    decreases |gs| - from
  {
    if from == |gs| then None
    else if GroupIssue(gs[from], from).Some? then GroupIssue(gs[from], from)
    else FirstGroupIssue(gs, from + 1)
  }

  /** validateGroups: a null or empty list passes. */
  function GroupsIssue(groups: Option<seq<Group>>): Option<ValidationError> {
    if groups.None? then None else FirstGroupIssue(groups.value, 0)
  }

  /** validateGroups: stops at the first group that fails a check. */
  method ValidateGroups(groups: Option<seq<Group>>) returns (r: Option<ValidationError>)
    ensures r == GroupsIssue(groups)
  {
    if groups.None? || |groups.value| == 0 {
      return None;
    }
    var gs := groups.value;
    var i := 0;
    while i < |gs|
      invariant 0 <= i <= |gs|
      invariant FirstGroupIssue(gs, 0) == FirstGroupIssue(gs, i)
    {
      var group := gs[i];
      if group.groupName.None? || Trim(group.groupName.value) == "" {
        return Some(GroupNameRequired(i));
      }
      if group.logicalOperator.None? {
        return Some(GroupOperatorRequired(i, group.groupName.value));
      }
      if group.conditions.None? || |group.conditions.value| == 0 {
        return Some(GroupConditionsRequired(i, group.groupName.value));
      }
      var issue := ValidateConditions(group.conditions, InGroup(group.groupName.value));
      if issue.Some? {
        return issue;
      }
      i := i + 1;
    }
    return None;
  }

  predicate HasItems<T>(s: Option<seq<T>>) {
    s.Some? && |s.value| > 0
  }

  /** validateFilterStructure: None when the filter is accepted, else the first violation. */
  function StructureIssue(f: Option<Filter>): Option<ValidationError> {
    if f.None? then Some(FilterIsNull)
    else if IsBlank(f.value.filterName) then Some(NameRequired)
    else if f.value.marketingTargetId.None? then Some(TargetRequired)
    else if !HasItems(f.value.conditions) && !HasItems(f.value.groups) then Some(NothingToMatch)
    else if ConditionsIssue(f.value.conditions, RootLevel).Some? then ConditionsIssue(f.value.conditions, RootLevel)
    else GroupsIssue(f.value.groups)
  }

  /** validateFilterStructure: root conditions are checked before groups. */
  method ValidateFilterStructure(f: Option<Filter>) returns (r: Option<ValidationError>)
    ensures r == StructureIssue(f)
  {
    if f.None? {
      return Some(FilterIsNull);
    }
    var filter := f.value;
    if filter.filterName.None? || Trim(filter.filterName.value) == "" {
      return Some(NameRequired);
    }
    if filter.marketingTargetId.None? {
      return Some(TargetRequired);
    }
    var hasConditions := filter.conditions.Some? && |filter.conditions.value| > 0;
    var hasGroups := filter.groups.Some? && |filter.groups.value| > 0;
    if !hasConditions && !hasGroups {
      return Some(NothingToMatch);
    }
    if hasConditions {
      r := ValidateConditions(filter.conditions, RootLevel);
      if r.Some? {
        return r;
      }
    }
    if hasGroups {
      r := ValidateGroups(filter.groups);
      return r;
    }
    return None;
  }

  // ---------------------------------------------------------------------
  // Properties of the validator

  /** The first issue is that of the first condition that fails its checks; there is none exactly when every condition passes. */
  lemma {:induction false} FirstConditionIssueIff(cs: seq<Condition>, context: Context, from: nat)
    requires from <= |cs|
    ensures FirstConditionIssue(cs, context, from).None? <==> forall k :: from <= k < |cs| ==> ConditionIssue(cs[k], k, context).None?
    ensures FirstConditionIssue(cs, context, from).Some? ==>
            exists i :: from <= i < |cs| && FirstConditionIssue(cs, context, from) == ConditionIssue(cs[i], i, context) &&
                        forall k :: from <= k < i ==> ConditionIssue(cs[k], k, context).None?
    decreases |cs| - from
  {
    if from < |cs| {
      FirstConditionIssueIff(cs, context, from + 1);
      if ConditionIssue(cs[from], from, context).None? && FirstConditionIssue(cs, context, from).Some? {
        var i :| from + 1 <= i < |cs| && FirstConditionIssue(cs, context, from + 1) == ConditionIssue(cs[i], i, context) &&
                 forall k :: from + 1 <= k < i ==> ConditionIssue(cs[k], k, context).None?;
        assert forall k :: from <= k < i ==> ConditionIssue(cs[k], k, context).None?;
      }
    }
  }

  /** The first issue is that of the first group that fails its checks; there is none exactly when every group passes. */
  lemma {:induction false} FirstGroupIssueIff(gs: seq<Group>, from: nat)
    requires from <= |gs|
    ensures FirstGroupIssue(gs, from).None? <==> forall k :: from <= k < |gs| ==> GroupIssue(gs[k], k).None?
    ensures FirstGroupIssue(gs, from).Some? ==>
            exists i :: from <= i < |gs| && FirstGroupIssue(gs, from) == GroupIssue(gs[i], i) &&
                        forall k :: from <= k < i ==> GroupIssue(gs[k], k).None?
    decreases |gs| - from
  {
    if from < |gs| {
      FirstGroupIssueIff(gs, from + 1);
      if GroupIssue(gs[from], from).None? && FirstGroupIssue(gs, from).Some? {
        var i :| from + 1 <= i < |gs| && FirstGroupIssue(gs, from + 1) == GroupIssue(gs[i], i) &&
                 forall k :: from + 1 <= k < i ==> GroupIssue(gs[k], k).None?;
        assert forall k :: from <= k < i ==> GroupIssue(gs[k], k).None?;
      }
    }
  }

  /** A null filter, a blank name or a missing target is reported before any condition is looked at. */
  lemma HeaderChecksFirst(f: Option<Filter>)
    ensures f.None? ==> StructureIssue(f) == Some(FilterIsNull)
    ensures f.Some? && IsBlank(f.value.filterName) ==> StructureIssue(f) == Some(NameRequired)
    ensures f.Some? && !IsBlank(f.value.filterName) && f.value.marketingTargetId.None? ==> StructureIssue(f) == Some(TargetRequired)
  {
  }

  /** A failing root condition is reported whatever the groups contain. */
  lemma RootBeforeGroups(f: Filter, gs: Option<seq<Group>>)
    requires ConditionsIssue(f.conditions, RootLevel).Some?
    requires !IsBlank(f.filterName) && f.marketingTargetId.Some?
    ensures StructureIssue(Some(f.(groups := gs))) == ConditionsIssue(f.conditions, RootLevel)
  {
  }

  /** Every condition of the list passes its checks. */
  ghost predicate ConditionsPass(cs: Option<seq<Condition>>, context: Context) {
    cs.Some? ==> forall k :: 0 <= k < |cs.value| ==> ConditionIssue(cs.value[k], k, context).None?
  }

  /** A condition list raises no validation error exactly when every condition passes its checks. */
  lemma ConditionsIssueNoneIff(cs: Option<seq<Condition>>, context: Context)
    ensures ConditionsIssue(cs, context).None? <==> ConditionsPass(cs, context)
  {
    if cs.Some? {
      FirstConditionIssueIff(cs.value, context, 0);
    }
  }

  /** A group that passes validateGroups' checks: a non-blank name, an operator, and conditions that all pass. */
  ghost predicate GroupPasses(g: Group) {
    !IsBlank(g.groupName) && g.logicalOperator.Some? && HasItems(g.conditions) &&
    ConditionsPass(g.conditions, InGroup(g.groupName.value))
  }

  /** A group passes its checks exactly when it raises no validation error. */
  lemma GroupIssueNoneIff(g: Group, i: nat)
    ensures GroupIssue(g, i).None? <==> GroupPasses(g)
  {
    if !IsBlank(g.groupName) && g.logicalOperator.Some? && HasItems(g.conditions) {
      ConditionsIssueNoneIff(g.conditions, InGroup(g.groupName.value));
    }
  }

  /** An accepted filter: a non-blank name, a target, something to match, and every condition and group passes its checks. */
  lemma AcceptedFilter(f: Filter)
    requires StructureIssue(Some(f)).None?
    ensures !IsBlank(f.filterName) && f.marketingTargetId.Some?
    ensures HasItems(f.conditions) || HasItems(f.groups)
    ensures ConditionsPass(f.conditions, RootLevel)
    ensures f.groups.Some? ==> forall k :: 0 <= k < |f.groups.value| ==> GroupPasses(f.groups.value[k])
  {
    ConditionsIssueNoneIff(f.conditions, RootLevel);
    if f.groups.Some? {
      var gs := f.groups.value;
      FirstGroupIssueIff(gs, 0);
      forall k | 0 <= k < |gs| ensures GroupPasses(gs[k]) {
        GroupIssueNoneIff(gs[k], k);
      }
    }
  }

  /** A passing condition has a field type and an operator, so the evaluator never throws on it. */
  lemma PassingConditionEvaluates(c: Condition, i: nat, context: Context, u: UserRecord, o: FilterEvaluation.Oracles)
    requires ConditionIssue(c, i, context).None?
    ensures FilterEvaluation.ConditionVerdict(c, u, o).Ok?
  {
    FilterEvaluation.ConditionFailsIff(c, u, o);
  }

  lemma PassingConditionsEvaluate(cs: Option<seq<Condition>>, context: Context, u: UserRecord, o: FilterEvaluation.Oracles)
    requires ConditionsPass(cs, context)
    ensures FilterEvaluation.ConditionsVerdict(cs, u, o).Ok?
  {
    if cs.Some? && |cs.value| > 0 {
      var s := cs.value;
      forall k | 0 <= k < |s| ensures FilterEvaluation.ConditionVerdict(s[k], u, o).Ok? {
        PassingConditionEvaluates(s[k], k, context, u, o);
      }
      FilterEvaluation.ConditionsFailIff(s, u, o);
    }
  }

  /** The evaluator never throws on a filter that passed validation and has its isActive flag set. */
  lemma AcceptedFilterEvaluates(f: Filter, u: UserRecord, o: FilterEvaluation.Oracles)
    requires StructureIssue(Some(f)).None? && f.isActive.Some?
    ensures FilterEvaluation.FilterVerdict(Some(f), u, o).Ok?
  {
    AcceptedFilter(f);
    PassingConditionsEvaluate(f.conditions, RootLevel, u, o);
    if f.groups.Some? && |f.groups.value| > 0 {
      var gs := f.groups.value;
      forall k | 0 <= k < |gs| ensures FilterEvaluation.ConditionsVerdict(gs[k].conditions, u, o).Ok? {
        PassingConditionsEvaluate(gs[k].conditions, InGroup(gs[k].groupName.value), u, o);
      }
      FilterEvaluation.GroupsFailIff(gs, u, o);
    }
  }

  // ---------------------------------------------------------------------
  // Conversion of stored filters (convertToDtoWithDetails and helpers)

  /** A stored condition row; the NOT NULL columns are plain values. */
  datatype StoredCondition = StoredCondition(
    id: Option<int>,
    groupId: Option<int>,
    fieldType: FilterFieldType,
    operator: FilterOperator,
    fieldValue: string,
    logicalOperator: Option<LogicalOperator>,
    orderIndex: int)

  /** A stored group row with its conditions. */
  datatype StoredGroup = StoredGroup(
    id: Option<int>,
    groupName: Option<string>,
    logicalOperator: LogicalOperator,
    orderIndex: int,
    conditions: Option<seq<StoredCondition>>)

  /** A stored filter with its conditions (root and grouped alike) and groups. */
  datatype StoredFilter = StoredFilter(
    id: Option<int>,
    marketingTargetId: int,
    filterName: string,
    description: Option<string>,
    isActive: bool,
    conditions: Option<seq<StoredCondition>>,
    groups: Option<seq<StoredGroup>>)

  /** Insert x before the first element whose key is not smaller, so equal keys keep their order. */
  function Insert<T>(x: T, s: seq<T>, key: T -> int): (r: seq<T>)
    ensures |r| == |s| + 1
  {
    if |s| == 0 || key(x) <= key(s[0]) then [x] + s else [s[0]] + Insert(x, s[1..], key)
  }

  /** Stream.sorted by an integer key: a stable sort (here an insertion sort). */
  function SortBy<T>(s: seq<T>, key: T -> int): (r: seq<T>)
    ensures |r| == |s|
  {
    if |s| == 0 then [] else Insert(s[0], SortBy(s[1..], key), key)
  }

  ghost predicate SortedBy<T>(s: seq<T>, key: T -> int) {
    forall i, j :: 0 <= i < j < |s| ==> key(s[i]) <= key(s[j])
  }

  /** The elements of s whose key is k, in their order in s. */
  function WithKey<T>(s: seq<T>, key: T -> int, k: int): seq<T> {
    if |s| == 0 then [] else (if key(s[0]) == k then [s[0]] else []) + WithKey(s[1..], key, k)
  }

  lemma {:induction false} InsertBound<T>(x: T, s: seq<T>, key: T -> int, b: int)
    requires b <= key(x) && forall j :: 0 <= j < |s| ==> b <= key(s[j])
    ensures forall j :: 0 <= j < |Insert(x, s, key)| ==> b <= key(Insert(x, s, key)[j])
  {
    if |s| > 0 && key(x) > key(s[0]) {
      InsertBound(x, s[1..], key, b);
    }
  }

  lemma {:induction false} InsertSorted<T>(x: T, s: seq<T>, key: T -> int)
    requires SortedBy(s, key)
    ensures SortedBy(Insert(x, s, key), key)
  {
    if |s| > 0 && key(x) > key(s[0]) {
      InsertSorted(x, s[1..], key);
      InsertBound(x, s[1..], key, key(s[0]));
    }
  }

  lemma {:induction false} InsertMultiset<T>(x: T, s: seq<T>, key: T -> int)
    ensures multiset(Insert(x, s, key)) == multiset{x} + multiset(s)
  {
    if |s| > 0 && key(x) > key(s[0]) {
      InsertMultiset(x, s[1..], key);
      assert s == [s[0]] + s[1..];
    }
  }

  /** x goes after elements with a smaller key only, so among the elements with key k it comes first. */
  lemma {:induction false} InsertWithKey<T>(x: T, s: seq<T>, key: T -> int, k: int)
    ensures WithKey(Insert(x, s, key), key, k) == (if key(x) == k then [x] else []) + WithKey(s, key, k)
  {
    if |s| > 0 && key(x) > key(s[0]) {
      InsertWithKey(x, s[1..], key, k);
      var r := Insert(x, s[1..], key);
      assert ([s[0]] + r)[1..] == r;
    } else {
      assert ([x] + s)[1..] == s;
    }
  }

  /** The sort orders by key, keeps every element, and keeps elements with equal keys in their input order. */
  lemma {:induction false} SortByCorrect<T>(s: seq<T>, key: T -> int)
    ensures SortedBy(SortBy(s, key), key)
    ensures multiset(SortBy(s, key)) == multiset(s)
    ensures forall k :: WithKey(SortBy(s, key), key, k) == WithKey(s, key, k)
  {
    if |s| > 0 {
      SortByCorrect(s[1..], key);
      InsertSorted(s[0], SortBy(s[1..], key), key);
      InsertMultiset(s[0], SortBy(s[1..], key), key);
      assert s == [s[0]] + s[1..];
      forall k ensures WithKey(SortBy(s, key), key, k) == WithKey(s, key, k) {
        InsertWithKey(s[0], SortBy(s[1..], key), key, k);
      }
    }
  }

  function ConditionIndex(c: StoredCondition): int {
    c.orderIndex
  }

  function GroupIndex(g: StoredGroup): int {
    g.orderIndex
  }

  /** The root conditions: those without a group, in stored order. */
  function RootOnly(cs: seq<StoredCondition>): (r: seq<StoredCondition>)
    ensures forall c :: c in r <==> c in cs && c.groupId.None?
  {
    if |cs| == 0 then []
    else if cs[0].groupId.None? then [cs[0]] + RootOnly(cs[1..])
    else RootOnly(cs[1..])
  }

  /** convertConditionToDto: every column is copied. */
  function ConvertConditionToDto(c: StoredCondition): (d: Condition)
    ensures d.fieldType == Some(c.fieldType) && d.operator == Some(c.operator) && d.fieldValue == Some(c.fieldValue)
    ensures d.id == c.id && d.groupId == c.groupId && d.logicalOperator == c.logicalOperator
    ensures d.orderIndex == Some(c.orderIndex)
  {
    Condition(c.id, c.groupId, Some(c.fieldType), Some(c.operator), Some(c.fieldValue), c.logicalOperator, Some(c.orderIndex))
  }

  function ConvertConditions(cs: seq<StoredCondition>): (ds: seq<Condition>)
    ensures |ds| == |cs|
    ensures forall i :: 0 <= i < |cs| ==> ds[i] == ConvertConditionToDto(cs[i])
  {
    if |cs| == 0 then [] else [ConvertConditionToDto(cs[0])] + ConvertConditions(cs[1..])
  }

  /** The conditions of a group as loaded: sorted by orderIndex. */
  function LoadedGroupConditions(g: StoredGroup): Option<seq<Condition>> {
    if g.conditions.None? then None
    else Some(ConvertConditions(SortBy(g.conditions.value, ConditionIndex)))
  }

  /** convertGroupToDto: the columns are copied and the conditions sorted by orderIndex. */
  function ConvertGroupToDto(g: StoredGroup): (d: Group)
    ensures d.id == g.id && d.groupName == g.groupName
    ensures d.logicalOperator == Some(g.logicalOperator) && d.orderIndex == Some(g.orderIndex)
    ensures d.conditions.Some? <==> g.conditions.Some?
  {
    Group(g.id, g.groupName, Some(g.logicalOperator), Some(g.orderIndex), LoadedGroupConditions(g))
  }

  function ConvertGroups(gs: seq<StoredGroup>): (ds: seq<Group>)
    ensures |ds| == |gs|
    ensures forall i :: 0 <= i < |gs| ==> ds[i] == ConvertGroupToDto(gs[i])
  {
    if |gs| == 0 then [] else [ConvertGroupToDto(gs[0])] + ConvertGroups(gs[1..])
  }

  /** convertToDto: the filter's own columns, without conditions or groups. */
  function ConvertToDto(f: StoredFilter): (d: Filter)
    ensures d.id == f.id && d.marketingTargetId == Some(f.marketingTargetId) && d.filterName == Some(f.filterName)
    ensures d.description == f.description && d.isActive == Some(f.isActive)
    ensures d.conditions.None? && d.groups.None?
  {
    Filter(f.id, Some(f.marketingTargetId), Some(f.filterName), f.description, Some(f.isActive), None, None)
  }

  /** The root conditions of a loaded filter. */
  function LoadedRoot(cs: seq<StoredCondition>): seq<StoredCondition> {
    SortBy(RootOnly(cs), ConditionIndex)
  }

  /** convertToDtoWithDetails: root conditions (no group) and groups, each sorted by orderIndex. */
  function ConvertToDtoWithDetails(f: StoredFilter): (d: Filter)
    ensures d == ConvertToDto(f).(conditions := d.conditions, groups := d.groups)
    ensures d.conditions.Some? <==> f.conditions.Some?
    ensures d.groups.Some? <==> f.groups.Some?
  {
    ConvertToDto(f).(
      conditions := if f.conditions.None? then None else Some(ConvertConditions(LoadedRoot(f.conditions.value))),
      groups := if f.groups.None? then None else Some(ConvertGroups(SortBy(f.groups.value, GroupIndex))))
  }

  /**
   * The root conditions of a loaded filter are exactly the stored conditions
   * without a group, ordered by orderIndex, and stored order is kept among
   * equal indices.
   */
  lemma LoadedRootConditions(cs: seq<StoredCondition>)
    ensures forall c :: c in LoadedRoot(cs) ==> c.groupId.None?
    ensures multiset(LoadedRoot(cs)) == multiset(RootOnly(cs))
    ensures SortedBy(LoadedRoot(cs), ConditionIndex)
    ensures forall k :: WithKey(LoadedRoot(cs), ConditionIndex, k) == WithKey(RootOnly(cs), ConditionIndex, k)
  {
    SortByCorrect(RootOnly(cs), ConditionIndex);
    forall c | c in LoadedRoot(cs) ensures c.groupId.None? {
      assert c in multiset(LoadedRoot(cs));
      assert c in multiset(RootOnly(cs));
    }
  }

  /** A stored condition with a group is never among the root conditions; one without a group always is. */
  lemma RootOnlyKeepsExactlyUngrouped(cs: seq<StoredCondition>, c: StoredCondition)
    requires c in cs
    ensures c in LoadedRoot(cs) <==> c.groupId.None?
  {
    LoadedRootConditions(cs);
    if c.groupId.None? {
      assert c in multiset(RootOnly(cs));
      assert c in multiset(LoadedRoot(cs));
    }
  }

  /** Loaded groups, and the conditions in each, are ordered by orderIndex. */
  lemma LoadedGroupsSorted(f: StoredFilter)
    requires f.groups.Some?
    ensures var ds := ConvertToDtoWithDetails(f).groups.value;
      (forall i, j :: 0 <= i < j < |ds| ==> ds[i].orderIndex.value <= ds[j].orderIndex.value) &&
      (forall i :: 0 <= i < |ds| && ds[i].conditions.Some? ==>
         var cs := ds[i].conditions.value;
         forall a, b :: 0 <= a < b < |cs| ==> cs[a].orderIndex.value <= cs[b].orderIndex.value)
  {
    var sorted := SortBy(f.groups.value, GroupIndex);
    SortByCorrect(f.groups.value, GroupIndex);
    forall i | 0 <= i < |sorted| && sorted[i].conditions.Some?
      ensures SortedBy(SortBy(sorted[i].conditions.value, ConditionIndex), ConditionIndex)
    {
      SortByCorrect(sorted[i].conditions.value, ConditionIndex);
    }
  }
}
