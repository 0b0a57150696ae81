/**
 * FilterEvaluationService: decides whether a user record satisfies a
 * targeting filter. Root conditions and groups are folded left to right
 * with AND/OR; each condition compares one record field with its value.
 */
module FilterEvaluation {
  import opened Wrappers
  import opened JavaStrings
  import opened FilterFieldTypes
  import opened FilterOperators
  import opened LogicalOperators
  import opened UserRequests
  import opened FilterConditions
  import opened FilterGroups
  import opened MarketingTargetFilters

  /** Every exception the evaluator can raise is a NullPointerException on a null field. */
  datatype Fault = NullPointerException

  /**
   * The calls the evaluator makes into code outside this model:
   * existsInFile is the repository's existsBySmidAndFileId, parsesAsDouble
   * says whether Double.parseDouble succeeds, compareDoubles is
   * Double.compareTo of two parsed values, and regexMatches(pattern, value)
   * is Pattern.compile(pattern).matcher(value).matches(), false when the
   * pattern does not compile.
   */
  datatype Oracles = Oracles(
    existsInFile: (string, Option<string>) -> bool,
    parsesAsDouble: string -> bool,
    compareDoubles: (string, string) -> int,
    regexMatches: (string, string) -> bool)

  /**
   * Facts of Java's Double that the proofs rely on: a string with two or more
   * dots never parses, and Double.compareTo is antisymmetric.
   */
  ghost predicate JavaDoubles(o: Oracles) {
    (forall s :: DotCount(s) >= 2 ==> !o.parsesAsDouble(s)) &&
    (forall a, b :: o.compareDoubles(a, b) < 0 <==> o.compareDoubles(b, a) > 0)
  }

  /** compareNumeric: Double order when both values parse, String.compareTo otherwise. */
  function CompareNumeric(v1: string, v2: string, o: Oracles): (r: int)
    ensures o.parsesAsDouble(v1) && o.parsesAsDouble(v2) ==> r == o.compareDoubles(v1, v2)
    ensures !(o.parsesAsDouble(v1) && o.parsesAsDouble(v2)) ==> (r == 0 <==> v1 == v2)
  {
    CompareToZeroIff(v1, v2);
    if o.parsesAsDouble(v1) && o.parsesAsDouble(v2) then o.compareDoubles(v1, v2)
    else CompareTo(v1, v2)
  }

  /** compareNumeric is antisymmetric, so a > b holds exactly when b < a. */
  lemma CompareNumericAntisymmetric(v1: string, v2: string, o: Oracles)
    requires JavaDoubles(o)
    ensures CompareNumeric(v1, v2, o) > 0 <==> CompareNumeric(v2, v1, o) < 0
    ensures CompareNumeric(v1, v2, o) == 0 <==> CompareNumeric(v2, v1, o) == 0
  {
    CompareToAntisymmetric(v1, v2);
  }

  /** Version strings with two dots or more never parse, so they compare as Java strings. */
  lemma DottedVersionsCompareAsStrings(v1: string, v2: string, o: Oracles)
    requires JavaDoubles(o)
    requires DotCount(v1) >= 2
    ensures CompareNumeric(v1, v2, o) == CompareTo(v1, v2)
  {
  }

  /** The IN test: the record value equals some trimmed token of conditionValue.split(","). */
  predicate InList(value: string, list: string) {
    exists t | t in Split(list) :: value == Trim(t)
  }

  /** The loop shared by IN and NOT_IN: scans the split tokens for one equal to the value once trimmed. */
  method FindToken(value: string, list: string) returns (found: bool)
    ensures found == InList(value, list)
  {
    var values := Split(list);
    var i := 0;
    while i < |values|
      invariant 0 <= i <= |values|
      invariant forall k :: 0 <= k < i ==> value != Trim(values[k])
    {
      if value == Trim(values[i]) {
        return true;
      }
      i := i + 1;
    }
    return false;
  }

  /** The switch of evaluateCondition once both values are known to be non-null. */
  function Holds(op: FilterOperator, fieldValue: string, conditionValue: string, o: Oracles): (r: bool)
    ensures op == IS_NULL ==> !r
    ensures op == IS_NOT_NULL ==> r
    ensures (op == STARTS_WITH || op == ENDS_WITH) && r ==> Contains(ToLower(fieldValue), ToLower(conditionValue))
  {
    var s, t := ToLower(fieldValue), ToLower(conditionValue);
    assert StartsWith(s, t) ==> OccursAt(s, t, 0);
    assert EndsWith(s, t) ==> OccursAt(s, t, |s| - |t|);
    match op
    case EQUAL => fieldValue == conditionValue
    case NOT_EQUAL => fieldValue != conditionValue
    case CONTAINS => Contains(ToLower(fieldValue), ToLower(conditionValue))
    case NOT_CONTAINS => !Contains(ToLower(fieldValue), ToLower(conditionValue))
    case STARTS_WITH => StartsWith(ToLower(fieldValue), ToLower(conditionValue))
    case ENDS_WITH => EndsWith(ToLower(fieldValue), ToLower(conditionValue))
    case GREATER_THAN => CompareNumeric(fieldValue, conditionValue, o) > 0
    case GREATER_THAN_OR_EQUAL => CompareNumeric(fieldValue, conditionValue, o) >= 0
    case LESS_THAN => CompareNumeric(fieldValue, conditionValue, o) < 0
    case LESS_THAN_OR_EQUAL => CompareNumeric(fieldValue, conditionValue, o) <= 0
    case IN => InList(fieldValue, conditionValue)
    case NOT_IN => !InList(fieldValue, conditionValue)
    case REGEX => o.regexMatches(conditionValue, fieldValue)
    case IS_NULL => false
    case IS_NOT_NULL => true
  }

  /** evaluateDistributionGroupsFile: a membership lookup of the record's smid in the file. */
  function DistributionVerdict(c: Condition, u: UserRecord, o: Oracles): (r: Result<bool, Fault>)
    ensures u.smid.None? ==> r == Ok(false)
    ensures r.Err? <==> u.smid.Some? && c.operator.None?
    ensures r.Err? ==> r.error == NullPointerException
    ensures r == Ok(true) ==> c.operator == Some(IN) || c.operator == Some(NOT_IN)
    ensures u.smid.Some? && c.operator == Some(IN) ==> r == Ok(o.existsInFile(u.smid.value, c.fieldValue))
    ensures u.smid.Some? && c.operator == Some(NOT_IN) ==> r == Ok(!o.existsInFile(u.smid.value, c.fieldValue))
  {
    match u.smid
    case None => Ok(false)
    case Some(smid) =>
      var existsInFile := o.existsInFile(smid, c.fieldValue);
      match c.operator
      case None => Err(NullPointerException)
      case Some(IN) => Ok(existsInFile)
      case Some(NOT_IN) => Ok(!existsInFile)
      case Some(_) => Ok(false)
  }

  /** The record's value for a field type, getFieldValue(type.name()) with the key switch resolved. */
  function TypeValue(u: UserRecord, t: FilterFieldType): Option<string> {
    match t
    case SMID => u.smid
    case DISTRIBUTION_GROUPS_FILE => CustomValue(u, "DISTRIBUTION_GROUPS_FILE")
    case COUNTRY => u.country
    case OPERATING_SYSTEM => u.operatingSystem
    case CLIENT_VERSION => u.clientVersion
    case BROWSER => u.browser
    case INTERNET_TYPE => CustomValue(u, "INTERNET_TYPE")
    case INTERNAL_TRANSITION => CustomValue(u, "INTERNAL_TRANSITION")
    case CLE_CAMPAIGN => CustomValue(u, "CLE_CAMPAIGN")
  }

  /** Four field types name a fixed attribute of the record; the other five fall through to the custom fields. */
  lemma TypeValueIsFieldValue(u: UserRecord, t: FilterFieldType)
    ensures TypeValue(u, t) == FieldValue(u, FilterFieldTypes.Name(t))
  {
    match t
    case SMID => FixedKeyReadsField(u, Smid);
    case COUNTRY => FixedKeyReadsField(u, Country);
    case OPERATING_SYSTEM => FixedKeyReadsField(u, OperatingSystem);
    case CLIENT_VERSION => FixedKeyReadsField(u, ClientVersion);
    case BROWSER => FixedKeyReadsField(u, Browser);
    case _ =>
  }

  /** evaluateCondition: the verdict of one condition on a record, or the exception it raises. */
  function ConditionVerdict(c: Condition, u: UserRecord, o: Oracles): (r: Result<bool, Fault>)
    ensures c.fieldType.None? ==> r == Err(NullPointerException)
    ensures r.Err? ==> r.error == NullPointerException
    ensures c.fieldType.Some? && c.fieldType.value != DISTRIBUTION_GROUPS_FILE && c.operator == Some(IS_NULL) ==>
      r == Ok(TypeValue(u, c.fieldType.value).None?)
    ensures c.fieldType.Some? && c.fieldType.value != DISTRIBUTION_GROUPS_FILE && c.operator == Some(IS_NOT_NULL) ==>
      r == Ok(TypeValue(u, c.fieldType.value).Some?)
  {
    match c.fieldType
    case None => Err(NullPointerException)
    case Some(t) =>
      var fieldValue := TypeValue(u, t);
      if t == DISTRIBUTION_GROUPS_FILE then DistributionVerdict(c, u, o)
      else if fieldValue.None? then Ok(c.operator == Some(IS_NULL))
      else if c.fieldValue.None? then Ok(c.operator == Some(IS_NOT_NULL))
      else match c.operator
        case None => Err(NullPointerException)
        case Some(op) => Ok(Holds(op, fieldValue.value, c.fieldValue.value, o))
  }

  /** evaluateCondition, with the IN and NOT_IN loops written out. */
  method EvaluateCondition(c: Condition, u: UserRecord, o: Oracles) returns (r: Result<bool, Fault>)
    ensures r == ConditionVerdict(c, u, o)
  {
    if c.fieldType.None? {
      return Err(NullPointerException);
    }
    var fieldValue := FieldValue(u, FilterFieldTypes.Name(c.fieldType.value));
    TypeValueIsFieldValue(u, c.fieldType.value);
    var conditionValue := c.fieldValue;
    var operator := c.operator;
    if c.fieldType.value == DISTRIBUTION_GROUPS_FILE {
      return DistributionVerdict(c, u, o);
    }
    if fieldValue.None? {
      return Ok(operator == Some(IS_NULL));
    }
    if conditionValue.None? {
      return Ok(operator == Some(IS_NOT_NULL));
    }
    if operator.None? {
      return Err(NullPointerException);
    }
    match operator.value
    case IN =>
      var found := FindToken(fieldValue.value, conditionValue.value);
      return Ok(found);
    case NOT_IN =>
      var found := FindToken(fieldValue.value, conditionValue.value);
      return Ok(!found);
    case _ =>
      return Ok(Holds(operator.value, fieldValue.value, conditionValue.value, o));
  }

  /** The join of evaluateConditionsWithLogicalOperators: OR is ||, anything else is &&. */
  function Join(op: LogicalOperator, acc: bool, next: bool): bool {
    if op == OR then acc || next else acc && next
  }

  /** What evaluating one condition or one group yields: its verdict, or the exception it raises. */
  type Verdict = Result<bool, Fault>

  /**
   * State of the condition fold after items 0..n-1 of a list whose item k has
   * verdict vs[k] and operator ops[k]: the result so far and the carried
   * operator, which starts as item 0's operator or AND and is replaced by
   * every later item that has one. The first item that throws ends the fold.
   */
  function Fold(vs: seq<Verdict>, ops: seq<Option<LogicalOperator>>, n: nat): Result<(bool, LogicalOperator), Fault>
    requires 1 <= n <= |vs| == |ops|
  {
    if n == 1 then
      var first :- vs[0];
      Ok((first, ops[0].GetOr(AND)))
    else
      var acc :- Fold(vs, ops, n - 1);
      var next :- vs[n - 1];
      var op := ops[n - 1].GetOr(acc.1);
      Ok((Join(op, acc.0, next), op))
  }

  /** The verdict of each condition, in list order. */
  function Verdicts(cs: seq<Condition>, u: UserRecord, o: Oracles): (vs: seq<Verdict>)
    ensures |vs| == |cs|
    ensures forall k :: 0 <= k < |cs| ==> vs[k] == ConditionVerdict(cs[k], u, o)
  {
    seq(|cs|, k requires 0 <= k < |cs| => ConditionVerdict(cs[k], u, o))
  }

  /** The logical operator of each condition, in list order. */
  function Operators(cs: seq<Condition>): (ops: seq<Option<LogicalOperator>>)
    ensures |ops| == |cs|
    ensures forall k :: 0 <= k < |cs| ==> ops[k] == cs[k].logicalOperator
  {
    seq(|cs|, k requires 0 <= k < |cs| => cs[k].logicalOperator)
  }

  /** The condition fold over conditions 0..n-1 of cs. */
  function FoldPrefix(cs: seq<Condition>, n: nat, u: UserRecord, o: Oracles): Result<(bool, LogicalOperator), Fault>
    requires 1 <= n <= |cs|
  {
    Fold(Verdicts(cs, u, o), Operators(cs), n)
  }

  /** evaluateConditionsWithLogicalOperators: true for a null or empty list. */
  function ConditionsVerdict(conditions: Option<seq<Condition>>, u: UserRecord, o: Oracles): Result<bool, Fault> {
    if conditions.None? || |conditions.value| == 0 then Ok(true)
    else
      var state :- FoldPrefix(conditions.value, |conditions.value|, u, o);
      Ok(state.0)
  }

  /** Once the fold has failed, every longer prefix fails with the same exception. */
  lemma {:induction false} FoldFailurePersists(vs: seq<Verdict>, ops: seq<Option<LogicalOperator>>, i: nat, n: nat)
    requires 1 <= i <= n <= |vs| == |ops|
    requires Fold(vs, ops, i).Err?
    ensures Fold(vs, ops, n) == Err(Fold(vs, ops, i).error)
    decreases n
  {
    if n > i {
      FoldFailurePersists(vs, ops, i, n - 1);
    }
  }

  /** One step of the condition fold, once items 0..i-1 have folded to (acc, carried) and item i has a verdict. */
  lemma FoldStep(vs: seq<Verdict>, ops: seq<Option<LogicalOperator>>, i: nat, acc: bool, carried: LogicalOperator)
    requires 1 <= i < |vs| == |ops|
    requires Fold(vs, ops, i) == Ok((acc, carried)) && vs[i].Ok?
    ensures Fold(vs, ops, i + 1) == Ok((Join(ops[i].GetOr(carried), acc, vs[i].value), ops[i].GetOr(carried)))
  {
  }

  /** evaluateConditionsWithLogicalOperators, the index loop of the source. */
  method EvaluateConditionsWithLogicalOperators(conditions: Option<seq<Condition>>, u: UserRecord, o: Oracles)
    returns (r: Result<bool, Fault>)
    ensures r == ConditionsVerdict(conditions, u, o)
  {
    if conditions.None? || |conditions.value| == 0 {
      return Ok(true);
    }
    var cs := conditions.value;
    ghost var vs, ops := Verdicts(cs, u, o), Operators(cs);
    var first := EvaluateCondition(cs[0], u, o);
    if first.Err? {
      FoldFailurePersists(vs, ops, 1, |cs|);
      return Err(first.error);
    }
    var result := first.value;
    var lastOperator := cs[0].logicalOperator.GetOr(AND);
    var i := 1;
    while i < |cs|
      invariant 1 <= i <= |cs|
      invariant Fold(vs, ops, i) == Ok((result, lastOperator))
    {
      var conditionResult := EvaluateCondition(cs[i], u, o);
      if conditionResult.Err? {
        FoldFailurePersists(vs, ops, i + 1, |cs|);
        return Err(conditionResult.error);
      }
      FoldStep(vs, ops, i, result, lastOperator);
      var operator: LogicalOperator;
      if cs[i].logicalOperator.None? {
        operator := lastOperator;
      } else {
        operator := cs[i].logicalOperator.value;
        lastOperator := operator;
      }
      if operator == OR {
        result := result || conditionResult.value;
      } else {
        result := result && conditionResult.value;
      }
      i := i + 1;
    }
    return Ok(result);
  }

  /** evaluateGroupConditions delegates to the condition fold. */
  method EvaluateGroupConditions(conditions: Option<seq<Condition>>, u: UserRecord, o: Oracles)
    returns (r: Result<bool, Fault>)
    ensures r == ConditionsVerdict(conditions, u, o)
  {
    r := EvaluateConditionsWithLogicalOperators(conditions, u, o);
  }

  /**
   * Result of the group fold over groups 0..n-1 of a list whose group k has
   * verdict vs[k] and operator ops[k]: a later group joins with || if its
   * operator is OR and with && otherwise; the first group that throws ends it.
   */
  function GroupFold(vs: seq<Verdict>, ops: seq<Option<LogicalOperator>>, n: nat): Verdict
    requires 1 <= n <= |vs| == |ops|
  {
    if n == 1 then vs[0]
    else
      var acc :- GroupFold(vs, ops, n - 1);
      var next :- vs[n - 1];
      Ok(if ops[n - 1] == Some(OR) then acc || next else acc && next)
  }

  /** The verdict of each group's condition block, in list order. */
  function GroupVerdicts(gs: seq<Group>, u: UserRecord, o: Oracles): (vs: seq<Verdict>)
    ensures |vs| == |gs|
    ensures forall k :: 0 <= k < |gs| ==> vs[k] == ConditionsVerdict(gs[k].conditions, u, o)
  {
    seq(|gs|, k requires 0 <= k < |gs| => ConditionsVerdict(gs[k].conditions, u, o))
  }

  /**
   * The logical operator of each group, in list order. The same projection as
   * Operators, over groups: conditions and groups are separate types here, as
   * they are separate classes in the source.
   */
  function GroupOperators(gs: seq<Group>): (ops: seq<Option<LogicalOperator>>)
    ensures |ops| == |gs|
    ensures forall k :: 0 <= k < |gs| ==> ops[k] == gs[k].logicalOperator
  {
    seq(|gs|, k requires 0 <= k < |gs| => gs[k].logicalOperator)
  }

  /** The group fold over groups 0..n-1 of gs. */
  function GroupFoldPrefix(gs: seq<Group>, n: nat, u: UserRecord, o: Oracles): Result<bool, Fault>
    requires 1 <= n <= |gs|
  {
    GroupFold(GroupVerdicts(gs, u, o), GroupOperators(gs), n)
  }

  /** evaluateGroupsWithLogicalOperators: true for a null or empty list. */
  function GroupsVerdict(groups: Option<seq<Group>>, u: UserRecord, o: Oracles): Result<bool, Fault> {
    if groups.None? || |groups.value| == 0 then Ok(true)
    else GroupFoldPrefix(groups.value, |groups.value|, u, o)
  }

  /** Once the group fold has failed, every longer prefix fails with the same exception. */
  lemma {:induction false} GroupFoldFailurePersists(vs: seq<Verdict>, ops: seq<Option<LogicalOperator>>, i: nat, n: nat)
    requires 1 <= i <= n <= |vs| == |ops|
    requires GroupFold(vs, ops, i).Err?
    ensures GroupFold(vs, ops, n) == Err(GroupFold(vs, ops, i).error)
    decreases n
  {
    if n > i {
      GroupFoldFailurePersists(vs, ops, i, n - 1);
    }
  }

  /** One step of the group fold, once groups 0..i-1 have folded to acc and group i has a verdict. */
  lemma GroupFoldStep(vs: seq<Verdict>, ops: seq<Option<LogicalOperator>>, i: nat, acc: bool)
    requires 1 <= i < |vs| == |ops|
    requires GroupFold(vs, ops, i) == Ok(acc) && vs[i].Ok?
    ensures GroupFold(vs, ops, i + 1) == Ok(if ops[i] == Some(OR) then acc || vs[i].value else acc && vs[i].value)
  {
  }

  /** evaluateGroupsWithLogicalOperators, the index loop of the source. */
  method EvaluateGroupsWithLogicalOperators(groups: Option<seq<Group>>, u: UserRecord, o: Oracles)
    returns (r: Result<bool, Fault>)
    ensures r == GroupsVerdict(groups, u, o)
  {
    if groups.None? || |groups.value| == 0 {
      return Ok(true);
    }
    var gs := groups.value;
    ghost var vs, ops := GroupVerdicts(gs, u, o), GroupOperators(gs);
    var first := EvaluateGroupConditions(gs[0].conditions, u, o);
    if first.Err? {
      GroupFoldFailurePersists(vs, ops, 1, |gs|);
      return Err(first.error);
    }
    var result := first.value;
    var i := 1;
    while i < |gs|
      invariant 1 <= i <= |gs|
      invariant GroupFold(vs, ops, i) == Ok(result)
    {
      var groupResult := EvaluateGroupConditions(gs[i].conditions, u, o);
      if groupResult.Err? {
        GroupFoldFailurePersists(vs, ops, i + 1, |gs|);
        return Err(groupResult.error);
      }
      assert vs[i] == groupResult;
      GroupFoldStep(vs, ops, i, result);
      if gs[i].logicalOperator == Some(OR) {
        result := result || groupResult.value;
      } else {
        result := result && groupResult.value;
      }
      i := i + 1;
    }
    return Ok(result);
  }

  /**
   * evaluateFilter(dto, user): false for a null or inactive filter (a null
   * isActive is unboxed and throws); otherwise the root block, then the
   * group block, must both hold.
   */
  function FilterVerdict(f: Option<Filter>, u: UserRecord, o: Oracles): (r: Result<bool, Fault>)
    ensures f.None? || (f.value.isActive == Some(false)) ==> r == Ok(false)
    ensures r == Ok(true) ==>
              f.Some? && f.value.isActive == Some(true) &&
              ConditionsVerdict(f.value.conditions, u, o) == Ok(true) && GroupsVerdict(f.value.groups, u, o) == Ok(true)
    ensures r.Err? ==>
              f.Some? &&
              (f.value.isActive.None? || ConditionsVerdict(f.value.conditions, u, o).Err? || GroupsVerdict(f.value.groups, u, o).Err?)
  {
    if f.None? then Ok(false)
    else if f.value.isActive.None? then Err(NullPointerException)
    else if !f.value.isActive.value then Ok(false)
    else
      var root :- ConditionsVerdict(f.value.conditions, u, o);
      if !root then Ok(false) else GroupsVerdict(f.value.groups, u, o)
  }

  /** evaluateFilter(dto, user) with its two early exits. */
  method EvaluateFilter(f: Option<Filter>, u: UserRecord, o: Oracles) returns (r: Result<bool, Fault>)
    ensures r == FilterVerdict(f, u, o)
  {
    if f.None? {
      return Ok(false);
    }
    if f.value.isActive.None? {
      return Err(NullPointerException);
    }
    if !f.value.isActive.value {
      return Ok(false);
    }
    var filter := f.value;
    if filter.conditions.Some? && |filter.conditions.value| > 0 {
      var root :- EvaluateConditionsWithLogicalOperators(filter.conditions, u, o);
      if !root {
        return Ok(false);
      }
    }
    if filter.groups.Some? && |filter.groups.value| > 0 {
      var groups :- EvaluateGroupsWithLogicalOperators(filter.groups, u, o);
      if !groups {
        return Ok(false);
      }
    }
    return Ok(true);
  }

  /** What getFilterById yields: a filter, no filter, or an exception. */
  datatype Lookup = Found(filter: Filter) | NotFound | LookupFailed

  /** evaluateFilter(id, user): never throws; true only for a found filter that evaluates to true. */
  method EvaluateFilterById(lookup: Lookup, u: UserRecord, o: Oracles) returns (r: bool)
    ensures r <==> lookup.Found? && FilterVerdict(Some(lookup.filter), u, o) == Ok(true)
  {
    if !lookup.Found? {
      return false;
    }
    var verdict := EvaluateFilter(Some(lookup.filter), u, o);
    return verdict == Ok(true);
  }

  // ---------------------------------------------------------------------
  // Top-level rule

  /** A null filter and an inactive filter are false whatever they contain. */
  lemma NullOrInactiveIsFalse(f: Option<Filter>, u: UserRecord, o: Oracles)
    requires f.None? || f.value.isActive == Some(false)
    ensures FilterVerdict(f, u, o) == Ok(false)
  {
  }

  /** An active filter holds exactly when its root block and its group block both hold. */
  lemma VerdictIsConjunction(f: Filter, u: UserRecord, o: Oracles)
    requires f.isActive == Some(true)
    requires ConditionsVerdict(f.conditions, u, o).Ok?
    requires GroupsVerdict(f.groups, u, o).Ok?
    ensures FilterVerdict(Some(f), u, o)
         == Ok(ConditionsVerdict(f.conditions, u, o).value && GroupsVerdict(f.groups, u, o).value)
  {
  }

  /** A false root block decides the verdict before any group is evaluated, even a group that would throw. */
  lemma FalseRootSkipsGroups(f: Filter, u: UserRecord, o: Oracles)
    requires f.isActive == Some(true)
    requires ConditionsVerdict(f.conditions, u, o) == Ok(false)
    ensures FilterVerdict(Some(f), u, o) == Ok(false)
  {
  }

  // ---------------------------------------------------------------------
  // The condition fold

  /** The last operator written on items 0..n-1, AND when none is. */
  function LastExplicit(ops: seq<Option<LogicalOperator>>, n: nat): LogicalOperator
    requires n <= |ops|
  {
    if n == 0 then AND
    else match ops[n - 1]
      case Some(op) => op
      case None => LastExplicit(ops, n - 1)
  }

  /** The carried operator is always the last one written so far, AND when none is. */
  lemma {:induction false} CarriedIsLastExplicit(vs: seq<Verdict>, ops: seq<Option<LogicalOperator>>, n: nat)
    requires 1 <= n <= |vs| == |ops|
    requires Fold(vs, ops, n).Ok?
    ensures Fold(vs, ops, n).value.1 == LastExplicit(ops, n)
  {
    if n > 1 {
      CarriedIsLastExplicit(vs, ops, n - 1);
    }
  }

  /** Every item of vs[..n] has a verdict. */
  predicate AllOk(vs: seq<Verdict>, n: nat)
    requires n <= |vs|
  {
    forall k :: 0 <= k < n ==> vs[k].Ok?
  }

  /**
   * Reference reading of the fold without a carried variable: item 0 starts,
   * and each item i >= 1 joins with the last operator written on items 0..i.
   */
  function ReferenceFold(vs: seq<Verdict>, ops: seq<Option<LogicalOperator>>, n: nat): bool
    requires 1 <= n <= |vs| == |ops|
    requires AllOk(vs, n)
  {
    if n == 1 then vs[0].value
    else Join(LastExplicit(ops, n), ReferenceFold(vs, ops, n - 1), vs[n - 1].value)
  }

  /** The fold with its carried operator computes the reference reading. */
  lemma {:induction false} FoldMatchesReference(vs: seq<Verdict>, ops: seq<Option<LogicalOperator>>, n: nat)
    requires 1 <= n <= |vs| == |ops|
    requires AllOk(vs, n)
    ensures Fold(vs, ops, n) == Ok((ReferenceFold(vs, ops, n), LastExplicit(ops, n)))
  {
    if n > 1 {
      FoldMatchesReference(vs, ops, n - 1);
    }
  }

  /** The fold throws exactly when one of the folded items throws. */
  lemma {:induction false} FoldFailsIff(vs: seq<Verdict>, ops: seq<Option<LogicalOperator>>, n: nat)
    requires 1 <= n <= |vs| == |ops|
    ensures Fold(vs, ops, n).Err? <==> exists k :: 0 <= k < n && vs[k].Err?
  {
    if n > 1 {
      FoldFailsIff(vs, ops, n - 1);
      if Fold(vs, ops, n - 1).Err? {
        var k :| 0 <= k < n - 1 && vs[k].Err?;
        assert 0 <= k < n && vs[k].Err?;
      } else if vs[n - 1].Err? {
        assert 0 <= n - 1 < n && vs[n - 1].Err?;
      }
    } else if vs[0].Err? {
      assert 0 <= 0 < n && vs[0].Err?;
    }
  }

  /** The condition list of a filter or group throws exactly when one of its conditions throws. */
  lemma ConditionsFailIff(cs: seq<Condition>, u: UserRecord, o: Oracles)
    ensures ConditionsVerdict(Some(cs), u, o).Err? <==> exists k :: 0 <= k < |cs| && ConditionVerdict(cs[k], u, o).Err?
  {
    if |cs| > 0 {
      var vs := Verdicts(cs, u, o);
      FoldFailsIff(vs, Operators(cs), |cs|);
      if exists k :: 0 <= k < |cs| && ConditionVerdict(cs[k], u, o).Err? {
        var k :| 0 <= k < |cs| && ConditionVerdict(cs[k], u, o).Err?;
        assert vs[k].Err?;
      }
    }
  }

  lemma {:induction false} NoOrLastExplicitIsAnd(ops: seq<Option<LogicalOperator>>, n: nat)
    requires n <= |ops|
    requires forall k :: 0 <= k < n ==> ops[k] != Some(OR)
    ensures LastExplicit(ops, n) == AND
  {
    if n > 0 {
      NoOrLastExplicitIsAnd(ops, n - 1);
    }
  }

  /** With no OR anywhere, the fold is the conjunction of all verdicts. */
  lemma {:induction false} NoOrIsConjunction(vs: seq<Verdict>, ops: seq<Option<LogicalOperator>>, n: nat)
    requires 1 <= n <= |vs| == |ops|
    requires AllOk(vs, n)
    requires forall k :: 0 <= k < n ==> ops[k] != Some(OR)
    ensures Fold(vs, ops, n).Ok?
    ensures Fold(vs, ops, n).value.0 <==> forall k :: 0 <= k < n ==> vs[k] == Ok(true)
  {
    FoldMatchesReference(vs, ops, n);
    if n > 1 {
      NoOrIsConjunction(vs, ops, n - 1);
      NoOrLastExplicitIsAnd(ops, n);
    }
  }

  /** A condition list with no OR operator holds exactly when every condition holds. */
  lemma ConditionsNoOrIsConjunction(cs: seq<Condition>, u: UserRecord, o: Oracles)
    requires forall k :: 0 <= k < |cs| ==> ConditionVerdict(cs[k], u, o).Ok?
    requires forall k :: 0 <= k < |cs| ==> cs[k].logicalOperator != Some(OR)
    ensures ConditionsVerdict(Some(cs), u, o) == Ok(forall k :: 0 <= k < |cs| ==> ConditionVerdict(cs[k], u, o) == Ok(true))
  {
    if |cs| > 0 {
      var vs := Verdicts(cs, u, o);
      NoOrIsConjunction(vs, Operators(cs), |cs|);
    }
  }

  /** Some item of vs[..n] is true. */
  predicate SomeHolds(vs: seq<Verdict>, n: nat)
    requires n <= |vs|
  {
    exists k :: 0 <= k < n && vs[k] == Ok(true)
  }

  lemma {:induction false} ReferenceOrChain(vs: seq<Verdict>, ops: seq<Option<LogicalOperator>>, n: nat)
    requires 1 <= n <= |vs| == |ops|
    requires AllOk(vs, n)
    requires forall k :: 2 <= k <= n ==> LastExplicit(ops, k) == OR
    ensures ReferenceFold(vs, ops, n) <==> SomeHolds(vs, n)
  {
    if n > 1 {
      ReferenceOrChain(vs, ops, n - 1);
      assert ReferenceFold(vs, ops, n) == (ReferenceFold(vs, ops, n - 1) || vs[n - 1].value);
      if SomeHolds(vs, n) && !SomeHolds(vs, n - 1) {
        var k :| 0 <= k < n && vs[k] == Ok(true);
        assert k == n - 1;
      }
      if vs[n - 1] == Ok(true) {
        assert 0 <= n - 1 < n && vs[n - 1] == Ok(true);
      }
    } else if vs[0] == Ok(true) {
      assert 0 <= 0 < n && vs[0] == Ok(true);
    }
  }

  /** When every later item joins by OR (written or carried), the fold is the disjunction of all verdicts. */
  lemma OrChainIsDisjunction(vs: seq<Verdict>, ops: seq<Option<LogicalOperator>>, n: nat)
    requires 1 <= n <= |vs| == |ops|
    requires AllOk(vs, n)
    requires forall k :: 2 <= k <= n ==> LastExplicit(ops, k) == OR
    ensures Fold(vs, ops, n).Ok?
    ensures Fold(vs, ops, n).value.0 <==> SomeHolds(vs, n)
  {
    FoldMatchesReference(vs, ops, n);
    ReferenceOrChain(vs, ops, n);
  }

  /** A condition list in which every later condition joins by OR, written or carried, holds exactly when some condition holds. */
  lemma ConditionsOrChainIsDisjunction(cs: seq<Condition>, u: UserRecord, o: Oracles)
    requires |cs| >= 1
    requires forall k :: 0 <= k < |cs| ==> ConditionVerdict(cs[k], u, o).Ok?
    requires forall k :: 2 <= k <= |cs| ==> LastExplicit(Operators(cs), k) == OR
    ensures ConditionsVerdict(Some(cs), u, o) == Ok(exists k :: 0 <= k < |cs| && ConditionVerdict(cs[k], u, o) == Ok(true))
  {
    var vs := Verdicts(cs, u, o);
    OrChainIsDisjunction(vs, Operators(cs), |cs|);
    if exists k :: 0 <= k < |cs| && ConditionVerdict(cs[k], u, o) == Ok(true) {
      var k :| 0 <= k < |cs| && ConditionVerdict(cs[k], u, o) == Ok(true);
      assert vs[k] == Ok(true);
    }
  }

  /** [A, B(OR), C(no operator)]: C reuses B's OR, giving (A || B) || C. */
  lemma CarriedOrExample(a: Condition, b: Condition, c: Condition, u: UserRecord, o: Oracles)
    requires b.logicalOperator == Some(OR) && c.logicalOperator.None?
    requires ConditionVerdict(a, u, o).Ok? && ConditionVerdict(b, u, o).Ok? && ConditionVerdict(c, u, o).Ok?
    ensures ConditionsVerdict(Some([a, b, c]), u, o)
         == Ok((ConditionVerdict(a, u, o).value || ConditionVerdict(b, u, o).value) || ConditionVerdict(c, u, o).value)
  {
    var cs := [a, b, c];
    var vs, ops := Verdicts(cs, u, o), Operators(cs);
    assert vs[0] == ConditionVerdict(a, u, o) && vs[1] == ConditionVerdict(b, u, o) && vs[2] == ConditionVerdict(c, u, o);
    assert ops[1] == Some(OR) && ops[2] == None;
    assert Fold(vs, ops, 2) == Ok((ConditionVerdict(a, u, o).value || ConditionVerdict(b, u, o).value, OR));
  }

  /** A missing operator on item 0 folds as AND. */
  lemma {:induction false} FirstNullOperatorFoldsAsAnd(vs: seq<Verdict>, ops: seq<Option<LogicalOperator>>, n: nat)
    requires 1 <= n <= |vs| == |ops|
    requires ops[0].None?
    ensures Fold(vs, ops, n) == Fold(vs, ops[0 := Some(AND)], n)
  {
    if n > 1 {
      FirstNullOperatorFoldsAsAnd(vs, ops, n - 1);
    }
  }

  /** A missing operator on condition 0 reads as AND: only the carry sees condition 0's operator. */
  lemma FirstNullOperatorIsAnd(cs: seq<Condition>, u: UserRecord, o: Oracles)
    requires |cs| >= 1 && cs[0].logicalOperator.None?
    ensures ConditionsVerdict(Some(cs), u, o) == ConditionsVerdict(Some(cs[0 := cs[0].(logicalOperator := Some(AND))]), u, o)
  {
    var ds := cs[0 := cs[0].(logicalOperator := Some(AND))];
    assert ConditionVerdict(ds[0], u, o) == ConditionVerdict(cs[0], u, o);
    assert Verdicts(ds, u, o) == Verdicts(cs, u, o);
    assert Operators(ds) == Operators(cs)[0 := Some(AND)];
    FirstNullOperatorFoldsAsAnd(Verdicts(cs, u, o), Operators(cs), |cs|);
  }

  // ---------------------------------------------------------------------
  // The group fold

  /** Group 0's operator is never read. */
  lemma {:induction false} FirstGroupOperatorUnread(vs: seq<Verdict>, ops: seq<Option<LogicalOperator>>, op: Option<LogicalOperator>, n: nat)
    requires 1 <= n <= |vs| == |ops|
    ensures GroupFold(vs, ops, n) == GroupFold(vs, ops[0 := op], n)
  {
    if n > 1 {
      FirstGroupOperatorUnread(vs, ops, op, n - 1);
    }
  }

  /** The first group's operator makes no difference to the verdict of the groups. */
  lemma FirstGroupOperatorIgnored(gs: seq<Group>, op: Option<LogicalOperator>, u: UserRecord, o: Oracles)
    requires |gs| >= 1
    ensures GroupsVerdict(Some(gs), u, o) == GroupsVerdict(Some(gs[0 := gs[0].(logicalOperator := op)]), u, o)
  {
    var hs := gs[0 := gs[0].(logicalOperator := op)];
    assert GroupVerdicts(hs, u, o) == GroupVerdicts(gs, u, o);
    assert GroupOperators(hs) == GroupOperators(gs)[0 := op];
    FirstGroupOperatorUnread(GroupVerdicts(gs, u, o), GroupOperators(gs), op, |gs|);
  }

  /** The group fold throws exactly when one of the folded groups throws. */
  lemma {:induction false} GroupFoldFailsIff(vs: seq<Verdict>, ops: seq<Option<LogicalOperator>>, n: nat)
    requires 1 <= n <= |vs| == |ops|
    ensures GroupFold(vs, ops, n).Err? <==> exists k :: 0 <= k < n && vs[k].Err?
  {
    if n > 1 {
      GroupFoldFailsIff(vs, ops, n - 1);
      if GroupFold(vs, ops, n - 1).Err? {
        var k :| 0 <= k < n - 1 && vs[k].Err?;
        assert 0 <= k < n && vs[k].Err?;
      } else if vs[n - 1].Err? {
        assert 0 <= n - 1 < n && vs[n - 1].Err?;
      }
    } else if vs[0].Err? {
      assert 0 <= 0 < n && vs[0].Err?;
    }
  }

  /** The groups throw exactly when the condition block of one of them throws. */
  lemma GroupsFailIff(gs: seq<Group>, u: UserRecord, o: Oracles)
    ensures GroupsVerdict(Some(gs), u, o).Err? <==> exists k :: 0 <= k < |gs| && ConditionsVerdict(gs[k].conditions, u, o).Err?
  {
    if |gs| > 0 {
      var vs := GroupVerdicts(gs, u, o);
      GroupFoldFailsIff(vs, GroupOperators(gs), |gs|);
      if exists k :: 0 <= k < |gs| && ConditionsVerdict(gs[k].conditions, u, o).Err? {
        var k :| 0 <= k < |gs| && ConditionsVerdict(gs[k].conditions, u, o).Err?;
        assert vs[k].Err?;
      }
    }
  }

  /** With no OR on any later item (a null operator included), the group fold is the conjunction. */
  lemma {:induction false} GroupFoldNoOrIsConjunction(vs: seq<Verdict>, ops: seq<Option<LogicalOperator>>, n: nat)
    requires 1 <= n <= |vs| == |ops|
    requires AllOk(vs, n)
    requires forall k :: 1 <= k < n ==> ops[k] != Some(OR)
    ensures GroupFold(vs, ops, n).Ok?
    ensures GroupFold(vs, ops, n).value <==> forall k :: 0 <= k < n ==> vs[k] == Ok(true)
  {
    if n > 1 {
      GroupFoldNoOrIsConjunction(vs, ops, n - 1);
    }
  }

  /** Groups of which none after the first has OR hold exactly when every group holds. */
  lemma GroupsNoOrIsConjunction(gs: seq<Group>, u: UserRecord, o: Oracles)
    requires forall k :: 0 <= k < |gs| ==> ConditionsVerdict(gs[k].conditions, u, o).Ok?
    requires forall k :: 1 <= k < |gs| ==> gs[k].logicalOperator != Some(OR)
    ensures GroupsVerdict(Some(gs), u, o) == Ok(forall k :: 0 <= k < |gs| ==> ConditionsVerdict(gs[k].conditions, u, o) == Ok(true))
  {
    if |gs| > 0 {
      var vs := GroupVerdicts(gs, u, o);
      GroupFoldNoOrIsConjunction(vs, GroupOperators(gs), |gs|);
    }
  }

  /** With OR on every later item, the group fold is the disjunction. */
  lemma {:induction false} GroupFoldAllOrIsDisjunction(vs: seq<Verdict>, ops: seq<Option<LogicalOperator>>, n: nat)
    requires 1 <= n <= |vs| == |ops|
    requires AllOk(vs, n)
    requires forall k :: 1 <= k < n ==> ops[k] == Some(OR)
    ensures GroupFold(vs, ops, n).Ok?
    ensures GroupFold(vs, ops, n).value <==> SomeHolds(vs, n)
  {
    if n > 1 {
      GroupFoldAllOrIsDisjunction(vs, ops, n - 1);
      if SomeHolds(vs, n) && !SomeHolds(vs, n - 1) {
        var k :| 0 <= k < n && vs[k] == Ok(true);
        assert k == n - 1;
      }
      if vs[n - 1] == Ok(true) {
        assert 0 <= n - 1 < n && vs[n - 1] == Ok(true);
      }
    } else if vs[0] == Ok(true) {
      assert 0 <= 0 < n && vs[0] == Ok(true);
    }
  }

  /** Groups of which every one after the first has OR hold exactly when some group holds. */
  lemma GroupsAllOrIsDisjunction(gs: seq<Group>, u: UserRecord, o: Oracles)
    requires |gs| >= 1
    requires forall k :: 0 <= k < |gs| ==> ConditionsVerdict(gs[k].conditions, u, o).Ok?
    requires forall k :: 1 <= k < |gs| ==> gs[k].logicalOperator == Some(OR)
    ensures GroupsVerdict(Some(gs), u, o) == Ok(exists k :: 0 <= k < |gs| && ConditionsVerdict(gs[k].conditions, u, o) == Ok(true))
  {
    var vs := GroupVerdicts(gs, u, o);
    GroupFoldAllOrIsDisjunction(vs, GroupOperators(gs), |gs|);
    if exists k :: 0 <= k < |gs| && ConditionsVerdict(gs[k].conditions, u, o) == Ok(true) {
      var k :| 0 <= k < |gs| && ConditionsVerdict(gs[k].conditions, u, o) == Ok(true);
      assert vs[k] == Ok(true);
    }
  }

  // ---------------------------------------------------------------------
  // Single conditions

  /** An ordinary (not distribution-file) condition whose field type is set. */
  predicate Ordinary(c: Condition) {
    c.fieldType.Some? && c.fieldType.value != DISTRIBUTION_GROUPS_FILE
  }

  /** A missing record value satisfies IS_NULL only; a missing condition value then satisfies IS_NOT_NULL only. */
  lemma NullChecks(c: Condition, u: UserRecord, o: Oracles)
    requires Ordinary(c)
    ensures TypeValue(u, c.fieldType.value).None?
            ==> ConditionVerdict(c, u, o) == Ok(c.operator == Some(IS_NULL))
    ensures TypeValue(u, c.fieldType.value).Some? && c.fieldValue.None?
            ==> ConditionVerdict(c, u, o) == Ok(c.operator == Some(IS_NOT_NULL))
  {
  }

  /** IS_NOT_NULL is always the exact negation of IS_NULL. */
  lemma IsNotNullNegatesIsNull(c: Condition, u: UserRecord, o: Oracles)
    requires Ordinary(c)
    ensures ConditionVerdict(c.(operator := Some(IS_NULL)), u, o).Ok?
    ensures ConditionVerdict(c.(operator := Some(IS_NOT_NULL)), u, o)
         == Ok(!ConditionVerdict(c.(operator := Some(IS_NULL)), u, o).value)
  {
  }

  /** The operator pairs that are each other's negation once both values are present. */
  predicate NegationPair(pos: FilterOperator, neg: FilterOperator) {
    (pos == EQUAL && neg == NOT_EQUAL) || (pos == CONTAINS && neg == NOT_CONTAINS) ||
    (pos == IN && neg == NOT_IN) || (pos == LESS_THAN && neg == GREATER_THAN_OR_EQUAL) ||
    (pos == GREATER_THAN && neg == LESS_THAN_OR_EQUAL)
  }

  /** NOT_EQUAL, NOT_CONTAINS, NOT_IN, >= and <= negate EQUAL, CONTAINS, IN, < and > when both values are present. */
  lemma NegatedOperators(c: Condition, pos: FilterOperator, neg: FilterOperator, u: UserRecord, o: Oracles)
    requires Ordinary(c) && NegationPair(pos, neg)
    requires TypeValue(u, c.fieldType.value).Some? && c.fieldValue.Some?
    ensures ConditionVerdict(c.(operator := Some(pos)), u, o).Ok?
    ensures ConditionVerdict(c.(operator := Some(neg)), u, o) == Ok(!ConditionVerdict(c.(operator := Some(pos)), u, o).value)
  {
  }

  /** A missing record value makes both a test and its negation false: the pairs negate only when both values are present. */
  lemma MissingValueFailsBoth(c: Condition, pos: FilterOperator, neg: FilterOperator, u: UserRecord, o: Oracles)
    requires Ordinary(c) && NegationPair(pos, neg)
    requires TypeValue(u, c.fieldType.value).None?
    ensures ConditionVerdict(c.(operator := Some(pos)), u, o) == Ok(false)
    ensures ConditionVerdict(c.(operator := Some(neg)), u, o) == Ok(false)
  {
  }

  /** Under Java's Double facts, a > b on a condition is b < a with the values swapped. */
  lemma GreaterIsSwappedLess(a: string, b: string, o: Oracles)
    requires JavaDoubles(o)
    ensures Holds(GREATER_THAN, a, b, o) == Holds(LESS_THAN, b, a, o)
    ensures Holds(GREATER_THAN_OR_EQUAL, a, b, o) == Holds(LESS_THAN_OR_EQUAL, b, a, o)
  {
    CompareNumericAntisymmetric(a, b, o);
  }

  /** A list without commas is one token: IN is then equality with the trimmed list. */
  lemma InSingleToken(value: string, list: string)
    requires ',' !in list
    ensures InList(value, list) <==> value == Trim(list)
  {
    assert Split(list) == [list];
  }

  /** Tokens are trimmed but the record value is not: a value with surrounding blanks is never IN a list. */
  lemma InNeedsTrimmedValue(value: string, list: string)
    requires |value| > 0 && (IsTrimmable(value[0]) || IsTrimmable(value[|value| - 1]))
    ensures !InList(value, list)
  {
    forall t | t in Split(list) ensures value != Trim(t) {
      TrimShape(t);
    }
  }

  /** Every character of s is a decimal digit. */
  predicate IsDigits(s: string) {
    forall i :: 0 <= i < |s| ==> '0' <= s[i] <= '9'
  }

  /** The three comma-free tokens of a JSON array of three strings. */
  lemma SplitJsonArray(t1: string, t2: string, t3: string)
    requires ',' !in t1 && ',' !in t2 && ',' !in t3 && t3 != ""
    ensures Split(t1 + "," + t2 + "," + t3) == [t1, t2, t3]
  {
    var list := t1 + "," + t2 + "," + t3;
    assert list == t1 + "," + (t2 + "," + t3);
    PiecesOfJoin(t1, t2 + "," + t3);
    PiecesOfJoin(t2, t3);
    PiecesOfPlain(t3);
    assert list[|t1|] == ',';
  }

  /** A digit string contains no comma and no quote. */
  lemma DigitsHaveNoPunctuation(s: string)
    requires IsDigits(s)
    ensures ',' !in s && '"' !in s
  {
  }

  /**
   * IN takes the list literally: in a JSON array of numeric strings the
   * brackets and quotes stay inside the tokens, so no number is IN it.
   */
  lemma JsonArrayIsNotAList(a: string, b: string, c: string, value: string)
    requires IsDigits(a) && IsDigits(b) && IsDigits(c) && IsDigits(value)
    ensures !InList(value, "[\"" + a + "\",\"" + b + "\",\"" + c + "\"]")
  {
    var t1, t2, t3 := "[\"" + a + "\"", "\"" + b + "\"", "\"" + c + "\"]";
    DigitsHaveNoPunctuation(a);
    DigitsHaveNoPunctuation(b);
    DigitsHaveNoPunctuation(c);
    DigitsHaveNoPunctuation(value);
    SplitJsonArray(t1, t2, t3);
    assert "[\"" + a + "\",\"" + b + "\",\"" + c + "\"]" == t1 + "," + t2 + "," + t3;
    TrimOfTrimmed(t1);
    TrimOfTrimmed(t2);
    TrimOfTrimmed(t3);
    assert t1[1] == '"' && t2[0] == '"' && t3[0] == '"';
  }

  lemma PiecesOfPlain(s: string)
    requires ',' !in s
    ensures Pieces(s) == [s]
    decreases |s|
  {
    if |s| > 0 {
      PiecesOfPlain(s[1..]);
      assert s == [s[0]] + s[1..];
    }
  }

  lemma {:induction false} PiecesOfJoin(a: string, b: string)
    requires ',' !in a
    ensures Pieces(a + "," + b) == [a] + Pieces(b)
    decreases |a|
  {
    if |a| == 0 {
      assert a + "," + b == [','] + b;
      assert (a + "," + b)[1..] == b;
    } else {
      PiecesOfJoin(a[1..], b);
      assert (a + "," + b)[1..] == a[1..] + "," + b;
      assert [a[0]] + a[1..] == a;
    }
  }

  /** A distribution-file condition: false without an smid, a file lookup for IN and NOT_IN, false for every other operator. */
  lemma DistributionCases(c: Condition, u: UserRecord, o: Oracles)
    requires c.fieldType == Some(DISTRIBUTION_GROUPS_FILE)
    ensures u.smid.None? ==> ConditionVerdict(c, u, o) == Ok(false)
    ensures u.smid.Some? && c.operator == Some(IN) ==> ConditionVerdict(c, u, o) == Ok(o.existsInFile(u.smid.value, c.fieldValue))
    ensures u.smid.Some? && c.operator == Some(NOT_IN) ==> ConditionVerdict(c, u, o) == Ok(!o.existsInFile(u.smid.value, c.fieldValue))
    ensures u.smid.Some? && c.operator.Some? && c.operator.value != IN && c.operator.value != NOT_IN
            ==> ConditionVerdict(c, u, o) == Ok(false)
  {
  }

  /** A condition throws exactly when its field type is null, or its operator is null where the switch reads it. */
  lemma ConditionFailsIff(c: Condition, u: UserRecord, o: Oracles)
    ensures ConditionVerdict(c, u, o).Err? <==>
      c.fieldType.None? ||
      (c.operator.None? &&
        (if c.fieldType.value == DISTRIBUTION_GROUPS_FILE then u.smid.Some?
         else TypeValue(u, c.fieldType.value).Some? && c.fieldValue.Some?))
  {
  }
}
