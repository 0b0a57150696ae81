/**
 * HeraclesToFilterMapper: rebuilds a filter DTO from the flat keys of a
 * Heracles container. Every read is getValueDef(key, default) followed by
 * the cast the assignment implies, so a value of the wrong type is a
 * ClassCastException and a null count is a NullPointerException when it is
 * compared with 0. The spec functions state what each step yields on a
 * container's state; the methods build the DTOs with their setters and are
 * proved to agree with them.
 */
module HeraclesToFilter {
  import opened Wrappers
  import opened JavaStrings
  import opened FilterFieldTypes
  import opened FilterOperators
  import opened LogicalOperators
  import opened FilterConditions
  import opened FilterGroups
  import opened MarketingTargetFilters
  import opened HeraclesContainer
  import opened FilterToHeracles
  import UserRequests
  import FilterEvaluation
  import FilterService

  // ---------------------------------------------------------------------
  // Typed reads

  /** getValueDef(key, null) assigned to a Long. */
  function ReadLong(c: Container, key: string): (r: Result<Option<int>, Fault>)
    ensures c.error.Some? ==> r == Err(PanteonException(c.error.value))
    ensures c.error.None? && (key !in c.values || c.values[key] == Null) ==> r == Ok(None)
    ensures r.Ok? && r.value.Some? ==> key in c.values && c.values[key] == LongValue(r.value.value)
  {
    var v :- c.GetValueDef(key, Null);
    match v
    case Null => Ok(None)
    case LongValue(x) => Ok(Some(x))
    case _ => Err(ClassCastException)
  }

  /** getValueDef(key, null) assigned to an Integer. */
  function ReadInt(c: Container, key: string): (r: Result<Option<int>, Fault>)
    ensures c.error.Some? ==> r == Err(PanteonException(c.error.value))
    ensures c.error.None? && (key !in c.values || c.values[key] == Null) ==> r == Ok(None)
    ensures r.Ok? && r.value.Some? ==> key in c.values && c.values[key] == IntValue(r.value.value)
  {
    var v :- c.GetValueDef(key, Null);
    match v
    case Null => Ok(None)
    case IntValue(x) => Ok(Some(x))
    case _ => Err(ClassCastException)
  }

  /** getValueDef(key, null) assigned to a String. */
  function ReadText(c: Container, key: string): (r: Result<Option<string>, Fault>)
    ensures c.error.Some? ==> r == Err(PanteonException(c.error.value))
    ensures c.error.None? && (key !in c.values || c.values[key] == Null) ==> r == Ok(None)
    ensures r.Ok? && r.value.Some? ==> key in c.values && c.values[key] == Text(r.value.value)
  {
    var v :- c.GetValueDef(key, Null);
    match v
    case Null => Ok(None)
    case Text(s) => Ok(Some(s))
    case _ => Err(ClassCastException)
  }

  /** getValueDef(key, null) assigned to a Boolean. */
  function ReadBool(c: Container, key: string): (r: Result<Option<bool>, Fault>)
    ensures c.error.Some? ==> r == Err(PanteonException(c.error.value))
    ensures c.error.None? && (key !in c.values || c.values[key] == Null) ==> r == Ok(None)
    ensures r.Ok? && r.value.Some? ==> key in c.values && c.values[key] == BoolValue(r.value.value)
  {
    var v :- c.GetValueDef(key, Null);
    match v
    case Null => Ok(None)
    case BoolValue(b) => Ok(Some(b))
    case _ => Err(ClassCastException)
  }

  /**
   * getValueDef(key, 0) assigned to an Integer and compared with 0: an absent
   * key counts 0, and a stored null is unboxed and throws.
   */
  function ReadCount(c: Container, key: string): (r: Result<int, Fault>)
    ensures c.error.Some? ==> r == Err(PanteonException(c.error.value))
    ensures c.error.None? && key !in c.values ==> r == Ok(0)
    ensures c.error.None? && key in c.values && c.values[key] == Null ==> r == Err(NullPointerException)
    ensures r.Ok? && key in c.values ==> c.values[key] == IntValue(r.value)
  {
    var v :- c.GetValueDef(key, IntValue(0));
    match v
    case IntValue(n) => Ok(n)
    case Null => Err(NullPointerException)
    case _ => Err(ClassCastException)
  }

  /** valueOf inside its try/catch: a null name sets nothing, an unknown one sets null. */
  function DecodeFieldType(s: Option<string>): Option<FilterFieldType> {
    if s.Some? then FilterFieldTypes.ValueOf(s.value) else None
  }

  function DecodeOperator(s: Option<string>): Option<FilterOperator> {
    if s.Some? then FilterOperators.ValueOf(s.value) else None
  }

  function DecodeLogicalOperator(s: Option<string>): Option<LogicalOperator> {
    if s.Some? then LogicalOperators.ValueOf(s.value) else None
  }

  // ---------------------------------------------------------------------
  // What unpack yields

  /**
   * unpackCondition(heracles, prefix): null when neither prefix + "id" nor
   * prefix + "fieldType" is present; otherwise the seven fields, read in the
   * order the source reads them, so the first failing read is the one raised.
   */
  function UnpackedCondition(c: Container, prefix: string): (r: Result<Option<Condition>, Fault>)
    ensures r == Ok(None) <==> !c.HasValue(prefix + "id") && !c.HasValue(prefix + "fieldType")
  {
    if !c.HasValue(prefix + "id") && !c.HasValue(prefix + "fieldType") then Ok(None)
    else
      var id :- ReadLong(c, prefix + "id");
      var groupId :- ReadLong(c, prefix + "groupId");
      var fieldType :- ReadText(c, prefix + "fieldType");
      var operator :- ReadText(c, prefix + "operator");
      var logicalOperator :- ReadText(c, prefix + "logicalOperator");
      var fieldValue :- ReadText(c, prefix + "fieldValue");
      var orderIndex :- ReadInt(c, prefix + "orderIndex");
      Ok(Some(Condition(id, groupId, DecodeFieldType(fieldType), DecodeOperator(operator), fieldValue,
                        DecodeLogicalOperator(logicalOperator), orderIndex)))
  }

  /** The condition loop over slots 0 to n - 1 of the list whose keys start with p; skipped slots add nothing. */
  function UnpackedConditions(c: Container, p: string, n: nat): (r: Result<seq<Condition>, Fault>)
    ensures r.Ok? ==> |r.value| <= n
  {
    if n == 0 then Ok([])
    else
      var conditions :- UnpackedConditions(c, p, n - 1);
      var condition :- UnpackedCondition(c, p + "condition_" + NatStr(n - 1) + "_");
      Ok(if condition.Some? then conditions + [condition.value] else conditions)
  }

  /** A condition list: rebuilt only when p + "conditions_count" is positive, null otherwise. */
  function UnpackedConditionList(c: Container, p: string): (r: Result<Option<seq<Condition>>, Fault>)
    ensures r.Ok? && r.value.Some? ==> p + "conditions_count" in c.values
  {
    var count :- ReadCount(c, p + "conditions_count");
    if count > 0 then
      var conditions :- UnpackedConditions(c, p, count);
      Ok(Some(conditions))
    else Ok(None)
  }

  /**
   * unpackGroup(heracles, prefix): null when neither prefix + "id" nor
   * prefix + "name" is present; otherwise its four fields, then its conditions.
   */
  function UnpackedGroup(c: Container, prefix: string): (r: Result<Option<Group>, Fault>)
    ensures r == Ok(None) <==> !c.HasValue(prefix + "id") && !c.HasValue(prefix + "name")
  {
    if !c.HasValue(prefix + "id") && !c.HasValue(prefix + "name") then Ok(None)
    else
      var id :- ReadLong(c, prefix + "id");
      var name :- ReadText(c, prefix + "name");
      var orderIndex :- ReadInt(c, prefix + "orderIndex");
      var logicalOperator :- ReadText(c, prefix + "logicalOperator");
      var conditions :- UnpackedConditionList(c, prefix);
      Ok(Some(Group(id, name, DecodeLogicalOperator(logicalOperator), orderIndex, conditions)))
  }

  /** The group loop over slots 0 to n - 1; skipped slots add nothing. */
  function UnpackedGroups(c: Container, n: nat): (r: Result<seq<Group>, Fault>)
    ensures r.Ok? ==> |r.value| <= n
  {
    if n == 0 then Ok([])
    else
      var groups :- UnpackedGroups(c, n - 1);
      var group :- UnpackedGroup(c, GroupPrefix(n - 1));
      Ok(if group.Some? then groups + [group.value] else groups)
  }

  /** The group list: rebuilt only when "groups_count" is positive, null otherwise. */
  function UnpackedGroupList(c: Container): (r: Result<Option<seq<Group>>, Fault>)
    ensures r.Ok? && r.value.Some? ==> "groups_count" in c.values
  {
    var count :- ReadCount(c, "groups_count");
    if count > 0 then
      var groups :- UnpackedGroups(c, count);
      Ok(Some(groups))
    else Ok(None)
  }

  /** unpack(heracles): null for a null or empty container; otherwise the filter fields, the conditions, the groups. */
  function Unpacked(h: Option<Container>): (r: Result<Option<Filter>, Fault>)
    ensures h.None? || h.value.IsEmpty() ==> r == Ok(None)
    ensures h.Some? && !h.value.IsEmpty() && h.value.error.Some? ==> r == Err(PanteonException(h.value.error.value))
    ensures r.Ok? && r.value.Some? ==> h.Some? && !h.value.IsEmpty() && h.value.error.None?
  {
    if h.None? || h.value.IsEmpty() then Ok(None)
    else
      var c := h.value;
      var id :- ReadLong(c, "filter_id");
      var marketingTargetId :- ReadLong(c, "filter_marketingTargetId");
      var name :- ReadText(c, "filter_name");
      var description :- ReadText(c, "filter_description");
      var isActive :- ReadBool(c, "filter_isActive");
      var conditions :- UnpackedConditionList(c, "");
      var groups :- UnpackedGroupList(c);
      Ok(Some(Filter(id, marketingTargetId, name, description, isActive, conditions, groups)))
  }

  /** getCommand(heracles): the "command" value, null when absent; a null container throws. */
  function GetCommand(h: Option<Container>): (r: Result<Option<string>, Fault>)
    ensures h.None? ==> r == Err(NullPointerException)
    ensures h.Some? && h.value.error.None? && "command" !in h.value.values ==> r == Ok(None)
    ensures r.Ok? && r.value.Some? ==> h.Some? && "command" in h.value.values && h.value.values["command"] == Text(r.value.value)
  {
    if h.None? then Err(NullPointerException) else ReadText(h.value, "command")
  }

  /** hasFilterData(heracles): a non-null container holding one of the four keys pack always writes. */
  predicate HasFilterData(h: Option<Container>): (r: bool)
    ensures r ==> h.Some? && !h.value.IsEmpty()
    ensures h.Some? && h.value.GetValueSafe("conditions_count").Ok? ==> r
  {
    h.Some? &&
    (h.value.HasValue("filter_name") || h.value.HasValue("filter_id") ||
     h.value.HasValue("conditions_count") || h.value.HasValue("groups_count"))
  }

  // ---------------------------------------------------------------------
  // The mapper

  /** unpackCondition: a fresh condition bean filled by its setters. */
  method UnpackCondition(h: Heracles, prefix: string) returns (r: Result<Option<Condition>, Fault>)
    ensures r == UnpackedCondition(h.Snapshot(), prefix)
  {
    var c := h.Snapshot();
    if !c.HasValue(prefix + "id") && !c.HasValue(prefix + "fieldType") {
      return Ok(None);
    }
    var condition := new FilterConditionDto();
    var id := ReadLong(c, prefix + "id");
    if id.Err? {
      return Err(id.error);
    }
    condition.SetId(id.value);
    var groupId := ReadLong(c, prefix + "groupId");
    if groupId.Err? {
      return Err(groupId.error);
    }
    condition.SetGroupId(groupId.value);
    var fieldType := ReadText(c, prefix + "fieldType");
    if fieldType.Err? {
      return Err(fieldType.error);
    }
    if fieldType.value.Some? {
      condition.SetFieldType(FilterFieldTypes.ValueOf(fieldType.value.value));
    }
    var operator := ReadText(c, prefix + "operator");
    if operator.Err? {
      return Err(operator.error);
    }
    if operator.value.Some? {
      condition.SetOperator(FilterOperators.ValueOf(operator.value.value));
    }
    var logicalOperator := ReadText(c, prefix + "logicalOperator");
    if logicalOperator.Err? {
      return Err(logicalOperator.error);
    }
    if logicalOperator.value.Some? {
      condition.SetLogicalOperator(LogicalOperators.ValueOf(logicalOperator.value.value));
    }
    var fieldValue := ReadText(c, prefix + "fieldValue");
    if fieldValue.Err? {
      return Err(fieldValue.error);
    }
    condition.SetFieldValue(fieldValue.value);
    var orderIndex := ReadInt(c, prefix + "orderIndex");
    if orderIndex.Err? {
      return Err(orderIndex.error);
    }
    condition.SetOrderIndex(orderIndex.value);
    return Ok(Some(condition.Value()));
  }

  /** Once slot i raises, the loop over any longer prefix raises the same exception. */
  lemma {:induction false} ConditionFailurePersists(c: Container, p: string, i: nat, n: nat)
    requires i < n
    requires UnpackedConditions(c, p, i).Ok?
    requires UnpackedCondition(c, p + "condition_" + NatStr(i) + "_").Err?
    ensures UnpackedConditions(c, p, n) == Err(UnpackedCondition(c, p + "condition_" + NatStr(i) + "_").error)
  {
    if n > i + 1 {
      ConditionFailurePersists(c, p, i, n - 1);
    }
  }

  /** The count read and the loop of unpack and unpackGroup over a condition list whose keys start with p. */
  method UnpackConditionList(h: Heracles, p: string) returns (r: Result<Option<seq<Condition>>, Fault>)
    ensures r == UnpackedConditionList(h.Snapshot(), p)
  {
    var c := h.Snapshot();
    var count := ReadCount(c, p + "conditions_count");
    if count.Err? {
      return Err(count.error);
    }
    if count.value <= 0 {
      return Ok(None);
    }
    var conditions: seq<Condition> := [];
    var i := 0;
    while i < count.value
      invariant 0 <= i <= count.value
      invariant UnpackedConditions(c, p, i) == Ok(conditions)
    {
      var condition := UnpackCondition(h, p + "condition_" + NatStr(i) + "_");
      if condition.Err? {
        ConditionFailurePersists(c, p, i, count.value);
        return Err(condition.error);
      }
      if condition.value.Some? {
        conditions := conditions + [condition.value.value];
      }
      i := i + 1;
    }
    return Ok(Some(conditions));
  }

  /** unpackGroup: a fresh group bean filled by its setters. */
  method UnpackGroup(h: Heracles, prefix: string) returns (r: Result<Option<Group>, Fault>)
    ensures r == UnpackedGroup(h.Snapshot(), prefix)
  {
    var c := h.Snapshot();
    if !c.HasValue(prefix + "id") && !c.HasValue(prefix + "name") {
      return Ok(None);
    }
    var group := new FilterGroupDto();
    var id := ReadLong(c, prefix + "id");
    if id.Err? {
      return Err(id.error);
    }
    group.SetId(id.value);
    var name := ReadText(c, prefix + "name");
    if name.Err? {
      return Err(name.error);
    }
    group.SetGroupName(name.value);
    var orderIndex := ReadInt(c, prefix + "orderIndex");
    if orderIndex.Err? {
      return Err(orderIndex.error);
    }
    group.SetOrderIndex(orderIndex.value);
    var logicalOperator := ReadText(c, prefix + "logicalOperator");
    if logicalOperator.Err? {
      return Err(logicalOperator.error);
    }
    if logicalOperator.value.Some? {
      group.SetLogicalOperator(LogicalOperators.ValueOf(logicalOperator.value.value));
    }
    var conditions := UnpackConditionList(h, prefix);
    if conditions.Err? {
      return Err(conditions.error);
    }
    if conditions.value.Some? {
      group.SetConditions(conditions.value);
    }
    return Ok(Some(group.Value()));
  }

  lemma {:induction false} GroupFailurePersists(c: Container, i: nat, n: nat)
    requires i < n
    requires UnpackedGroups(c, i).Ok? && UnpackedGroup(c, GroupPrefix(i)).Err?
    ensures UnpackedGroups(c, n) == Err(UnpackedGroup(c, GroupPrefix(i)).error)
  {
    if n > i + 1 {
      GroupFailurePersists(c, i, n - 1);
    }
  }

  /** The count read and the group loop of unpack. */
  method UnpackGroupList(h: Heracles) returns (r: Result<Option<seq<Group>>, Fault>)
    ensures r == UnpackedGroupList(h.Snapshot())
  {
    var c := h.Snapshot();
    var count := ReadCount(c, "groups_count");
    if count.Err? {
      return Err(count.error);
    }
    if count.value <= 0 {
      return Ok(None);
    }
    var groups: seq<Group> := [];
    var i := 0;
    while i < count.value
      invariant 0 <= i <= count.value
      invariant UnpackedGroups(c, i) == Ok(groups)
    {
      var group := UnpackGroup(h, "group_" + NatStr(i) + "_");
      if group.Err? {
        GroupFailurePersists(c, i, count.value);
        return Err(group.error);
      }
      if group.value.Some? {
        groups := groups + [group.value.value];
      }
      i := i + 1;
    }
    return Ok(Some(groups));
  }

  /** unpack: a fresh filter bean filled by its setters, or null. */
  method Unpack(h: Heracles?) returns (r: Result<Option<Filter>, Fault>)
    ensures r == Unpacked(if h == null then None else Some(h.Snapshot()))
  {
    if h == null || h.values == map[] {
      return Ok(None);
    }
    var c := h.Snapshot();
    var filter := new MarketingTargetFilterDto();
    var id := ReadLong(c, "filter_id");
    if id.Err? {
      return Err(id.error);
    }
    filter.SetId(id.value);
    var marketingTargetId := ReadLong(c, "filter_marketingTargetId");
    if marketingTargetId.Err? {
      return Err(marketingTargetId.error);
    }
    filter.SetMarketingTargetId(marketingTargetId.value);
    var name := ReadText(c, "filter_name");
    if name.Err? {
      return Err(name.error);
    }
    filter.SetFilterName(name.value);
    var description := ReadText(c, "filter_description");
    if description.Err? {
      return Err(description.error);
    }
    filter.SetDescription(description.value);
    var isActive := ReadBool(c, "filter_isActive");
    if isActive.Err? {
      return Err(isActive.error);
    }
    filter.SetIsActive(isActive.value);
    var conditions := UnpackConditionList(h, "");
    if conditions.Err? {
      return Err(conditions.error);
    }
    if conditions.value.Some? {
      filter.SetConditions(conditions.value);
    }
    var groups := UnpackGroupList(h);
    if groups.Err? {
      return Err(groups.error);
    }
    if groups.value.Some? {
      filter.SetGroups(groups.value);
    }
    return Ok(Some(filter.Value()));
  }

  // ---------------------------------------------------------------------
  // validateFilter

  /** The two fields validateFilter requires of every condition. */
  predicate Complete(c: Condition) {
    c.fieldType.Some? && c.operator.Some?
  }

  ghost predicate AllComplete(cs: Option<seq<Condition>>) {
    cs.Some? ==> forall k :: 0 <= k < |cs.value| ==> Complete(cs.value[k])
  }

  /** What validateFilter accepts: a filter with a non-blank name whose root and group conditions are all complete. */
  ghost predicate ValidFilter(f: Option<Filter>) {
    f.Some? && !FilterService.IsBlank(f.value.filterName) && AllComplete(f.value.conditions) &&
    (f.value.groups.Some? ==> forall k :: 0 <= k < |f.value.groups.value| ==> AllComplete(f.value.groups.value[k].conditions))
  }

  /** validateFilter: the name check, then the root conditions, then each group's conditions, returning at the first failure. */
  method ValidateFilter(f: Option<Filter>) returns (r: bool)
    ensures r <==> ValidFilter(f)
  {
    if f.None? {
      return false;
    }
    var filter := f.value;
    if filter.filterName.None? || Trim(filter.filterName.value) == "" {
      return false;
    }
    if filter.conditions.Some? {
      var cs := filter.conditions.value;
      var i := 0;
      while i < |cs|
        invariant 0 <= i <= |cs|
        invariant forall k :: 0 <= k < i ==> Complete(cs[k])
      {
        if cs[i].fieldType.None? || cs[i].operator.None? {
          return false;
        }
        i := i + 1;
      }
    }
    if filter.groups.Some? {
      var gs := filter.groups.value;
      var j := 0;
      while j < |gs|
        invariant 0 <= j <= |gs|
        invariant forall k :: 0 <= k < j ==> AllComplete(gs[k].conditions)
      {
        if gs[j].conditions.Some? {
          var cs := gs[j].conditions.value;
          var i := 0;
          while i < |cs|
            invariant 0 <= i <= |cs|
            invariant forall k :: 0 <= k < i ==> Complete(cs[k])
          {
            if cs[i].fieldType.None? || cs[i].operator.None? {
              return false;
            }
            i := i + 1;
          }
        }
        j := j + 1;
      }
    }
    return true;
  }

  /** The evaluator never throws on a filter validateFilter accepts, once its isActive flag is set. */
  lemma ValidFilterEvaluates(f: Filter, u: UserRequests.UserRecord, o: FilterEvaluation.Oracles)
    requires ValidFilter(Some(f)) && f.isActive.Some?
    ensures FilterEvaluation.FilterVerdict(Some(f), u, o).Ok?
  {
    CompleteConditionsEvaluate(f.conditions, u, o);
    if f.groups.Some? {
      var gs := f.groups.value;
      forall k | 0 <= k < |gs| ensures FilterEvaluation.ConditionsVerdict(gs[k].conditions, u, o).Ok? {
        CompleteConditionsEvaluate(gs[k].conditions, u, o);
      }
      FilterEvaluation.GroupsFailIff(gs, u, o);
    }
  }

  lemma CompleteConditionsEvaluate(cs: Option<seq<Condition>>, u: UserRequests.UserRecord, o: FilterEvaluation.Oracles)
    requires AllComplete(cs)
    ensures FilterEvaluation.ConditionsVerdict(cs, u, o).Ok?
  {
    if cs.Some? {
      var s := cs.value;
      forall k | 0 <= k < |s| ensures FilterEvaluation.ConditionVerdict(s[k], u, o).Ok? {
        FilterEvaluation.ConditionFailsIff(s[k], u, o);
      }
      FilterEvaluation.ConditionsFailIff(s, u, o);
    }
  }

  /** A filter validateFilterStructure accepts also passes validateFilter. */
  lemma AcceptedIsValid(f: Filter)
    requires FilterService.StructureIssue(Some(f)).None?
    ensures ValidFilter(Some(f))
  {
    FilterService.AcceptedFilter(f);
    PassingConditionsComplete(f.conditions, FilterService.RootLevel);
    if f.groups.Some? {
      var gs := f.groups.value;
      forall k | 0 <= k < |gs| ensures AllComplete(gs[k].conditions) {
        PassingConditionsComplete(gs[k].conditions, FilterService.InGroup(gs[k].groupName.value));
      }
    }
  }

  lemma PassingConditionsComplete(cs: Option<seq<Condition>>, context: FilterService.Context)
    requires FilterService.ConditionsPass(cs, context)
    ensures AllComplete(cs)
  {
    if cs.Some? {
      forall k | 0 <= k < |cs.value| ensures Complete(cs.value[k]) {
        assert FilterService.ConditionIssue(cs.value[k], k, context).None?;
      }
    }
  }

  /** The converse fails: validateFilter does not ask for a marketing target or for any condition. */
  lemma ValidButNotAccepted()
    ensures var f := EmptyFilter.(filterName := Some("promo"));
      ValidFilter(Some(f)) && FilterService.StructureIssue(Some(f)) == Some(FilterService.TargetRequired)
  {
    assert Trim("promo") == "promo" by {
      TrimShape("promo");
    }
  }

  // ---------------------------------------------------------------------
  // unpack after pack

  /** A list that is null or empty comes back as null; a non-empty one is kept. */
  function NonEmpty<T>(xs: Option<seq<T>>): Option<seq<T>> {
    if xs.Some? && |xs.value| > 0 then xs else None
  }

  function NormalizedGroup(g: Group): Group {
    g.(conditions := NonEmpty(g.conditions))
  }

  function NormalizedGroups(gs: seq<Group>): (r: seq<Group>)
    ensures |r| == |gs| && forall k :: 0 <= k < |gs| ==> r[k] == NormalizedGroup(gs[k])
  {
    seq(|gs|, k requires 0 <= k < |gs| => NormalizedGroup(gs[k]))
  }

  /** What unpack(pack(f)) gives back: f with every empty list, in the filter or in a group, turned into null. */
  function Normalized(f: Filter): Filter {
    f.(conditions := NonEmpty(f.conditions),
       groups := if f.groups.Some? && |f.groups.value| > 0 then Some(NormalizedGroups(f.groups.value)) else None)
  }

  /** The container pack(f) returns: its values, no stored error. */
  function PackedContainer(f: Option<Filter>): Container {
    Container(Packed(f), None)
  }

  /** The conditions list an owner names in f: the root list, or the list of group i. */
  function ListOf(f: Filter, o: Owner): Option<seq<Condition>> {
    match o
    case RootList => f.conditions
    case GroupList(i) => if i < |Items(f.groups)| then Items(f.groups)[i].conditions else None
  }

  /** An owner pack writes a list for: the root, or a group below the groups count. */
  predicate Written(f: Filter, o: Owner) {
    o.GroupList? ==> o.group < |Items(f.groups)|
  }

  /** A container with no stored error holding, under the key of each slot, what the layout of f puts there. */
  ghost predicate HoldsLayout(c: Container, f: Filter) {
    c.error.None? &&
    forall t :: (Key(t) in c.values <==> Layout(f, t).Some?) && (Key(t) in c.values ==> c.values[Key(t)] == Layout(f, t).value)
  }

  /** What pack(f) returns holds the layout of f. */
  lemma PackedHoldsLayout(f: Filter)
    ensures HoldsLayout(PackedContainer(Some(f)), f)
  {
    forall t ensures (Key(t) in Packed(Some(f)) <==> Layout(f, t).Some?) &&
                     (Key(t) in Packed(Some(f)) ==> Packed(Some(f))[Key(t)] == Layout(f, t).value) {
      PackedReads(f, t);
    }
  }

  /** Field cf of condition i of list o, read from a container holding the layout of f. */
  lemma ConditionRead(c: Container, f: Filter, o: Owner, i: nat, cf: ConditionField)
    requires HoldsLayout(c, f) && Written(f, o) && i < |Items(ListOf(f, o))|
    ensures var key := ConditionPrefix(o, i) + ConditionFieldName(cf);
      c.HasValue(key) && c.GetValueDef(key, Null) == Ok(ConditionEntry(Items(ListOf(f, o))[i], cf))
  {
    assert Key(ConditionSlot(o, i, cf)) in c.values <==> Layout(f, ConditionSlot(o, i, cf)).Some?;
  }

  /** Each packed condition unpacks to itself: its keys are present and every enum name reads back. */
  lemma ConditionRoundTrip(c: Container, f: Filter, o: Owner, i: nat)
    requires HoldsLayout(c, f) && Written(f, o) && i < |Items(ListOf(f, o))|
    ensures UnpackedCondition(c, ConditionPrefix(o, i)) == Ok(Some(Items(ListOf(f, o))[i]))
  {
    var cond := Items(ListOf(f, o))[i];
    ConditionEntries(cond);
    ConditionRead(c, f, o, i, CondId);
    ConditionRead(c, f, o, i, CondGroupId);
    ConditionRead(c, f, o, i, CondFieldType);
    ConditionRead(c, f, o, i, CondOperator);
    ConditionRead(c, f, o, i, CondLogicalOperator);
    ConditionRead(c, f, o, i, CondFieldValue);
    ConditionRead(c, f, o, i, CondOrderIndex);
    if cond.fieldType.Some? {
      FilterFieldTypes.ValueOfName(cond.fieldType.value);
    }
    if cond.operator.Some? {
      FilterOperators.ValueOfName(cond.operator.value);
    }
    if cond.logicalOperator.Some? {
      LogicalOperators.ValueOfName(cond.logicalOperator.value);
    }
  }

  /** The loop rebuilds cs when each of the first n slots unpacks to the matching condition of cs. */
  lemma {:induction false} ConditionsFromSlots(c: Container, p: string, cs: seq<Condition>, n: nat)
    requires n <= |cs|
    requires forall i :: 0 <= i < n ==> UnpackedCondition(c, p + "condition_" + NatStr(i) + "_") == Ok(Some(cs[i]))
    ensures UnpackedConditions(c, p, n) == Ok(cs[..n])
  {
    if n > 0 {
      ConditionsFromSlots(c, p, cs, n - 1);
      assert cs[..n - 1] + [cs[n - 1]] == cs[..n];
    }
  }

  /** A packed list comes back with its length and order when it is non-empty, and as null otherwise. */
  lemma ConditionListRoundTrip(c: Container, f: Filter, o: Owner)
    requires HoldsLayout(c, f) && Written(f, o)
    ensures UnpackedConditionList(c, OwnerPrefix(o)) == Ok(NonEmpty(ListOf(f, o)))
  {
    var cs := Items(ListOf(f, o));
    assert Key(ConditionsCount(o)) in c.values;
    forall i | 0 <= i < |cs| ensures UnpackedCondition(c, OwnerPrefix(o) + "condition_" + NatStr(i) + "_") == Ok(Some(cs[i])) {
      ConditionRoundTrip(c, f, o, i);
    }
    ConditionsFromSlots(c, OwnerPrefix(o), cs, |cs|);
    assert cs[..|cs|] == cs;
  }

  /** Field gf of group g, read from a container holding the layout of f. */
  lemma GroupRead(c: Container, f: Filter, g: nat, gf: GroupField)
    requires HoldsLayout(c, f) && g < |Items(f.groups)|
    ensures var key := GroupPrefix(g) + GroupFieldName(gf);
      c.HasValue(key) && c.GetValueDef(key, Null) == Ok(GroupEntry(Items(f.groups)[g], gf))
  {
    assert Key(GroupSlot(g, gf)) in c.values <==> Layout(f, GroupSlot(g, gf)).Some?;
  }

  lemma GroupRoundTrip(c: Container, f: Filter, g: nat)
    requires HoldsLayout(c, f) && g < |Items(f.groups)|
    ensures UnpackedGroup(c, GroupPrefix(g)) == Ok(Some(NormalizedGroup(Items(f.groups)[g])))
  {
    var group := Items(f.groups)[g];
    GroupRead(c, f, g, GroupId);
    GroupRead(c, f, g, GroupName);
    GroupRead(c, f, g, GroupOrderIndex);
    GroupRead(c, f, g, GroupLogicalOperator);
    ConditionListRoundTrip(c, f, GroupList(g));
    if group.logicalOperator.Some? {
      LogicalOperators.ValueOfName(group.logicalOperator.value);
    }
  }

  /** The group loop rebuilds gs when each of the first n slots unpacks to the matching group of gs. */
  lemma {:induction false} GroupsFromSlots(c: Container, gs: seq<Group>, n: nat)
    requires n <= |gs|
    requires forall i :: 0 <= i < n ==> UnpackedGroup(c, GroupPrefix(i)) == Ok(Some(gs[i]))
    ensures UnpackedGroups(c, n) == Ok(gs[..n])
  {
    if n > 0 {
      GroupsFromSlots(c, gs, n - 1);
      assert gs[..n - 1] + [gs[n - 1]] == gs[..n];
    }
  }

  lemma GroupListRoundTrip(c: Container, f: Filter)
    requires HoldsLayout(c, f)
    ensures UnpackedGroupList(c) ==
            Ok(if f.groups.Some? && |f.groups.value| > 0 then Some(NormalizedGroups(f.groups.value)) else None)
  {
    var gs := Items(f.groups);
    assert Key(GroupsCount) in c.values;
    var ns := NormalizedGroups(gs);
    forall i | 0 <= i < |gs| ensures UnpackedGroup(c, GroupPrefix(i)) == Ok(Some(ns[i])) {
      GroupRoundTrip(c, f, i);
    }
    GroupsFromSlots(c, ns, |gs|);
    assert NormalizedGroups(gs)[..|gs|] == NormalizedGroups(gs);
  }

  /** Any container holding the layout of f unpacks to f with its empty lists made null. */
  lemma UnpackLayout(c: Container, f: Filter)
    requires HoldsLayout(c, f)
    ensures Unpacked(Some(c)) == Ok(Some(Normalized(f)))
  {
    assert Key(FilterSlot(FilterId)) in c.values;
    assert Key(FilterSlot(FilterMarketingTargetId)) in c.values;
    assert Key(FilterSlot(FilterName)) in c.values;
    assert Key(FilterSlot(FilterDescription)) in c.values;
    assert Key(FilterSlot(FilterIsActive)) in c.values;
    ConditionListRoundTrip(c, f, RootList);
    GroupListRoundTrip(c, f);
  }

  /**
   * unpack(pack(f)) restores f's own fields, and its lists with their length
   * and order, except that an empty list comes back as null.
   */
  lemma RoundTrip(f: Filter)
    ensures Unpacked(Some(PackedContainer(Some(f)))) == Ok(Some(Normalized(f)))
  {
    PackedHoldsLayout(f);
    UnpackLayout(PackedContainer(Some(f)), f);
  }

  /** unpack(pack(null)) is null, and so is unpack(null). */
  lemma NullRoundTrip()
    ensures Unpacked(Some(PackedContainer(None))) == Ok(None)
    ensures Unpacked(None) == Ok(None)
  {
  }

  /** A filter whose lists are each null or non-empty comes back unchanged. */
  lemma CanonicalRoundTrip(f: Filter)
    requires f.conditions.Some? ==> |f.conditions.value| > 0
    requires f.groups.Some? ==> |f.groups.value| > 0
    requires f.groups.Some? ==> forall k :: 0 <= k < |f.groups.value| ==>
               var cs := f.groups.value[k].conditions; cs.Some? ==> |cs.value| > 0
    ensures Unpacked(Some(PackedContainer(Some(f)))) == Ok(Some(f))
  {
    RoundTrip(f);
    if f.groups.Some? {
      assert NormalizedGroups(f.groups.value) == f.groups.value;
    }
  }

  /** An empty root list is packed with a count of 0 and comes back null. */
  lemma EmptyListComesBackNull(f: Filter)
    requires f.conditions == Some([])
    ensures Unpacked(Some(PackedContainer(Some(f)))).Ok?
    ensures Unpacked(Some(PackedContainer(Some(f)))).value == Some(f.(conditions := None, groups := Normalized(f).groups))
  {
    RoundTrip(f);
  }

  /** unpack(pack(f)) passes validateFilter exactly when f does. */
  lemma ValidityRoundTrips(f: Filter)
    ensures ValidFilter(Some(Normalized(f))) <==> ValidFilter(Some(f))
  {
    if f.groups.Some? && |f.groups.value| > 0 {
      var gs := f.groups.value;
      var ns := NormalizedGroups(gs);
      assert (forall k :: 0 <= k < |ns| ==> AllComplete(ns[k].conditions)) <==>
             (forall k :: 0 <= k < |gs| ==> AllComplete(gs[k].conditions));
    }
  }

  // ---------------------------------------------------------------------
  // Single reads

  /** A present slot is never skipped, and one with neither key adds nothing to the list. */
  lemma SkippedSlot(c: Container, p: string, i: nat)
    requires !c.HasValue(p + "condition_" + NatStr(i) + "_" + "id")
    requires !c.HasValue(p + "condition_" + NatStr(i) + "_" + "fieldType")
    ensures UnpackedConditions(c, p, i + 1) == UnpackedConditions(c, p, i)
  {
  }

  /**
   * A stored enum name decodes to the constant of that name, and to null when
   * no constant has it; a null or absent name leaves the field null.
   */
  lemma EnumNamesDecode(c: Container, prefix: string)
    requires UnpackedCondition(c, prefix).Ok? && UnpackedCondition(c, prefix).value.Some?
    ensures var cond := UnpackedCondition(c, prefix).value.value;
      (cond.fieldType.Some? <==> prefix + "fieldType" in c.values && c.values[prefix + "fieldType"].Text? &&
                                 FilterFieldTypes.ValueOf(c.values[prefix + "fieldType"].text).Some?) &&
      (cond.operator.Some? <==> prefix + "operator" in c.values && c.values[prefix + "operator"].Text? &&
                                FilterOperators.ValueOf(c.values[prefix + "operator"].text).Some?) &&
      (cond.logicalOperator.Some? <==> prefix + "logicalOperator" in c.values && c.values[prefix + "logicalOperator"].Text? &&
                                       LogicalOperators.ValueOf(c.values[prefix + "logicalOperator"].text).Some?)
  {
  }

  /** getCommand reads back what packWithCommand stored, and null after a plain pack. */
  lemma CommandRoundTrip(command: Option<string>, f: Option<Filter>)
    ensures GetCommand(Some(Container(Packed(f)["command" := TextOrNull(command)], None))) == Ok(command)
    ensures GetCommand(Some(PackedContainer(f))) == Ok(None)
  {
    PackedHasNoCommand(f);
  }

  /** A packed container has filter data exactly when a filter was packed. */
  lemma PackedHasFilterData(f: Option<Filter>)
    ensures HasFilterData(Some(PackedContainer(f))) <==> f.Some?
  {
    if f.Some? {
      CountsAlwaysWritten(f.value);
    }
  }
}
