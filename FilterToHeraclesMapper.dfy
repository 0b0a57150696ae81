/**
 * FilterToHeraclesMapper: flattens a filter DTO into a Heracles container,
 * one key per scalar field. A key is a prefix naming the item
 * ("condition_3_", "group_1_", "group_1_condition_0_", or none for the
 * filter's own fields and counts) followed by the field name. Slot names the
 * places a key can denote; Key spells a slot out, and ParseKey reads it back,
 * which shows that different slots never share a key.
 */
module FilterToHeracles {
  import opened Wrappers
  import opened JavaStrings
  import opened FilterFieldTypes
  import opened FilterOperators
  import opened LogicalOperators
  import opened FilterConditions
  import opened FilterGroups
  import opened MarketingTargetFilters
  import opened HeraclesContainer

  // ---------------------------------------------------------------------
  // Keys

  /** The list a condition belongs to: the root list, or the list of group i. */
  datatype Owner = RootList | GroupList(group: nat)

  datatype FilterField = FilterId | FilterMarketingTargetId | FilterName | FilterDescription | FilterIsActive

  datatype ConditionField =
    CondId | CondGroupId | CondFieldType | CondOperator | CondFieldValue | CondLogicalOperator | CondOrderIndex

  datatype GroupField = GroupId | GroupName | GroupLogicalOperator | GroupOrderIndex

  /** Every place pack or packWithCommand writes to. */
  datatype Slot =
    | FilterSlot(filterField: FilterField)
    | ConditionsCount(owner: Owner)
    | ConditionSlot(owner: Owner, index: nat, conditionField: ConditionField)
    | GroupsCount
    | GroupSlot(group: nat, groupField: GroupField)
    | CommandSlot

  function FilterKey(f: FilterField): string {
    match f
    case FilterId => "filter_id"
    case FilterMarketingTargetId => "filter_marketingTargetId"
    case FilterName => "filter_name"
    case FilterDescription => "filter_description"
    case FilterIsActive => "filter_isActive"
  }

  function ConditionFieldName(f: ConditionField): string {
    match f
    case CondId => "id"
    case CondGroupId => "groupId"
    case CondFieldType => "fieldType"
    case CondOperator => "operator"
    case CondFieldValue => "fieldValue"
    case CondLogicalOperator => "logicalOperator"
    case CondOrderIndex => "orderIndex"
  }

  function GroupFieldName(f: GroupField): string {
    match f
    case GroupId => "id"
    case GroupName => "name"
    case GroupLogicalOperator => "logicalOperator"
    case GroupOrderIndex => "orderIndex"
  }

  /** "group_" + i + "_" */
  function GroupPrefix(i: nat): string {
    "group_" + NatStr(i) + "_"
  }

  function OwnerPrefix(o: Owner): string {
    match o
    case RootList => ""
    case GroupList(i) => GroupPrefix(i)
  }

  /** "condition_" + i + "_" for the root list, that behind the group's prefix inside a group. */
  function ConditionPrefix(o: Owner, i: nat): string {
    OwnerPrefix(o) + "condition_" + NatStr(i) + "_"
  }

  /** The key a slot is stored under. */
  function Key(s: Slot): string {
    match s
    case FilterSlot(f) => FilterKey(f)
    case ConditionsCount(o) => OwnerPrefix(o) + "conditions_count"
    case ConditionSlot(o, i, f) => ConditionPrefix(o, i) + ConditionFieldName(f)
    case GroupsCount => "groups_count"
    case GroupSlot(i, f) => GroupPrefix(i) + GroupFieldName(f)
    case CommandSlot => "command"
  }

  function FilterFieldOf(k: string): Option<FilterField> {
    if k == "filter_id" then Some(FilterId)
    else if k == "filter_marketingTargetId" then Some(FilterMarketingTargetId)
    else if k == "filter_name" then Some(FilterName)
    else if k == "filter_description" then Some(FilterDescription)
    else if k == "filter_isActive" then Some(FilterIsActive)
    else None
  }

  function ConditionFieldOf(t: string): Option<ConditionField> {
    if t == "id" then Some(CondId)
    else if t == "groupId" then Some(CondGroupId)
    else if t == "fieldType" then Some(CondFieldType)
    else if t == "operator" then Some(CondOperator)
    else if t == "fieldValue" then Some(CondFieldValue)
    else if t == "logicalOperator" then Some(CondLogicalOperator)
    else if t == "orderIndex" then Some(CondOrderIndex)
    else None
  }

  function GroupFieldOf(t: string): Option<GroupField> {
    if t == "id" then Some(GroupId)
    else if t == "name" then Some(GroupName)
    else if t == "logicalOperator" then Some(GroupLogicalOperator)
    else if t == "orderIndex" then Some(GroupOrderIndex)
    else None
  }

  /** Reads "<i>_<field>", what follows "condition_", as a slot of list o. */
  function ParseNumbered(o: Owner, r: string): Option<Slot> {
    var n := LeadingDigits(r);
    if 0 < n < |r| && r[n] == '_' then
      match ConditionFieldOf(r[n + 1..])
      case Some(f) => Some(ConditionSlot(o, ParseNat(r[..n]), f))
      case None => None
    else None
  }

  /** Reads "conditions_count" or "condition_<i>_<field>" as a slot of list o. */
  function ParseListKey(o: Owner, t: string): Option<Slot> {
    if t == "conditions_count" then Some(ConditionsCount(o))
    else if StartsWith(t, "condition_") then ParseNumbered(o, t[10..])
    else None
  }

  /** Reads what follows "group_<i>_". */
  function ParseGroupTail(i: nat, t: string): Option<Slot> {
    match GroupFieldOf(t)
    case Some(f) => Some(GroupSlot(i, f))
    case None => ParseListKey(GroupList(i), t)
  }

  /** Reads what follows "group_". */
  function ParseGroupKey(r: string): Option<Slot> {
    var n := LeadingDigits(r);
    if 0 < n < |r| && r[n] == '_' then ParseGroupTail(ParseNat(r[..n]), r[n + 1..]) else None
  }

  /** The slot a key denotes, if it is one a mapper writes. */
  function ParseKey(k: string): Option<Slot> {
    if FilterFieldOf(k).Some? then Some(FilterSlot(FilterFieldOf(k).value))
    else if k == "groups_count" then Some(GroupsCount)
    else if k == "command" then Some(CommandSlot)
    else if StartsWith(k, "group_") then ParseGroupKey(k[6..])
    else ParseListKey(RootList, k)
  }

  lemma ConditionTailParses(o: Owner, i: nat, f: ConditionField)
    ensures ParseListKey(o, "condition_" + NatStr(i) + "_" + ConditionFieldName(f)) == Some(ConditionSlot(o, i, f))
  {
    ConditionFieldOfName(f);
    NumberedTailParses(o, i, ConditionFieldName(f));
  }

  /** "condition_" + i + "_" + rest is read as field rest of condition i, when rest names a field. */
  lemma NumberedTailParses(o: Owner, i: nat, rest: string)
    requires ConditionFieldOf(rest).Some?
    ensures ParseListKey(o, "condition_" + NatStr(i) + "_" + rest) == Some(ConditionSlot(o, i, ConditionFieldOf(rest).value))
  {
    var r := NatStr(i) + "_" + rest;
    assert "condition_" + NatStr(i) + "_" + rest == "condition_" + r;
    ConditionKeyShape(r);
    NumberedParses(o, i, rest);
  }

  /** A key "condition_" + r is not the count key, and r is what follows the "condition_" prefix. */
  lemma ConditionKeyShape(r: string)
    ensures var t := "condition_" + r;
      t != "conditions_count" && StartsWith(t, "condition_") && t[10..] == r
  {
    var t := "condition_" + r;
    assert t[9] == '_';
    assert t[..10] == "condition_";
  }

  /** i + "_" + rest is read as field rest of condition i. */
  lemma NumberedParses(o: Owner, i: nat, rest: string)
    requires ConditionFieldOf(rest).Some?
    ensures ParseNumbered(o, NatStr(i) + "_" + rest) == Some(ConditionSlot(o, i, ConditionFieldOf(rest).value))
  {
    NumberThenUnderscore(i, rest);
    ParseNatStr(i);
  }

  /** The field names read back as their fields. */
  lemma ConditionFieldOfName(f: ConditionField)
    ensures ConditionFieldOf(ConditionFieldName(f)) == Some(f)
  {
    match f
    case CondId =>
    case CondGroupId =>
    case CondFieldType =>
    case CondOperator =>
    case CondFieldValue =>
    case CondLogicalOperator =>
    case CondOrderIndex =>
  }

  /** A key that starts like "condition_" is read as a key of the root list. */
  lemma RootKeyParses(t: string)
    requires |t| > 2 && t[0] == 'c' && t[2] == 'n'
    ensures ParseKey(t) == ParseListKey(RootList, t)
  {
    NotFilterKey(t);
    NotGroupsCountOrCommand(t);
    NotGroupKey(t);
  }

  lemma NotFilterKey(t: string)
    requires |t| > 2 && t[0] == 'c' && t[2] == 'n'
    ensures FilterFieldOf(t).None?
  {
  }

  lemma NotGroupsCountOrCommand(t: string)
    requires |t| > 2 && t[0] == 'c' && t[2] == 'n'
    ensures t != "groups_count" && t != "command"
  {
  }

  lemma NotGroupKey(t: string)
    requires |t| > 2 && t[0] == 'c' && t[2] == 'n'
    ensures !StartsWith(t, "group_")
  {
  }

  lemma GroupKeyParses(i: nat, t: string)
    ensures ParseKey(GroupPrefix(i) + t) == ParseGroupTail(i, t)
  {
    var r := NatStr(i) + "_" + t;
    assert GroupPrefix(i) + t == "group_" + r;
    GroupKeyShape(r);
    GroupNumberParses(i, t);
  }

  /** A key "group_" + r is none of the fixed keys, so it is read by ParseGroupKey. */
  lemma GroupKeyShape(r: string)
    ensures ParseKey("group_" + r) == ParseGroupKey(r)
  {
    var k := "group_" + r;
    assert k[0] == 'g' && k[5] == '_';
    NotFixedKey(k);
    assert k[..6] == "group_";
    assert k[6..] == r;
  }

  lemma NotFixedKey(k: string)
    requires |k| > 5 && k[0] == 'g' && k[5] == '_'
    ensures FilterFieldOf(k).None? && k != "groups_count" && k != "command"
  {
  }

  /** i + "_" + t is read as what follows the prefix of group i. */
  lemma GroupNumberParses(i: nat, t: string)
    ensures ParseGroupKey(NatStr(i) + "_" + t) == ParseGroupTail(i, t)
  {
    NumberThenUnderscore(i, t);
    ParseNatStr(i);
  }

  lemma ParsesFilterKey(f: FilterField)
    ensures ParseKey(Key(FilterSlot(f))) == Some(FilterSlot(f))
  {
    match f
    case FilterId =>
    case FilterMarketingTargetId =>
    case FilterName =>
    case FilterDescription =>
    case FilterIsActive =>
  }

  lemma ParsesGroupsCountKey()
    ensures ParseKey(Key(GroupsCount)) == Some(GroupsCount)
  {
    assert FilterFieldOf("groups_count").None?;
  }

  lemma ParsesCommandKey()
    ensures ParseKey(Key(CommandSlot)) == Some(CommandSlot)
  {
    assert FilterFieldOf("command").None?;
  }

  lemma ParsesRootCountKey()
    ensures ParseKey(Key(ConditionsCount(RootList))) == Some(ConditionsCount(RootList))
  {
    RootKeyParses("conditions_count");
  }

  lemma ParsesRootCondition(i: nat, f: ConditionField)
    ensures ParseKey(Key(ConditionSlot(RootList, i, f))) == Some(ConditionSlot(RootList, i, f))
  {
    var t := "condition_" + NatStr(i) + "_" + ConditionFieldName(f);
    assert Key(ConditionSlot(RootList, i, f)) == t;
    RootKeyParses(t);
    ConditionTailParses(RootList, i, f);
  }

  lemma ParsesGroupCondition(g: nat, i: nat, f: ConditionField)
    ensures ParseKey(Key(ConditionSlot(GroupList(g), i, f))) == Some(ConditionSlot(GroupList(g), i, f))
  {
    var t := "condition_" + NatStr(i) + "_" + ConditionFieldName(f);
    KeyOfGroupCondition(g, i, f);
    GroupKeyParses(g, t);
    NotGroupField(t);
    ConditionTailParses(GroupList(g), i, f);
  }

  lemma KeyOfGroupCondition(g: nat, i: nat, f: ConditionField)
    ensures Key(ConditionSlot(GroupList(g), i, f)) == GroupPrefix(g) + ("condition_" + NatStr(i) + "_" + ConditionFieldName(f))
  {
    var p := GroupPrefix(g);
    var d := NatStr(i);
    var n := ConditionFieldName(f);
    assert p + "condition_" + d + "_" + n == p + ("condition_" + d + "_" + n);
  }

  lemma NotGroupField(t: string)
    requires |t| > 0 && t[0] == 'c'
    ensures GroupFieldOf(t).None?
  {
  }

  lemma ParsesGroupKey(i: nat, f: GroupField)
    ensures ParseKey(Key(GroupSlot(i, f))) == Some(GroupSlot(i, f))
  {
    GroupKeyParses(i, GroupFieldName(f));
  }

  lemma ParsesGroupCount(i: nat)
    ensures ParseKey(Key(ConditionsCount(GroupList(i)))) == Some(ConditionsCount(GroupList(i)))
  {
    GroupKeyParses(i, "conditions_count");
  }

  /** The parser reads every key back as the slot it was written for. */
  lemma ParseKeyOfKey(s: Slot)
    ensures ParseKey(Key(s)) == Some(s)
  {
    match s
    case FilterSlot(f) => ParsesFilterKey(f);
    case ConditionsCount(RootList) => ParsesRootCountKey();
    case ConditionsCount(GroupList(i)) => ParsesGroupCount(i);
    case ConditionSlot(RootList, i, f) => ParsesRootCondition(i, f);
    case ConditionSlot(GroupList(g), i, f) => ParsesGroupCondition(g, i, f);
    case GroupsCount => ParsesGroupsCountKey();
    case GroupSlot(i, f) => ParsesGroupKey(i, f);
    case CommandSlot => ParsesCommandKey();
  }

  /** Keys written for different slots never collide. */
  lemma KeyInjective(s: Slot, t: Slot)
    ensures Key(s) == Key(t) ==> s == t
  {
    ParseKeyOfKey(s);
    ParseKeyOfKey(t);
  }

  /** The key of a root condition's field type. */
  lemma ConditionKeyExamples()
    ensures Key(ConditionSlot(RootList, 0, CondFieldType)) == "condition_0_fieldType"
  {
    assert NatStr(0) == "0";
    assert ConditionPrefix(RootList, 0) == "condition_0_";
  }

  /** The key of a group's count and of a group's name. */
  lemma GroupKeyExamples()
    ensures Key(ConditionsCount(GroupList(1))) == "group_1_conditions_count"
    ensures Key(GroupSlot(12, GroupName)) == "group_12_name"
  {
    assert NatStr(12) == "12";
  }

  /** ParseKeyOfKey, stated for all slots at once. */
  lemma ParsesEveryKey()
    ensures forall s :: ParseKey(Key(s)) == Some(s)
  {
    forall s ensures ParseKey(Key(s)) == Some(s) {
      ParseKeyOfKey(s);
    }
  }

  /** Keys written for different slots never collide, stated for all slots at once. */
  lemma KeysInjective()
    ensures forall s, t :: Key(s) == Key(t) ==> s == t
  {
    forall s, t ensures Key(s) == Key(t) ==> s == t {
      KeyInjective(s, t);
    }
  }

  // ---------------------------------------------------------------------
  // Slot maps and the container's values

  /**
   * The values of a container that holds, under the key of each slot of sm,
   * that slot's value, and nothing else.
   */
  function Flatten(sm: map<Slot, Value>): map<string, Value> {
    ParsesEveryKey();
    map k | k in (set s | s in sm :: Key(s)) :: sm[ParseKey(k).value]
  }

  /** A slot's key is present exactly when the slot is, and reads back as the slot's value. */
  lemma FlattenGet(sm: map<Slot, Value>, s: Slot)
    ensures Key(s) in Flatten(sm) <==> s in sm
    ensures s in sm ==> Flatten(sm)[Key(s)] == sm[s]
  {
    KeysInjective();
    ParseKeyOfKey(s);
  }

  /** Every key present is the key of a slot. */
  lemma FlattenKeys(sm: map<Slot, Value>, k: string)
    ensures k in Flatten(sm) <==> exists s :: s in sm && k == Key(s)
  {
  }

  /** Writing a slot and flattening is setValue on the slot's key. */
  lemma FlattenPut(sm: map<Slot, Value>, s: Slot, v: Value)
    ensures Flatten(sm[s := v]) == Flatten(sm)[Key(s) := v]
  {
    KeysInjective();
    var l := Flatten(sm[s := v]);
    var r := Flatten(sm)[Key(s) := v];
    forall k | k in l
      ensures k in r && l[k] == r[k]
    {
      var t :| t in sm[s := v] && k == Key(t);
      FlattenGet(sm[s := v], t);
      if t != s {
        FlattenGet(sm, t);
      }
    }
    forall k | k in r
      ensures k in l
    {
      if k == Key(s) {
        FlattenGet(sm[s := v], s);
      } else {
        var t :| t in sm && k == Key(t);
        FlattenGet(sm[s := v], t);
      }
    }
  }

  /** What a slot holds in a slot map: None when it is absent. */
  function Lookup(m: map<Slot, Value>, s: Slot): Option<Value> {
    if s in m then Some(m[s]) else None
  }

  // ---------------------------------------------------------------------
  // The packed layout

  function LongOrNull(x: Option<int>): Value {
    if x.Some? then LongValue(x.value) else Null
  }

  function IntOrNull(x: Option<int>): Value {
    if x.Some? then IntValue(x.value) else Null
  }

  function TextOrNull(x: Option<string>): Value {
    if x.Some? then Text(x.value) else Null
  }

  function BoolOrNull(x: Option<bool>): Value {
    if x.Some? then BoolValue(x.value) else Null
  }

  /** A list's size, 0 for a null list. */
  function CountValue<T>(xs: Option<seq<T>>): Value {
    IntValue(if xs.Some? then |xs.value| else 0)
  }

  function Items<T>(xs: Option<seq<T>>): seq<T> {
    if xs.Some? then xs.value else []
  }

  /** What packCondition stores for one field: enums as name() or null, the rest as they are. */
  function ConditionEntry(c: Condition, f: ConditionField): Value {
    match f
    case CondId => LongOrNull(c.id)
    case CondGroupId => LongOrNull(c.groupId)
    case CondFieldType => if c.fieldType.Some? then Text(FilterFieldTypes.Name(c.fieldType.value)) else Null
    case CondOperator => if c.operator.Some? then Text(FilterOperators.Name(c.operator.value)) else Null
    case CondFieldValue => TextOrNull(c.fieldValue)
    case CondLogicalOperator => if c.logicalOperator.Some? then Text(LogicalOperators.Name(c.logicalOperator.value)) else Null
    case CondOrderIndex => IntOrNull(c.orderIndex)
  }

  function GroupEntry(g: Group, f: GroupField): Value {
    match f
    case GroupId => LongOrNull(g.id)
    case GroupName => TextOrNull(g.groupName)
    case GroupLogicalOperator => if g.logicalOperator.Some? then Text(LogicalOperators.Name(g.logicalOperator.value)) else Null
    case GroupOrderIndex => IntOrNull(g.orderIndex)
  }

  function FilterEntry(f: Filter, ff: FilterField): Value {
    match ff
    case FilterId => LongOrNull(f.id)
    case FilterMarketingTargetId => LongOrNull(f.marketingTargetId)
    case FilterName => TextOrNull(f.filterName)
    case FilterDescription => TextOrNull(f.description)
    case FilterIsActive => BoolOrNull(f.isActive)
  }

  /** packCondition: the seven fields of c, in the order it writes them, in the slots of condition i of list o. */
  function PutCondition(m: map<Slot, Value>, o: Owner, i: nat, c: Condition): map<Slot, Value> {
    m[ConditionSlot(o, i, CondId) := ConditionEntry(c, CondId)]
     [ConditionSlot(o, i, CondGroupId) := ConditionEntry(c, CondGroupId)]
     [ConditionSlot(o, i, CondFieldType) := ConditionEntry(c, CondFieldType)]
     [ConditionSlot(o, i, CondOperator) := ConditionEntry(c, CondOperator)]
     [ConditionSlot(o, i, CondFieldValue) := ConditionEntry(c, CondFieldValue)]
     [ConditionSlot(o, i, CondLogicalOperator) := ConditionEntry(c, CondLogicalOperator)]
     [ConditionSlot(o, i, CondOrderIndex) := ConditionEntry(c, CondOrderIndex)]
  }

  /** The loop of pack or packGroup over the first n conditions of cs. */
  function PutConditions(m: map<Slot, Value>, o: Owner, cs: seq<Condition>, n: nat): map<Slot, Value>
    requires n <= |cs|
  {
    if n == 0 then m else PutCondition(PutConditions(m, o, cs, n - 1), o, n - 1, cs[n - 1])
  }

  /** packGroup's four own fields and its conditions count (0 for a null list). */
  function PutGroupHeader(m: map<Slot, Value>, i: nat, g: Group): map<Slot, Value> {
    m[GroupSlot(i, GroupId) := GroupEntry(g, GroupId)]
     [GroupSlot(i, GroupName) := GroupEntry(g, GroupName)]
     [GroupSlot(i, GroupLogicalOperator) := GroupEntry(g, GroupLogicalOperator)]
     [GroupSlot(i, GroupOrderIndex) := GroupEntry(g, GroupOrderIndex)]
     [ConditionsCount(GroupList(i)) := CountValue(g.conditions)]
  }

  /** packGroup: the header of group i, then its conditions. */
  function PutGroup(m: map<Slot, Value>, i: nat, g: Group): map<Slot, Value> {
    PutConditions(PutGroupHeader(m, i, g), GroupList(i), Items(g.conditions), |Items(g.conditions)|)
  }

  function PutGroups(m: map<Slot, Value>, gs: seq<Group>, n: nat): map<Slot, Value>
    requires n <= |gs|
  {
    if n == 0 then m else PutGroup(PutGroups(m, gs, n - 1), n - 1, gs[n - 1])
  }

  /** pack's five filter fields and its root conditions count, written into an empty container. */
  function FilterHeader(f: Filter): map<Slot, Value> {
    map[][FilterSlot(FilterId) := FilterEntry(f, FilterId)]
         [FilterSlot(FilterMarketingTargetId) := FilterEntry(f, FilterMarketingTargetId)]
         [FilterSlot(FilterName) := FilterEntry(f, FilterName)]
         [FilterSlot(FilterDescription) := FilterEntry(f, FilterDescription)]
         [FilterSlot(FilterIsActive) := FilterEntry(f, FilterIsActive)]
         [ConditionsCount(RootList) := CountValue(f.conditions)]
  }

  /** pack's header and root conditions, as slots. */
  function RootSlots(f: Filter): map<Slot, Value> {
    PutConditions(FilterHeader(f), RootList, Items(f.conditions), |Items(f.conditions)|)
  }

  /** The slots pack fills, and with what; none for a null filter. */
  function PackedSlots(f: Option<Filter>): map<Slot, Value> {
    if f.None? then map[]
    else
      var filter := f.value;
      var gs := Items(filter.groups);
      PutGroups(RootSlots(filter)[GroupsCount := CountValue(filter.groups)], gs, |gs|)
  }

  /** The group a slot belongs to, if any. */
  function SlotGroup(s: Slot): Option<nat> {
    match s
    case GroupSlot(i, _) => Some(i)
    case ConditionsCount(GroupList(i)) => Some(i)
    case ConditionSlot(GroupList(i), _, _) => Some(i)
    case _ => None
  }

  /** What packGroup(g) stores in a slot of group i; None for every other slot. */
  function GroupLayout(i: nat, g: Group, s: Slot): Option<Value> {
    match s
    case GroupSlot(j, f) => if j == i then Some(GroupEntry(g, f)) else None
    case ConditionsCount(GroupList(j)) => if j == i then Some(CountValue(g.conditions)) else None
    case ConditionSlot(GroupList(j), k, f) =>
      if j == i && k < |Items(g.conditions)| then Some(ConditionEntry(Items(g.conditions)[k], f)) else None
    case _ => None
  }

  /**
   * The layout of a packed filter, slot by slot: the filter's five fields and
   * the two counts are always present, condition i of a list and group i are
   * present exactly for the indices below the list's size, and nothing else is.
   */
  function Layout(f: Filter, s: Slot): Option<Value> {
    var cs := Items(f.conditions);
    var gs := Items(f.groups);
    match s
    case FilterSlot(ff) => Some(FilterEntry(f, ff))
    case ConditionsCount(RootList) => Some(CountValue(f.conditions))
    case ConditionSlot(RootList, i, cf) => if i < |cs| then Some(ConditionEntry(cs[i], cf)) else None
    case GroupsCount => Some(CountValue(f.groups))
    case CommandSlot => None
    case _ => var i := SlotGroup(s).value; if i < |gs| then GroupLayout(i, gs[i], s) else None
  }

  /** packCondition writes exactly the seven slots of its condition. */
  lemma PutConditionLookup(m: map<Slot, Value>, o: Owner, i: nat, c: Condition, t: Slot)
    ensures Lookup(PutCondition(m, o, i, c), t) ==
            if t.ConditionSlot? && t.owner == o && t.index == i then Some(ConditionEntry(c, t.conditionField))
            else Lookup(m, t)
  {
    if t.ConditionSlot? && t.owner == o && t.index == i {
      match t.conditionField
      case CondId =>
      case CondGroupId =>
      case CondFieldType =>
      case CondOperator =>
      case CondFieldValue =>
      case CondLogicalOperator =>
      case CondOrderIndex =>
    }
  }

  /** The loop over n conditions writes the slots of conditions 0 to n - 1 and no other. */
  lemma {:induction false} PutConditionsLookup(m: map<Slot, Value>, o: Owner, cs: seq<Condition>, n: nat, t: Slot)
    requires n <= |cs|
    ensures Lookup(PutConditions(m, o, cs, n), t) ==
            if t.ConditionSlot? && t.owner == o && t.index < n then Some(ConditionEntry(cs[t.index], t.conditionField))
            else Lookup(m, t)
  {
    if n > 0 {
      PutConditionsLookup(m, o, cs, n - 1, t);
      PutConditionLookup(PutConditions(m, o, cs, n - 1), o, n - 1, cs[n - 1], t);
    }
  }

  /** packGroup writes exactly the slots GroupLayout gives group i. */
  lemma PutGroupLookup(m: map<Slot, Value>, i: nat, g: Group, t: Slot)
    ensures Lookup(PutGroup(m, i, g), t) == if GroupLayout(i, g, t).Some? then GroupLayout(i, g, t) else Lookup(m, t)
  {
    PutConditionsLookup(PutGroupHeader(m, i, g), GroupList(i), Items(g.conditions), |Items(g.conditions)|, t);
    if t.GroupSlot? && t.group == i {
      match t.groupField
      case GroupId =>
      case GroupName =>
      case GroupLogicalOperator =>
      case GroupOrderIndex =>
    }
  }

  /** The loop over n groups writes the slots of groups 0 to n - 1 and no other. */
  lemma {:induction false} PutGroupsLookup(m: map<Slot, Value>, gs: seq<Group>, n: nat, t: Slot)
    requires n <= |gs|
    ensures Lookup(PutGroups(m, gs, n), t) ==
            if SlotGroup(t).Some? && SlotGroup(t).value < n && GroupLayout(SlotGroup(t).value, gs[SlotGroup(t).value], t).Some?
            then GroupLayout(SlotGroup(t).value, gs[SlotGroup(t).value], t)
            else Lookup(m, t)
  {
    if n > 0 {
      PutGroupsLookup(m, gs, n - 1, t);
      PutGroupLookup(PutGroups(m, gs, n - 1), n - 1, gs[n - 1], t);
    }
  }

  /** Every slot of a packed filter holds what the layout says, and the absent ones are absent. */
  lemma PackedLayout(f: Filter, t: Slot)
    ensures Lookup(PackedSlots(Some(f)), t) == Layout(f, t)
  {
    var cs := Items(f.conditions);
    var gs := Items(f.groups);
    var m := PutConditions(FilterHeader(f), RootList, cs, |cs|);
    PutGroupsLookup(m[GroupsCount := CountValue(f.groups)], gs, |gs|, t);
    PutConditionsLookup(FilterHeader(f), RootList, cs, |cs|, t);
    if t.FilterSlot? {
      match t.filterField
      case FilterId =>
      case FilterMarketingTargetId =>
      case FilterName =>
      case FilterDescription =>
      case FilterIsActive =>
    }
  }

  // ---------------------------------------------------------------------
  // The container's values, as the mapper writes them

  /** packCondition(heracles, condition, prefix): seven setValue calls under prefix. */
  function PackConditionInto(m: map<string, Value>, prefix: string, c: Condition): map<string, Value> {
    m[prefix + "id" := LongOrNull(c.id)]
     [prefix + "groupId" := LongOrNull(c.groupId)]
     [prefix + "fieldType" := if c.fieldType.Some? then Text(FilterFieldTypes.Name(c.fieldType.value)) else Null]
     [prefix + "operator" := if c.operator.Some? then Text(FilterOperators.Name(c.operator.value)) else Null]
     [prefix + "fieldValue" := TextOrNull(c.fieldValue)]
     [prefix + "logicalOperator" := if c.logicalOperator.Some? then Text(LogicalOperators.Name(c.logicalOperator.value)) else Null]
     [prefix + "orderIndex" := IntOrNull(c.orderIndex)]
  }

  /** The loop packing the first n conditions of a list whose keys start with p ("" at the root). */
  function PackConditionsInto(m: map<string, Value>, p: string, cs: seq<Condition>, n: nat): map<string, Value>
    requires n <= |cs|
  {
    if n == 0 then m
    else PackConditionInto(PackConditionsInto(m, p, cs, n - 1), p + "condition_" + NatStr(n - 1) + "_", cs[n - 1])
  }

  /** packGroup(heracles, group, prefix): four fields, the conditions count, the conditions. */
  function PackGroupInto(m: map<string, Value>, prefix: string, g: Group): map<string, Value> {
    var m1 := m[prefix + "id" := GroupEntry(g, GroupId)]
               [prefix + "name" := GroupEntry(g, GroupName)]
               [prefix + "logicalOperator" := GroupEntry(g, GroupLogicalOperator)]
               [prefix + "orderIndex" := GroupEntry(g, GroupOrderIndex)];
    if g.conditions.Some? then
      PackConditionsInto(m1[prefix + "conditions_count" := IntValue(|g.conditions.value|)], prefix, g.conditions.value, |g.conditions.value|)
    else
      m1[prefix + "conditions_count" := IntValue(0)]
  }

  /** The loop packing the first n groups, group i under "group_" + i + "_". */
  function PackGroupsInto(m: map<string, Value>, gs: seq<Group>, n: nat): map<string, Value>
    requires n <= |gs|
  {
    if n == 0 then m else PackGroupInto(PackGroupsInto(m, gs, n - 1), "group_" + NatStr(n - 1) + "_", gs[n - 1])
  }

  /** The values pack leaves in the container it creates: none for a null filter. */
  function Packed(f: Option<Filter>): map<string, Value> {
    if f.None? then map[]
    else
      var filter := f.value;
      var m1 := map["filter_id" := FilterEntry(filter, FilterId)]
                   ["filter_marketingTargetId" := FilterEntry(filter, FilterMarketingTargetId)]
                   ["filter_name" := FilterEntry(filter, FilterName)]
                   ["filter_description" := FilterEntry(filter, FilterDescription)]
                   ["filter_isActive" := FilterEntry(filter, FilterIsActive)];
      var m2 := if filter.conditions.Some? then
                  PackConditionsInto(m1["conditions_count" := IntValue(|filter.conditions.value|)], "", filter.conditions.value, |filter.conditions.value|)
                else m1["conditions_count" := IntValue(0)];
      if filter.groups.Some? then
        PackGroupsInto(m2["groups_count" := IntValue(|filter.groups.value|)], filter.groups.value, |filter.groups.value|)
      else m2["groups_count" := IntValue(0)]
  }

  // ---------------------------------------------------------------------
  // The written values are the flattened layout

  /** Each field's entry, spelled out. */
  lemma ConditionEntries(c: Condition)
    ensures ConditionEntry(c, CondId) == LongOrNull(c.id)
    ensures ConditionEntry(c, CondGroupId) == LongOrNull(c.groupId)
    ensures ConditionEntry(c, CondFieldType) == if c.fieldType.Some? then Text(FilterFieldTypes.Name(c.fieldType.value)) else Null
    ensures ConditionEntry(c, CondOperator) == if c.operator.Some? then Text(FilterOperators.Name(c.operator.value)) else Null
    ensures ConditionEntry(c, CondFieldValue) == TextOrNull(c.fieldValue)
    ensures ConditionEntry(c, CondLogicalOperator) ==
            if c.logicalOperator.Some? then Text(LogicalOperators.Name(c.logicalOperator.value)) else Null
    ensures ConditionEntry(c, CondOrderIndex) == IntOrNull(c.orderIndex)
  {
  }

  /** packCondition under ConditionPrefix(o, i) writes the slots of condition i of list o. */
  lemma PackConditionFlattens(sm: map<Slot, Value>, o: Owner, i: nat, c: Condition)
    ensures PackConditionInto(Flatten(sm), ConditionPrefix(o, i), c) == Flatten(PutCondition(sm, o, i, c))
  {
    var m1 := sm[ConditionSlot(o, i, CondId) := ConditionEntry(c, CondId)];
    var m2 := m1[ConditionSlot(o, i, CondGroupId) := ConditionEntry(c, CondGroupId)];
    var m3 := m2[ConditionSlot(o, i, CondFieldType) := ConditionEntry(c, CondFieldType)];
    var m4 := m3[ConditionSlot(o, i, CondOperator) := ConditionEntry(c, CondOperator)];
    var m5 := m4[ConditionSlot(o, i, CondFieldValue) := ConditionEntry(c, CondFieldValue)];
    var m6 := m5[ConditionSlot(o, i, CondLogicalOperator) := ConditionEntry(c, CondLogicalOperator)];
    var p := ConditionPrefix(o, i);
    ConditionEntries(c);
    assert Key(ConditionSlot(o, i, CondId)) == p + "id";
    assert Key(ConditionSlot(o, i, CondGroupId)) == p + "groupId";
    assert Key(ConditionSlot(o, i, CondFieldType)) == p + "fieldType";
    assert Key(ConditionSlot(o, i, CondOperator)) == p + "operator";
    assert Key(ConditionSlot(o, i, CondFieldValue)) == p + "fieldValue";
    assert Key(ConditionSlot(o, i, CondLogicalOperator)) == p + "logicalOperator";
    assert Key(ConditionSlot(o, i, CondOrderIndex)) == p + "orderIndex";
    FlattenPut(sm, ConditionSlot(o, i, CondId), ConditionEntry(c, CondId));
    FlattenPut(m1, ConditionSlot(o, i, CondGroupId), ConditionEntry(c, CondGroupId));
    FlattenPut(m2, ConditionSlot(o, i, CondFieldType), ConditionEntry(c, CondFieldType));
    FlattenPut(m3, ConditionSlot(o, i, CondOperator), ConditionEntry(c, CondOperator));
    FlattenPut(m4, ConditionSlot(o, i, CondFieldValue), ConditionEntry(c, CondFieldValue));
    FlattenPut(m5, ConditionSlot(o, i, CondLogicalOperator), ConditionEntry(c, CondLogicalOperator));
    FlattenPut(m6, ConditionSlot(o, i, CondOrderIndex), ConditionEntry(c, CondOrderIndex));
  }

  lemma {:induction false} PackConditionsFlattens(sm: map<Slot, Value>, o: Owner, cs: seq<Condition>, n: nat)
    requires n <= |cs|
    ensures PackConditionsInto(Flatten(sm), OwnerPrefix(o), cs, n) == Flatten(PutConditions(sm, o, cs, n))
  {
    if n > 0 {
      PackConditionsFlattens(sm, o, cs, n - 1);
      PackConditionFlattens(PutConditions(sm, o, cs, n - 1), o, n - 1, cs[n - 1]);
    }
  }

  /** packGroup's four fields and its count, written under GroupPrefix(i), are the header slots of group i. */
  lemma GroupHeaderFlattens(sm: map<Slot, Value>, i: nat, g: Group)
    ensures Flatten(PutGroupHeader(sm, i, g)) ==
      Flatten(sm)[GroupPrefix(i) + "id" := GroupEntry(g, GroupId)]
                 [GroupPrefix(i) + "name" := GroupEntry(g, GroupName)]
                 [GroupPrefix(i) + "logicalOperator" := GroupEntry(g, GroupLogicalOperator)]
                 [GroupPrefix(i) + "orderIndex" := GroupEntry(g, GroupOrderIndex)]
                 [GroupPrefix(i) + "conditions_count" := CountValue(g.conditions)]
  {
    var m1 := sm[GroupSlot(i, GroupId) := GroupEntry(g, GroupId)];
    var m2 := m1[GroupSlot(i, GroupName) := GroupEntry(g, GroupName)];
    var m3 := m2[GroupSlot(i, GroupLogicalOperator) := GroupEntry(g, GroupLogicalOperator)];
    var m4 := m3[GroupSlot(i, GroupOrderIndex) := GroupEntry(g, GroupOrderIndex)];
    var p := GroupPrefix(i);
    assert Key(GroupSlot(i, GroupId)) == p + "id";
    assert Key(GroupSlot(i, GroupName)) == p + "name";
    assert Key(GroupSlot(i, GroupLogicalOperator)) == p + "logicalOperator";
    assert Key(GroupSlot(i, GroupOrderIndex)) == p + "orderIndex";
    assert Key(ConditionsCount(GroupList(i))) == p + "conditions_count";
    FlattenPut(sm, GroupSlot(i, GroupId), GroupEntry(g, GroupId));
    FlattenPut(m1, GroupSlot(i, GroupName), GroupEntry(g, GroupName));
    FlattenPut(m2, GroupSlot(i, GroupLogicalOperator), GroupEntry(g, GroupLogicalOperator));
    FlattenPut(m3, GroupSlot(i, GroupOrderIndex), GroupEntry(g, GroupOrderIndex));
    FlattenPut(m4, ConditionsCount(GroupList(i)), CountValue(g.conditions));
  }

  /** packGroup under GroupPrefix(i) writes the slots of group i. */
  lemma PackGroupFlattens(sm: map<Slot, Value>, i: nat, g: Group)
    ensures PackGroupInto(Flatten(sm), GroupPrefix(i), g) == Flatten(PutGroup(sm, i, g))
  {
    GroupHeaderFlattens(sm, i, g);
    PackConditionsFlattens(PutGroupHeader(sm, i, g), GroupList(i), Items(g.conditions), |Items(g.conditions)|);
  }

  lemma {:induction false} PackGroupsFlattens(sm: map<Slot, Value>, gs: seq<Group>, n: nat)
    requires n <= |gs|
    ensures PackGroupsInto(Flatten(sm), gs, n) == Flatten(PutGroups(sm, gs, n))
  {
    if n > 0 {
      PackGroupsFlattens(sm, gs, n - 1);
      PackGroupFlattens(PutGroups(sm, gs, n - 1), n - 1, gs[n - 1]);
    }
  }

  /** pack's five filter fields and its root conditions count are the filter's header slots. */
  lemma FilterHeaderFlattens(f: Filter)
    ensures Flatten(FilterHeader(f)) ==
      map["filter_id" := FilterEntry(f, FilterId)]
         ["filter_marketingTargetId" := FilterEntry(f, FilterMarketingTargetId)]
         ["filter_name" := FilterEntry(f, FilterName)]
         ["filter_description" := FilterEntry(f, FilterDescription)]
         ["filter_isActive" := FilterEntry(f, FilterIsActive)]
         ["conditions_count" := CountValue(f.conditions)]
  {
    var m0: map<Slot, Value> := map[];
    var m1 := m0[FilterSlot(FilterId) := FilterEntry(f, FilterId)];
    var m2 := m1[FilterSlot(FilterMarketingTargetId) := FilterEntry(f, FilterMarketingTargetId)];
    var m3 := m2[FilterSlot(FilterName) := FilterEntry(f, FilterName)];
    var m4 := m3[FilterSlot(FilterDescription) := FilterEntry(f, FilterDescription)];
    var m5 := m4[FilterSlot(FilterIsActive) := FilterEntry(f, FilterIsActive)];
    FlattenEmpty();
    assert Key(FilterSlot(FilterId)) == "filter_id";
    assert Key(FilterSlot(FilterMarketingTargetId)) == "filter_marketingTargetId";
    assert Key(FilterSlot(FilterName)) == "filter_name";
    assert Key(FilterSlot(FilterDescription)) == "filter_description";
    assert Key(FilterSlot(FilterIsActive)) == "filter_isActive";
    FlattenPut(m0, FilterSlot(FilterId), FilterEntry(f, FilterId));
    FlattenPut(m1, FilterSlot(FilterMarketingTargetId), FilterEntry(f, FilterMarketingTargetId));
    FlattenPut(m2, FilterSlot(FilterName), FilterEntry(f, FilterName));
    FlattenPut(m3, FilterSlot(FilterDescription), FilterEntry(f, FilterDescription));
    FlattenPut(m4, FilterSlot(FilterIsActive), FilterEntry(f, FilterIsActive));
    assert Key(ConditionsCount(RootList)) == "conditions_count";
    FlattenPut(m5, ConditionsCount(RootList), CountValue(f.conditions));
  }

  lemma FlattenEmpty()
    ensures Flatten(map[]) == map[]
  {
  }

  /** pack's writes up to the groups count are the header and root condition slots. */
  lemma RootFlattens(f: Filter)
    ensures Flatten(RootSlots(f)) ==
      var m1 := map["filter_id" := FilterEntry(f, FilterId)]
                   ["filter_marketingTargetId" := FilterEntry(f, FilterMarketingTargetId)]
                   ["filter_name" := FilterEntry(f, FilterName)]
                   ["filter_description" := FilterEntry(f, FilterDescription)]
                   ["filter_isActive" := FilterEntry(f, FilterIsActive)];
      if f.conditions.Some? then
        PackConditionsInto(m1["conditions_count" := IntValue(|f.conditions.value|)], "", f.conditions.value, |f.conditions.value|)
      else m1["conditions_count" := IntValue(0)]
  {
    FilterHeaderFlattens(f);
    PackConditionsFlattens(FilterHeader(f), RootList, Items(f.conditions), |Items(f.conditions)|);
  }

  /** What pack writes is the layout of the filter, spelled out in keys. */
  lemma PackedFlattens(f: Option<Filter>)
    ensures Packed(f) == Flatten(PackedSlots(f))
  {
    if f.None? {
      FlattenEmpty();
    } else {
      var filter := f.value;
      var gs := Items(filter.groups);
      var m := RootSlots(filter);
      RootFlattens(filter);
      FlattenPut(m, GroupsCount, CountValue(filter.groups));
      PackGroupsFlattens(m[GroupsCount := CountValue(filter.groups)], gs, |gs|);
    }
  }

  /** Read through its key, every slot of a packed filter holds what the layout says. */
  lemma PackedReads(f: Filter, t: Slot)
    ensures Key(t) in Packed(Some(f)) <==> Layout(f, t).Some?
    ensures Key(t) in Packed(Some(f)) ==> Packed(Some(f))[Key(t)] == Layout(f, t).value
  {
    PackedFlattens(Some(f));
    PackedLayout(f, t);
    FlattenGet(PackedSlots(Some(f)), t);
  }

  /** A key is in a packed filter exactly when it is the key of a slot the layout fills. */
  lemma PackedKeys(f: Filter, k: string)
    ensures k in Packed(Some(f)) <==> exists s :: k == Key(s) && Layout(f, s).Some?
  {
    PackedFlattens(Some(f));
    FlattenKeys(PackedSlots(Some(f)), k);
    if k in Packed(Some(f)) {
      var s :| s in PackedSlots(Some(f)) && k == Key(s);
      PackedLayout(f, s);
    }
    if exists s :: k == Key(s) && Layout(f, s).Some? {
      var s :| k == Key(s) && Layout(f, s).Some?;
      PackedReads(f, s);
    }
  }

  /** Packing writes no command key, so packWithCommand adds exactly one key. */
  lemma PackedHasNoCommand(f: Option<Filter>)
    ensures "command" !in Packed(f)
  {
    if f.Some? {
      PackedReads(f.value, CommandSlot);
    }
  }

  /** The counts are always written, and a null list counts 0. */
  lemma CountsAlwaysWritten(f: Filter)
    ensures "conditions_count" in Packed(Some(f)) && Packed(Some(f))["conditions_count"] == IntValue(|Items(f.conditions)|)
    ensures "groups_count" in Packed(Some(f)) && Packed(Some(f))["groups_count"] == IntValue(|Items(f.groups)|)
  {
    assert Key(ConditionsCount(RootList)) == "conditions_count";
    PackedReads(f, ConditionsCount(RootList));
    PackedReads(f, GroupsCount);
  }

  // ---------------------------------------------------------------------
  // The mapper

  /** packCondition(heracles, condition, prefix). */
  method PackCondition(h: Heracles, c: Condition, prefix: string)
    modifies h
    ensures h.values == PackConditionInto(old(h.values), prefix, c) && h.error == old(h.error)
  {
    h.SetValue(prefix + "id", Plain(LongOrNull(c.id)));
    h.SetValue(prefix + "groupId", Plain(LongOrNull(c.groupId)));
    h.SetValue(prefix + "fieldType", Plain(if c.fieldType.Some? then Text(FilterFieldTypes.Name(c.fieldType.value)) else Null));
    h.SetValue(prefix + "operator", Plain(if c.operator.Some? then Text(FilterOperators.Name(c.operator.value)) else Null));
    h.SetValue(prefix + "fieldValue", Plain(TextOrNull(c.fieldValue)));
    h.SetValue(prefix + "logicalOperator",
      Plain(if c.logicalOperator.Some? then Text(LogicalOperators.Name(c.logicalOperator.value)) else Null));
    h.SetValue(prefix + "orderIndex", Plain(IntOrNull(c.orderIndex)));
  }

  /** The loop of pack and packGroup that packs a condition list whose keys start with p. */
  method PackConditions(h: Heracles, cs: seq<Condition>, p: string)
    modifies h
    ensures h.values == PackConditionsInto(old(h.values), p, cs, |cs|) && h.error == old(h.error)
  {
    var i := 0;
    while i < |cs|
      invariant 0 <= i <= |cs|
      invariant h.values == PackConditionsInto(old(h.values), p, cs, i) && h.error == old(h.error)
    {
      PackCondition(h, cs[i], p + "condition_" + NatStr(i) + "_");
      i := i + 1;
    }
  }

  /** packGroup(heracles, group, prefix). */
  method PackGroup(h: Heracles, g: Group, prefix: string)
    modifies h
    ensures h.values == PackGroupInto(old(h.values), prefix, g) && h.error == old(h.error)
  {
    h.SetValue(prefix + "id", Plain(LongOrNull(g.id)));
    h.SetValue(prefix + "name", Plain(TextOrNull(g.groupName)));
    h.SetValue(prefix + "logicalOperator",
      Plain(if g.logicalOperator.Some? then Text(LogicalOperators.Name(g.logicalOperator.value)) else Null));
    h.SetValue(prefix + "orderIndex", Plain(IntOrNull(g.orderIndex)));
    if g.conditions.Some? {
      h.SetValue(prefix + "conditions_count", Plain(IntValue(|g.conditions.value|)));
      PackConditions(h, g.conditions.value, prefix);
    } else {
      h.SetValue(prefix + "conditions_count", Plain(IntValue(0)));
    }
  }

  /** pack: a fresh container holding the layout of f; an empty one for a null filter. */
  method Pack(f: Option<Filter>) returns (h: Heracles)
    ensures fresh(h) && h.values == Packed(f) && h.error == None
  {
    h := new Heracles();
    if f.None? {
      return;
    }
    var filter := f.value;
    h.SetValue("filter_id", Plain(LongOrNull(filter.id)));
    h.SetValue("filter_marketingTargetId", Plain(LongOrNull(filter.marketingTargetId)));
    h.SetValue("filter_name", Plain(TextOrNull(filter.filterName)));
    h.SetValue("filter_description", Plain(TextOrNull(filter.description)));
    h.SetValue("filter_isActive", Plain(BoolOrNull(filter.isActive)));
    if filter.conditions.Some? {
      h.SetValue("conditions_count", Plain(IntValue(|filter.conditions.value|)));
      PackConditions(h, filter.conditions.value, "");
    } else {
      h.SetValue("conditions_count", Plain(IntValue(0)));
    }
    if filter.groups.Some? {
      var gs := filter.groups.value;
      h.SetValue("groups_count", Plain(IntValue(|gs|)));
      var i := 0;
      ghost var start := h.values;
      while i < |gs|
        invariant 0 <= i <= |gs|
        invariant h.values == PackGroupsInto(start, gs, i) && h.error == None
      {
        PackGroup(h, gs[i], "group_" + NatStr(i) + "_");
        i := i + 1;
      }
    } else {
      h.SetValue("groups_count", Plain(IntValue(0)));
    }
  }

  /** packWithCommand: pack, then one more key, "command". */
  method PackWithCommand(command: Option<string>, f: Option<Filter>) returns (h: Heracles)
    ensures fresh(h) && h.error == None
    ensures h.values == Packed(f)["command" := TextOrNull(command)]
  {
    h := Pack(f);
    h.SetValue("command", Plain(TextOrNull(command)));
  }

  /** packWithCommand keeps every key of pack and its value, and adds only the command. */
  lemma PackWithCommandAddsOneKey(command: Option<string>, f: Option<Filter>, k: string)
    ensures var m := Packed(f)["command" := TextOrNull(command)];
      (k in m <==> k in Packed(f) || k == "command") &&
      (k in Packed(f) ==> m[k] == Packed(f)[k])
  {
    PackedHasNoCommand(f);
  }
}
