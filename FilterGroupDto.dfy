/** A named, ordered sub-list of conditions with the operator that joins it to earlier groups. */
module FilterGroups {
  import opened Wrappers
  import opened LogicalOperators
  import opened FilterConditions

  /** A snapshot of the group bean; conditions may be null as well as empty. */
  datatype Group = Group(
    id: Option<int>,
    groupName: Option<string>,
    logicalOperator: Option<LogicalOperator>,
    orderIndex: Option<int>,
    conditions: Option<seq<Condition>>)

  /** The state left by the no-argument constructor: every field null. */
  const EmptyGroup: Group := Group(None, None, None, None, None)

  /**
   * The mutable bean; Value() is its current state. The conditions list is held as a
   * value, so a later change to a condition bean already in the list is not seen here.
   */
  class FilterGroupDto {
    var id: Option<int>
    var groupName: Option<string>
    var logicalOperator: Option<LogicalOperator>
    var orderIndex: Option<int>
    var conditions: Option<seq<Condition>>

    function Value(): Group
      reads this
    {
      Group(id, groupName, logicalOperator, orderIndex, conditions)
    }

    constructor ()
      ensures Value() == EmptyGroup
    {
      id, groupName, logicalOperator, orderIndex, conditions := None, None, None, None, None;
    }

    /** The two-argument constructor: only the name and the operator are set. */
    constructor Named(groupName: Option<string>, logicalOperator: Option<LogicalOperator>)
      ensures Value() == EmptyGroup.(groupName := groupName, logicalOperator := logicalOperator)
    {
      this.groupName, this.logicalOperator := groupName, logicalOperator;
      id, orderIndex, conditions := None, None, None;
    }

    method SetId(v: Option<int>)
      modifies this
      ensures Value() == old(Value()).(id := v)
    {
      id := v;
    }

    method SetGroupName(v: Option<string>)
      modifies this
      ensures Value() == old(Value()).(groupName := v)
    {
      groupName := v;
    }

    method SetLogicalOperator(v: Option<LogicalOperator>)
      modifies this
      ensures Value() == old(Value()).(logicalOperator := v)
    {
      logicalOperator := v;
    }

    method SetOrderIndex(v: Option<int>)
      modifies this
      ensures Value() == old(Value()).(orderIndex := v)
    {
      orderIndex := v;
    }

    method SetConditions(v: Option<seq<Condition>>)
      modifies this
      ensures Value() == old(Value()).(conditions := v)
    {
      conditions := v;
    }
  }
}
