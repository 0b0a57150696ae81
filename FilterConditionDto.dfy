/** One atomic test of a filter: field type, operator, literal value and the joining operator. */
module FilterConditions {
  import opened Wrappers
  import opened FilterFieldTypes
  import opened FilterOperators
  import opened LogicalOperators

  /**
   * A snapshot of the condition bean. Every field is a nullable Java reference; a null
   * logicalOperator is a legal stored value that the evaluator interprets.
   */
  datatype Condition = Condition(
    id: Option<int>,
    groupId: Option<int>,
    fieldType: Option<FilterFieldType>,
    operator: Option<FilterOperator>,
    fieldValue: Option<string>,
    logicalOperator: Option<LogicalOperator>,
    orderIndex: Option<int>)

  /** The state left by the no-argument constructor: every field null. */
  const EmptyCondition: Condition := Condition(None, None, None, None, None, None, None)

  /** The mutable bean; Value() is its current state. */
  class FilterConditionDto {
    var id: Option<int>
    var groupId: Option<int>
    var fieldType: Option<FilterFieldType>
    var operator: Option<FilterOperator>
    var fieldValue: Option<string>
    var logicalOperator: Option<LogicalOperator>
    var orderIndex: Option<int>

    function Value(): Condition
      reads this
    {
      Condition(id, groupId, fieldType, operator, fieldValue, logicalOperator, orderIndex)
    }

    constructor ()
      ensures Value() == EmptyCondition
    {
      id, groupId, fieldType, operator := None, None, None, None;
      fieldValue, logicalOperator, orderIndex := None, None, None;
    }

    /** The three-argument constructor: id, groupId, logicalOperator and orderIndex stay null. */
    constructor WithCriterion(fieldType: Option<FilterFieldType>, operator: Option<FilterOperator>, fieldValue: Option<string>)
      ensures Value() == EmptyCondition.(fieldType := fieldType, operator := operator, fieldValue := fieldValue)
    {
      this.fieldType, this.operator, this.fieldValue := fieldType, operator, fieldValue;
      id, groupId, logicalOperator, orderIndex := None, None, None, None;
    }

    method SetId(v: Option<int>)
      modifies this
      ensures Value() == old(Value()).(id := v)
    {
      id := v;
    }

    method SetGroupId(v: Option<int>)
      modifies this
      ensures Value() == old(Value()).(groupId := v)
    {
      groupId := v;
    }

    method SetFieldType(v: Option<FilterFieldType>)
      modifies this
      ensures Value() == old(Value()).(fieldType := v)
    {
      fieldType := v;
    }

    method SetOperator(v: Option<FilterOperator>)
      modifies this
      ensures Value() == old(Value()).(operator := v)
    {
      operator := v;
    }

    method SetFieldValue(v: Option<string>)
      modifies this
      ensures Value() == old(Value()).(fieldValue := v)
    {
      fieldValue := v;
    }

    method SetLogicalOperator(v: Option<LogicalOperator>)
      modifies this
      ensures Value() == old(Value()).(logicalOperator := v)
    {
      logicalOperator := v;
    }

    method SetOrderIndex(v: Option<int>)
      modifies this
      ensures Value() == old(Value()).(orderIndex := v)
    {
      orderIndex := v;
    }
  }
}
