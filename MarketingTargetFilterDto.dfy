/** The filter aggregate: identity and activation data, root conditions and groups. */
module MarketingTargetFilters {
  import opened Wrappers
  import opened FilterConditions
  import opened FilterGroups

  /** A snapshot of the filter bean; the two lists are independent and each may be null. */
  datatype Filter = Filter(
    id: Option<int>,
    marketingTargetId: Option<int>,
    filterName: Option<string>,
    description: Option<string>,
    isActive: Option<bool>,
    conditions: Option<seq<Condition>>,
    groups: Option<seq<Group>>)

  /** The state left by the no-argument constructor: every field null, isActive included. */
  const EmptyFilter: Filter := Filter(None, None, None, None, None, None, None)

  /** The mutable bean; Value() is its current state. Lists are held as values. */
  class MarketingTargetFilterDto {
    var id: Option<int>
    var marketingTargetId: Option<int>
    var filterName: Option<string>
    var description: Option<string>
    var isActive: Option<bool>
    var conditions: Option<seq<Condition>>
    var groups: Option<seq<Group>>

    function Value(): Filter
      reads this
    {
      Filter(id, marketingTargetId, filterName, description, isActive, conditions, groups)
    }

    constructor ()
      ensures Value() == EmptyFilter
    {
      id, marketingTargetId, filterName, description := None, None, None, None;
      isActive, conditions, groups := None, None, None;
    }

    /** The two-argument constructor: name and target are set and the filter starts active. */
    constructor ForTarget(filterName: Option<string>, marketingTargetId: Option<int>)
      ensures Value() == EmptyFilter.(filterName := filterName, marketingTargetId := marketingTargetId, isActive := Some(true))
    {
      this.filterName, this.marketingTargetId, isActive := filterName, marketingTargetId, Some(true);
      id, description, conditions, groups := None, None, None, None;
    }

    method SetId(v: Option<int>)
      modifies this
      ensures Value() == old(Value()).(id := v)
    {
      id := v;
    }

    method SetMarketingTargetId(v: Option<int>)
      modifies this
      ensures Value() == old(Value()).(marketingTargetId := v)
    {
      marketingTargetId := v;
    }

    method SetFilterName(v: Option<string>)
      modifies this
      ensures Value() == old(Value()).(filterName := v)
    {
      filterName := v;
    }

    method SetDescription(v: Option<string>)
      modifies this
      ensures Value() == old(Value()).(description := v)
    {
      description := v;
    }

    method SetIsActive(v: Option<bool>)
      modifies this
      ensures Value() == old(Value()).(isActive := v)
    {
      isActive := v;
    }

    method SetConditions(v: Option<seq<Condition>>)
      modifies this
      ensures Value() == old(Value()).(conditions := v)
    {
      conditions := v;
    }

    method SetGroups(v: Option<seq<Group>>)
      modifies this
      ensures Value() == old(Value()).(groups := v)
    {
      groups := v;
    }
  }
}
