/** The AND/OR vocabulary that joins a condition or a group to the items before it. */
module LogicalOperators {
  import opened Wrappers

  datatype LogicalOperator = AND | OR

  /** The constants in declaration order (Java's values()). */
  const AllLogicalOperators: seq<LogicalOperator> := [AND, OR]

  /** Java's name(): the identifier of the constant. */
  function Name(op: LogicalOperator): string {
    match op
    case AND => "AND"
    case OR => "OR"
  }

  /** getDisplayName(): the Russian label given to the constructor. */
  function DisplayName(op: LogicalOperator): (r: string)
    ensures op == AND ==> r == "И"
    ensures op == OR ==> r == "ИЛИ"
  {
    match op
    case AND => "И"
    case OR => "ИЛИ"
  }

  /** Java's valueOf(name), with the IllegalArgumentException for an unknown name as None. */
  function ValueOf(s: string): (r: Option<LogicalOperator>)
    ensures r.Some? <==> (s == "AND" || s == "OR")
    ensures r.Some? ==> Name(r.value) == s
  {
    if s == "AND" then Some(AND)
    else if s == "OR" then Some(OR)
    else None
  }

  /** The table holds exactly the two constants, AND first. */
  lemma AllLogicalOperatorsComplete(op: LogicalOperator)
    ensures |AllLogicalOperators| == 2
    ensures AllLogicalOperators[0] == AND && AllLogicalOperators[1] == OR
    ensures op in AllLogicalOperators
  {
  }

  /** The two display names differ, so a label identifies its operator. */
  lemma DisplayNameInjective(a: LogicalOperator, b: LogicalOperator)
    ensures DisplayName(a) == DisplayName(b) ==> a == b
  {
  }

  /** valueOf inverts name(). */
  lemma ValueOfName(op: LogicalOperator)
    ensures ValueOf(Name(op)) == Some(op)
  {
  }

  /** A non-null operator other than OR is AND: an "else AND" branch is exhaustive. */
  lemma NotOrIsAnd(op: LogicalOperator)
    ensures op != OR ==> op == AND
  {
  }
}
