/** The fifteen comparison operators a condition may use, with their symbols. */
module FilterOperators {
  import opened Wrappers

  datatype FilterOperator =
    | EQUAL | NOT_EQUAL | CONTAINS | NOT_CONTAINS | STARTS_WITH | ENDS_WITH
    | GREATER_THAN | GREATER_THAN_OR_EQUAL | LESS_THAN | LESS_THAN_OR_EQUAL
    | IN | NOT_IN | REGEX | IS_NULL | IS_NOT_NULL

  /** The constants in declaration order (Java's values()). */
  const AllOperators: seq<FilterOperator> :=
    [EQUAL, NOT_EQUAL, CONTAINS, NOT_CONTAINS, STARTS_WITH, ENDS_WITH,
     GREATER_THAN, GREATER_THAN_OR_EQUAL, LESS_THAN, LESS_THAN_OR_EQUAL,
     IN, NOT_IN, REGEX, IS_NULL, IS_NOT_NULL]

  /** getSymbol(): the symbol given to the constructor. */
  function Symbol(op: FilterOperator): string {
    match op
    case EQUAL => "="
    case NOT_EQUAL => "≠"
    case CONTAINS => "Co"
    case NOT_CONTAINS => "!Co"
    case STARTS_WITH => "SW"
    case ENDS_WITH => "EW"
    case GREATER_THAN => ">"
    case GREATER_THAN_OR_EQUAL => ">="
    case LESS_THAN => "<"
    case LESS_THAN_OR_EQUAL => "<="
    case IN => "In"
    case NOT_IN => "!In"
    case REGEX => "Rx"
    case IS_NULL => "NULL"
    case IS_NOT_NULL => "!NULL"
  }

  /** Java's name(): the identifier of the constant. */
  function Name(op: FilterOperator): string {
    match op
    case EQUAL => "EQUAL"
    case NOT_EQUAL => "NOT_EQUAL"
    case CONTAINS => "CONTAINS"
    case NOT_CONTAINS => "NOT_CONTAINS"
    case STARTS_WITH => "STARTS_WITH"
    case ENDS_WITH => "ENDS_WITH"
    case GREATER_THAN => "GREATER_THAN"
    case GREATER_THAN_OR_EQUAL => "GREATER_THAN_OR_EQUAL"
    case LESS_THAN => "LESS_THAN"
    case LESS_THAN_OR_EQUAL => "LESS_THAN_OR_EQUAL"
    case IN => "IN"
    case NOT_IN => "NOT_IN"
    case REGEX => "REGEX"
    case IS_NULL => "IS_NULL"
    case IS_NOT_NULL => "IS_NOT_NULL"
  }

  /** Java's valueOf(name), with the IllegalArgumentException for an unknown name as None. */
  function ValueOf(s: string): (r: Option<FilterOperator>)
    ensures r.Some? ==> Name(r.value) == s
    ensures r.None? ==> forall op :: Name(op) != s
  {
    match s
    case "EQUAL" => Some(EQUAL)
    case "NOT_EQUAL" => Some(NOT_EQUAL)
    case "CONTAINS" => Some(CONTAINS)
    case "NOT_CONTAINS" => Some(NOT_CONTAINS)
    case "STARTS_WITH" => Some(STARTS_WITH)
    case "ENDS_WITH" => Some(ENDS_WITH)
    case "GREATER_THAN" => Some(GREATER_THAN)
    case "GREATER_THAN_OR_EQUAL" => Some(GREATER_THAN_OR_EQUAL)
    case "LESS_THAN" => Some(LESS_THAN)
    case "LESS_THAN_OR_EQUAL" => Some(LESS_THAN_OR_EQUAL)
    case "IN" => Some(IN)
    case "NOT_IN" => Some(NOT_IN)
    case "REGEX" => Some(REGEX)
    case "IS_NULL" => Some(IS_NULL)
    case "IS_NOT_NULL" => Some(IS_NOT_NULL)
    case _ => None
  }

  /** The table holds every constant exactly once, fifteen in all, from EQUAL to IS_NOT_NULL. */
  lemma AllOperatorsComplete(op: FilterOperator)
    ensures |AllOperators| == 15
    ensures AllOperators[0] == EQUAL && AllOperators[14] == IS_NOT_NULL
    ensures op in AllOperators
    ensures forall i, j :: 0 <= i < j < |AllOperators| ==> AllOperators[i] != AllOperators[j]
  {
  }

  /** No two operators share a symbol. */
  lemma SymbolInjective(a: FilterOperator, b: FilterOperator)
    ensures Symbol(a) == Symbol(b) ==> a == b
  {
  }

  /** The negative forms of CONTAINS, IN and IS_NULL carry the positive symbol behind a "!". */
  lemma NegatedSymbols()
    ensures Symbol(NOT_CONTAINS) == "!" + Symbol(CONTAINS)
    ensures Symbol(NOT_IN) == "!" + Symbol(IN)
    ensures Symbol(IS_NOT_NULL) == "!" + Symbol(IS_NULL)
  {
  }

  /** valueOf inverts name(). */
  lemma ValueOfName(op: FilterOperator)
    ensures ValueOf(Name(op)) == Some(op)
  {
  }
}
