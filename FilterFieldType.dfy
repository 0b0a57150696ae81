/** The nine record attributes a condition may test. */
module FilterFieldTypes {
  import opened Wrappers

  datatype FilterFieldType =
    | SMID | DISTRIBUTION_GROUPS_FILE | COUNTRY | OPERATING_SYSTEM | CLIENT_VERSION
    | BROWSER | INTERNET_TYPE | INTERNAL_TRANSITION | CLE_CAMPAIGN

  /** The constants in declaration order (Java's values()). */
  const AllFieldTypes: seq<FilterFieldType> :=
    [SMID, DISTRIBUTION_GROUPS_FILE, COUNTRY, OPERATING_SYSTEM, CLIENT_VERSION,
     BROWSER, INTERNET_TYPE, INTERNAL_TRANSITION, CLE_CAMPAIGN]

  /** Java's name(): the identifier of the constant. */
  function Name(t: FilterFieldType): string {
    match t
    case SMID => "SMID"
    case DISTRIBUTION_GROUPS_FILE => "DISTRIBUTION_GROUPS_FILE"
    case COUNTRY => "COUNTRY"
    case OPERATING_SYSTEM => "OPERATING_SYSTEM"
    case CLIENT_VERSION => "CLIENT_VERSION"
    case BROWSER => "BROWSER"
    case INTERNET_TYPE => "INTERNET_TYPE"
    case INTERNAL_TRANSITION => "INTERNAL_TRANSITION"
    case CLE_CAMPAIGN => "CLE_CAMPAIGN"
  }

  /** getDisplayName(): the string given to the constructor. */
  function DisplayName(t: FilterFieldType): string {
    match t
    case SMID => "SMID"
    case DISTRIBUTION_GROUPS_FILE => "DISTRIBUTION_GROUPS_FILE"
    case COUNTRY => "COUNTRY"
    case OPERATING_SYSTEM => "OPERATING_SYSTEM"
    case CLIENT_VERSION => "CLIENT_VERSION"
    case BROWSER => "BROWSER"
    case INTERNET_TYPE => "INTERNET_TYPE"
    case INTERNAL_TRANSITION => "INTERNAL_TRANSITION"
    case CLE_CAMPAIGN => "CLE_CAMPAIGN"
  }

  /** Java's valueOf(name), with the IllegalArgumentException for an unknown name as None. */
  function ValueOf(s: string): (r: Option<FilterFieldType>)
    ensures r.Some? ==> Name(r.value) == s
    ensures r.None? ==> forall t :: Name(t) != s
  {
    match s
    case "SMID" => Some(SMID)
    case "DISTRIBUTION_GROUPS_FILE" => Some(DISTRIBUTION_GROUPS_FILE)
    case "COUNTRY" => Some(COUNTRY)
    case "OPERATING_SYSTEM" => Some(OPERATING_SYSTEM)
    case "CLIENT_VERSION" => Some(CLIENT_VERSION)
    case "BROWSER" => Some(BROWSER)
    case "INTERNET_TYPE" => Some(INTERNET_TYPE)
    case "INTERNAL_TRANSITION" => Some(INTERNAL_TRANSITION)
    case "CLE_CAMPAIGN" => Some(CLE_CAMPAIGN)
    case _ => None
  }

  /** The table holds every constant exactly once, nine in all. */
  lemma AllFieldTypesComplete(t: FilterFieldType)
    ensures |AllFieldTypes| == 9
    ensures AllFieldTypes[0] == SMID && AllFieldTypes[8] == CLE_CAMPAIGN
    ensures t in AllFieldTypes
    ensures forall i, j :: 0 <= i < j < |AllFieldTypes| ==> AllFieldTypes[i] != AllFieldTypes[j]
  {
  }

  /** Every display name equals the constant's own name. */
  lemma DisplayNameIsName(t: FilterFieldType)
    ensures DisplayName(t) == Name(t)
  {
  }

  /** valueOf inverts name(). */
  lemma ValueOfName(t: FilterFieldType)
    ensures ValueOf(Name(t)) == Some(t)
  {
  }
}
