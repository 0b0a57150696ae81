# Marketing-target filters in Dafny

This project models the targeting-filter engine of the marketing service, plus two small satellites. It proves properties of that model.

- **Filter DTOs.** A marketing-target filter (`MarketingTargetFilterDto`) holds a list of root conditions (`FilterConditionDto`) and a list of condition groups (`FilterGroupDto`). Each condition tests one field of a user request (`UserRequestDto`) with one of 15 operators (`FilterOperator`). Conditions are joined left to right by AND/OR (`LogicalOperator`).
- **Evaluator** (`FilterEvaluationService`). It decides whether a user request satisfies a filter.
- **Structural validator** (`MarketingTargetFilterService`). It rejects a malformed filter with the first violation it meets. It also normalises stored filters when they are loaded.
- **Heracles container.** `FilterToHeraclesMapper` serialises a filter into a flat string-keyed container (`Heracles`), and `HeraclesToFilterMapper` reads it back.
- **Content types.** Both copies of `FileResourceController` derive an uploaded file's content type from its name and from a content detector.

## How the model is built

- **Null values.** Java references that may be null are `Option` values.
- **Exceptions.** Java exceptions are `Result` errors:
  - `NullPointerException` where the code unboxes or dereferences a null;
  - `PanteonException` for a container's stored error or a missing key;
  - `ClassCastException` for a value of the wrong type.
- **Mutable beans.** The DTOs and the `Heracles` container are classes whose setters update fields in place. Each class has a `Value()` or `Snapshot()` function: the datatype value of its current state. The evaluator, the validator and the mappers work on these values.
- **Loops.** The loops of the source are methods with loop invariants. Each is proved equal to a recursive specification function:
  - the condition and group folds;
  - the IN/NOT_IN token scan;
  - validation with early exit;
  - the pack and unpack loops.
- **Properties.** The lemmas state the properties of those functions.
- **Outside code.** Calls into code outside the model are fields of an `Oracles` value: the membership lookup for distribution-group files, `Double.parseDouble` with `Double.compare`, and `String.matches` for the REGEX operator. The lemmas that need facts about `Double` take them as the hypothesis `JavaDoubles`: a string with two or more dots does not parse, and the comparison is antisymmetric.
- **Java string methods.** `trim`, `split(",")`, `compareTo`, `lastIndexOf`, `contains`, `startsWith`, `endsWith` and an ASCII `toLowerCase` are in `JavaStrings`. When the numeric parse fails, `compareNumeric` falls back to `compareTo`.
- **Content detector.** The Tika answer is a parameter of `DetectContentType`, `None` when detection throws.

### Comments and tests that disagree with the code

Where a comment or a test disagrees with the code, the model follows the code.

- **`getValueDef` (`Heracles.java:172-182`).** The comment says a missing key throws. The code returns the default.
- **`getValueDefSafe` (`Heracles.java:184-195`).** The comment says a stored null gives the default. The code returns the stored null: `NullIsStored`.
- **`InOperatorJsonArrayTest`.** The test expects IN to accept a JSON-style array such as `["3586067540","9876543210"]`. The code splits on commas and trims, and nothing more, so the brackets and quotes stay in the tokens. A numeric smid therefore never matches such a list: `JsonArrayFilterVerdicts`, `JsonArrayTestSmid`.
- **`UserJsonFilterTest`.** The second filter of the test is named "might not work". The carried OR makes it mean the same as the first: `JsonFiltersAgree`.

## Model

Source cells are paths relative to the repository root.

| member | source | states |
|---|---|---|
| FilterFieldTypes.ValueOf | src/main/java/com/minio/model/FilterFieldType.java:3-12 | Enum.valueOf: a result names its constant; no constant has the name when the result is null |
| FilterFieldTypes.AllFieldTypesComplete | src/main/java/com/minio/model/FilterFieldType.java:3-12 | exactly nine pairwise distinct constants, SMID first and CLE_CAMPAIGN last, and every value is one of them |
| FilterFieldTypes.DisplayNameIsName | src/main/java/com/minio/model/FilterFieldType.java:3-22 | every type's display name is its constant name |
| FilterFieldTypes.ValueOfName | src/main/java/com/minio/model/FilterFieldType.java:3-12 | valueOf(name()) gives the constant back |
| FilterOperators.ValueOf | src/main/java/com/minio/model/FilterOperator.java:3-18 | Enum.valueOf: a result names its constant; null exactly when no operator has the name |
| FilterOperators.AllOperatorsComplete | src/main/java/com/minio/model/FilterOperator.java:3-18 | exactly fifteen pairwise distinct operators from EQUAL to IS_NOT_NULL, and every value is one of them |
| FilterOperators.SymbolInjective | src/main/java/com/minio/model/FilterOperator.java:3-28 | no two operators share a symbol |
| FilterOperators.NegatedSymbols | src/main/java/com/minio/model/FilterOperator.java:7-18 | the symbols of NOT_CONTAINS, NOT_IN and IS_NOT_NULL are "!" before those of CONTAINS, IN and IS_NULL |
| FilterOperators.ValueOfName | src/main/java/com/minio/model/FilterOperator.java:3-18 | valueOf(name()) gives the operator back |
| LogicalOperators.DisplayName | src/main/java/com/minio/model/LogicalOperator.java:3-15 | AND is labelled "И" and OR "ИЛИ" |
| LogicalOperators.ValueOf | src/main/java/com/minio/model/LogicalOperator.java:3-5 | valueOf succeeds exactly on "AND" and "OR", and the result names its constant |
| LogicalOperators.AllLogicalOperatorsComplete | src/main/java/com/minio/model/LogicalOperator.java:3-5 | exactly two members, AND then OR |
| LogicalOperators.DisplayNameInjective | src/main/java/com/minio/model/LogicalOperator.java:3-15 | the two labels are distinct |
| LogicalOperators.ValueOfName | src/main/java/com/minio/model/LogicalOperator.java:3-5 | valueOf(name()) gives the operator back |
| LogicalOperators.NotOrIsAnd | src/main/java/com/minio/model/LogicalOperator.java:3-5 | an operator that is not OR is AND, so an "else AND" branch is exhaustive |
| FilterConditions.FilterConditionDto.constructor | src/main/java/com/minio/dto/FilterConditionDto.java:18 | every field starts null |
| FilterConditions.FilterConditionDto.WithCriterion | src/main/java/com/minio/dto/FilterConditionDto.java:20-24 | sets field type, operator and value; id, groupId, logicalOperator and orderIndex stay null |
| FilterConditions.FilterConditionDto.SetId | src/main/java/com/minio/dto/FilterConditionDto.java:32-34 | the bean's state is the old state with only id replaced |
| FilterConditions.FilterConditionDto.SetGroupId | src/main/java/com/minio/dto/FilterConditionDto.java:40-42 | the old state with only groupId replaced |
| FilterConditions.FilterConditionDto.SetFieldType | src/main/java/com/minio/dto/FilterConditionDto.java:48-50 | the old state with only fieldType replaced |
| FilterConditions.FilterConditionDto.SetOperator | src/main/java/com/minio/dto/FilterConditionDto.java:56-58 | the old state with only operator replaced |
| FilterConditions.FilterConditionDto.SetFieldValue | src/main/java/com/minio/dto/FilterConditionDto.java:64-66 | the old state with only fieldValue replaced |
| FilterConditions.FilterConditionDto.SetLogicalOperator | src/main/java/com/minio/dto/FilterConditionDto.java:72-74 | the old state with only logicalOperator replaced; null is a legal value |
| FilterConditions.FilterConditionDto.SetOrderIndex | src/main/java/com/minio/dto/FilterConditionDto.java:80-82 | the old state with only orderIndex replaced |
| FilterGroups.FilterGroupDto.constructor | src/main/java/com/minio/dto/FilterGroupDto.java:15 | every field starts null |
| FilterGroups.FilterGroupDto.Named | src/main/java/com/minio/dto/FilterGroupDto.java:17-20 | sets only the name and the logical operator |
| FilterGroups.FilterGroupDto.SetId | src/main/java/com/minio/dto/FilterGroupDto.java:28-30 | the old state with only id replaced |
| FilterGroups.FilterGroupDto.SetGroupName | src/main/java/com/minio/dto/FilterGroupDto.java:36-38 | the old state with only groupName replaced |
| FilterGroups.FilterGroupDto.SetLogicalOperator | src/main/java/com/minio/dto/FilterGroupDto.java:44-46 | the old state with only logicalOperator replaced |
| FilterGroups.FilterGroupDto.SetOrderIndex | src/main/java/com/minio/dto/FilterGroupDto.java:52-54 | the old state with only orderIndex replaced |
| FilterGroups.FilterGroupDto.SetConditions | src/main/java/com/minio/dto/FilterGroupDto.java:60-62 | the old state with only the conditions list replaced; null and empty are both storable |
| MarketingTargetFilters.MarketingTargetFilterDto.constructor | src/main/java/com/minio/dto/MarketingTargetFilterDto.java:16 | every field starts null, isActive included |
| MarketingTargetFilters.MarketingTargetFilterDto.ForTarget | src/main/java/com/minio/dto/MarketingTargetFilterDto.java:18-22 | sets name and target id, and the filter starts active |
| MarketingTargetFilters.MarketingTargetFilterDto.SetId | src/main/java/com/minio/dto/MarketingTargetFilterDto.java:30-32 | the old state with only id replaced |
| MarketingTargetFilters.MarketingTargetFilterDto.SetMarketingTargetId | src/main/java/com/minio/dto/MarketingTargetFilterDto.java:38-40 | the old state with only the target id replaced |
| MarketingTargetFilters.MarketingTargetFilterDto.SetFilterName | src/main/java/com/minio/dto/MarketingTargetFilterDto.java:46-48 | the old state with only the name replaced |
| MarketingTargetFilters.MarketingTargetFilterDto.SetDescription | src/main/java/com/minio/dto/MarketingTargetFilterDto.java:54-56 | the old state with only the description replaced |
| MarketingTargetFilters.MarketingTargetFilterDto.SetIsActive | src/main/java/com/minio/dto/MarketingTargetFilterDto.java:62-64 | the old state with only isActive replaced |
| MarketingTargetFilters.MarketingTargetFilterDto.SetConditions | src/main/java/com/minio/dto/MarketingTargetFilterDto.java:70-72 | the old state with only the root conditions replaced; the groups are untouched |
| MarketingTargetFilters.MarketingTargetFilterDto.SetGroups | src/main/java/com/minio/dto/MarketingTargetFilterDto.java:78-80 | the old state with only the groups replaced; the root conditions are untouched |
| UserRequests.KeyToField | src/main/java/com/minio/dto/UserRequestDto.java:216-238 | the switch label a key matches, as a field whose key it is; none when no fixed field has that key |
| UserRequests.Set | src/main/java/com/minio/dto/UserRequestDto.java:41-203 | after setting a field, reading it gives the new value; every other field and the custom fields are unchanged |
| UserRequests.FixedKeyReadsField | src/main/java/com/minio/dto/UserRequestDto.java:216-238 | getFieldValue of each of the 21 fixed keys returns that field |
| UserRequests.FieldValue | src/main/java/com/minio/dto/UserRequestDto.java:216-241 | getFieldValue returns the field whose key equals the argument; a key no field has reads customFields, null without a map |
| UserRequests.KeysDistinct | src/main/java/com/minio/dto/UserRequestDto.java:216-238 | no two fields share a case label |
| UserRequests.KeyToFieldOfKey | src/main/java/com/minio/dto/UserRequestDto.java:218-238 | every field's key selects that field, so the 21 keys are distinct |
| UserRequests.OtherKeyReadsCustomFields | src/main/java/com/minio/dto/UserRequestDto.java:239-241 | any other key, lower-case spellings included, reads the custom-field map, and null when there is no map |
| UserRequests.SetThenRead | src/main/java/com/minio/dto/UserRequestDto.java:41-242 | after setX(v), the key of X reads v and every other key reads what it read before |
| UserRequests.SetCustomFieldsThenRead | src/main/java/com/minio/dto/UserRequestDto.java:209-242 | replacing the custom-field map leaves the fixed keys alone and makes every other key read the new map |
| UserRequests.EmptyRecordReadsNull | src/main/java/com/minio/dto/UserRequestDto.java:35-242 | a new record reads null for every key |
| UserRequests.FieldTypeKeys | src/main/java/com/minio/dto/UserRequestDto.java:216-241 | of the field-type names, only SMID, COUNTRY, OPERATING_SYSTEM, CLIENT_VERSION and BROWSER reach a fixed field, each its own |
| UserRequests.UserRequestDto.constructor | src/main/java/com/minio/dto/UserRequestDto.java:35 | every field starts null, customFields included |
| UserRequests.UserRequestDto.SetSmid | src/main/java/com/minio/dto/UserRequestDto.java:41-43 | the record after the call is the old record with only smid set |
| UserRequests.UserRequestDto.SetCountry | src/main/java/com/minio/dto/UserRequestDto.java:49-51 | the old record with only country set |
| UserRequests.UserRequestDto.SetOperatingSystem | src/main/java/com/minio/dto/UserRequestDto.java:57-59 | the old record with only operatingSystem set |
| UserRequests.UserRequestDto.SetClientVersion | src/main/java/com/minio/dto/UserRequestDto.java:65-67 | the old record with only clientVersion set |
| UserRequests.UserRequestDto.SetBrowser | src/main/java/com/minio/dto/UserRequestDto.java:73-75 | the old record with only browser set |
| UserRequests.UserRequestDto.SetBrowserVersion | src/main/java/com/minio/dto/UserRequestDto.java:81-83 | the old record with only browserVersion set |
| UserRequests.UserRequestDto.SetDeviceType | src/main/java/com/minio/dto/UserRequestDto.java:89-91 | the old record with only deviceType set |
| UserRequests.UserRequestDto.SetLanguage | src/main/java/com/minio/dto/UserRequestDto.java:97-99 | the old record with only language set |
| UserRequests.UserRequestDto.SetTimezone | src/main/java/com/minio/dto/UserRequestDto.java:105-107 | the old record with only timezone set |
| UserRequests.UserRequestDto.SetUserAgent | src/main/java/com/minio/dto/UserRequestDto.java:113-115 | the old record with only userAgent set |
| UserRequests.UserRequestDto.SetIpAddress | src/main/java/com/minio/dto/UserRequestDto.java:121-123 | the old record with only ipAddress set |
| UserRequests.UserRequestDto.SetSessionId | src/main/java/com/minio/dto/UserRequestDto.java:129-131 | the old record with only sessionId set |
| UserRequests.UserRequestDto.SetUserId | src/main/java/com/minio/dto/UserRequestDto.java:137-139 | the old record with only userId set |
| UserRequests.UserRequestDto.SetDeviceId | src/main/java/com/minio/dto/UserRequestDto.java:145-147 | the old record with only deviceId set |
| UserRequests.UserRequestDto.SetAppVersion | src/main/java/com/minio/dto/UserRequestDto.java:153-155 | the old record with only appVersion set |
| UserRequests.UserRequestDto.SetPlatform | src/main/java/com/minio/dto/UserRequestDto.java:161-163 | the old record with only platform set |
| UserRequests.UserRequestDto.SetCarrier | src/main/java/com/minio/dto/UserRequestDto.java:169-171 | the old record with only carrier set |
| UserRequests.UserRequestDto.SetNetworkType | src/main/java/com/minio/dto/UserRequestDto.java:177-179 | the old record with only networkType set |
| UserRequests.UserRequestDto.SetScreenResolution | src/main/java/com/minio/dto/UserRequestDto.java:185-187 | the old record with only screenResolution set |
| UserRequests.UserRequestDto.SetDeviceModel | src/main/java/com/minio/dto/UserRequestDto.java:193-195 | the old record with only deviceModel set |
| UserRequests.UserRequestDto.SetOsVersion | src/main/java/com/minio/dto/UserRequestDto.java:201-203 | the old record with only osVersion set |
| UserRequests.UserRequestDto.SetCustomFields | src/main/java/com/minio/dto/UserRequestDto.java:209-211 | the old record with only the custom-field map replaced |
| FilterEvaluation.CompareNumericAntisymmetric | src/main/java/com/minio/service/FilterEvaluationService.java:285-294 | compareNumeric(a, b) > 0 exactly when compareNumeric(b, a) < 0, and one is 0 exactly when the other is |
| FilterEvaluation.CompareNumeric | src/main/java/com/minio/service/FilterEvaluationService.java:285-294 | the Double comparison when both values parse; otherwise String.compareTo, which is 0 exactly for equal strings |
| FilterEvaluation.DottedVersionsCompareAsStrings | src/main/java/com/minio/service/FilterEvaluationService.java:285-294 | a value with two or more dots does not parse as a double, so it is compared with String.compareTo |
| FilterEvaluation.FindToken | src/main/java/com/minio/service/FilterEvaluationService.java:224-231 | the IN loop finds the record value exactly when it equals the trim of some token of split(",") |
| FilterEvaluation.TypeValueIsFieldValue | src/main/java/com/minio/service/FilterEvaluationService.java:172 | the value a condition tests is getFieldValue of its field type's name |
| FilterEvaluation.Holds | src/main/java/com/minio/service/FilterEvaluationService.java:193-258 | the switch on two present values: IS_NULL never holds, IS_NOT_NULL always does, and a STARTS_WITH or ENDS_WITH match is also a case-insensitive CONTAINS match |
| FilterEvaluation.DistributionVerdict | src/main/java/com/minio/service/FilterEvaluationService.java:264-280 | false for a null smid; an NPE exactly for a present smid and a null operator; the lookup for IN, its negation for NOT_IN, and only those two can accept |
| FilterEvaluation.ConditionVerdict | src/main/java/com/minio/service/FilterEvaluationService.java:171-259 | a null field type throws; every fault is an NPE; off the distribution field, IS_NULL holds exactly when the record value is null and IS_NOT_NULL exactly when it is present |
| FilterEvaluation.EvaluateCondition | src/main/java/com/minio/service/FilterEvaluationService.java:171-259 | evaluateCondition computes the condition verdict, faults included |
| FilterEvaluation.Verdicts | src/main/java/com/minio/service/FilterEvaluationService.java:89-113 | item k's verdict is the verdict of condition k |
| FilterEvaluation.FoldFailurePersists | src/main/java/com/minio/service/FilterEvaluationService.java:89-113 | once a condition throws, the fold throws that fault to the end |
| FilterEvaluation.FoldStep | src/main/java/com/minio/service/FilterEvaluationService.java:94-111 | one loop step: an item's own operator, or else the carried one, joins it and becomes the carried operator |
| FilterEvaluation.EvaluateConditionsWithLogicalOperators | src/main/java/com/minio/service/FilterEvaluationService.java:69-117 | the loop computes the condition-list fold, including a fault raised on the way |
| FilterEvaluation.EvaluateGroupConditions | src/main/java/com/minio/service/FilterEvaluationService.java:151-166 | a group's conditions are folded exactly as a root list |
| FilterEvaluation.GroupVerdicts | src/main/java/com/minio/service/FilterEvaluationService.java:131-143 | group k's verdict is the fold of its conditions |
| FilterEvaluation.GroupFoldFailurePersists | src/main/java/com/minio/service/FilterEvaluationService.java:131-143 | once a group throws, the group fold throws that fault to the end |
| FilterEvaluation.GroupFoldStep | src/main/java/com/minio/service/FilterEvaluationService.java:134-141 | one loop step: OR joins by disjunction, anything else (null included) by conjunction |
| FilterEvaluation.EvaluateGroupsWithLogicalOperators | src/main/java/com/minio/service/FilterEvaluationService.java:122-146 | the loop computes the group fold |
| FilterEvaluation.EvaluateFilter | src/main/java/com/minio/service/FilterEvaluationService.java:44-64 | evaluateFilter computes the filter verdict |
| FilterEvaluation.FilterVerdict | src/main/java/com/minio/service/FilterEvaluationService.java:44-64 | false for a null or inactive filter; true only for an active filter whose root block and group block both hold; a fault only from a null isActive or from one of the two blocks |
| FilterEvaluation.EvaluateFilterById | src/main/java/com/minio/service/FilterEvaluationService.java:32-39 | true exactly when the lookup found an active filter whose verdict is true; a missing filter or a failure gives false |
| FilterEvaluation.NullOrInactiveIsFalse | src/main/java/com/minio/service/FilterEvaluationService.java:44-47 | a null or inactive filter is false, whatever its conditions |
| FilterEvaluation.VerdictIsConjunction | src/main/java/com/minio/service/FilterEvaluationService.java:49-63 | an active filter holds exactly when its root block and its group block both hold |
| FilterEvaluation.FalseRootSkipsGroups | src/main/java/com/minio/service/FilterEvaluationService.java:50-54 | a false root block is the verdict, even when a group would throw |
| FilterEvaluation.CarriedIsLastExplicit | src/main/java/com/minio/service/FilterEvaluationService.java:77-111 | the carried operator is the last explicit one seen, AND when there is none |
| FilterEvaluation.FoldMatchesReference | src/main/java/com/minio/service/FilterEvaluationService.java:69-117 | the loop fold equals an independent left-to-right reference fold with each item's effective operator |
| FilterEvaluation.FoldFailsIff | src/main/java/com/minio/service/FilterEvaluationService.java:69-117 | the fold throws exactly when some item throws |
| FilterEvaluation.ConditionsFailIff | src/main/java/com/minio/service/FilterEvaluationService.java:69-117 | a condition list faults exactly when one of its conditions does |
| FilterEvaluation.NoOrLastExplicitIsAnd | src/main/java/com/minio/service/FilterEvaluationService.java:82-108 | without any OR the carried operator stays AND |
| FilterEvaluation.NoOrIsConjunction | src/main/java/com/minio/service/FilterEvaluationService.java:69-117 | a fold without OR is the conjunction of the verdicts |
| FilterEvaluation.ConditionsNoOrIsConjunction | src/main/java/com/minio/service/FilterEvaluationService.java:69-117 | a condition list without OR holds exactly when every condition holds |
| FilterEvaluation.ReferenceOrChain | src/main/java/com/minio/service/FilterEvaluationService.java:94-111 | when every effective operator after item 0 is OR, the reference fold is a disjunction |
| FilterEvaluation.OrChainIsDisjunction | src/main/java/com/minio/service/FilterEvaluationService.java:69-117 | such a fold holds exactly when some verdict holds |
| FilterEvaluation.ConditionsOrChainIsDisjunction | src/main/java/com/minio/service/FilterEvaluationService.java:69-117 | a condition list whose effective operators are OR holds exactly when some condition holds |
| FilterEvaluation.CarriedOrExample | src/main/java/com/minio/service/FilterEvaluationService.java:94-108 | [a, b(OR), c(null)] means a OR b OR c, because c reuses the OR carried from b |
| FilterEvaluation.FirstNullOperatorFoldsAsAnd | src/main/java/com/minio/service/FilterEvaluationService.java:82-85 | a missing operator on item 0 folds as AND |
| FilterEvaluation.FirstNullOperatorIsAnd | src/main/java/com/minio/service/FilterEvaluationService.java:82-85 | setting item 0's null operator to AND changes no verdict |
| FilterEvaluation.FirstGroupOperatorUnread | src/main/java/com/minio/service/FilterEvaluationService.java:127-143 | the group fold never reads group 0's operator |
| FilterEvaluation.FirstGroupOperatorIgnored | src/main/java/com/minio/service/FilterEvaluationService.java:127-143 | changing group 0's operator changes no verdict |
| FilterEvaluation.GroupFoldFailsIff | src/main/java/com/minio/service/FilterEvaluationService.java:122-146 | the group fold throws exactly when some group throws |
| FilterEvaluation.GroupsFailIff | src/main/java/com/minio/service/FilterEvaluationService.java:122-146 | a group list faults exactly when one group's conditions fault |
| FilterEvaluation.GroupFoldNoOrIsConjunction | src/main/java/com/minio/service/FilterEvaluationService.java:131-143 | without OR after group 0, the group fold is a conjunction |
| FilterEvaluation.GroupsNoOrIsConjunction | src/main/java/com/minio/service/FilterEvaluationService.java:122-146 | groups without OR hold exactly when every group holds |
| FilterEvaluation.GroupFoldAllOrIsDisjunction | src/main/java/com/minio/service/FilterEvaluationService.java:131-143 | with OR on every later group, the group fold is a disjunction |
| FilterEvaluation.GroupsAllOrIsDisjunction | src/main/java/com/minio/service/FilterEvaluationService.java:122-146 | groups all joined by OR hold exactly when some group holds |
| FilterEvaluation.NullChecks | src/main/java/com/minio/service/FilterEvaluationService.java:185-191 | a missing record value gives IS_NULL; otherwise a missing condition value gives IS_NOT_NULL |
| FilterEvaluation.IsNotNullNegatesIsNull | src/main/java/com/minio/service/FilterEvaluationService.java:185-256 | IS_NOT_NULL is always the exact negation of IS_NULL |
| FilterEvaluation.NegatedOperators | src/main/java/com/minio/service/FilterEvaluationService.java:194-240 | with both values present, NOT_EQUAL, NOT_CONTAINS, NOT_IN, >= and <= negate EQUAL, CONTAINS, IN, < and > |
| FilterEvaluation.MissingValueFailsBoth | src/main/java/com/minio/service/FilterEvaluationService.java:185-187 | a missing record value makes both an operator and its negation false |
| FilterEvaluation.GreaterIsSwappedLess | src/main/java/com/minio/service/FilterEvaluationService.java:212-222 | a > b is b < a, and a >= b is b <= a |
| FilterEvaluation.InSingleToken | src/main/java/com/minio/service/FilterEvaluationService.java:224-231 | against a list without commas, IN is equality with the trimmed list |
| FilterEvaluation.InNeedsTrimmedValue | src/main/java/com/minio/service/FilterEvaluationService.java:224-231 | the record value is not trimmed: one with leading or trailing blanks is in no list |
| FilterEvaluation.SplitJsonArray | src/main/java/com/minio/service/FilterEvaluationService.java:226 | split(",") of a three-item list gives its three items |
| FilterEvaluation.JsonArrayIsNotAList | src/main/java/com/minio/service/FilterEvaluationService.java:224-231 | a numeric value is never IN a JSON-style array of numbers, since the brackets and quotes stay in the tokens |
| FilterEvaluation.DistributionCases | src/main/java/com/minio/service/FilterEvaluationService.java:264-280 | false for a null smid; the lookup for IN and its negation for NOT_IN; false for every other operator |
| FilterEvaluation.ConditionFailsIff | src/main/java/com/minio/service/FilterEvaluationService.java:171-259 | a condition throws exactly when its field type is null, or its operator is null and the switch is reached |
| FilterService.IsVersionIff | src/main/java/com/minio/service/MarketingTargetFilterService.java:280 | the version check accepts exactly digit runs separated by single dots |
| FilterService.IsValidVersionIff | src/main/java/com/minio/service/MarketingTargetFilterService.java:274-281 | the blank pre-check adds nothing to the pattern: valid means present and version-shaped |
| FilterService.IsValidVersion | src/main/java/com/minio/service/MarketingTargetFilterService.java:274-281 | an accepted version is present, non-empty, starts and ends with a digit and holds only digits and dots |
| FilterService.AcceptedVersions | src/main/java/com/minio/service/MarketingTargetFilterService.java:279-280 | "1.0.0" and "2" are versions |
| FilterService.RejectedVersions | src/main/java/com/minio/service/MarketingTargetFilterService.java:279-280 | "", "1.", ".1", "1..2" and "v1" are not |
| FilterService.ValidateConditions | src/main/java/com/minio/service/MarketingTargetFilterService.java:202-247 | the loop reports the first condition violation, or none |
| FilterService.ValidateGroups | src/main/java/com/minio/service/MarketingTargetFilterService.java:249-272 | the loop reports the first group violation, or none |
| FilterService.ValidateFilterStructure | src/main/java/com/minio/service/MarketingTargetFilterService.java:169-200 | validateFilterStructure reports the structure issue of the filter |
| FilterService.FirstConditionIssueIff | src/main/java/com/minio/service/MarketingTargetFilterService.java:207-246 | no report exactly when every condition passes; a report is that of the first failing condition |
| FilterService.FirstGroupIssueIff | src/main/java/com/minio/service/MarketingTargetFilterService.java:254-271 | no report exactly when every group passes; a report is that of the first failing group |
| FilterService.HeaderChecksFirst | src/main/java/com/minio/service/MarketingTargetFilterService.java:170-181 | a null filter, then a blank name, then a missing target is reported before anything else |
| FilterService.RootBeforeGroups | src/main/java/com/minio/service/MarketingTargetFilterService.java:191-199 | a root-condition violation is reported whatever the groups hold |
| FilterService.ConditionsIssueNoneIff | src/main/java/com/minio/service/MarketingTargetFilterService.java:202-247 | a list passes exactly when each condition has a field type, an operator, a non-blank value unless a null check, an allowed distribution operator, and a valid version for ordered versions |
| FilterService.GroupIssueNoneIff | src/main/java/com/minio/service/MarketingTargetFilterService.java:257-270 | a group passes exactly when it has a non-blank name, an operator and a non-empty list of passing conditions |
| FilterService.AcceptedFilter | src/main/java/com/minio/service/MarketingTargetFilterService.java:169-200 | an accepted filter has a name, a target, some root condition or group, and every condition passes |
| FilterService.PassingConditionEvaluates | src/main/java/com/minio/service/MarketingTargetFilterService.java:210-216 | a condition that passes validation never throws in the evaluator |
| FilterService.PassingConditionsEvaluate | src/main/java/com/minio/service/MarketingTargetFilterService.java:207-246 | a passing condition list never throws in the evaluator |
| FilterService.AcceptedFilterEvaluates | src/main/java/com/minio/service/MarketingTargetFilterService.java:169-200 | an accepted filter with isActive set always has a verdict |
| FilterService.SortByCorrect | src/main/java/com/minio/service/MarketingTargetFilterService.java:300 | the stable sort returns a sorted permutation that keeps the relative order of equal keys |
| FilterService.RootOnly | src/main/java/com/minio/service/MarketingTargetFilterService.java:299 | keeps exactly the conditions without a group id |
| FilterService.ConvertConditionToDto | src/main/java/com/minio/service/MarketingTargetFilterService.java:325-335 | every stored field is copied into the condition DTO |
| FilterService.ConvertConditions | src/main/java/com/minio/service/MarketingTargetFilterService.java:301 | the mapped list converts each condition in place |
| FilterService.ConvertGroupToDto | src/main/java/com/minio/service/MarketingTargetFilterService.java:346-361 | id, name, operator and index are copied; conditions are present exactly when stored |
| FilterService.ConvertGroups | src/main/java/com/minio/service/MarketingTargetFilterService.java:309 | the mapped list converts each group in place |
| FilterService.ConvertToDto | src/main/java/com/minio/service/MarketingTargetFilterService.java:283-291 | the header fields are copied and both lists stay null |
| FilterService.ConvertToDtoWithDetails | src/main/java/com/minio/service/MarketingTargetFilterService.java:293-314 | convertToDto's header and the two lists present exactly when stored |
| FilterService.LoadedRootConditions | src/main/java/com/minio/service/MarketingTargetFilterService.java:297-302 | loaded root conditions have no group, are sorted by orderIndex, and are a stable permutation of the ungrouped ones |
| FilterService.RootOnlyKeepsExactlyUngrouped | src/main/java/com/minio/service/MarketingTargetFilterService.java:298-299 | a stored condition is loaded into the root list exactly when its group id is null |
| FilterService.LoadedGroupsSorted | src/main/java/com/minio/service/MarketingTargetFilterService.java:306-358 | loaded groups, and the conditions of each, are in orderIndex order |
| HeraclesContainer.FormatValue | src/main/java/com/minio/util/Heracles.java:120-149 | an enum is stored as its name and a simple value, null included, unchanged |
| HeraclesContainer.Container.IsEmpty | src/main/java/com/minio/util/Heracles.java:270-272 | empty exactly when no key is present |
| HeraclesContainer.Container.HasValue | src/main/java/com/minio/util/Heracles.java:262-264 | true exactly when getValueSafe does not throw, a stored null included |
| HeraclesContainer.Container.HasError | src/main/java/com/minio/util/Heracles.java:266-268 | with an error stored, every getValue throws it; without one, getValue is getValueSafe |
| HeraclesContainer.Container.GetValueDefSafe | src/main/java/com/minio/util/Heracles.java:189-195 | the stored value for a present key, a stored null included; the default for an absent key |
| HeraclesContainer.Container.GetValueDef | src/main/java/com/minio/util/Heracles.java:177-182 | throws exactly when an error is set, whatever the key; otherwise getValueDefSafe |
| HeraclesContainer.Container.GetValueDefNull | src/main/java/com/minio/util/Heracles.java:201-207 | throws exactly when an error is set; a stored non-null value, otherwise the default |
| HeraclesContainer.Container.GetValueDefEmpty | src/main/java/com/minio/util/Heracles.java:213-219 | a stored non-empty string; the default for an absent key, null or ""; a cast failure for a non-string |
| HeraclesContainer.Container.GetValueSafe | src/main/java/com/minio/util/Heracles.java:254-260 | throws exactly when the key is absent; otherwise the stored value |
| HeraclesContainer.Container.GetValue | src/main/java/com/minio/util/Heracles.java:224-229 | the stored error first, then getValueSafe |
| HeraclesContainer.Heracles.constructor | src/main/java/com/minio/util/Heracles.java:24 | no values and no error |
| HeraclesContainer.Heracles.WithError | src/main/java/com/minio/util/Heracles.java:26-28 | no values and the given error |
| HeraclesContainer.Heracles.SetValue | src/main/java/com/minio/util/Heracles.java:155-158 | the values map gains the key with the formatted value; the error is unchanged |
| HeraclesContainer.Heracles.SetError | src/main/java/com/minio/util/Heracles.java:168-171 | the error is replaced and the values are unchanged |
| HeraclesContainer.SetThenGet | src/main/java/com/minio/util/Heracles.java:155-182 | after setValue(k, v), k is present and reads v's formatted form; every other key reads as before |
| HeraclesContainer.NullIsStored | src/main/java/com/minio/util/Heracles.java:120-195 | a null value is stored: the key is present, reads null rather than the default, and the container is not empty |
| FilterToHeracles.ParseKeyOfKey | src/main/java/com/minio/util/FilterToHeraclesMapper.java:25-84 | every written key parses back to the slot it was written for |
| FilterToHeracles.KeyInjective | src/main/java/com/minio/util/FilterToHeraclesMapper.java:25-84 | keys for different items or fields never collide |
| FilterToHeracles.ParsesEveryKey | src/main/java/com/minio/util/FilterToHeraclesMapper.java:25-84 | the key parser inverts the key layout for all slots |
| FilterToHeracles.KeysInjective | src/main/java/com/minio/util/FilterToHeraclesMapper.java:34-80 | the key layout is injective over all slots |
| FilterToHeracles.ConditionKeyExamples | src/main/java/com/minio/util/FilterToHeraclesMapper.java:35 | root condition 0's field type is under "condition_0_fieldType" |
| FilterToHeracles.GroupKeyExamples | src/main/java/com/minio/util/FilterToHeraclesMapper.java:72-83 | "group_1_conditions_count" and "group_12_name" are the keys of those slots |
| FilterToHeracles.FlattenPut | src/main/java/com/minio/util/FilterToHeraclesMapper.java:57-65 | writing a slot writes exactly the slot's key |
| FilterToHeracles.PackedLayout | src/main/java/com/minio/util/FilterToHeraclesMapper.java:17-85 | the packed slots are exactly the layout: header fields, counts, every root condition's seven fields, every group's four fields, count and conditions |
| FilterToHeracles.PackConditionFlattens | src/main/java/com/minio/util/FilterToHeraclesMapper.java:57-65 | packCondition writes the seven keys of one condition slot |
| FilterToHeracles.PackGroupFlattens | src/main/java/com/minio/util/FilterToHeraclesMapper.java:70-85 | packGroup writes the group slot's header, count and conditions |
| FilterToHeracles.PackedFlattens | src/main/java/com/minio/util/FilterToHeraclesMapper.java:17-52 | the packed container is the flattened layout |
| FilterToHeracles.PackedReads | src/main/java/com/minio/util/FilterToHeraclesMapper.java:17-85 | a key is in the packed container exactly when its slot is in the layout, with the layout's value; enums are stored as name() or null |
| FilterToHeracles.PackedKeys | src/main/java/com/minio/util/FilterToHeraclesMapper.java:17-85 | every packed key is the key of a laid-out slot |
| FilterToHeracles.PackedHasNoCommand | src/main/java/com/minio/util/FilterToHeraclesMapper.java:17-52 | pack never writes "command" |
| FilterToHeracles.CountsAlwaysWritten | src/main/java/com/minio/util/FilterToHeraclesMapper.java:32-49 | "conditions_count" and "groups_count" are always written, 0 for a null list |
| FilterToHeracles.PackCondition | src/main/java/com/minio/util/FilterToHeraclesMapper.java:57-65 | the container gains the seven entries of one condition; the error is unchanged |
| FilterToHeracles.PackConditions | src/main/java/com/minio/util/FilterToHeraclesMapper.java:32-39 | the loop packs every condition of the list under its index |
| FilterToHeracles.PackGroup | src/main/java/com/minio/util/FilterToHeraclesMapper.java:70-85 | the container gains one group's entries |
| FilterToHeracles.Pack | src/main/java/com/minio/util/FilterToHeraclesMapper.java:17-52 | a fresh container holding exactly the packed filter, empty for null |
| FilterToHeracles.PackWithCommand | src/main/java/com/minio/util/FilterToHeraclesMapper.java:90-94 | pack plus the "command" entry |
| FilterToHeracles.PackWithCommandAddsOneKey | src/main/java/com/minio/util/FilterToHeraclesMapper.java:90-94 | packWithCommand adds "command" and changes no other key |
| HeraclesToFilter.ReadLong | src/main/java/com/minio/util/HeraclesToFilterMapper.java:77-78 | the stored error first; an absent key or null is null; a present Long is that Long |
| HeraclesToFilter.ReadInt | src/main/java/com/minio/util/HeraclesToFilterMapper.java:110 | the stored error first; an absent key or null is null; a present Integer is that Integer |
| HeraclesToFilter.ReadText | src/main/java/com/minio/util/HeraclesToFilterMapper.java:81-109 | the stored error first; an absent key or null is null; a present String is that String |
| HeraclesToFilter.ReadBool | src/main/java/com/minio/util/HeraclesToFilterMapper.java:35 | the stored error first; an absent key or null is null; a present Boolean is that Boolean |
| HeraclesToFilter.ReadCount | src/main/java/com/minio/util/HeraclesToFilterMapper.java:38-39 | an absent count is 0; a stored null count throws when unboxed |
| HeraclesToFilter.UnpackedCondition | src/main/java/com/minio/util/HeraclesToFilterMapper.java:69-113 | null exactly when the slot has neither "id" nor "fieldType" |
| HeraclesToFilter.UnpackedConditions | src/main/java/com/minio/util/HeraclesToFilterMapper.java:40-47 | the loop over n slots yields at most n conditions |
| HeraclesToFilter.UnpackedConditionList | src/main/java/com/minio/util/HeraclesToFilterMapper.java:38-48 | a list comes back only when its count was written |
| HeraclesToFilter.UnpackedGroup | src/main/java/com/minio/util/HeraclesToFilterMapper.java:118-154 | null exactly when the slot has neither "id" nor "name" |
| HeraclesToFilter.UnpackedGroups | src/main/java/com/minio/util/HeraclesToFilterMapper.java:53-60 | the loop over n slots yields at most n groups |
| HeraclesToFilter.UnpackedGroupList | src/main/java/com/minio/util/HeraclesToFilterMapper.java:51-61 | groups come back only when "groups_count" was written |
| HeraclesToFilter.Unpacked | src/main/java/com/minio/util/HeraclesToFilterMapper.java:23-64 | a null or empty container is null; a stored error is thrown; a filter comes back only from an error-free, non-empty container |
| HeraclesToFilter.GetCommand | src/main/java/com/minio/util/HeraclesToFilterMapper.java:159-161 | the stored "command" string, null when absent; a null container throws |
| HeraclesToFilter.UnpackCondition | src/main/java/com/minio/util/HeraclesToFilterMapper.java:69-113 | unpackCondition reads the condition slot as specified |
| HeraclesToFilter.ConditionFailurePersists | src/main/java/com/minio/util/HeraclesToFilterMapper.java:40-47 | a slot that throws aborts the whole list with its fault |
| HeraclesToFilter.UnpackConditionList | src/main/java/com/minio/util/HeraclesToFilterMapper.java:38-48 | the count and the loop read the condition list as specified |
| HeraclesToFilter.UnpackGroup | src/main/java/com/minio/util/HeraclesToFilterMapper.java:118-154 | unpackGroup reads the group slot as specified |
| HeraclesToFilter.GroupFailurePersists | src/main/java/com/minio/util/HeraclesToFilterMapper.java:53-60 | a group slot that throws aborts the whole list |
| HeraclesToFilter.UnpackGroupList | src/main/java/com/minio/util/HeraclesToFilterMapper.java:51-61 | the count and the loop read the group list as specified |
| HeraclesToFilter.Unpack | src/main/java/com/minio/util/HeraclesToFilterMapper.java:23-64 | unpack of a container, or of null, is the unpacked filter |
| HeraclesToFilter.ValidateFilter | src/main/java/com/minio/util/HeraclesToFilterMapper.java:177-210 | true exactly for a non-null filter with a non-blank name whose root and group conditions all have a field type and an operator |
| HeraclesToFilter.ValidFilterEvaluates | src/main/java/com/minio/util/HeraclesToFilterMapper.java:177-210 | a valid filter whose isActive is set never throws in the evaluator |
| HeraclesToFilter.AcceptedIsValid | src/main/java/com/minio/util/HeraclesToFilterMapper.java:177-210 | a filter the structural validator accepts is valid here too |
| HeraclesToFilter.ValidButNotAccepted | src/main/java/com/minio/util/HeraclesToFilterMapper.java:177-210 | the converse fails: a named filter without a target is valid here but rejected by the structural validator |
| HeraclesToFilter.PackedHoldsLayout | src/main/java/com/minio/util/FilterToHeraclesMapper.java:17-85 | the packed container of a filter holds the filter's layout without error |
| HeraclesToFilter.ConditionRead | src/main/java/com/minio/util/HeraclesToFilterMapper.java:77-110 | each key of a laid-out condition slot is present and reads the packed entry |
| HeraclesToFilter.ConditionRoundTrip | src/main/java/com/minio/util/HeraclesToFilterMapper.java:69-113 | a laid-out condition is read back exactly, enums included |
| HeraclesToFilter.ConditionsFromSlots | src/main/java/com/minio/util/HeraclesToFilterMapper.java:40-47 | slots that each read back a condition give the list of those conditions in order |
| HeraclesToFilter.ConditionListRoundTrip | src/main/java/com/minio/util/HeraclesToFilterMapper.java:38-48 | a laid-out condition list comes back in order, an empty list as null |
| HeraclesToFilter.GroupRead | src/main/java/com/minio/util/HeraclesToFilterMapper.java:126-138 | each key of a laid-out group slot is present and reads the packed entry |
| HeraclesToFilter.GroupRoundTrip | src/main/java/com/minio/util/HeraclesToFilterMapper.java:118-154 | a laid-out group comes back, its empty condition list as null |
| HeraclesToFilter.GroupsFromSlots | src/main/java/com/minio/util/HeraclesToFilterMapper.java:53-60 | slots that each read back a group give the list of those groups in order |
| HeraclesToFilter.GroupListRoundTrip | src/main/java/com/minio/util/HeraclesToFilterMapper.java:51-61 | a laid-out group list comes back in order, an empty list as null |
| HeraclesToFilter.UnpackLayout | src/main/java/com/minio/util/HeraclesToFilterMapper.java:23-64 | a container holding a filter's layout unpacks to the filter with empty lists made null |
| HeraclesToFilter.RoundTrip | src/main/java/com/minio/util/HeraclesToFilterMapper.java:23-64 | unpack(pack(f)) is f with every empty list made null: header fields, order and lengths are kept |
| HeraclesToFilter.NullRoundTrip | src/main/java/com/minio/util/HeraclesToFilterMapper.java:24-26 | unpack(pack(null)) and unpack(null) are null |
| HeraclesToFilter.CanonicalRoundTrip | src/main/java/com/minio/util/HeraclesToFilterMapper.java:23-64 | a filter without empty lists comes back unchanged |
| HeraclesToFilter.EmptyListComesBackNull | src/main/java/com/minio/util/HeraclesToFilterMapper.java:38-48 | an empty root list is written with count 0 and comes back null |
| HeraclesToFilter.ValidityRoundTrips | src/main/java/com/minio/util/HeraclesToFilterMapper.java:177-210 | a filter is valid exactly when what comes back from the container is |
| HeraclesToFilter.SkippedSlot | src/main/java/com/minio/util/HeraclesToFilterMapper.java:71-73 | a slot with neither "id" nor "fieldType" adds nothing to the list |
| HeraclesToFilter.EnumNamesDecode | src/main/java/com/minio/util/HeraclesToFilterMapper.java:81-107 | an enum field is set exactly when a valid name is stored; an unknown name leaves it null without failing |
| HeraclesToFilter.CommandRoundTrip | src/main/java/com/minio/util/HeraclesToFilterMapper.java:159-161 | getCommand of packWithCommand returns the command, and of pack returns null |
| HeraclesToFilter.PackedHasFilterData | src/main/java/com/minio/util/HeraclesToFilterMapper.java:166-172 | a packed container has filter data exactly when a filter was packed |
| HeraclesToFilter.HasFilterData | src/main/java/com/minio/util/HeraclesToFilterMapper.java:166-172 | filter data implies a non-null, non-empty container; a container holding conditions_count has filter data |
| MinioFileResources.ExtensionType | src/main/java/com/minio/controller/FileResourceController.java:177-214 | octet-stream exactly for an extension the switch does not list |
| MinioFileResources.DetermineContentTypeFromExtension | src/main/java/com/minio/controller/FileResourceController.java:166-215 | octet-stream for a null or empty name, otherwise the type of the extension |
| MinioFileResources.Extension | src/main/java/com/minio/controller/FileResourceController.java:171-175 | "" when the last dot is missing or first; otherwise the text after the last dot, with no dot in it and already lower-case |
| MinioFileResources.DetectContentType | src/main/java/com/minio/controller/FileResourceController.java:140-159 | a failed detection gives the extension type; a generic detected type yields to a specific extension type; any other detected type wins |
| MinioFileResources.OctetStreamIsLastResort | src/main/java/com/minio/controller/FileResourceController.java:140-159 | octet-stream comes out only when the extension gives nothing and the detector gave octet-stream or failed |
| MinioFileResources.LastDotIgnoresCase | src/main/java/com/minio/controller/FileResourceController.java:171-174 | lower-casing keeps the last dot in place |
| MinioFileResources.ExtensionIgnoresCase | src/main/java/com/minio/controller/FileResourceController.java:171-175 | the extension of a lower-cased name is the extension of the name |
| MinioFileResources.CaseInsensitive | src/main/java/com/minio/controller/FileResourceController.java:171-214 | the name's case does not change the type |
| MinioFileResources.LastExtensionCounts | src/main/java/com/minio/controller/FileResourceController.java:171-175 | only the lower-cased text after the last dot counts |
| MinioFileResources.NoExtension | src/main/java/com/minio/controller/FileResourceController.java:171-175 | a name without a dot, or whose only dot is first, is octet-stream |
| MinioFileResources.UpperCaseExample | src/main/java/com/minio/controller/FileResourceController.java:174 | "A.JPG" is image/jpeg |
| MinioFileResources.DoubleExtensionExample | src/main/java/com/minio/controller/FileResourceController.java:172 | "x.tar.gz" is application/gzip |
| MinioFileResources.OctetStreamExamples | src/main/java/com/minio/controller/FileResourceController.java:171-214 | "noext", ".bashrc" and "file.xyz" are octet-stream |
| MinioFileResources.Synonyms | src/main/java/com/minio/controller/FileResourceController.java:177-214 | jpg/jpeg, doc/docx, xls/xlsx, ppt/pptx and html/htm share a type |
| PeretynFileResources.ExtensionType | src/main/java/com/peretyn/controller/FileResourceController.java:181-250 | octet-stream exactly for an extension no case label lists |
| PeretynFileResources.DetermineContentTypeFromExtension | src/main/java/com/peretyn/controller/FileResourceController.java:168-250 | octet-stream for a null or empty name, otherwise the type of the lower-cased extension after a dot past index 0 |
| PeretynFileResources.DetectContentType | src/main/java/com/peretyn/controller/FileResourceController.java:142-162 | a failed detection gives the extension type; a generic detected type yields to a specific extension type |
| PeretynFileResources.ExtensionTablesAgree | src/main/java/com/peretyn/controller/FileResourceController.java:181-250 | the fall-through table gives every extension the type the com.minio switch gives |
| PeretynFileResources.AgreesWithMinio | src/main/java/com/peretyn/controller/FileResourceController.java:142-250 | both controllers type every upload alike, whatever the detector answers |
| EvaluationScenarios.VersionComparisonAcceptsNewer | src/test/java/com/minio/service/ComprehensiveFilterEvaluationTest.java:236-265 | version > "2.0.0" accepts "2.2.1" |
| EvaluationScenarios.VersionComparisonAcceptsMajor | src/test/java/com/minio/service/ComprehensiveFilterEvaluationTest.java:236-265 | and accepts "3.0.0" |
| EvaluationScenarios.VersionComparisonRejectsEqual | src/test/java/com/minio/service/ComprehensiveFilterEvaluationTest.java:236-265 | and rejects "2.0.0" |
| EvaluationScenarios.VersionComparisonRejectsOlder | src/test/java/com/minio/service/ComprehensiveFilterEvaluationTest.java:236-265 | and rejects "1.9.9" |
| EvaluationScenarios.CountryEquals | src/test/java/com/minio/service/ComprehensiveFilterEvaluationTest.java:908-991 | COUNTRY EQUAL v holds exactly for users from v |
| EvaluationScenarios.VersionRangeVerdict | src/test/java/com/minio/service/ComprehensiveFilterEvaluationTest.java:908-991 | the root block accepts exactly dotted versions from "2.0.0" to "2.5.0" in string order |
| EvaluationScenarios.EuCountriesVerdict | src/test/java/com/minio/service/ComprehensiveFilterEvaluationTest.java:908-991 | the first group accepts exactly UA, DE, FR and IT |
| EvaluationScenarios.NaCountriesVerdict | src/test/java/com/minio/service/ComprehensiveFilterEvaluationTest.java:908-991 | the second group accepts exactly US and CA |
| EvaluationScenarios.AdvancedRegion | src/test/java/com/minio/service/ComprehensiveFilterEvaluationTest.java:908-991 | the whole filter accepts exactly versions in range from the six countries |
| EvaluationScenarios.AdvancedRegionAcceptsUkraine | src/test/java/com/minio/service/ComprehensiveFilterEvaluationTest.java:411-488 | UA with "2.2.2" is accepted |
| EvaluationScenarios.AdvancedRegionAcceptsGermany | src/test/java/com/minio/service/ComprehensiveFilterEvaluationTest.java:411-488 | DE with "2.0.0" is accepted |
| EvaluationScenarios.AdvancedRegionAcceptsFrance | src/test/java/com/minio/service/ComprehensiveFilterEvaluationTest.java:411-488 | FR with "2.5.0" is accepted |
| EvaluationScenarios.AdvancedRegionAcceptsItaly | src/test/java/com/minio/service/ComprehensiveFilterEvaluationTest.java:411-488 | IT with "2.3.1" is accepted |
| EvaluationScenarios.AdvancedRegionAcceptsUnitedStates | src/test/java/com/minio/service/ComprehensiveFilterEvaluationTest.java:411-488 | US with "2.1.5" is accepted |
| EvaluationScenarios.AdvancedRegionAcceptsCanada | src/test/java/com/minio/service/ComprehensiveFilterEvaluationTest.java:411-488 | CA with "2.4.9" is accepted |
| EvaluationScenarios.AdvancedRegionRejectsOldVersion | src/test/java/com/minio/service/ComprehensiveFilterEvaluationTest.java:411-488 | UA with "1.9.9" is rejected |
| EvaluationScenarios.AdvancedRegionRejectsNewVersion | src/test/java/com/minio/service/ComprehensiveFilterEvaluationTest.java:411-488 | DE with "2.5.1" is rejected |
| EvaluationScenarios.AdvancedRegionRejectsRussia | src/test/java/com/minio/service/ComprehensiveFilterEvaluationTest.java:411-488 | RU is rejected |
| EvaluationScenarios.AdvancedRegionRejectsBelarus | src/test/java/com/minio/service/ComprehensiveFilterEvaluationTest.java:411-488 | BY is rejected |
| EvaluationScenarios.AdvancedRegionRejectsChina | src/test/java/com/minio/service/ComprehensiveFilterEvaluationTest.java:411-488 | CN is rejected |
| EvaluationScenarios.JsonFiltersAgree | src/test/java/com/minio/service/UserJsonFilterTest.java:38-197 | "RU, DE(OR)" and "RU(OR), DE" both mean version "2.2.2" and (RU or DE) |
| EvaluationScenarios.JsonArrayFilterVerdicts | src/test/java/com/minio/service/InOperatorJsonArrayTest.java:31-111 | with a JSON-style array, IN is false and NOT_IN true for every numeric smid |
| EvaluationScenarios.JsonArrayTestSmid | src/test/java/com/minio/service/InOperatorJsonArrayTest.java:31-57 | the smid the test expects to be IN the array is not, as the code is written |

## Left out

- **HTTP controllers, repositories, JPA entities and object-storage I/O.** They only route requests, persist data and move bytes, so they are outside the model.
  - This covers the save, update and delete loops of the filter service, name-uniqueness checks and the file upload and download endpoints.
  - `evaluateFilter(Long, user)` looks a filter up and catches failures. Its lookup is the `Lookup` parameter of `EvaluateFilterById`.
- **Outside libraries.** Three are parameters of the model, in the `Oracles` value, with no definition of their own:
  - `Double.parseDouble` and `Double.compare` inside `compareNumeric`;
  - the REGEX operator's `String.matches`, along with its compile errors;
  - the distribution-groups-file lookup.
- **Tika.** `Tika.detect` is a parameter of `DetectContentType`.
- **Version check.** The version check of `isValidVersion` is written as its own predicate rather than as a regex.
- **Lower-casing.** `toLowerCase` lower-cases ASCII letters only. `toLowerCase`, `contains`, `startsWith` and `endsWith` are written over UTF-16 chars without locale rules.
- **Integer widths.** They are not modelled. Java `Long` and `Integer` fields are unbounded `int`s, and counts and indices never overflow.
- **Null elements.** Null elements inside a condition or group list, and a null user record, are not modelled. The source would throw on them.
- **Aliasing of nested beans.** A DTO's list fields hold datatype snapshots of the nested DTOs, so a later change to a nested bean through another reference is not seen.
- **Heracles.** Only the `values` map, its error and the accessors are modelled. The following depend on reflection and on helper classes that are not part of this model:
  - the reflective constructor and `buildHeracles`;
  - `getFormattedMap` and `getFormattedList` for nested objects;
  - Base64 `getValueBytes`;
  - `equals`, `hashCode` and `toString`.
- **`FormatValue`.** Maps, iterables, `byte[]` (Base64) and other beans (wrapped in a nested `Heracles`) are not modelled: `Argument` holds simple values and enum constants only.
- **`UserRequestHeraclesMapper`.** It is not part of this model. As written it calls a `getData()` method that `Heracles` does not define.
- **Debug output.** The evaluator's console output is not modelled.
- **Demo and extra tests.** `MarketingTargetFilterHeraclesExample` and `SimpleJsonComparisonTest` are not part of this model.
- **`InOperatorJsonArrayTest`.** Its expectation that IN understands JSON arrays is not a requirement of the model. The lemmas above show that the code does not meet it.
- HeraclesToFilter.UnpackedConditions: its own contract only bounds the length; the contents are stated by `ConditionsFromSlots` and the round-trip lemmas.
- HeraclesToFilter.UnpackedGroups: likewise, the contents are stated by `GroupsFromSlots` and the round-trip lemmas.
