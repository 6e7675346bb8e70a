# Boolean spatial query engine — Dafny model

This project models the query engine of a small system that answers boolean
spatial queries over labelled 2D points. Each stored point has coordinates, a
category and a group id. A query document names a *valid region* and a query
tree. The tree's leaves are *crops*: a box, an optional category, an optional
list of groups, and an optional *proper* flag, which keeps only groups lying
wholly inside the valid region. Inner nodes are AND (intersection) and OR
(union).

Modules, one per source file:

- `Types` (`include/types.hpp`): `Point2D` and its y-then-x order `Less`;
  `Region` and its inclusive `Contains`. Coordinates are integers because the
  source only compares them.
- `QueryAst` (`include/json_parser.hpp`): `CropQuery` and the tagged
  `QueryNode`, written as a tag plus two payload sequences like the C++ struct.
  `WellFormed` states the tag/payload rule. `CropsPresent` is the weaker
  condition evaluation needs: every Crop node has a first crop.
- `JsonParser` (`include/json_parser.cpp`): an abstract `Json` value and the
  parser. It returns a `Result`: a missing key or a wrong type gives
  `Malformed`, and a node with no operator key gives `UnknownOperator`. Encoders
  from each parsed value back to a document give round-trip lemmas.
- `Builder` (`include/query_builder.cpp`): the store is a sequence of `Row`s.
  Each SQL statement is modelled as the predicate it denotes over those rows.
  `ProperGroups`, `CropResult` and `Eval` are the specifications. The class
  `QueryBuilder` holds the store snapshot and the valid region, both fixed at
  construction. Its loop-based methods are proved equal to those
  specifications. In GetProperGroups and ExecCrop the row loop scans the store
  and inserts the rows that the statement's WHERE clause selects.

Choices the code makes where other behaviour was possible. The model follows
the code:

- Two or more operator keys in one node: the first match wins, in the order
  `operator_crop`, `operator_and`, `operator_or`.
- An inverted box (min above max) is accepted by the parser and then matches
  no point.
- A group with no rows is never proper. The SQL only sees groups that have at
  least one row inside the valid region.
- When `query` is missing from the document, the non-const lookup yields null,
  so the failure is `UnknownOperator`, not a missing-field error.

Two places where the code departs from its evident intent (see Findings):

- `get_proper_groups` never returns its set. The model uses the intended
  return value.
- The `one_of_groups` condition is never added to the WHERE clause. The model
  includes the intended conjunct `InGroups`, and `RowMatchesAsWritten` records
  the clause as the code builds it.

## Model

| member | source | states |
|---|---|---|
| Types.Less | include/types.hpp:5-7 | `operator<`: a point precedes only a different point with y no larger than its own, and a smaller y always precedes |
| Types.Contains | include/types.hpp:12-14 | the inclusive box test; a box that contains any point is not inverted on either axis |
| Types.LessIrreflexive | include/types.hpp:5-7 | no point precedes itself |
| Types.LessTransitive | include/types.hpp:5-7 | the point order is transitive |
| Types.LessEquivalenceIsEquality | include/types.hpp:3-7 | two points are equivalent under the order iff both coordinates are equal, and the order is total; so ordered-set deduplication is by coordinates only |
| Types.LessYDominates | include/types.hpp:6 | a smaller y precedes whatever the x values |
| Types.CornersContained | include/types.hpp:12-14 | all four bounds are inclusive: the four corners of a box are inside it |
| Types.InvertedRegionIsEmpty | include/types.hpp:10-14 | a box with min above max on some axis contains no point; nothing is normalised |
| QueryAst.WellFormed | include/json_parser.hpp:16-20 | the tag/payload rule (Crop: one crop and no children; And/Or: no crops, well-formed children); a tree obeying it can be evaluated, because every Crop node has the crop that evaluation reads |
| JsonParser.ParseRegion | include/json_parser.cpp:4-11 | succeeds iff p_min.x, p_min.y, p_max.x and p_max.y are all present numbers; they become min_x, min_y, max_x and max_y in that order, never swapped |
| JsonParser.ParseIntList | include/json_parser.cpp:19-21 | a group list parses iff every element is a number, giving one id per element in order |
| JsonParser.ParseGroups | include/json_parser.cpp:19-20 | `one_of_groups` parses iff it is an array of numbers, giving one group id per element in order |
| JsonParser.ParseCrop | include/json_parser.cpp:13-26 | the region is required; category is set iff its key is present; one_of_groups is set iff its key is present, and then holds the listed ids; proper is true iff the key is present and true, so it defaults to false; a present key of the wrong type fails |
| JsonParser.ParseQuery | include/json_parser.cpp:28-47 | first-match dispatch: with operator_crop present the node is Crop, holding exactly its one crop, even if other keys are present; otherwise operator_and gives And and beats operator_or; with none of the three keys the result is UnknownOperator; a success is always well formed |
| JsonParser.ParseChildren | include/json_parser.cpp:33-42 | the children loop succeeds iff every element parses; the children are those parses, one per element in array order, and each is well formed; a non-array operand fails |
| JsonParser.ParseFull | include/json_parser.cpp:56-59 | succeeds iff both valid_region and query are present and parse; returns them as the pair (valid, query); a missing query fails as an unknown operator |
| JsonParser.ParsedChildrenInOrder | include/json_parser.cpp:33-42 | a parsed And/Or node has no crops and one child per element of its operator's array, each the parse of that element, in order |
| JsonParser.ChildFailureFailsNode | include/json_parser.cpp:33-44 | a failure in any element of the chosen operand fails the whole node, so no partial tree is built |
| JsonParser.RegionRoundTrip | include/json_parser.cpp:4-11 | every region parses back from its document |
| JsonParser.IntListRoundTrip | include/json_parser.cpp:19-21 | every group list parses back from its array |
| JsonParser.CropRoundTrip | include/json_parser.cpp:13-26 | every crop parses back from its document, with category, one_of_groups and proper each present or absent; an absent proper parses as false |
| JsonParser.ChildrenRoundTrip | include/json_parser.cpp:35-42 | an array whose elements parse to given children yields exactly those children, in order |
| JsonParser.QueryRoundTrip | include/json_parser.cpp:28-47 | every well-formed tree parses back from its document, including crops and child order |
| JsonParser.FullRoundTrip | include/json_parser.cpp:56-59 | every (valid region, well-formed tree) pair parses back from its document |
| Builder.ProperGroups | include/query_builder.cpp:7-17 | the proper-groups statement; every group it reports has a stored row inside the valid region |
| Builder.InsideCountMatchesTotal | include/query_builder.cpp:7-17 | a group's inside count never exceeds its total count, and the two are equal iff every row of the group is inside the valid region |
| Builder.ProperGroupsMeaning | include/query_builder.cpp:5-28 | a group is in the proper set iff it has a stored row and every stored row of it lies inside the valid region; the crop's region plays no part |
| Builder.QueryBuilder.GetProperGroups | include/query_builder.cpp:5-28 | the row loop returns exactly the groups the HAVING statement selects, and each of them is proper |
| Builder.RowMatches | include/query_builder.cpp:37-69 | the intended WHERE clause of exec_crop: a row is selected iff the clause as built selects it and its group is in the list when a list is set |
| Builder.CropResult | include/query_builder.cpp:30-87 | the points one crop selects; all are stored points, and none is outside what the clause as built returns |
| Builder.CropResultMeaning | include/query_builder.cpp:30-87 | a point is in a crop's result iff some stored row at that point lies inside the crop's box (inclusive), has the category if set, is in a listed group if a list is set, and belongs to a proper group if proper is set |
| Builder.NoProperGroupSelectsNothing | include/query_builder.cpp:60-62 | asking for properness when no group is proper selects nothing |
| Builder.QueryBuilder.ExecCrop | include/query_builder.cpp:30-87 | the row loop returns exactly the crop's result; its ghost count of store statements is one for the proper-groups statement when proper is set plus one for the point selection, which is skipped (only one statement, empty result) when proper is set and no group is proper |
| Builder.Eval | include/query_builder.cpp:89-118 | every query result is a subset of the stored points |
| Builder.QueryBuilder.Execute | include/query_builder.cpp:89-118 | the tree walk (a Crop node evaluates its first crop, the running intersection for And, the union loop for Or) returns exactly Eval of the tree |
| Builder.AndMeaning | include/query_builder.cpp:94-109 | a point is in an And result iff the node has children and the point is in every child's result; so an And without children is empty |
| Builder.OrMeaning | include/query_builder.cpp:110-114 | a point is in an Or result iff it is in some child's result; so an Or without children is empty |
| Builder.ChildOrderIrrelevant | include/query_builder.cpp:94-114 | permuting the children of an And or Or node does not change its result |
| Builder.OrOfTwo | include/query_builder.cpp:110-114 | an Or of two subtrees is the union of their results |
| Builder.AndOfTwo | include/query_builder.cpp:97-109 | an And of two subtrees is the intersection of their results |
| Builder.ProperExample | include/query_builder.cpp:60-68 | with rows (1,1) and (2,2) in group 1 and (9,9) in group 2, and valid region (0,0)-(5,5): only group 1 is proper, and a crop with only proper set returns exactly group 1's points |
| Builder.ProperGroupsLostAsWritten | include/query_builder.cpp:25-28 | as written, get_proper_groups returns no value, although the set it fills for the example is {1} |
| Builder.GroupListIgnoredAsWritten | include/query_builder.cpp:49-57 | as written, a crop with an empty group list (no extra bound parameter) returns both points (1,1) and (2,2) in its box; the intended result is empty |
| Builder.QueryBuilder.constructor | include/query_builder.hpp:13 | the store and the valid region are fixed when the builder is made |

## Left out

- File and command-line handling: `loader/main.cpp`, `query/main.cpp`, and the
  file opening and `json::parse` in `parse_full`. These are I/O.
- Output formatting: result points are sets. The y-then-x listing order and the
  six-digit decimal output are not modelled as a sequence; `Less` is the order
  that listing uses.
- Floating point: coordinates are unbounded integers, and NaN cannot occur. As
  a result, `std::to_string` rounding the crop bounds to six decimals when
  binding them (`include/query_builder.cpp:38-41`) is not modelled.
- Integer widths: category is `int` and group ids are `int64_t` in the source.
  The model uses unbounded integers.
- The SQL text, `pqxx` calls, placeholder numbering and `ORDER BY`. Each
  statement is modelled by the predicate it denotes over the row sequence.
  Store failures (an unreachable server, a rejected statement) are not
  modelled: the abstract store always answers.
- With a non-empty `one_of_groups`, the list's parameters are bound but no
  placeholder uses them (`include/query_builder.cpp:50-57`), and PostgreSQL
  rejects such a statement. That failure is not modelled; the model records
  the missing condition, shown on an empty list, and uses the intended filter.
- JSON coercions: `get<double>` and `get<int>` accepting booleans or
  truncating floats, and iteration over a non-array operand (an object's
  values, or nothing for null). The model fails closed on any type mismatch.
- Undefined behaviour: a const `operator[]` on a missing key in the source has
  no defined result. The model fails with `Malformed` there.
- The reference to the valid region held by the builder (`const Region&`): the
  model keeps a copy, so aliasing is not modelled.

## Findings

| source | as written | input that shows it | evidently intended | confidence | as-written member | corrected member |
|---|---|---|---|---|---|---|
| include/query_builder.cpp:25-28 | `get_proper_groups` fills `proper` but ends without a `return`, which is undefined behaviour for its caller in `exec_crop` | any crop with `"proper": true`, e.g. rows (1,1,g1), (2,2,g1), (9,9,g2) and valid region (0,0)-(5,5) | return the collected set, here {1} | high that the return is missing; not executed | Builder.ProperGroupsLostAsWritten | Builder.QueryBuilder.GetProperGroups |
| include/query_builder.cpp:49-57 | the `one_of_groups` block binds the ids but never adds `group_id IN (...)` to the conditions, so the group list does not filter | rows (1,1,g1) and (2,2,g2), crop box (0,0)-(5,5) with `one_of_groups: []`: no parameter is bound for the list, the statement is well formed, and both (1,1) and (2,2) are returned | only rows whose group is listed, here none | high that the condition is absent; not executed | Builder.GroupListIgnoredAsWritten | Builder.RowMatches |
