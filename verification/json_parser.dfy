/**
 * QueryParser of include/json_parser.cpp: from a JSON document to the valid
 * region and the query tree.
 *
 * JSON is an abstract value type. A missing key or a value of the wrong type
 * fails the whole parse (the source throws); nothing is partially built.
 */
module JsonParser {
  import opened Wrappers
  import opened Types
  import opened QueryAst

  datatype Json =
    | JNull
    | JBool(b: bool)
    | JNum(n: int)
    | JStr(s: string)
    | JArr(items: seq<Json>)
    | JObj(fields: map<string, Json>)

  /** Malformed: a key is missing or holds the wrong type; UnknownOperator: no operator key. */
  datatype ParseError = Malformed(key: string) | UnknownOperator

  /** `j.contains(key)`, which is false for anything but an object. */
  predicate Has(j: Json, key: string) {
    j.JObj? && key in j.fields
  }

  /** A key that must be present (const `operator[]` on a missing key has no defined value). */
  function Get(j: Json, key: string): Result<Json, ParseError> {
    if Has(j, key) then Ok(j.fields[key]) else Err(Malformed(key))
  }

  /** Non-const `operator[]`: a missing key reads as null. */
  function Lookup(j: Json, key: string): Json {
    if Has(j, key) then j.fields[key] else JNull
  }

  /** `j[key].get<double>()` and `j[key].get<int>()` on numbers only. */
  function GetNumber(j: Json, key: string): Result<int, ParseError> {
    var v :- Get(j, key);
    if v.JNum? then Ok(v.n) else Err(Malformed(key))
  }

  /** `j[outer][inner]` is present and a number. */
  predicate HasNumber(j: Json, outer: string, inner: string) {
    Has(j, outer) && Has(j.fields[outer], inner) && j.fields[outer].fields[inner].JNum?
  }

  function NumberAt(j: Json, outer: string, inner: string): int
    requires HasNumber(j, outer, inner)
  {
    j.fields[outer].fields[inner].n
  }

  /**
   * parse_region: p_min.x, p_min.y, p_max.x and p_max.y become min_x, min_y,
   * max_x and max_y, each from its own key, with no reordering of min and max.
   */
  function ParseRegion(j: Json): (r: Result<Region, ParseError>)
    ensures r.Ok? <==>
      HasNumber(j, "p_min", "x") && HasNumber(j, "p_min", "y") &&
      HasNumber(j, "p_max", "x") && HasNumber(j, "p_max", "y")
    ensures r.Ok? ==>
      r.value.minX == NumberAt(j, "p_min", "x") && r.value.minY == NumberAt(j, "p_min", "y") &&
      r.value.maxX == NumberAt(j, "p_max", "x") && r.value.maxY == NumberAt(j, "p_max", "y")
  {
    var pMin :- Get(j, "p_min");
    var pMax :- Get(j, "p_max");
    var minX :- GetNumber(pMin, "x");
    var minY :- GetNumber(pMin, "y");
    var maxX :- GetNumber(pMax, "x");
    var maxY :- GetNumber(pMax, "y");
    Ok(Region(minX, minY, maxX, maxY))
  }

  /** `get<std::vector<int64_t>>()` on the items of an array: every item must be a number. */
  function ParseIntList(items: seq<Json>): (r: Result<seq<int>, ParseError>)
    ensures r.Ok? <==> forall i :: 0 <= i < |items| ==> items[i].JNum?
    ensures r.Ok? ==> |r.value| == |items| && forall i :: 0 <= i < |items| ==> items[i] == JNum(r.value[i])
  {
    if items == [] then
      Ok([])
    else if !items[0].JNum? then
      Err(Malformed("one_of_groups"))
    else
      var rest :- ParseIntList(items[1..]);
      Ok([items[0].n] + rest)
  }

  /** `one_of_groups`: an array of numbers, one group id per element in order. */
  function ParseGroups(j: Json): (r: Result<seq<int>, ParseError>)
    ensures r.Ok? <==> j.JArr? && forall i :: 0 <= i < |j.items| ==> j.items[i].JNum?
    ensures r.Ok? ==> |r.value| == |j.items| && forall i :: 0 <= i < |j.items| ==> j.items[i] == JNum(r.value[i])
  {
    if j.JArr? then ParseIntList(j.items) else Err(Malformed("one_of_groups"))
  }

  /**
   * parse_crop: the region is required; `category` and `one_of_groups` are set
   * exactly when their keys are present; `proper` comes from its key and is
   * false without it. A present key of the wrong type fails the crop.
   */
  function ParseCrop(j: Json): (r: Result<CropQuery, ParseError>)
    ensures r.Ok? <==>
      Has(j, "region") && ParseRegion(j.fields["region"]).Ok? &&
      (Has(j, "category") ==> j.fields["category"].JNum?) &&
      (Has(j, "one_of_groups") ==> ParseGroups(j.fields["one_of_groups"]).Ok?) &&
      (Has(j, "proper") ==> j.fields["proper"].JBool?)
    ensures r.Ok? ==> ParseRegion(j.fields["region"]) == Ok(r.value.region)
    ensures r.Ok? ==> r.value.category == if Has(j, "category") then Some(j.fields["category"].n) else None
    ensures r.Ok? ==> (r.value.oneOfGroups.Some? <==> Has(j, "one_of_groups"))
    ensures r.Ok? && Has(j, "one_of_groups") ==>
      |r.value.oneOfGroups.value| == |j.fields["one_of_groups"].items| &&
      forall i :: 0 <= i < |r.value.oneOfGroups.value| ==>
        j.fields["one_of_groups"].items[i] == JNum(r.value.oneOfGroups.value[i])
    ensures r.Ok? ==> (r.value.proper <==> Has(j, "proper") && j.fields["proper"] == JBool(true))
  {
    var regionDoc :- Get(j, "region");
    var region :- ParseRegion(regionDoc);
    var category :-
      if !Has(j, "category") then Ok(None)
      else if j.fields["category"].JNum? then Ok(Some(j.fields["category"].n))
      else Err(Malformed("category"));
    var groups :-
      if !Has(j, "one_of_groups") then Ok(None)
      else var g :- ParseGroups(j.fields["one_of_groups"]); Ok(Some(g));
    var proper :-
      if !Has(j, "proper") then Ok(false)
      else if j.fields["proper"].JBool? then Ok(j.fields["proper"].b)
      else Err(Malformed("proper"));
    Ok(CropQuery(region, category, groups, proper))
  }

  /**
   * parse_query: first match among operator_crop, operator_and and
   * operator_or decides the node type, whatever other keys are present.
   * A Crop node holds exactly its one parsed crop; an And or Or node holds one
   * child per array element, in order. No operator key fails with
   * UnknownOperator, and a failure anywhere below fails the whole node.
   */
  function ParseQuery(j: Json): (r: Result<QueryNode, ParseError>)
    decreases j, 0
    ensures r.Ok? ==> WellFormed(r.value)
    ensures Has(j, "operator_crop") ==>
      (r.Ok? <==> ParseCrop(j.fields["operator_crop"]).Ok?) &&
      (r.Ok? ==> r.value == QueryNode(Crop, [ParseCrop(j.fields["operator_crop"]).value], []))
    ensures !Has(j, "operator_crop") && Has(j, "operator_and") && r.Ok? ==> r.value.kind == And
    ensures !Has(j, "operator_crop") && !Has(j, "operator_and") && Has(j, "operator_or") && r.Ok? ==>
      r.value.kind == Or
    ensures !Has(j, "operator_crop") && !Has(j, "operator_and") && !Has(j, "operator_or") ==>
      r == Err(UnknownOperator)
  {
    if Has(j, "operator_crop") then
      var crop :- ParseCrop(j.fields["operator_crop"]);
      Ok(QueryNode(Crop, [crop], []))
    else if Has(j, "operator_and") then
      var children :- ParseChildren(j.fields["operator_and"], "operator_and", 0);
      Ok(QueryNode(And, [], children))
    else if Has(j, "operator_or") then
      var children :- ParseChildren(j.fields["operator_or"], "operator_or", 0);
      Ok(QueryNode(Or, [], children))
    else
      Err(UnknownOperator)
  }

  /**
   * The `for (child : ...) children.push_back(parse_query(child))` loop, from
   * element i on: the children are the parses of the elements in array order,
   * and the first failing element fails the list. A non-array operand fails.
   */
  function ParseChildren(arr: Json, key: string, i: nat): (r: Result<seq<QueryNode>, ParseError>)
    requires arr.JArr? ==> i <= |arr.items|
    decreases arr, if arr.JArr? then |arr.items| - i else 0
    ensures r.Ok? ==> arr.JArr?
    ensures r.Ok? ==> forall c :: c in r.value ==> WellFormed(c)
    ensures arr.JArr? ==> (r.Ok? <==> forall k :: i <= k < |arr.items| ==> ParseQuery(arr.items[k]).Ok?)
    ensures r.Ok? ==> |r.value| == |arr.items| - i
    ensures r.Ok? ==> forall k :: i <= k < |arr.items| ==> ParseQuery(arr.items[k]) == Ok(r.value[k - i])
  {
    if !arr.JArr? then
      Err(Malformed(key))
    else if i == |arr.items| then
      Ok([])
    else
      var child :- ParseQuery(arr.items[i]);
      var rest :- ParseChildren(arr, key, i + 1);
      Ok([child] + rest)
  }

  /**
   * The tree-building part of parse_full: the document's valid_region and
   * query, as a pair. Keys are looked up as non-const `operator[]` does, so a
   * missing "query" reads as null and fails as an unknown operator.
   */
  function ParseFull(doc: Json): (r: Result<(Region, QueryNode), ParseError>)
    ensures r.Ok? <==> Has(doc, "valid_region") && ParseRegion(doc.fields["valid_region"]).Ok? &&
                       Has(doc, "query") && ParseQuery(doc.fields["query"]).Ok?
    ensures r.Ok? ==> Ok(r.value.0) == ParseRegion(doc.fields["valid_region"])
    ensures r.Ok? ==> Ok(r.value.1) == ParseQuery(doc.fields["query"]) && WellFormed(r.value.1)
    ensures ParseRegion(Lookup(doc, "valid_region")).Ok? && !Has(doc, "query") ==> r == Err(UnknownOperator)
  {
    var valid :- ParseRegion(Lookup(doc, "valid_region"));
    var query :- ParseQuery(Lookup(doc, "query"));
    Ok((valid, query))
  }

  /** The children of a parsed And or Or node are the parses of the operand's elements, in order. */
  lemma ParsedChildrenInOrder(j: Json)
    requires ParseQuery(j).Ok? && ParseQuery(j).value.kind != Crop
    ensures var key := if ParseQuery(j).value.kind == And then "operator_and" else "operator_or";
      && Has(j, key) && j.fields[key].JArr?
      && ParseQuery(j).value.crops == []
      && |ParseQuery(j).value.children| == |j.fields[key].items|
      && forall k :: 0 <= k < |j.fields[key].items| ==>
           ParseQuery(j.fields[key].items[k]) == Ok(ParseQuery(j).value.children[k])
  {
    if Has(j, "operator_and") {
      var children := ParseChildren(j.fields["operator_and"], "operator_and", 0);
      assert !Has(j, "operator_crop") ==> children.Ok?;
    } else {
      var children := ParseChildren(j.fields["operator_or"], "operator_or", 0);
      assert children.Ok?;
    }
  }

  /** One failing element of an And or Or operand fails the whole node: no partial tree. */
  lemma ChildFailureFailsNode(j: Json, key: string, k: nat)
    requires key == "operator_and" || key == "operator_or"
    requires !Has(j, "operator_crop") && Has(j, key)
    requires key == "operator_or" ==> !Has(j, "operator_and")
    requires j.fields[key].JArr? && k < |j.fields[key].items|
    requires ParseQuery(j.fields[key].items[k]).Err?
    ensures ParseQuery(j).Err?
  {
  }

  // Encoders: the document shape each parsed value comes from.

  function PointToJson(x: int, y: int): Json {
    JObj(map["x" := JNum(x), "y" := JNum(y)])
  }

  function RegionToJson(r: Region): Json {
    JObj(map["p_min" := PointToJson(r.minX, r.minY), "p_max" := PointToJson(r.maxX, r.maxY)])
  }

  function IntsToJson(s: seq<int>): (r: seq<Json>)
    ensures |r| == |s| && forall i :: 0 <= i < |s| ==> r[i] == JNum(s[i])
  {
    seq(|s|, i requires 0 <= i < |s| => JNum(s[i]))
  }

  function CropToJson(q: CropQuery): Json {
    var base := map["region" := RegionToJson(q.region)];
    var withProper := if q.proper then base["proper" := JBool(true)] else base;
    var withCategory := if q.category.Some? then withProper["category" := JNum(q.category.value)] else withProper;
    var withGroups :=
      if q.oneOfGroups.Some? then withCategory["one_of_groups" := JArr(IntsToJson(q.oneOfGroups.value))]
      else withCategory;
    JObj(withGroups)
  }

  function QueryToJson(n: QueryNode): Json
    requires WellFormed(n)
    decreases n
  {
    match n.kind
    case Crop => JObj(map["operator_crop" := CropToJson(n.crops[0])])
    case And => JObj(map["operator_and" := JArr(ChildrenToJson(n))])
    case Or => JObj(map["operator_or" := JArr(ChildrenToJson(n))])
  }

  function ChildrenToJson(n: QueryNode): (r: seq<Json>)
    requires WellFormed(n) && n.kind != Crop
    decreases n, 0
    ensures |r| == |n.children|
    ensures forall i :: 0 <= i < |n.children| ==> r[i] == QueryToJson(n.children[i])
  {
    seq(|n.children|, i requires 0 <= i < |n.children| => QueryToJson(n.children[i]))
  }

  function DocumentToJson(valid: Region, query: QueryNode): Json
    requires WellFormed(query)
  {
    JObj(map["valid_region" := RegionToJson(valid), "query" := QueryToJson(query)])
  }

  lemma RegionRoundTrip(r: Region)
    ensures ParseRegion(RegionToJson(r)) == Ok(r)
  {
  }

  lemma {:induction false} IntListRoundTrip(s: seq<int>)
    ensures ParseIntList(IntsToJson(s)) == Ok(s)
  {
    var items := IntsToJson(s);
    var r := ParseIntList(items);
    assert r.Ok?;
    assert r.value == s by {
      forall i | 0 <= i < |s| ensures r.value[i] == s[i] {
        assert items[i] == JNum(r.value[i]);
      }
    }
  }

  /** Every crop, with or without its optional fields, parses back from its document. */
  lemma CropRoundTrip(q: CropQuery)
    ensures ParseCrop(CropToJson(q)) == Ok(q)
  {
    RegionRoundTrip(q.region);
    if q.oneOfGroups.Some? {
      IntListRoundTrip(q.oneOfGroups.value);
    }
    var j := CropToJson(q);
    assert Has(j, "region") && j.fields["region"] == RegionToJson(q.region);
    assert Has(j, "proper") <==> q.proper;
    assert q.proper ==> j.fields["proper"] == JBool(true);
    assert Has(j, "category") <==> q.category.Some?;
    assert Has(j, "one_of_groups") <==> q.oneOfGroups.Some?;
  }

  lemma {:induction false} ChildrenRoundTrip(items: seq<Json>, children: seq<QueryNode>, key: string, i: nat)
    requires |items| == |children| && i <= |items|
    requires forall k :: 0 <= k < |items| ==> ParseQuery(items[k]) == Ok(children[k])
    ensures ParseChildren(JArr(items), key, i) == Ok(children[i..])
    decreases |items| - i
  {
    if i < |items| {
      ChildrenRoundTrip(items, children, key, i + 1);
      var arr := JArr(items);
      assert ParseQuery(arr.items[i]) == Ok(children[i]);
      assert ParseChildren(arr, key, i) == Ok([children[i]] + children[i + 1..]);
      assert children[i..] == [children[i]] + children[i + 1..];
    } else {
      assert children[i..] == [];
    }
  }

  /** Every well-formed tree parses back from its document, crops and child order included. */
  lemma {:induction false} QueryRoundTrip(n: QueryNode)
    requires WellFormed(n)
    ensures ParseQuery(QueryToJson(n)) == Ok(n)
    decreases n
  {
    if n.kind == Crop {
      CropRoundTrip(n.crops[0]);
      assert n.crops == [n.crops[0]];
    } else {
      var items := ChildrenToJson(n);
      forall k | 0 <= k < |items|
        ensures ParseQuery(items[k]) == Ok(n.children[k])
      {
        QueryRoundTrip(n.children[k]);
      }
      ChildrenRoundTrip(items, n.children, if n.kind == And then "operator_and" else "operator_or", 0);
      assert n.children[0..] == n.children;
    }
  }

  lemma FullRoundTrip(valid: Region, query: QueryNode)
    requires WellFormed(query)
    ensures ParseFull(DocumentToJson(valid, query)) == Ok((valid, query))
  {
    RegionRoundTrip(valid);
    QueryRoundTrip(query);
  }
}
