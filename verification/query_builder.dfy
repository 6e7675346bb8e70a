/**
 * QueryBuilder of include/query_builder.cpp, against an abstract point store.
 *
 * The relational table `inspection_region` becomes a sequence of rows; each
 * SQL statement becomes the predicate it denotes over those rows. Results are
 * sets of points, so coordinates that repeat across rows collapse into one
 * point, as they do in the source's ordered set.
 */
module Builder {
  import opened Wrappers
  import opened Types
  import opened QueryAst

  /** One record of the store: coordinates, category and group id. */
  datatype Row = Row(x: int, y: int, category: int, group: int)

  function PointOf(r: Row): Point2D {
    Point2D(r.x, r.y)
  }

  /** Every point the store holds; each query result lies within it. */
  function StorePoints(store: seq<Row>): set<Point2D> {
    set r | r in store :: PointOf(r)
  }

  /** `SELECT COUNT(*) ... WHERE group_id = g`. */
  function GroupCount(store: seq<Row>, g: int): nat {
    if store == [] then 0
    else (if store[0].group == g then 1 else 0) + GroupCount(store[1..], g)
  }

  /** `COUNT(*)` of the rows of group g that pass the valid-region WHERE clause. */
  function GroupCountInside(store: seq<Row>, valid: Region, g: int): nat {
    if store == [] then 0
    else
      (if store[0].group == g && Contains(valid, store[0].x, store[0].y) then 1 else 0)
      + GroupCountInside(store[1..], valid, g)
  }

  /**
   * The statement of get_proper_groups: the groups of the rows inside the
   * valid region (WHERE, GROUP BY) whose inside count equals the group's
   * total count (HAVING).
   */
  function ProperGroups(store: seq<Row>, valid: Region): (groups: set<int>)
    ensures forall g :: g in groups ==> exists r :: r in store && r.group == g && Contains(valid, r.x, r.y)
  {
    set r | r in store && Contains(valid, r.x, r.y) &&
            GroupCountInside(store, valid, r.group) == GroupCount(store, r.group) :: r.group
  }

  /** The meaning of properness: g has rows, and every row of g lies inside the valid region. */
  ghost predicate IsProperGroup(store: seq<Row>, valid: Region, g: int) {
    (exists r :: r in store && r.group == g) &&
    forall r :: r in store && r.group == g ==> Contains(valid, r.x, r.y)
  }

  lemma {:induction false} InsideCountMatchesTotal(store: seq<Row>, valid: Region, g: int)
    ensures GroupCountInside(store, valid, g) <= GroupCount(store, g)
    ensures GroupCountInside(store, valid, g) == GroupCount(store, g) <==>
      forall r :: r in store && r.group == g ==> Contains(valid, r.x, r.y)
  {
    if store != [] {
      InsideCountMatchesTotal(store[1..], valid, g);
      assert forall r :: r in store <==> r == store[0] || r in store[1..];
    }
  }

  /**
   * A group is in the proper set exactly when it has rows and all of them lie
   * inside the valid region; the crop's own region plays no part.
   */
  lemma ProperGroupsMeaning(store: seq<Row>, valid: Region, g: int)
    ensures g in ProperGroups(store, valid) <==> IsProperGroup(store, valid, g)
  {
    InsideCountMatchesTotal(store, valid, g);
    if IsProperGroup(store, valid, g) {
      var r :| r in store && r.group == g;
      assert Contains(valid, r.x, r.y);
    }
  }

  /** Finding: get_proper_groups fills its set but never returns it, so its caller gets no value. */
  function ProperGroupsAsWritten(store: seq<Row>, valid: Region): Option<set<int>> {
    None
  }

  /** Membership in an optional group list; no list means no group condition. */
  predicate InGroups(groups: Option<seq<int>>, g: int) {
    groups.None? || g in groups.value
  }

  /**
   * The WHERE clause of exec_crop as intended: inside the crop's box, the
   * category if one is set, a listed group if a list is set, and a proper
   * group if properness is asked for.
   */
  predicate RowMatches(q: CropQuery, proper: set<int>, r: Row): (selected: bool)
    ensures selected <==> RowMatchesAsWritten(q, proper, r) && InGroups(q.oneOfGroups, r.group)
  {
    && Contains(q.region, r.x, r.y)
    && (q.category.Some? ==> r.category == q.category.value)
    && InGroups(q.oneOfGroups, r.group)
    && (q.proper ==> r.group in proper)
  }

  /** Finding: the WHERE clause exec_crop actually builds, which never adds the group list. */
  predicate RowMatchesAsWritten(q: CropQuery, proper: set<int>, r: Row) {
    && Contains(q.region, r.x, r.y)
    && (q.category.Some? ==> r.category == q.category.value)
    && (q.proper ==> r.group in proper)
  }

  /** The points one crop selects; the proper set is always taken against the valid region. */
  function CropResult(store: seq<Row>, valid: Region, q: CropQuery): (points: set<Point2D>)
    ensures points <= StorePoints(store)
    ensures points <= CropResultAsWritten(store, valid, q)
  {
    set r | r in store && RowMatches(q, ProperGroups(store, valid), r) :: PointOf(r)
  }

  function CropResultAsWritten(store: seq<Row>, valid: Region, q: CropQuery): set<Point2D> {
    set r | r in store && RowMatchesAsWritten(q, ProperGroups(store, valid), r) :: PointOf(r)
  }

  /** The intended selection, with properness stated by its meaning rather than by counts. */
  ghost predicate Selects(store: seq<Row>, valid: Region, q: CropQuery, r: Row) {
    && Contains(q.region, r.x, r.y)
    && (q.category.Some? ==> r.category == q.category.value)
    && InGroups(q.oneOfGroups, r.group)
    && (q.proper ==> IsProperGroup(store, valid, r.group))
  }

  /**
   * A point is in a crop's result exactly when some stored row at that point
   * is inside the crop's box (inclusive), has the category if one is set, is
   * in a listed group if a list is set, and belongs to a group wholly inside
   * the valid region if properness is asked for.
   */
  lemma CropResultMeaning(store: seq<Row>, valid: Region, q: CropQuery, p: Point2D)
    ensures p in CropResult(store, valid, q) <==>
      exists r :: r in store && PointOf(r) == p && Selects(store, valid, q, r)
  {
    forall r | r in store
      ensures RowMatches(q, ProperGroups(store, valid), r) <==> Selects(store, valid, q, r)
    {
      ProperGroupsMeaning(store, valid, r.group);
    }
  }

  /** Asking for properness when no group is proper selects nothing at all. */
  lemma NoProperGroupSelectsNothing(store: seq<Row>, valid: Region, q: CropQuery)
    requires q.proper && ProperGroups(store, valid) == {}
    ensures CropResult(store, valid, q) == {}
  {
  }

  /**
   * The tree's meaning. A Crop node is its first crop. An And node is the
   * points in every child's result, and nothing when it has no children. An
   * Or node is the points in some child's result.
   */
  function Eval(store: seq<Row>, valid: Region, node: QueryNode): (r: set<Point2D>)
    requires CropsPresent(node)
    ensures r <= StorePoints(store)
    decreases node
  {
    match node.kind
    case Crop => CropResult(store, valid, node.crops[0])
    case And =>
      if node.children == [] then {}
      else set p | p in StorePoints(store) &&
                   forall i | 0 <= i < |node.children| :: p in Eval(store, valid, node.children[i])
    case Or =>
      set p | p in StorePoints(store) &&
              exists i | 0 <= i < |node.children| :: p in Eval(store, valid, node.children[i])
  }

  /** A point is in an And result iff the node has children and the point is in every child's result. */
  lemma AndMeaning(store: seq<Row>, valid: Region, node: QueryNode, p: Point2D)
    requires node.kind == And && CropsPresent(node)
    ensures p in Eval(store, valid, node) <==>
      node.children != [] && forall c :: c in node.children ==> p in Eval(store, valid, c)
  {
    if node.children != [] && forall c :: c in node.children ==> p in Eval(store, valid, c) {
      assert p in Eval(store, valid, node.children[0]);
    }
  }

  /** A point is in an Or result iff it is in some child's result; an Or without children is empty. */
  lemma OrMeaning(store: seq<Row>, valid: Region, node: QueryNode, p: Point2D)
    requires node.kind == Or && CropsPresent(node)
    ensures p in Eval(store, valid, node) <==> exists c :: c in node.children && p in Eval(store, valid, c)
  {
    if c :| c in node.children && p in Eval(store, valid, c) {
      var i :| 0 <= i < |node.children| && node.children[i] == c;
    }
  }

  /** Reordering (or permuting) the children of an And or Or node leaves its result unchanged. */
  lemma ChildOrderIrrelevant(store: seq<Row>, valid: Region, n1: QueryNode, n2: QueryNode)
    requires n1.kind == n2.kind && n1.kind != Crop
    requires CropsPresent(n1) && CropsPresent(n2)
    requires multiset(n1.children) == multiset(n2.children)
    ensures Eval(store, valid, n1) == Eval(store, valid, n2)
  {
    assert forall c :: c in n1.children <==> c in n2.children by {
      forall c ensures c in n1.children <==> c in n2.children {
        assert c in n1.children <==> c in multiset(n1.children);
        assert c in n2.children <==> c in multiset(n2.children);
      }
    }
    assert n1.children == [] <==> n2.children == [] by {
      assert |n1.children| == |multiset(n1.children)| == |multiset(n2.children)| == |n2.children|;
    }
    forall p ensures p in Eval(store, valid, n1) <==> p in Eval(store, valid, n2) {
      if n1.kind == And {
        AndMeaning(store, valid, n1, p);
        AndMeaning(store, valid, n2, p);
      } else {
        OrMeaning(store, valid, n1, p);
        OrMeaning(store, valid, n2, p);
      }
    }
  }

  /** An Or of two subtrees is the union of their results. */
  lemma OrOfTwo(store: seq<Row>, valid: Region, crops: seq<CropQuery>, a: QueryNode, b: QueryNode)
    requires CropsPresent(a) && CropsPresent(b)
    ensures CropsPresent(QueryNode(Or, crops, [a, b]))
    ensures Eval(store, valid, QueryNode(Or, crops, [a, b])) == Eval(store, valid, a) + Eval(store, valid, b)
  {
    var n := QueryNode(Or, crops, [a, b]);
    forall p ensures p in Eval(store, valid, n) <==> p in Eval(store, valid, a) + Eval(store, valid, b) {
      OrMeaning(store, valid, n, p);
    }
  }

  /** An And of two subtrees is the intersection of their results. */
  lemma AndOfTwo(store: seq<Row>, valid: Region, crops: seq<CropQuery>, a: QueryNode, b: QueryNode)
    requires CropsPresent(a) && CropsPresent(b)
    ensures CropsPresent(QueryNode(And, crops, [a, b]))
    ensures Eval(store, valid, QueryNode(And, crops, [a, b])) == Eval(store, valid, a) * Eval(store, valid, b)
  {
    var n := QueryNode(And, crops, [a, b]);
    forall p ensures p in Eval(store, valid, n) <==> p in Eval(store, valid, a) * Eval(store, valid, b) {
      AndMeaning(store, valid, n, p);
    }
  }

  // The properness example: group 1 lies wholly inside (0,0)-(5,5), group 2 does not.

  function ExampleStore(): seq<Row> {
    [Row(1, 1, 0, 1), Row(2, 2, 0, 1), Row(9, 9, 0, 2)]
  }

  function ExampleValid(): Region {
    Region(0, 0, 5, 5)
  }

  /** A crop asking only for properness returns exactly the points of group 1. */
  lemma ProperExample()
    ensures ProperGroups(ExampleStore(), ExampleValid()) == {1}
    ensures CropResult(ExampleStore(), ExampleValid(), CropQuery(Region(0, 0, 10, 10), None, None, true))
            == {Point2D(1, 1), Point2D(2, 2)}
  {
    var store, valid := ExampleStore(), ExampleValid();
    ProperGroupsMeaning(store, valid, 1);
    assert IsProperGroup(store, valid, 1) by {
      assert store[0] in store;
    }
    forall g | g in ProperGroups(store, valid) ensures g == 1 {
      var r :| r in store && Contains(valid, r.x, r.y) && r.group == g &&
               GroupCountInside(store, valid, g) == GroupCount(store, g);
    }
    var q := CropQuery(Region(0, 0, 10, 10), None, None, true);
    assert RowMatches(q, {1}, store[0]) && RowMatches(q, {1}, store[1]) && !RowMatches(q, {1}, store[2]);
  }

  /**
   * Finding, as written: get_proper_groups yields no value, while the set it
   * collects for the example is {1}.
   */
  lemma ProperGroupsLostAsWritten()
    ensures ProperGroupsAsWritten(ExampleStore(), ExampleValid()) == None
    ensures ProperGroups(ExampleStore(), ExampleValid()) == {1}
  {
    ProperExample();
  }

  /**
   * Finding, as written: a crop with an empty group list binds no extra
   * parameter, so its statement is well formed, yet it still returns every
   * point in its box; the intended clause (no listed group) selects nothing.
   */
  lemma GroupListIgnoredAsWritten()
    ensures var store := [Row(1, 1, 0, 1), Row(2, 2, 0, 2)];
            var q := CropQuery(Region(0, 0, 5, 5), None, Some([]), false);
            && CropResultAsWritten(store, Region(0, 0, 5, 5), q) == {Point2D(1, 1), Point2D(2, 2)}
            && CropResult(store, Region(0, 0, 5, 5), q) == {}
  {
    var store := [Row(1, 1, 0, 1), Row(2, 2, 0, 2)];
    var valid := Region(0, 0, 5, 5);
    var q := CropQuery(Region(0, 0, 5, 5), None, Some([]), false);
    var pg := ProperGroups(store, valid);
    assert RowMatchesAsWritten(q, pg, store[0]) && RowMatchesAsWritten(q, pg, store[1]);
  }

  /**
   * The query builder: a read-only store snapshot and the valid region, both
   * fixed when the builder is made.
   */
  class QueryBuilder {
    const store: seq<Row>
    const validRegion: Region

    constructor (store: seq<Row>, validRegion: Region)
      ensures this.store == store && this.validRegion == validRegion
    {
      this.store := store;
      this.validRegion := validRegion;
    }

    /** get_proper_groups, returning the set it collects. */
    method GetProperGroups() returns (proper: set<int>)
      ensures proper == ProperGroups(store, validRegion)
      ensures forall g :: g in proper ==> IsProperGroup(store, validRegion, g)
    {
      proper := {};
      var i := 0;
      while i < |store|
        invariant 0 <= i <= |store|
        invariant forall g :: g in proper <==>
          exists k :: 0 <= k < i && store[k].group == g && Contains(validRegion, store[k].x, store[k].y) &&
                      GroupCountInside(store, validRegion, g) == GroupCount(store, g)
      {
        var row := store[i];
        if Contains(validRegion, row.x, row.y) &&
           GroupCountInside(store, validRegion, row.group) == GroupCount(store, row.group)
        {
          proper := proper + {row.group};
        }
        i := i + 1;
      }
      forall g ensures g in proper <==> g in ProperGroups(store, validRegion) {
        if g in ProperGroups(store, validRegion) {
          var r :| r in store && Contains(validRegion, r.x, r.y) && r.group == g &&
                   GroupCountInside(store, validRegion, g) == GroupCount(store, g);
          var k :| 0 <= k < |store| && store[k] == r;
        }
      }
      forall g | g in proper ensures IsProperGroup(store, validRegion, g) {
        ProperGroupsMeaning(store, validRegion, g);
      }
    }

    /**
     * exec_crop: the points of the rows the crop's WHERE clause selects, with
     * an early empty result when properness is asked for and no group is
     * proper. `statements` counts the store statements run: the proper-groups
     * statement when properness is asked for, and the point selection unless
     * the early return skips it.
     */
    method ExecCrop(q: CropQuery) returns (points: set<Point2D>, ghost statements: nat)
      ensures points == CropResult(store, validRegion, q)
      ensures q.proper && ProperGroups(store, validRegion) == {} ==> points == {} && statements == 1
      ensures statements ==
        (if q.proper then 1 else 0) + (if q.proper && ProperGroups(store, validRegion) == {} then 0 else 1)
    {
      var proper: set<int> := {};
      statements := 0;
      if q.proper {
        proper := GetProperGroups();
        statements := statements + 1;
        if proper == {} {
          NoProperGroupSelectsNothing(store, validRegion, q);
          return {}, statements;
        }
      }
      statements := statements + 1;
      points := {};
      var i := 0;
      while i < |store|
        invariant 0 <= i <= |store|
        invariant forall p :: p in points <==>
          exists k :: 0 <= k < i && RowMatches(q, proper, store[k]) && PointOf(store[k]) == p
      {
        var row := store[i];
        if RowMatches(q, proper, row) {
          points := points + {PointOf(row)};
        }
        i := i + 1;
      }
      assert q.proper ==> proper == ProperGroups(store, validRegion);
    }

    /** execute: the tree walk, with the running intersection for And and the union for Or. */
    method Execute(node: QueryNode) returns (result: set<Point2D>)
      requires CropsPresent(node)
      ensures result == Eval(store, validRegion, node)
      decreases node
    {
      if node.kind == Crop {
        ghost var statements;
        result, statements := ExecCrop(node.crops[0]);
      } else if node.kind == And {
        if node.children == [] {
          return {};
        }
        result := Execute(node.children[0]);
        var i := 1;
        while i < |node.children|
          invariant 1 <= i <= |node.children|
          invariant forall p :: p in result <==>
            p in StorePoints(store) && forall k | 0 <= k < i :: p in Eval(store, validRegion, node.children[k])
        {
          var other := Execute(node.children[i]);
          result := result * other;
          i := i + 1;
        }
      } else {
        result := {};
        for i := 0 to |node.children|
          invariant forall p :: p in result <==>
            p in StorePoints(store) && exists k | 0 <= k < i :: p in Eval(store, validRegion, node.children[k])
        {
          var childPoints := Execute(node.children[i]);
          result := result + childPoints;
        }
      }
    }
  }
}
