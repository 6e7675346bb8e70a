/**
 * The query tree of include/json_parser.hpp.
 *
 * QueryNode mirrors the C++ struct: a tag and two payload vectors, only one
 * of which is meaningful for a given tag. WellFormed states the tag/payload
 * rule that the parser establishes.
 */
module QueryAst {
  import opened Wrappers
  import opened Types

  /**
   * A leaf filter. `category` and `oneOfGroups` are independently optional;
   * `proper` is false unless the document sets it.
   */
  datatype CropQuery = CropQuery(
    region: Region,
    category: Option<int>,
    oneOfGroups: Option<seq<int>>,
    proper: bool)

  datatype NodeType = Crop | And | Or

  /** `crops` is meaningful only for Crop, `children` only for And and Or. */
  datatype QueryNode = QueryNode(kind: NodeType, crops: seq<CropQuery>, children: seq<QueryNode>)

  /**
   * A Crop node carries exactly one crop and no children; an And or Or node
   * carries no crop, and its children are well formed in turn. Such a tree
   * can be evaluated: every Crop node has the first crop evaluation reads.
   */
  predicate WellFormed(n: QueryNode): (ok: bool)
    ensures ok ==> CropsPresent(n)
    decreases n
  {
    if n.kind == Crop then
      |n.crops| == 1 && n.children == []
    else
      n.crops == [] && forall c :: c in n.children ==> WellFormed(c)
  }

  /**
   * What evaluation needs of a tree: every Crop node it reaches has a first
   * crop to evaluate (the children of a Crop node and the crops of an And or
   * Or node are never looked at).
   */
  predicate CropsPresent(n: QueryNode) {
    if n.kind == Crop then
      |n.crops| > 0
    else
      forall c :: c in n.children ==> CropsPresent(c)
  }
}
