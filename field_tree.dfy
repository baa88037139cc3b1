/**
 * The annotation tree of a document and the lookup of a datapoint by its
 * schema id (find_by_schema_id).
 */
module FieldTree {
  import opened Wrappers

  /**
   * One node of the annotation tree. `id` is the document-scoped datapoint id,
   * `schemaId` the role of the field. `value` is the field's current string
   * value (`content.value` in the webhook, `value` in the connector), `None`
   * when the node carries none. A node without a `children` key has `[]`.
   */
  datatype Node = Node(id: string, schemaId: string, value: Option<string>, children: seq<Node>)

  /** Every node of a forest, at any depth, in document order: a node, then its subtree, then its later siblings. */
  function PreOrder(forest: seq<Node>): (nodes: seq<Node>)
    decreases forest
  {
    if forest == [] then []
    else [forest[0]] + PreOrder(forest[0].children) + PreOrder(forest[1..])
  }

  /** The first node of a flat list that plays role `schemaId`. */
  function FirstWithSchemaId(nodes: seq<Node>, schemaId: string): (found: Option<Node>)
    ensures found.None? <==> forall k :: 0 <= k < |nodes| ==> nodes[k].schemaId != schemaId
    ensures found.Some? ==>
      exists k :: 0 <= k < |nodes| && nodes[k] == found.value && nodes[k].schemaId == schemaId &&
        forall j :: 0 <= j < k ==> nodes[j].schemaId != schemaId
  {
    if nodes == [] then None
    else if nodes[0].schemaId == schemaId then Some(nodes[0])
    else
      var rest := FirstWithSchemaId(nodes[1..], schemaId);
      assert forall k :: 1 <= k < |nodes| ==> nodes[k] == nodes[1..][k - 1];
      rest
  }

  /**
   * find_by_schema_id: depth-first search that looks at a node, then into its
   * children, then at its later siblings, and stops at the first node whose
   * schema id is `schemaId`.
   */
  function Find(forest: seq<Node>, schemaId: string): (found: Option<Node>)
    ensures found.Some? ==> found.value.schemaId == schemaId
    decreases forest
  {
    if forest == [] then None
    else if forest[0].schemaId == schemaId then Some(forest[0])
    else match Find(forest[0].children, schemaId)
      case Some(node) => Some(node)
      case None => Find(forest[1..], schemaId)
  }

  lemma {:induction false} FirstWithSchemaIdAppend(a: seq<Node>, b: seq<Node>, schemaId: string)
    ensures FirstWithSchemaId(a + b, schemaId) ==
      if FirstWithSchemaId(a, schemaId).Some? then FirstWithSchemaId(a, schemaId) else FirstWithSchemaId(b, schemaId)
  {
    if a != [] {
      assert (a + b)[1..] == a[1..] + b;
      FirstWithSchemaIdAppend(a[1..], b, schemaId);
    } else {
      assert a + b == b;
    }
  }

  /** The search returns exactly the first node in document order with that schema id. */
  lemma {:induction false} FindIsFirstInPreOrder(forest: seq<Node>, schemaId: string)
    ensures Find(forest, schemaId) == FirstWithSchemaId(PreOrder(forest), schemaId)
    decreases forest
  {
    if forest != [] {
      FindIsFirstInPreOrder(forest[0].children, schemaId);
      FindIsFirstInPreOrder(forest[1..], schemaId);
      var all, sub, rest := PreOrder(forest), PreOrder(forest[0].children), PreOrder(forest[1..]);
      assert all == [forest[0]] + (sub + rest);
      if forest[0].schemaId != schemaId {
        assert all[1..] == sub + rest;
        FirstWithSchemaIdAppend(sub, rest, schemaId);
      }
    }
  }

  /**
   * The contract of find_by_schema_id: `None` exactly when no node at any depth
   * plays role `schemaId`; otherwise a node with that role that comes before
   * every other such node in document order.
   */
  lemma FindSpec(forest: seq<Node>, schemaId: string)
    ensures var nodes := PreOrder(forest);
      (Find(forest, schemaId).None? <==> forall k :: 0 <= k < |nodes| ==> nodes[k].schemaId != schemaId) &&
      (Find(forest, schemaId).Some? ==>
        exists k :: 0 <= k < |nodes| && nodes[k] == Find(forest, schemaId).value &&
          nodes[k].schemaId == schemaId && forall j :: 0 <= j < k ==> nodes[j].schemaId != schemaId)
  {
    FindIsFirstInPreOrder(forest, schemaId);
  }

  /** PreOrder holds every node at every depth: each root, and everything below it. */
  lemma {:induction false} PreOrderHoldsDescendants(forest: seq<Node>, i: nat)
    requires i < |forest|
    ensures forest[i] in PreOrder(forest)
    ensures forall n :: n in PreOrder(forest[i].children) ==> n in PreOrder(forest)
    decreases forest
  {
    if i > 0 {
      PreOrderHoldsDescendants(forest[1..], i - 1);
      assert forest[1..][i - 1] == forest[i];
    }
  }

  /** The search passes over a leaf with another schema id. */
  lemma FindSkipsLeaf(forest: seq<Node>, schemaId: string)
    requires forest != [] && forest[0].children == [] && forest[0].schemaId != schemaId
    ensures Find(forest, schemaId) == Find(forest[1..], schemaId)
  {
  }

  /** Below a single root with another schema id, the search looks only at its children. */
  lemma FindDescends(forest: seq<Node>, schemaId: string)
    requires |forest| == 1 && forest[0].schemaId != schemaId
    ensures Find(forest, schemaId) == Find(forest[0].children, schemaId)
  {
    assert forest[1..] == [];
  }
}
