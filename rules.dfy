/**
 * What the three rules decide, independent of how the webhook and the
 * connector serialise their output, plus the list that rules append to.
 */
module Rules {
  import opened Wrappers
  import opened FieldTree
  import opened Text
  import opened Vendors

  datatype Severity = Warning | Error

  /** A message shown on one datapoint: `{"id": id, "type": severity, "content": text}`. */
  datatype Message = Message(id: string, severity: Severity, content: string)

  /**
   * Why a rule raises instead of returning: the lookup found no node and the
   * rule subscripted `None` (a TypeError), or the node has no value (a KeyError).
   */
  datatype LookupError = NoSuchField(schemaId: string) | NoValue(schemaId: string)

  /** A datapoint's id and its string value. */
  datatype Field = Field(id: string, value: string)

  const InvalidOrderIdText := "Invalid order_id format."
  const VendorNotFoundText := "Vendor not found."

  /** The provenance tag attached to the values the rules propose. */
  const ValidationSource := "connector"

  /** `find_by_schema_id(tree, schemaId)` followed by reading the node's value. */
  function Lookup(forest: seq<Node>, schemaId: string): (r: Result<Field, LookupError>)
    ensures r.Failure? ==> r.error.schemaId == schemaId
    ensures r.Failure? && r.error.NoSuchField? <==> Find(forest, schemaId).None?
    ensures r.Success? <==> Find(forest, schemaId).Some? && Find(forest, schemaId).value.value.Some?
    ensures r.Success? ==>
      Find(forest, schemaId).Some? && Find(forest, schemaId).value.id == r.value.id &&
      Find(forest, schemaId).value.value == Some(r.value.value)
  {
    match Find(forest, schemaId)
    case None => Failure(NoSuchField(schemaId))
    case Some(node) =>
      if node.value.None? then Failure(NoValue(schemaId)) else Success(Field(node.id, node.value.value))
  }

  /**
   * A lookup fails with `NoSuchField` exactly when no node at any depth has
   * the schema id, and otherwise reads the first such node in document order.
   */
  lemma LookupSpec(forest: seq<Node>, schemaId: string)
    ensures var nodes := PreOrder(forest);
      var r := Lookup(forest, schemaId);
      (r.Failure? && r.error.NoSuchField? <==> forall k :: 0 <= k < |nodes| ==> nodes[k].schemaId != schemaId) &&
      (r.Failure? && r.error.NoValue? <==>
        exists k :: 0 <= k < |nodes| && nodes[k].schemaId == schemaId && nodes[k].value.None? &&
          forall j :: 0 <= j < k ==> nodes[j].schemaId != schemaId) &&
      (r.Success? ==>
        exists k :: 0 <= k < |nodes| && nodes[k].schemaId == schemaId &&
          nodes[k].id == r.value.id && nodes[k].value == Some(r.value.value) &&
          forall j :: 0 <= j < k ==> nodes[j].schemaId != schemaId)
  {
    var nodes := PreOrder(forest);
    FindSpec(forest, schemaId);
    FindIsFirstInPreOrder(forest, schemaId);
    var r := Lookup(forest, schemaId);
    forall k | 0 <= k < |nodes| && nodes[k].schemaId == schemaId && forall j :: 0 <= j < k ==> nodes[j].schemaId != schemaId
      ensures Find(forest, schemaId) == Some(nodes[k])
    {
      var k' :| 0 <= k' < |nodes| && nodes[k'] == Find(forest, schemaId).value && nodes[k'].schemaId == schemaId &&
        forall j :: 0 <= j < k' ==> nodes[j].schemaId != schemaId;
      assert k' == k;
    }
  }

  /**
   * normalize_invoice_id: the invoice id datapoint with its digits-only value,
   * when that differs from the current value; `None` when nothing changes.
   */
  function InvoiceFix(forest: seq<Node>): (r: Result<Option<Field>, LookupError>)
    ensures r.Failure? <==> Lookup(forest, "invoice_id").Failure?
    ensures r.Failure? ==> r.error == Lookup(forest, "invoice_id").error
    ensures r.Success? ==>
      var invoice := Lookup(forest, "invoice_id").value;
      (r.value.None? <==> AllDigits(invoice.value)) &&
      (r.value.Some? ==> r.value.value == Field(invoice.id, DigitsOnly(invoice.value)))
  {
    match Lookup(forest, "invoice_id")
    case Failure(e) => Failure(e)
    case Success(invoice) =>
      var normalized := DigitsOnly(invoice.value);
      DigitsOnlyFixedPoint(invoice.value);
      if normalized != invoice.value then Success(Some(Field(invoice.id, normalized))) else Success(None)
  }

  /** An order id draws a warning when it is filled in and not six digits. */
  predicate IsBadOrderId(value: string)
    ensures IsBadOrderId(value) <==>
      value != "" && forall d :: |d| == 6 && AllDigits(d) ==> value != d && value != d + "\n"
  {
    value != "" && !IsSixDigitId(value)
  }

  /** The order-id rule on concrete values: empty and six digits pass, five digits or a letter do not. */
  lemma BadOrderIdExamples()
    ensures !IsBadOrderId("") && !IsBadOrderId("123456") && !IsBadOrderId("123456\n")
    ensures IsBadOrderId("12345") && IsBadOrderId("1234567") && IsBadOrderId("12a456")
  {
    assert "12a456"[2] == 'a';
  }

  /** validate_order_id: at most one warning, on the order id datapoint. */
  function OrderIdWarnings(forest: seq<Node>): (r: Result<seq<Message>, LookupError>)
    ensures r.Failure? <==> Lookup(forest, "order_id").Failure?
    ensures r.Failure? ==> r.error == Lookup(forest, "order_id").error
    ensures r.Success? ==>
      var order := Lookup(forest, "order_id").value;
      r.value == if IsBadOrderId(order.value) then [Message(order.id, Warning, InvalidOrderIdText)] else []
  {
    match Lookup(forest, "order_id")
    case Failure(e) => Failure(e)
    case Success(order) =>
      if order.value != "" && !IsSixDigitId(order.value) then Success([Message(order.id, Warning, InvalidOrderIdText)])
      else Success([])
  }

  /**
   * What vendor matching decides once the vendor name has been read: skip,
   * or propose `options` for the vendor datapoint (`target`, `None` when the
   * tree has no vendor node, which raises when the proposal is built) after
   * appending `errors`.
   */
  datatype VendorStep =
    | Skip
    | Suggest(errors: seq<Message>, target: Option<string>, options: seq<Choice>)

  /**
   * match_vendor / match_supplier. `rerun` is the trigger (`action ==
   * "initialize"` in the webhook, the `initial` flag in the connector) and
   * `changed` the ids of the datapoints edited since the last call.
   */
  function VendorStepOf(forest: seq<Node>, rerun: bool, changed: seq<string>): (r: Result<VendorStep, LookupError>)
    ensures r.Failure? <==> Lookup(forest, "vendor_name").Failure?
    ensures r.Failure? ==> r.error == Lookup(forest, "vendor_name").error
    ensures r.Success? ==>
      var name := Lookup(forest, "vendor_name").value;
      (r.value.Skip? <==> !rerun && name.id !in changed)
    ensures r.Success? && r.value.Suggest? ==> r.value.options != []
  {
    var vendor := Find(forest, "vendor");
    match Lookup(forest, "vendor_name")
    case Failure(e) => Failure(e)
    case Success(name) =>
      var nameNorm := NormalizeName(name.value);
      if !(rerun || name.id in changed) then Success(Skip)
      else
        var options := VendorOptions(nameNorm);
        var errors := if Matched(nameNorm, Catalogue) == [] then [Message(name.id, Error, VendorNotFoundText)] else [];
        var target := if vendor.Some? then Some(vendor.value.id) else None;
        Success(Suggest(errors, target, options))
  }

  /**
   * When vendor matching runs, it proposes the catalogue choices whose
   * normalised name contains the normalised vendor name (the placeholder
   * when there are none, together with a "Vendor not found." error on the
   * vendor name datapoint), aimed at the tree's first vendor node.
   */
  lemma VendorStepSuggests(forest: seq<Node>, rerun: bool, changed: seq<string>)
    requires VendorStepOf(forest, rerun, changed).Success?
    requires VendorStepOf(forest, rerun, changed).value.Suggest?
    ensures
      var name := Lookup(forest, "vendor_name").value;
      var nameNorm := NormalizeName(name.value);
      var step := VendorStepOf(forest, rerun, changed).value;
      step.options == VendorOptions(nameNorm) &&
      (step.target.Some? <==> Find(forest, "vendor").Some?) &&
      (step.target.Some? ==> step.target.value == Find(forest, "vendor").value.id) &&
      (step.options == [Placeholder] <==> Matched(nameNorm, Catalogue) == []) &&
      (step.errors == if step.options == [Placeholder] then [Message(name.id, Error, VendorNotFoundText)] else [])
  {
    var name := Lookup(forest, "vendor_name").value;
    var nameNorm := NormalizeName(name.value);
    VendorOptionsPlaceholder(nameNorm);
  }

  /** A Python list that rules append to in place. */
  class AppendList<T> {
    var items: seq<T>

    constructor ()
      ensures items == []
    {
      items := [];
    }

    method Append(x: T)
      modifies this
      ensures items == old(items) + [x]
    {
      items := items + [x];
    }
  }
}
