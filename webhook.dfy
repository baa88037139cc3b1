/**
 * The packaged webhook: the three rules append `replace` operations and
 * messages to two lists that `vendor_matching` creates empty and returns.
 */
module Webhook {
  import opened Wrappers
  import opened FieldTree
  import opened Text
  import opened Vendors
  import opened Rules

  /** `content` of a proposed value; `validationSources` is absent for the vendor proposal. */
  datatype Content = Content(value: Value, validationSources: Option<seq<string>>)

  /** The `value` of a `replace` operation. */
  datatype Proposal = Proposal(content: Content, options: Option<seq<Choice>>, validationSources: Option<seq<string>>)

  /** `{"op": "replace", "id": id, "value": proposal}`. */
  datatype Operation = Replace(id: string, proposal: Proposal)

  /** The JSON body the webhook answers with. */
  datatype Response = Response(messages: seq<Message>, operations: seq<Operation>)

  /** The operation that writes the digits-only invoice id back. */
  function InvoiceOp(fix: Field): (op: Operation)
    ensures op.id == fix.id && op.proposal.content.value == Str(fix.value)
    ensures op.proposal.content.validationSources == Some([ValidationSource])
    ensures op.proposal.options.None? && op.proposal.validationSources.None?
  {
    Replace(fix.id, Proposal(Content(Str(fix.value), Some([ValidationSource])), None, None))
  }

  /** The operation that offers `options` on the vendor datapoint, preselecting the first. */
  function VendorOp(target: string, options: seq<Choice>): (op: Operation)
    requires options != []
    ensures op.id == target && op.proposal.content.value == options[0].value
    ensures op.proposal.content.validationSources.None?
    ensures op.proposal.options == Some(options) && op.proposal.validationSources == Some([ValidationSource])
  {
    Replace(target, Proposal(Content(options[0].value, None), Some(options), Some([ValidationSource])))
  }

  /** The operations an invoice fix contributes: one, or none when the id was already clean. */
  function InvoiceOps(fix: Option<Field>): (ops: seq<Operation>)
    ensures |ops| <= 1
    ensures fix.Some? <==> ops != []
  {
    if fix.Some? then [InvoiceOp(fix.value)] else []
  }

  /** The vendor rule is triggered by the `initialize` action or an edit of the vendor name. */
  predicate Rerun(action: string) {
    action == "initialize"
  }

  /**
   * The response built from the three rules' results, taken in order: the
   * first rule that raised ends the request with its error.
   */
  function Respond(fix: Result<Option<Field>, LookupError>, warnings: Result<seq<Message>, LookupError>,
                   step: Result<VendorStep, LookupError>): (r: Result<Response, LookupError>)
    requires step.Success? && step.value.Suggest? ==> step.value.options != []
  {
    match fix
    case Failure(e) => Failure(e)
    case Success(fix) =>
      match warnings
      case Failure(e) => Failure(e)
      case Success(warnings) =>
        match step
        case Failure(e) => Failure(e)
        case Success(Skip) => Success(Response(warnings, InvoiceOps(fix)))
        case Success(Suggest(errors, target, options)) =>
          if target.None? then Failure(NoSuchField("vendor"))
          else Success(Response(warnings + errors, InvoiceOps(fix) + [VendorOp(target.value, options)]))
  }

  /** vendor_matching: the three rules on two fresh lists, vendor matching triggered by `initialize`. */
  function Evaluate(forest: seq<Node>, updated: seq<string>, action: string): (r: Result<Response, LookupError>)
  {
    Respond(InvoiceFix(forest), OrderIdWarnings(forest), VendorStepOf(forest, Rerun(action), updated))
  }

  /** normalize_invoice_id: appends at most one operation and reports a failed lookup. */
  method NormalizeInvoiceId(operations: AppendList<Operation>, forest: seq<Node>) returns (outcome: Outcome<LookupError>)
    modifies operations
    ensures InvoiceFix(forest).Failure? ==>
      outcome == Fail(InvoiceFix(forest).error) && operations.items == old(operations.items)
    ensures InvoiceFix(forest).Success? ==>
      outcome == Pass && operations.items == old(operations.items) + InvoiceOps(InvoiceFix(forest).value)
  {
    var invoice := Find(forest, "invoice_id");
    if invoice.None? {
      return Fail(NoSuchField("invoice_id"));
    }
    if invoice.value.value.None? {
      return Fail(NoValue("invoice_id"));
    }
    var value := invoice.value.value.value;
    var normalized := DigitsOnly(value);
    if normalized != value {
      operations.Append(InvoiceOp(Field(invoice.value.id, normalized)));
    }
    return Pass;
  }

  /** validate_order_id: appends at most one warning and reports a failed lookup. */
  method ValidateOrderId(messages: AppendList<Message>, forest: seq<Node>) returns (outcome: Outcome<LookupError>)
    modifies messages
    ensures OrderIdWarnings(forest).Failure? ==>
      outcome == Fail(OrderIdWarnings(forest).error) && messages.items == old(messages.items)
    ensures OrderIdWarnings(forest).Success? ==>
      outcome == Pass && messages.items == old(messages.items) + OrderIdWarnings(forest).value
  {
    var order := Find(forest, "order_id");
    if order.None? {
      return Fail(NoSuchField("order_id"));
    }
    if order.value.value.None? {
      return Fail(NoValue("order_id"));
    }
    var value := order.value.value.value;
    if value != "" && !IsSixDigitId(value) {
      messages.Append(Message(order.value.id, Warning, InvalidOrderIdText));
    }
    return Pass;
  }

  /**
   * match_vendor. The not-found error is appended before the vendor node is
   * read, so a tree without a vendor node fails with the error already added.
   */
  method MatchVendor(messages: AppendList<Message>, operations: AppendList<Operation>, forest: seq<Node>,
                     updated: seq<string>, action: string) returns (outcome: Outcome<LookupError>)
    modifies messages, operations
    ensures var step := VendorStepOf(forest, Rerun(action), updated);
      step.Failure? ==>
        outcome == Fail(step.error) &&
        messages.items == old(messages.items) && operations.items == old(operations.items)
    ensures var step := VendorStepOf(forest, Rerun(action), updated);
      step.Success? && step.value.Skip? ==>
        outcome == Pass && messages.items == old(messages.items) && operations.items == old(operations.items)
    ensures var step := VendorStepOf(forest, Rerun(action), updated);
      step.Success? && step.value.Suggest? ==>
        messages.items == old(messages.items) + step.value.errors &&
        (step.value.target.None? ==> outcome == Fail(NoSuchField("vendor")) && operations.items == old(operations.items)) &&
        (step.value.target.Some? ==>
          outcome == Pass &&
          operations.items == old(operations.items) + [VendorOp(step.value.target.value, step.value.options)])
  {
    var vendor := Find(forest, "vendor");
    var name := Find(forest, "vendor_name");
    if name.None? {
      return Fail(NoSuchField("vendor_name"));
    }
    if name.value.value.None? {
      return Fail(NoValue("vendor_name"));
    }
    var nameNorm := NormalizeName(name.value.value.value);
    if !(action == "initialize" || name.value.id in updated) {
      return Pass;
    }
    var options := VendorOptions(nameNorm);
    if Matched(nameNorm, Catalogue) == [] {
      messages.Append(Message(name.value.id, Error, VendorNotFoundText));
    }
    if vendor.None? {
      return Fail(NoSuchField("vendor"));
    }
    operations.Append(VendorOp(vendor.value.id, options));
    return Pass;
  }

  /** vendor_matching: runs the rules in order and returns both lists, or the first error. */
  method VendorMatching(forest: seq<Node>, updated: seq<string>, action: string) returns (r: Result<Response, LookupError>)
    ensures r == Evaluate(forest, updated, action)
  {
    var messages := new AppendList<Message>();
    var operations := new AppendList<Operation>();
    var outcome := NormalizeInvoiceId(operations, forest);
    if outcome.Fail? {
      return Failure(outcome.error);
    }
    ghost var fix := InvoiceFix(forest).value;
    assert operations.items == InvoiceOps(fix);
    outcome := ValidateOrderId(messages, forest);
    if outcome.Fail? {
      return Failure(outcome.error);
    }
    ghost var warnings := OrderIdWarnings(forest).value;
    assert messages.items == warnings;
    outcome := MatchVendor(messages, operations, forest, updated, action);
    if outcome.Fail? {
      return Failure(outcome.error);
    }
    return Success(Response(messages.items, operations.items));
  }

  /**
   * The request fails exactly when a rule raises, and with the first such
   * error: the invoice id, the order id, the vendor name, and the vendor
   * node only when vendor matching runs.
   */
  lemma EvaluateFailsFast(forest: seq<Node>, updated: seq<string>, action: string)
    ensures var r := Evaluate(forest, updated, action);
      var invoice := Lookup(forest, "invoice_id");
      var order := Lookup(forest, "order_id");
      var name := Lookup(forest, "vendor_name");
      var vendorMissing := name.Success? && (Rerun(action) || name.value.id in updated) && Find(forest, "vendor").None?;
      (r.Failure? <==> invoice.Failure? || order.Failure? || name.Failure? || vendorMissing) &&
      (r.Failure? ==>
        r.error == if invoice.Failure? then invoice.error
                   else if order.Failure? then order.error
                   else if name.Failure? then name.error
                   else NoSuchField("vendor"))
  {
  }

  /**
   * A successful response holds the invoice fix first, when the invoice id
   * had a non-digit, and the vendor proposal last, when vendor matching ran;
   * nothing else.
   */
  lemma EvaluateOperations(forest: seq<Node>, updated: seq<string>, action: string)
    requires Evaluate(forest, updated, action).Success?
    ensures var ops := Evaluate(forest, updated, action).value.operations;
      var invoice := Lookup(forest, "invoice_id").value;
      var name := Lookup(forest, "vendor_name").value;
      var ran := Rerun(action) || name.id in updated;
      |ops| == (if AllDigits(invoice.value) then 0 else 1) + (if ran then 1 else 0) &&
      (!AllDigits(invoice.value) ==> ops[0] == InvoiceOp(Field(invoice.id, DigitsOnly(invoice.value)))) &&
      (ran ==> ops[|ops| - 1] == VendorOp(Find(forest, "vendor").value.id, VendorOptions(NormalizeName(name.value))))
  {
    var invoice := Lookup(forest, "invoice_id").value;
    DigitsOnlyFixedPoint(invoice.value);
  }

  /**
   * A successful response holds the order-id warning first, when the order
   * id is filled in and not six digits, then the vendor error, when vendor
   * matching ran and found nothing.
   */
  lemma EvaluateMessages(forest: seq<Node>, updated: seq<string>, action: string)
    requires Evaluate(forest, updated, action).Success?
    ensures var messages := Evaluate(forest, updated, action).value.messages;
      var order := Lookup(forest, "order_id").value;
      var name := Lookup(forest, "vendor_name").value;
      var ran := Rerun(action) || name.id in updated;
      var notFound := ran && Matched(NormalizeName(name.value), Catalogue) == [];
      messages ==
        (if IsBadOrderId(order.value) then [Message(order.id, Warning, InvalidOrderIdText)] else []) +
        (if notFound then [Message(name.id, Error, VendorNotFoundText)] else [])
  {
    var name := Lookup(forest, "vendor_name").value;
    var step := VendorStepOf(forest, Rerun(action), updated);
    RespondMessages(InvoiceFix(forest), OrderIdWarnings(forest), step);
    if Rerun(action) || name.id in updated {
      VendorStepSuggests(forest, Rerun(action), updated);
      VendorOptionsPlaceholder(NormalizeName(name.value));
    }
  }

  /** A response's messages are the order-id warnings followed by the vendor errors, if matching ran. */
  lemma RespondMessages(fix: Result<Option<Field>, LookupError>, warnings: Result<seq<Message>, LookupError>,
                        step: Result<VendorStep, LookupError>)
    requires step.Success? && step.value.Suggest? ==> step.value.options != []
    requires Respond(fix, warnings, step).Success?
    ensures warnings.Success? && step.Success?
    ensures Respond(fix, warnings, step).value.messages ==
      warnings.value + if step.value.Suggest? then step.value.errors else []
  {
  }

  /**
   * When the vendor name was not edited and the action is not `initialize`,
   * the response carries no vendor proposal and no error, whatever the
   * vendor name and whether a vendor node exists.
   */
  lemma EvaluateSkipsVendor(forest: seq<Node>, updated: seq<string>, action: string)
    requires action != "initialize"
    requires Lookup(forest, "vendor_name").Success? && Lookup(forest, "vendor_name").value.id !in updated
    requires Evaluate(forest, updated, action).Success?
    ensures var response := Evaluate(forest, updated, action).value;
      |response.operations| <= 1 && |response.messages| <= 1 &&
      (forall op :: op in response.operations ==> op.proposal.options.None?) &&
      (forall m :: m in response.messages ==> m.severity == Warning)
  {
  }

  /**
   * The annotation tree the tests build: one section holding the invoice id,
   * order id, vendor name, vendor and amount due datapoints.
   */
  function SampleTree(invoiceId: string, orderId: string, vendor: string, amountDue: string, vendorName: string): (tree: seq<Node>)
    ensures |tree| == 1 && tree[0].schemaId == "vendor_section"
  {
    [Node("190000", "vendor_section", None, SampleLeaves(invoiceId, orderId, vendor, amountDue, vendorName))]
  }

  /** The datapoints of the sample tree, in document order. */
  function SampleLeaves(invoiceId: string, orderId: string, vendor: string, amountDue: string, vendorName: string): (leaves: seq<Node>)
    ensures |leaves| == 5 && forall i :: 0 <= i < 5 ==> leaves[i].children == []
  {
    [Node("190001", "invoice_id", Some(invoiceId), []),
     Node("190002", "order_id", Some(orderId), []),
     Node("190003", "vendor_name", Some(vendorName), []),
     Node("190004", "vendor", Some(vendor), []),
     Node("190005", "amount_due", Some(amountDue), [])]
  }

  /** The invoice id and order id datapoints are the first two of the sample tree. */
  lemma SampleTreeIds(invoiceId: string, orderId: string, vendor: string, amountDue: string, vendorName: string)
    ensures var tree := SampleTree(invoiceId, orderId, vendor, amountDue, vendorName);
      Lookup(tree, "invoice_id") == Success(Field("190001", invoiceId)) &&
      Lookup(tree, "order_id") == Success(Field("190002", orderId))
  {
    var tree := SampleTree(invoiceId, orderId, vendor, amountDue, vendorName);
    var leaves := SampleLeaves(invoiceId, orderId, vendor, amountDue, vendorName);
    assert tree[0].children == leaves;
    FindDescends(tree, "invoice_id");
    FindDescends(tree, "order_id");
    FindSkipsLeaf(leaves, "order_id");
  }

  /** The vendor name and vendor datapoints are the third and fourth of the sample tree. */
  lemma SampleTreeVendor(invoiceId: string, orderId: string, vendor: string, amountDue: string, vendorName: string)
    ensures var tree := SampleTree(invoiceId, orderId, vendor, amountDue, vendorName);
      Lookup(tree, "vendor_name") == Success(Field("190003", vendorName)) &&
      Find(tree, "vendor") == Some(Node("190004", "vendor", Some(vendor), []))
  {
    var tree := SampleTree(invoiceId, orderId, vendor, amountDue, vendorName);
    var leaves := SampleLeaves(invoiceId, orderId, vendor, amountDue, vendorName);
    assert tree[0].children == leaves;
    FindDescends(tree, "vendor_name");
    FindSkipsLeaf(leaves, "vendor_name");
    FindSkipsLeaf(leaves[1..], "vendor_name");
    FindDescends(tree, "vendor");
    FindSkipsLeaf(leaves, "vendor");
    FindSkipsLeaf(leaves[1..], "vendor");
    FindSkipsLeaf(leaves[2..], "vendor");
    assert leaves[1..][1..] == leaves[2..];
    assert leaves[2..][1..] == leaves[3..];
  }

  /** On the sample tree with clean ids, `initialize` yields the vendor proposal alone. */
  lemma SampleTreeOperations(vendorName: string)
    ensures var r := Evaluate(SampleTree("", "", "", "", vendorName), [], "initialize");
      r.Success? && r.value.operations == [VendorOp("190004", VendorOptions(NormalizeName(vendorName)))]
  {
    var tree := SampleTree("", "", "", "", vendorName);
    SampleTreeIds("", "", "", "", vendorName);
    SampleTreeVendor("", "", "", "", vendorName);
    EvaluateFailsFast(tree, [], "initialize");
    EvaluateOperations(tree, [], "initialize");
  }

  /** On the sample tree with clean ids, `initialize` reports only a vendor name that matches nothing. */
  lemma SampleTreeMessages(vendorName: string)
    ensures var r := Evaluate(SampleTree("", "", "", "", vendorName), [], "initialize");
      r.Success? &&
      r.value.messages == if Matched(NormalizeName(vendorName), Catalogue) == [] then [Message("190003", Error, VendorNotFoundText)] else []
  {
    var tree := SampleTree("", "", "", "", vendorName);
    SampleTreeIds("", "", "", "", vendorName);
    SampleTreeVendor("", "", "", "", vendorName);
    EvaluateFailsFast(tree, [], "initialize");
    EvaluateMessages(tree, [], "initialize");
  }

  /** The first test: a vendor name that normalises to "roboyo" proposes Roboyo (id 1) and raises nothing. */
  lemma KnownVendorIsProposed(vendorName: string)
    requires NormalizeName(vendorName) == NormalizeName(Catalogue[0].name)
    ensures Evaluate(SampleTree("", "", "", "", vendorName), [], "initialize") ==
      Success(Response([], [Replace("190004", Proposal(Content(Num(1), None), Some([Choice(Num(1), "Roboyo")]), Some(["connector"])))]))
  {
    SampleTreeOperations(vendorName);
    SampleTreeMessages(vendorName);
    RoboyoOptions(NormalizeName(vendorName));
  }

  /**
   * The second test: a vendor name with a letter that occurs in no catalogue
   * name (the "n" of "Sony") proposes the placeholder and reports the vendor
   * name datapoint.
   */
  lemma UnknownVendorIsReported(vendorName: string, k: nat)
    requires k < |NormalizeName(vendorName)|
    requires var c := NormalizeName(vendorName)[k]; c !in "roboyo" && c !in "rossum" && c !in "volvo"
    ensures Evaluate(SampleTree("", "", "", "", vendorName), [], "initialize") ==
      Success(Response([Message("190003", Error, "Vendor not found.")],
        [Replace("190004", Proposal(Content(Str("---"), None), Some([Choice(Str("---"), "---")]), Some(["connector"])))]))
  {
    SampleTreeOperations(vendorName);
    SampleTreeMessages(vendorName);
    UnknownCharacterMatchesNothing(NormalizeName(vendorName), k);
  }

  /** test_success: "Roboyo" on the sample tree with `initialize`. */
  lemma RoboyoIsProposed()
    ensures Evaluate(SampleTree("", "", "", "", "Roboyo"), [], "initialize") ==
      Success(Response([], [Replace("190004", Proposal(Content(Num(1), None), Some([Choice(Num(1), "Roboyo")]), Some(["connector"])))]))
  {
    KnownVendorIsProposed("Roboyo");
  }

  /** test_vendor_not_found: "Sony" on the sample tree with `initialize`; its "n" is in no catalogue name. */
  lemma SonyIsReported()
    ensures Evaluate(SampleTree("", "", "", "", "Sony"), [], "initialize") ==
      Success(Response([Message("190003", Error, "Vendor not found.")],
        [Replace("190004", Proposal(Content(Str("---"), None), Some([Choice(Str("---"), "---")]), Some(["connector"])))]))
  {
    NormalizeNameCapitalised("Sony");
    assert NormalizeName("Sony") == "sony";
    UnknownVendorIsReported("Sony", 2);
  }
}
