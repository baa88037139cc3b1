/**
 * The connector variant: the same three rules, answering `/validate` with
 * messages and datapoint updates instead of `replace` operations, and
 * triggered by an `initial` query argument instead of an action name.
 */
module Connector {
  import opened Wrappers
  import opened FieldTree
  import opened Text
  import opened Vendors
  import opened Rules
  import Webhook

  /** `{"id": id, "value": value}`, with `options` for the vendor update only. */
  datatype Update = Update(id: string, value: Value, options: Option<seq<Choice>>)

  /** The JSON body `/validate` answers with. */
  datatype Response = Response(messages: seq<Message>, updates: seq<Update>)

  /** The update that writes the digits-only invoice id back. */
  function InvoiceUpdate(fix: Field): (u: Update)
    ensures u.id == fix.id && u.value == Str(fix.value) && u.options.None?
  {
    Update(fix.id, Str(fix.value), None)
  }

  /** The update that offers `options` on the vendor datapoint, preselecting the first. */
  function VendorUpdate(target: string, options: seq<Choice>): (u: Update)
    requires options != []
    ensures u.id == target && u.value == options[0].value && u.options == Some(options)
  {
    Update(target, options[0].value, Some(options))
  }

  /** The updates an invoice fix contributes: one, or none when the id was already clean. */
  function InvoiceUpdates(fix: Option<Field>): (updates: seq<Update>)
    ensures |updates| <= 1
    ensures fix.Some? <==> updates != []
  {
    if fix.Some? then [InvoiceUpdate(fix.value)] else []
  }

  /** The `initial` query argument, defaulting to "false", compared case-insensitively with "true". */
  function IsInitial(arg: Option<string>): (initial: bool)
    ensures initial <==> arg.Some? && |arg.value| == 4 && forall i :: 0 <= i < 4 ==> Lower(arg.value[i]) == "true"[i]
  {
    var text := if arg.Some? then arg.value else "false";
    LowerAll(text) == "true"
  }

  /** Without the argument the flag is off. */
  lemma IsInitialDefaultsToFalse()
    ensures !IsInitial(None)
  {
    assert LowerAll("false")[0] == 'f';
  }

  /** Only a spelling of "true" in any case switches the flag on. */
  lemma IsInitialExamples()
    ensures IsInitial(Some("true")) && IsInitial(Some("True")) && IsInitial(Some("TRUE"))
    ensures !IsInitial(Some("false")) && !IsInitial(Some("1")) && !IsInitial(Some("yes")) && !IsInitial(Some(""))
  {
    assert LowerAll("false")[0] == 'f';
    assert LowerAll("1")[0] == '1';
    assert LowerAll("yes")[0] == 'y';
  }

  /**
   * The response built from the three rules' results, taken in order: the
   * first rule that raised ends the request with its error.
   */
  function Respond(fix: Result<Option<Field>, LookupError>, warnings: Result<seq<Message>, LookupError>,
                   step: Result<VendorStep, LookupError>): (r: Result<Response, LookupError>)
    requires step.Success? && step.value.Suggest? ==> step.value.options != []
  {
    match fix
    case Failure(e) => Failure(e)
    case Success(fix) =>
      match warnings
      case Failure(e) => Failure(e)
      case Success(warnings) =>
        match step
        case Failure(e) => Failure(e)
        case Success(Skip) => Success(Response(warnings, InvoiceUpdates(fix)))
        case Success(Suggest(errors, target, options)) =>
          if target.None? then Failure(NoSuchField("vendor"))
          else Success(Response(warnings + errors, InvoiceUpdates(fix) + [VendorUpdate(target.value, options)]))
  }

  /** api_validate: the three rules on two fresh lists, supplier matching triggered by the `initial` argument. */
  function Validate(forest: seq<Node>, previouslyUpdated: seq<string>, initialArg: Option<string>): (r: Result<Response, LookupError>)
  {
    Respond(InvoiceFix(forest), OrderIdWarnings(forest), VendorStepOf(forest, IsInitial(initialArg), previouslyUpdated))
  }

  /** normalize_invoice_id: appends at most one update; `messages` is passed along but left alone. */
  method NormalizeInvoiceId(messages: AppendList<Message>, updates: AppendList<Update>, forest: seq<Node>)
    returns (outcome: Outcome<LookupError>)
    modifies updates
    ensures InvoiceFix(forest).Failure? ==>
      outcome == Fail(InvoiceFix(forest).error) && updates.items == old(updates.items)
    ensures InvoiceFix(forest).Success? ==>
      outcome == Pass && updates.items == old(updates.items) + InvoiceUpdates(InvoiceFix(forest).value)
  {
    var invoice := Find(forest, "invoice_id");
    if invoice.None? {
      return Fail(NoSuchField("invoice_id"));
    }
    if invoice.value.value.None? {
      return Fail(NoValue("invoice_id"));
    }
    var value := invoice.value.value.value;
    var normalized := DigitsOnly(value);
    if normalized != value {
      updates.Append(InvoiceUpdate(Field(invoice.value.id, normalized)));
    }
    return Pass;
  }

  /** validate_order_id: appends at most one warning; `updates` is passed along but left alone. */
  method ValidateOrderId(messages: AppendList<Message>, updates: AppendList<Update>, forest: seq<Node>)
    returns (outcome: Outcome<LookupError>)
    modifies messages
    ensures OrderIdWarnings(forest).Failure? ==>
      outcome == Fail(OrderIdWarnings(forest).error) && messages.items == old(messages.items)
    ensures OrderIdWarnings(forest).Success? ==>
      outcome == Pass && messages.items == old(messages.items) + OrderIdWarnings(forest).value
  {
    var order := Find(forest, "order_id");
    if order.None? {
      return Fail(NoSuchField("order_id"));
    }
    if order.value.value.None? {
      return Fail(NoValue("order_id"));
    }
    var value := order.value.value.value;
    if value != "" && !IsSixDigitId(value) {
      messages.Append(Message(order.value.id, Warning, InvalidOrderIdText));
    }
    return Pass;
  }

  /**
   * match_supplier. The not-found error is appended before the vendor node
   * is read, so a tree without a vendor node fails with the error already added.
   */
  method MatchSupplier(messages: AppendList<Message>, updates: AppendList<Update>, forest: seq<Node>,
                       isInitial: bool, previouslyUpdated: seq<string>) returns (outcome: Outcome<LookupError>)
    modifies messages, updates
    ensures var step := VendorStepOf(forest, isInitial, previouslyUpdated);
      step.Failure? ==>
        outcome == Fail(step.error) &&
        messages.items == old(messages.items) && updates.items == old(updates.items)
    ensures var step := VendorStepOf(forest, isInitial, previouslyUpdated);
      step.Success? && step.value.Skip? ==>
        outcome == Pass && messages.items == old(messages.items) && updates.items == old(updates.items)
    ensures var step := VendorStepOf(forest, isInitial, previouslyUpdated);
      step.Success? && step.value.Suggest? ==>
        messages.items == old(messages.items) + step.value.errors &&
        (step.value.target.None? ==> outcome == Fail(NoSuchField("vendor")) && updates.items == old(updates.items)) &&
        (step.value.target.Some? ==>
          outcome == Pass &&
          updates.items == old(updates.items) + [VendorUpdate(step.value.target.value, step.value.options)])
  {
    var vendor := Find(forest, "vendor");
    var name := Find(forest, "vendor_name");
    if name.None? {
      return Fail(NoSuchField("vendor_name"));
    }
    if name.value.value.None? {
      return Fail(NoValue("vendor_name"));
    }
    var nameNorm := NormalizeName(name.value.value.value);
    if !(isInitial || name.value.id in previouslyUpdated) {
      return Pass;
    }
    var options := VendorOptions(nameNorm);
    if Matched(nameNorm, Catalogue) == [] {
      messages.Append(Message(name.value.id, Error, VendorNotFoundText));
    }
    if vendor.None? {
      return Fail(NoSuchField("vendor"));
    }
    updates.Append(VendorUpdate(vendor.value.id, options));
    return Pass;
  }

  /** api_validate: parses the flag, runs the rules in order and returns both lists, or the first error. */
  method ApiValidate(forest: seq<Node>, previouslyUpdated: seq<string>, initialArg: Option<string>)
    returns (r: Result<Response, LookupError>)
    ensures r == Validate(forest, previouslyUpdated, initialArg)
  {
    var isInitial := IsInitial(initialArg);
    var messages := new AppendList<Message>();
    var updates := new AppendList<Update>();
    var outcome := NormalizeInvoiceId(messages, updates, forest);
    if outcome.Fail? {
      return Failure(outcome.error);
    }
    ghost var fix := InvoiceFix(forest).value;
    assert updates.items == InvoiceUpdates(fix);
    outcome := ValidateOrderId(messages, updates, forest);
    if outcome.Fail? {
      return Failure(outcome.error);
    }
    ghost var warnings := OrderIdWarnings(forest).value;
    assert messages.items == warnings;
    outcome := MatchSupplier(messages, updates, forest, isInitial, previouslyUpdated);
    if outcome.Fail? {
      return Failure(outcome.error);
    }
    return Success(Response(messages.items, updates.items));
  }

  /**
   * The request fails exactly when a rule raises, and with the first such
   * error: the invoice id, the order id, the vendor name, and the vendor
   * node only when supplier matching runs.
   */
  lemma ValidateFailsFast(forest: seq<Node>, previouslyUpdated: seq<string>, initialArg: Option<string>)
    ensures var r := Validate(forest, previouslyUpdated, initialArg);
      var invoice := Lookup(forest, "invoice_id");
      var order := Lookup(forest, "order_id");
      var name := Lookup(forest, "vendor_name");
      var vendorMissing := name.Success? && (IsInitial(initialArg) || name.value.id in previouslyUpdated) &&
        Find(forest, "vendor").None?;
      (r.Failure? <==> invoice.Failure? || order.Failure? || name.Failure? || vendorMissing) &&
      (r.Failure? ==>
        r.error == if invoice.Failure? then invoice.error
                   else if order.Failure? then order.error
                   else if name.Failure? then name.error
                   else NoSuchField("vendor"))
  {
  }

  /**
   * A successful response holds the invoice update first, when the invoice
   * id had a non-digit, and the vendor update last, when supplier matching
   * ran; nothing else.
   */
  lemma ValidateUpdates(forest: seq<Node>, previouslyUpdated: seq<string>, initialArg: Option<string>)
    requires Validate(forest, previouslyUpdated, initialArg).Success?
    ensures var updates := Validate(forest, previouslyUpdated, initialArg).value.updates;
      var invoice := Lookup(forest, "invoice_id").value;
      var name := Lookup(forest, "vendor_name").value;
      var ran := IsInitial(initialArg) || name.id in previouslyUpdated;
      |updates| == (if AllDigits(invoice.value) then 0 else 1) + (if ran then 1 else 0) &&
      (!AllDigits(invoice.value) ==> updates[0] == InvoiceUpdate(Field(invoice.id, DigitsOnly(invoice.value)))) &&
      (ran ==> updates[|updates| - 1] == VendorUpdate(Find(forest, "vendor").value.id, VendorOptions(NormalizeName(name.value))))
  {
    var invoice := Lookup(forest, "invoice_id").value;
    DigitsOnlyFixedPoint(invoice.value);
  }

  /**
   * A successful response holds the order-id warning first, when the order
   * id is filled in and not six digits, then the vendor error, when
   * supplier matching ran and found nothing.
   */
  lemma ValidateMessages(forest: seq<Node>, previouslyUpdated: seq<string>, initialArg: Option<string>)
    requires Validate(forest, previouslyUpdated, initialArg).Success?
    ensures var messages := Validate(forest, previouslyUpdated, initialArg).value.messages;
      var order := Lookup(forest, "order_id").value;
      var name := Lookup(forest, "vendor_name").value;
      var ran := IsInitial(initialArg) || name.id in previouslyUpdated;
      var notFound := ran && Matched(NormalizeName(name.value), Catalogue) == [];
      messages ==
        (if IsBadOrderId(order.value) then [Message(order.id, Warning, InvalidOrderIdText)] else []) +
        (if notFound then [Message(name.id, Error, VendorNotFoundText)] else [])
  {
    var name := Lookup(forest, "vendor_name").value;
    var step := VendorStepOf(forest, IsInitial(initialArg), previouslyUpdated);
    RespondMessages(InvoiceFix(forest), OrderIdWarnings(forest), step);
    if IsInitial(initialArg) || name.id in previouslyUpdated {
      VendorStepSuggests(forest, IsInitial(initialArg), previouslyUpdated);
      VendorOptionsPlaceholder(NormalizeName(name.value));
    }
  }

  /** A response's messages are the order-id warnings followed by the vendor errors, if matching ran. */
  lemma RespondMessages(fix: Result<Option<Field>, LookupError>, warnings: Result<seq<Message>, LookupError>,
                        step: Result<VendorStep, LookupError>)
    requires step.Success? && step.value.Suggest? ==> step.value.options != []
    requires Respond(fix, warnings, step).Success?
    ensures warnings.Success? && step.Success?
    ensures Respond(fix, warnings, step).value.messages ==
      warnings.value + if step.value.Suggest? then step.value.errors else []
  {
  }

  /**
   * Without the `initial` argument and without an edit of the vendor name,
   * the response carries no vendor update and no error, whatever the vendor
   * name and whether a vendor node exists.
   */
  lemma ValidateSkipsSupplier(forest: seq<Node>, previouslyUpdated: seq<string>)
    requires Lookup(forest, "vendor_name").Success? && Lookup(forest, "vendor_name").value.id !in previouslyUpdated
    requires Validate(forest, previouslyUpdated, None).Success?
    ensures var response := Validate(forest, previouslyUpdated, None).value;
      |response.updates| <= 1 && |response.messages| <= 1 &&
      (forall u :: u in response.updates ==> u.options.None?) &&
      (forall m :: m in response.messages ==> m.severity == Warning)
  {
    IsInitialDefaultsToFalse();
  }

  /** The update the connector sends where the webhook sends a `replace` operation. */
  function AsUpdate(op: Webhook.Operation): (u: Update)
    ensures u.id == op.id && u.value == op.proposal.content.value && u.options == op.proposal.options
  {
    Update(op.id, op.proposal.content.value, op.proposal.options)
  }

  /**
   * From the same rule results, the two variants build alike: they fail with
   * the same error, report the same messages, and send the same datapoint
   * values and options in the same order.
   */
  lemma ResponsesAgree(fix: Result<Option<Field>, LookupError>, warnings: Result<seq<Message>, LookupError>,
                       step: Result<VendorStep, LookupError>)
    requires step.Success? && step.value.Suggest? ==> step.value.options != []
    ensures var r := Respond(fix, warnings, step);
      var w := Webhook.Respond(fix, warnings, step);
      (r.Failure? <==> w.Failure?) &&
      (r.Failure? ==> r.error == w.error) &&
      (r.Success? ==>
        r.value.messages == w.value.messages &&
        |r.value.updates| == |w.value.operations| &&
        forall i :: 0 <= i < |r.value.updates| ==> r.value.updates[i] == AsUpdate(w.value.operations[i]))
  {
    if fix.Success? && warnings.Success? && step.Success? {
      var ops := Webhook.InvoiceOps(fix.value);
      var ups := InvoiceUpdates(fix.value);
      assert |ops| == |ups| && forall i :: 0 <= i < |ups| ==> ups[i] == AsUpdate(ops[i]);
      if step.value.Suggest? && step.value.target.Some? {
        var target, options := step.value.target.value, step.value.options;
        assert AsUpdate(Webhook.VendorOp(target, options)) == VendorUpdate(target, options);
      }
    }
  }

  /**
   * The two variants decide alike: with the same trigger they fail on the
   * same trees with the same error, report the same messages, and send the
   * same datapoint values and options.
   */
  lemma ValidateAgreesWithWebhook(forest: seq<Node>, previouslyUpdated: seq<string>, initialArg: Option<string>, action: string)
    requires IsInitial(initialArg) == Webhook.Rerun(action)
    ensures var r := Validate(forest, previouslyUpdated, initialArg);
      var w := Webhook.Evaluate(forest, previouslyUpdated, action);
      (r.Failure? <==> w.Failure?) &&
      (r.Failure? ==> r.error == w.error) &&
      (r.Success? ==>
        r.value.messages == w.value.messages &&
        |r.value.updates| == |w.value.operations| &&
        forall i :: 0 <= i < |r.value.updates| ==> r.value.updates[i] == AsUpdate(w.value.operations[i]))
  {
    ResponsesAgree(InvoiceFix(forest), OrderIdWarnings(forest), VendorStepOf(forest, IsInitial(initialArg), previouslyUpdated));
  }
}
