# Vendor-matching webhook rules in Dafny

This project models the rule-evaluation engine of the Rossum vendor-matching
webhook. The engine receives an annotation tree of datapoints, each carrying a
schema id, and runs three rules in a fixed order:

- **Invoice id normalisation** strips every non-digit from the `invoice_id` datapoint. It proposes the cleaned value when that differs.
- **Order id validation** warns when a filled-in `order_id` is not six digits.
- **Vendor matching** runs on the `initialize` action or when the vendor name was edited. It normalises the `vendor_name` by dropping `,`, `.` and whitespace and lower-casing. It then offers every catalogue supplier whose normalised name contains that string. When none does, it offers the `---` placeholder and reports "Vendor not found.".

The repository carries the engine twice, in two shapes:

- **The packaged webhook** (`simple_vendor_matching_webhook_python/webhook.py`) answers with `messages` and `replace` operations.
- **The older connector** (`connector.py`) answers with `messages` and `updated_datapoints`. It is triggered by an `initial` query argument.

The model is organised as follows:

- `Wrappers`: `Option`, `Result`, `Outcome` and a subsequence predicate.
- `FieldTree`: the annotation tree and `find_by_schema_id` as a depth-first search, proved to return the first match in document order.
- `Text`: the string operations:
  - the digit filter;
  - the `^[0-9]{6}$` pattern, including Python's `$` that also accepts one trailing newline;
  - name normalisation;
  - Python's substring test.
- `Vendors`: the three-entry supplier catalogue, the substring matching and the option list.
- `Rules`: what each rule decides, as functions shared by both variants. A Python exception is modelled as a `LookupError`:
  - `NoSuchField` when the search found nothing and the rule subscripted `None`;
  - `NoValue` when the node has no value.

  `AppendList` is the caller-owned Python list the rules append to.
- `Webhook` and `Connector`: each variant's output shapes, and the rules as methods that append to `AppendList` objects in place. Each orchestrator method is proved equal to a pure function (`Evaluate`, `Validate`), and lemmas about that function state the request-level guarantees. `Connector.ValidateAgreesWithWebhook` proves that the two variants decide alike.

The node abstraction `FieldTree.Node` has a `value` field. It stands for `content.value` in the webhook and `value` in the connector. A node without `children` is a node with no children.

## Model

| member | source | states |
|---|---|---|
| FieldTree.Find | simple_vendor_matching_webhook_python/webhook.py:30-39 | a found node has the requested schema id |
| FieldTree.FirstWithSchemaId | simple_vendor_matching_webhook_python/webhook.py:30-39 | reference search over a flat list: None exactly when no node has the schema id, otherwise the node at the first matching index |
| FieldTree.FindIsFirstInPreOrder | simple_vendor_matching_webhook_python/webhook.py:30-39 | the recursive search equals the first match in the pre-order listing of the tree |
| FieldTree.FindSpec | connector.py:27-36 | None exactly when no node at any depth has the schema id; otherwise a node with that schema id with no earlier pre-order match |
| FieldTree.FirstWithSchemaIdAppend | simple_vendor_matching_webhook_python/webhook.py:32-39 | searching a concatenation looks in the second part only when the first has no match |
| FieldTree.PreOrderHoldsDescendants | simple_vendor_matching_webhook_python/webhook.py:35-36 | every root and every node below it appears in the pre-order listing that the search covers |
| FieldTree.FindSkipsLeaf | simple_vendor_matching_webhook_python/webhook.py:32-38 | a childless node with another schema id is passed over |
| FieldTree.FindDescends | simple_vendor_matching_webhook_python/webhook.py:35-38 | below a single non-matching root the search covers exactly its children |
| Text.DigitsOnly | simple_vendor_matching_webhook_python/webhook.py:45 | the filtered invoice id holds only ASCII digits and is no longer than the input |
| Text.DigitsOnlyFixedPoint | simple_vendor_matching_webhook_python/webhook.py:45-46 | the filter leaves a string unchanged exactly when it is all digits, both directions |
| Text.DigitsOnlyIdempotent | connector.py:42 | normalising a normalised invoice id changes nothing |
| Text.DigitsOnlyKeepsEveryDigit | simple_vendor_matching_webhook_python/webhook.py:45 | every digit keeps its number of occurrences and every other character disappears |
| Text.DigitsOnlyKeepsOrder | simple_vendor_matching_webhook_python/webhook.py:45 | the kept digits are a subsequence of the input, in their original order |
| Text.IsSixDigitId | simple_vendor_matching_webhook_python/webhook.py:61-62 | the order-id pattern accepts a string exactly when it is six ASCII digits, optionally followed by one newline (both directions) |
| Text.Lower | simple_vendor_matching_webhook_python/webhook.py:91 | a lower-cased character is not upper-case and is a separator exactly when the original is |
| Text.IsSpace | simple_vendor_matching_webhook_python/webhook.py:90 | a whitespace character is none of the digits, ASCII letters, `,` and `.` |
| Text.StripSeparators | simple_vendor_matching_webhook_python/webhook.py:90 | the result holds no `,`, `.` or whitespace and is no longer than the input |
| Text.LowerAll | simple_vendor_matching_webhook_python/webhook.py:91 | lower-casing keeps the length and lower-cases each position |
| Text.NormalizeName | simple_vendor_matching_webhook_python/webhook.py:89-91 | a normalised name holds no `,`, `.`, whitespace or upper-case letter and is no longer than the input |
| Text.StripSeparatorsKeepsClean | simple_vendor_matching_webhook_python/webhook.py:90 | a string without separators is left as it is |
| Text.LowerAllKeepsLower | simple_vendor_matching_webhook_python/webhook.py:91 | a string without upper-case letters is left as it is |
| Text.NormalizeNameIdempotent | connector.py:72-74 | normalising twice equals normalising once |
| Text.NormalizeNameCons | simple_vendor_matching_webhook_python/webhook.py:89-91 | normalisation works character by character: a separator is dropped, any other character is lower-cased |
| Text.NormalizeNameOfNormal | simple_vendor_matching_webhook_python/webhook.py:89-91 | a lower-case name without separators is its own normal form |
| Text.NormalizeNameCapitalised | simple_vendor_matching_webhook_python/webhook.py:87-91 | a capitalised single word, as in the catalogue, normalises by lower-casing its first letter |
| Text.NormalizeNameAppend | simple_vendor_matching_webhook_python/webhook.py:89-91 | normalisation distributes over concatenation |
| Text.NormalizeNameIgnoresSeparator | simple_vendor_matching_webhook_python/webhook.py:90 | inserting a `,`, `.` or whitespace anywhere does not change the normal form |
| Text.NormalizeNameIgnoresCase | simple_vendor_matching_webhook_python/webhook.py:91 | changing the case of any one letter does not change the normal form |
| Text.NormalizeNameExample | simple_vendor_matching_webhook_python/webhook.py:89-91 | "Ro.boyo" and "roboyo" have the same normal form |
| Text.Contains | simple_vendor_matching_webhook_python/webhook.py:108 | a contained needle is no longer than the haystack (the full characterisation is Text.ContainsIffOccurs) |
| Text.ContainsIffOccurs | simple_vendor_matching_webhook_python/webhook.py:108 | Python's `in` on strings holds exactly when the needle occurs at some position of the haystack |
| Text.ContainsNeedsEveryChar | simple_vendor_matching_webhook_python/webhook.py:108 | a contained needle's characters all occur in the haystack |
| Text.ContainsEdgeCases | simple_vendor_matching_webhook_python/webhook.py:108 | the empty string is in every string; a non-empty string is never in the empty one |
| Vendors.Matches | simple_vendor_matching_webhook_python/webhook.py:108 | definition of the comprehension's filter: the normalised input is non-empty and is a substring of the supplier's normalised name; its consequences are stated by Vendors.MatchedSpec |
| Vendors.Matched | simple_vendor_matching_webhook_python/webhook.py:105-109 | an empty normalised name matches nothing, and at most the whole catalogue matches |
| Vendors.MatchedSpec | connector.py:88-90 | a supplier is matched exactly when it is in the catalogue and its normalised name contains the non-empty normalised input |
| Vendors.MatchedKeepsCatalogueOrder | simple_vendor_matching_webhook_python/webhook.py:105-109 | the matches come in catalogue order |
| Vendors.VendorOptions | simple_vendor_matching_webhook_python/webhook.py:111-114 | there is always at least one option, so `options[0]` exists |
| Vendors.VendorOptionsPlaceholder | simple_vendor_matching_webhook_python/webhook.py:111-114 | the placeholder is offered exactly when nothing matched |
| Vendors.VendorOptionsSpec | simple_vendor_matching_webhook_python/webhook.py:105-114 | the options are the placeholder alone exactly when no supplier matches; otherwise every matching supplier appears as `{value: id, label: name}`, every option is such a supplier, and the first value is an id |
| Vendors.VendorOptionsInOrder | simple_vendor_matching_webhook_python/webhook.py:111-112 | when something matches, the options are the matches one for one, at the same positions, so in catalogue order |
| Vendors.PreselectedIsFirstMatch | simple_vendor_matching_webhook_python/webhook.py:105-122 | the preselected first option is the first catalogue entry, in catalogue order, whose normalised name contains the input, or the placeholder when none does |
| Vendors.RoboyoNormalised | simple_vendor_matching_webhook_python/webhook.py:87 | the first catalogue name normalises to "roboyo" |
| Vendors.RossumNormalised | simple_vendor_matching_webhook_python/webhook.py:87 | the second catalogue name normalises to "rossum" |
| Vendors.VolvoNormalised | simple_vendor_matching_webhook_python/webhook.py:87 | the third catalogue name normalises to "volvo" |
| Vendors.MatchedOverThree | connector.py:67-71 | over a three-entry catalogue, the matches are the three conditional entries in order |
| Vendors.MatchedRoboyo | tests/test_webhook.py:27-40 | a name normalising like "Roboyo" matches Roboyo alone |
| Vendors.RoboyoOptions | tests/test_webhook.py:35 | such a name yields the single option Roboyo with value 1 |
| Vendors.UnknownCharacterMatchesNothing | tests/test_webhook.py:61-74 | a name with a letter that occurs in no catalogue name matches nothing |
| Rules.Lookup | simple_vendor_matching_webhook_python/webhook.py:44-45 | reading a datapoint fails with the schema id; it is NoSuchField exactly when the search finds nothing; it succeeds exactly when the found node has a value, and then returns that node's id and value |
| Rules.LookupSpec | connector.py:41-42 | a lookup fails with NoSuchField exactly when no node at any depth has the schema id; it fails with NoValue exactly when the first such node in document order has no value; otherwise it reads that first node |
| Rules.InvoiceFix | simple_vendor_matching_webhook_python/webhook.py:42-55 | fails exactly as the invoice-id lookup does; proposes nothing exactly when the value is all digits; otherwise proposes the digits-only value on the invoice id datapoint |
| Rules.IsBadOrderId | simple_vendor_matching_webhook_python/webhook.py:61-63 | an order id is flagged exactly when it is non-empty and is neither six digits nor six digits followed by one newline |
| Rules.BadOrderIdExamples | simple_vendor_matching_webhook_python/webhook.py:61-63 | "", "123456" and "123456\n" pass; "12345", "1234567" and "12a456" are flagged |
| Rules.OrderIdWarnings | simple_vendor_matching_webhook_python/webhook.py:58-66 | fails exactly as the order-id lookup does; otherwise one "Invalid order_id format." warning on the order id datapoint exactly when the value is non-empty and not six digits |
| Rules.VendorStepOf | simple_vendor_matching_webhook_python/webhook.py:93-99 | fails exactly as the vendor-name lookup does, whatever the trigger; skips exactly when not triggered and the vendor name's id is not among the edited ids; a suggestion always carries at least one option |
| Rules.VendorStepSuggests | simple_vendor_matching_webhook_python/webhook.py:105-120 | a triggered step offers the catalogue options for the normalised name, aims at the first vendor node (none when the tree has none), and reports one "Vendor not found." error on the vendor name datapoint exactly when the options are the placeholder |
| Rules.AppendList.Append | simple_vendor_matching_webhook_python/webhook.py:47 | appending adds the element at the end and keeps everything before it |
| Webhook.InvoiceOp | simple_vendor_matching_webhook_python/webhook.py:47-55 | the invoice operation replaces the invoice id datapoint with the cleaned value, tagged with the "connector" validation source inside `content` |
| Webhook.VendorOp | simple_vendor_matching_webhook_python/webhook.py:117-127 | the vendor operation targets the vendor datapoint; its content value is the first option's value; it carries all options and the "connector" validation source |
| Webhook.InvoiceOps | simple_vendor_matching_webhook_python/webhook.py:46-47 | at most one invoice operation, present exactly when a fix was found |
| Webhook.Rerun | simple_vendor_matching_webhook_python/webhook.py:98 | definition of the webhook's trigger: the action is `initialize` (used by Webhook.EvaluateSkipsVendor and Connector.ValidateAgreesWithWebhook) |
| Webhook.Respond | simple_vendor_matching_webhook_python/webhook.py:138-142 | definition of the response built from the three rule results in order, the first failure ending the request; its properties are stated by Webhook.RespondMessages and the Evaluate lemmas |
| Webhook.RespondMessages | simple_vendor_matching_webhook_python/webhook.py:138-142 | a built response's messages are the order-id warnings followed by the vendor errors when matching ran |
| Webhook.Evaluate | simple_vendor_matching_webhook_python/webhook.py:132-142 | definition of the request as a function of the tree, the edited ids and the action; its properties are stated by the Evaluate lemmas below and its method by Webhook.VendorMatching |
| Webhook.NormalizeInvoiceId | simple_vendor_matching_webhook_python/webhook.py:42-55 | fails as InvoiceFix does and leaves the operations alone; otherwise appends exactly the invoice operation (if any) |
| Webhook.ValidateOrderId | simple_vendor_matching_webhook_python/webhook.py:58-66 | fails as OrderIdWarnings does and leaves the messages alone; otherwise appends exactly its warnings; never touches operations |
| Webhook.MatchVendor | simple_vendor_matching_webhook_python/webhook.py:69-127 | a failed name lookup or a skipped step leaves both lists alone; a triggered step appends its error (if any) and then its one vendor operation, or fails on a missing vendor node after the error was appended |
| Webhook.VendorMatching | simple_vendor_matching_webhook_python/webhook.py:132-142 | running the three rule methods on two fresh lists yields exactly `Evaluate` |
| Webhook.EvaluateFailsFast | simple_vendor_matching_webhook_python/webhook.py:138-140 | the request fails exactly when a rule raises, with the error of the first rule that raises; a missing vendor node counts only when vendor matching runs |
| Webhook.EvaluateOperations | simple_vendor_matching_webhook_python/webhook.py:135-142 | the operations are the invoice fix first (present exactly when the invoice id had a non-digit) and the vendor proposal last (present exactly when matching ran), nothing else |
| Webhook.EvaluateMessages | simple_vendor_matching_webhook_python/webhook.py:135-142 | the messages are the order-id warning (if any) followed by the vendor error (if any) |
| Webhook.EvaluateSkipsVendor | simple_vendor_matching_webhook_python/webhook.py:97-99 | outside `initialize` and without an edit of the vendor name there is no vendor proposal and no error |
| Webhook.SampleTree | tests/conftest.py:20-35 | the test tree is one `vendor_section` root |
| Webhook.SampleLeaves | tests/conftest.py:27-33 | the test tree's section holds five childless datapoints |
| Webhook.SampleTreeIds | tests/conftest.py:28-29 | the invoice and order id lookups find datapoints 190001 and 190002 |
| Webhook.SampleTreeVendor | tests/conftest.py:30-31 | the vendor name lookup finds 190003 and the vendor search finds 190004 |
| Webhook.SampleTreeOperations | tests/test_webhook.py:29-39 | on the test tree with `initialize`, the only operation is the vendor proposal |
| Webhook.SampleTreeMessages | tests/test_webhook.py:28 | on the test tree with `initialize`, the only possible message is the vendor error, present exactly when nothing matches |
| Webhook.KnownVendorIsProposed | tests/test_webhook.py:27-40 | a vendor name normalising like "Roboyo" gives no messages and one operation on 190004 with value 1 and the single Roboyo option |
| Webhook.UnknownVendorIsReported | tests/test_webhook.py:61-74 | a vendor name with a letter that is in no catalogue name, such as "Sony", gives the error on 190003 and the placeholder operation on 190004 |
| Webhook.RoboyoIsProposed | tests/test_webhook.py:7-40 | the first test's request, "Roboyo" with `initialize`, answers with no messages and the single Roboyo proposal on 190004 |
| Webhook.SonyIsReported | tests/test_webhook.py:42-74 | the second test's request, "Sony" with `initialize`, answers with the error on 190003 and the placeholder proposal on 190004 |
| Connector.InvoiceUpdate | connector.py:43-44 | the invoice update carries the invoice datapoint id and the cleaned value, and no options |
| Connector.VendorUpdate | connector.py:98-100 | the vendor update carries the vendor datapoint id, the first option's value and all options |
| Connector.InvoiceUpdates | connector.py:43-44 | at most one invoice update, present exactly when a fix was found |
| Connector.IsInitial | connector.py:108 | the flag is on exactly when the argument is present, has four characters and lower-cases to "true" position by position |
| Connector.IsInitialDefaultsToFalse | connector.py:108 | an absent argument leaves the flag off |
| Connector.IsInitialExamples | connector.py:108 | "true", "True" and "TRUE" switch it on; "false", "1", "yes" and "" do not |
| Connector.Respond | connector.py:112-116 | definition of the response built from the three rule results in order, the first failure ending the request |
| Connector.RespondMessages | connector.py:112-116 | a built response's messages are the order-id warnings followed by the vendor errors when matching ran |
| Connector.Validate | connector.py:106-116 | definition of the request as a function of the tree, the edited ids and the `initial` argument; its properties are stated by the Validate lemmas below and its method by Connector.ApiValidate |
| Connector.NormalizeInvoiceId | connector.py:39-44 | fails as InvoiceFix does and leaves the updates alone; otherwise appends exactly the invoice update (if any); never touches messages |
| Connector.ValidateOrderId | connector.py:47-51 | fails as OrderIdWarnings does; otherwise appends exactly its warnings; never touches the updates |
| Connector.MatchSupplier | connector.py:54-100 | a failed name lookup or a skipped step leaves both lists alone; a triggered step appends its error (if any) and then its one vendor update, or fails on a missing vendor node after the error was appended |
| Connector.ApiValidate | connector.py:106-116 | parsing the flag and running the three rule methods on two fresh lists yields exactly `Validate` |
| Connector.ValidateFailsFast | connector.py:112-114 | the request fails exactly when a rule raises, with the first rule's error; a missing vendor node counts only when supplier matching runs |
| Connector.ValidateUpdates | connector.py:109-116 | the updates are the invoice fix first (present exactly when the invoice id had a non-digit) and the vendor update last (present exactly when matching ran), nothing else |
| Connector.ValidateMessages | connector.py:109-116 | the messages are the order-id warning (if any) followed by the vendor error (if any) |
| Connector.ValidateSkipsSupplier | connector.py:80-82 | without `initial` and without an edit of the vendor name there is no vendor update and no error |
| Connector.AsUpdate | connector.py:98-99 | a webhook operation re-shaped as a connector update keeps its id, value and options |
| Connector.ResponsesAgree | connector.py:98-116 | from the same rule results, the two variants fail alike with the same error, report the same messages, and send the same ids, values and options in the same order |
| Connector.ValidateAgreesWithWebhook | connector.py:105-116 | with the same trigger, the connector and the webhook fail alike, report the same messages, and send the same ids, values and options in the same order |

`find_by_schema_id` and `normalize_name` are the same code in the two files, and so are the catalogue and the matching comprehension. `normalize_invoice_id` and `validate_order_id` have the same decision logic in both. They differ in the node shape they read (`content.value` against `value`) and in the entry they append (a `replace` operation against an update). Rows citing one file therefore apply to the other for the lines below:

- webhook.py lines 30-39 match connector.py lines 27-36.
- webhook.py line 45 matches connector.py line 42.
- webhook.py lines 61-62 match connector.py line 50.
- webhook.py line 87 matches connector.py lines 67-71.
- webhook.py lines 89-91 match connector.py lines 72-74.
- webhook.py lines 105-109 match connector.py lines 88-90.

Where the code and its description differ, the model follows the code:

- **A tree without a `vendor` node** fails only when vendor matching runs. The search for it returns `None` without error. The node is first subscripted after the trigger check, when the operation is built (webhook.py line 120, connector.py line 99). By then the "Vendor not found." error may already have been appended. A missing or value-less `vendor_name` fails before the trigger check.
- **The order-id pattern** is anchored with `$`. In Python, `$` also matches before one final newline, so "123456\n" draws no warning.

## Left out

- **Request authentication** is not modelled: the webhook's HMAC-SHA1 signature check (webhook.py lines 14-27) and the connector's shared-secret header check (connector.py lines 15-24). They are cryptography and library calls, and they run before any rule.
- **HTTP plumbing** is not modelled: Flask routing, `request.json`, `jsonify`, `abort`, `create_app`, the `/save` and `/healthz` handlers and `app.run`. This is I/O with fixed responses. Instead, the tree, the edited ids, the action and the `initial` argument are parameters of `Evaluate` and `Validate`. The response is a value, and a raised exception is a `Failure`. The status code of a failed request is not modelled.
- **Text.Lower** lower-cases ASCII letters only, so `Text.NormalizeName` matches `str.lower()` on ASCII input. Python's full Unicode lower-casing is not modelled. For `Connector.IsInitial` the difference is invisible, because no non-ASCII character lower-cases to a letter of "true".
- **Text.IsSpace** is a fixed character set: the characters for which `str.isspace()` holds.
- **JSON typing** is not modelled. Datapoint ids and values are strings. Numeric values, and the `List[int]` annotation on the edited ids, are not modelled. A node whose value is missing fails with `NoValue`, whatever the JSON type.
- **Other datapoints** are never read by the rules, including the section node's content and `amount_due`.
- **Nodes without `children`** are modelled as nodes with an empty child list. The search treats the two alike.

