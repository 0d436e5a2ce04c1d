# Receipt OCR server: a verified model of its core logic

The receipt OCR server (`servers/receipt_ocr_server.py`) exposes tools to a
conversational agent. It reads a receipt image, structures its text, appends
the receipt to a spreadsheet, and keeps a list of spending categories. This
project models in Dafny the four parts of that server that have logic of their
own, and proves properties of them:

- **Category registry** (`category_registry.dfy`, module `CategoryRegistry`).
  The categories file `{"categories": [...]}` is modelled as abstract durable state:
  the class `CategoryStore` with the field `file: Option<Stored>` (no file, a
  decodable document, or an undecodable one). `Load` writes the nine defaults when
  the file is absent. `AddCategory` and `RemoveCategory` each load the list; only
  when a name is actually added or removed do they change it in memory and save it back. Every method's new state and reply are tied to a
  pure function of the old state (`AddCategoryEffect`, `RemoveCategoryEffect`,
  `Loaded`, `AfterLoad`). The lemmas are stated about those functions.
- **Record validator** (`append_tool.dfy`, module `AppendTool`). The checks of the
  `append_to_sheet` tool form the function `Validate`. They run in the code's order:
  the top-level keys, then the list type of `line_items`, then each line item's keys.
  `AppendToSheet` is the whole tool. It turns every outcome into a reply and calls
  the sheet only after the checks pass.
- **Row builder** (`sheets.dfy`, module `Sheets`). `BuildRows` is the loop of
  `append_receipt`. It makes one row `[date, vendor, item, price, category]` per
  line item. `SheetsTool` records the batches the spreadsheet service accepts.
- **Response flattening** (`response_text.dfy`, module `ResponseText`).
  `ParseResponse` is `parse_response`. It collects the non-empty part texts of all
  candidates in order and joins them with `"\n"`.

`json_value.dfy` (module `JsonValue`) holds the parsed JSON datatype. It also holds
the model of Python's `in` operator on such values (`PyContains`): key membership on
a dict, element equality on a list, substring on a str, and an exception on any
other type. `wrappers.dfy` holds `Option` and `Result`.

External steps become parameters of the model:
- `json.loads` is the `decoded: Option<Json>` argument of `AppendToSheet`. `None`
  stands for a decode error.
- The outcomes of the OAuth step and of the spreadsheet append are the `authError`
  and `serviceError` arguments.
- An exception is modelled by its kind (`Fault`).

All of these are parameters, so nothing in the model reaches past a tool boundary:
each case ends in a reply.

### Documentation versus code

The model follows the code where the two differ:

- The doc-comment of `append_receipt` (servers/receipt_ocr_server.py:145-148)
  describes a rule that merges negative-price lines into the previous row. The code
  (lines 157-164) does not implement it: every line item becomes its own row. The
  documented rule is modelled separately as `Sheets.DocumentedMergeRows`, which is
  labelled as not the server's behaviour. `Sheets.DiscountIsNotMerged` shows where
  the two differ.
- `add_category` says that names are trimmed and title-cased (line 317). The code
  stores them as given and matches them exactly (`CategoryRegistry.MatchingIsExact`).
- `remove_category` says that matching ignores case and spaces (line 346). The code
  matches exactly.
- Both docstrings list a `"category"` key in the reply (lines 313, 342). The code
  returns only `status` and `categories`, and so does `RegistryReply`.

## Model

| member | source | states |
|---|---|---|
| `JsonValue.SubstringWitness` | servers/receipt_ocr_server.py:269 | `in` on a str (as `k in data` applies it to a string document) holds exactly when the key occurs at some position of the string |
| `ResponseText.PartsTexts` | servers/receipt_ocr_server.py:93-95 | each part contributes at most one text |
| `ResponseText.AppendPartTexts` | servers/receipt_ocr_server.py:93-95 | the inner loop appends, in order, exactly the texts of the parts whose text is present and non-empty |
| `ResponseText.ParseResponse` | servers/receipt_ocr_server.py:76-96 | no candidates yields ""; otherwise the result is the collected texts of all candidates in order, joined by "\n" |
| `ResponseText.CollectedTextsAppend` | servers/receipt_ocr_server.py:91-95 | order is kept: the texts of two consecutive runs of candidates are the texts of the first run followed by those of the second |
| `ResponseText.PartsTextsNonEmpty` | servers/receipt_ocr_server.py:94-95 | no text collected from parts is empty |
| `ResponseText.CollectedTextsNonEmpty` | servers/receipt_ocr_server.py:91-95 | no collected text is empty: missing content, missing text and empty text contribute nothing |
| `ResponseText.PartsTextsEmptyIff` | servers/receipt_ocr_server.py:93-95 | a candidate's parts give no text exactly when none of them carries a non-empty text |
| `ResponseText.CollectedTextsEmptyIff` | servers/receipt_ocr_server.py:91-95 | no text is collected exactly when every candidate contributes none |
| `ResponseText.JoinEmptyIff` | servers/receipt_ocr_server.py:96 | joining non-empty texts yields "" exactly when there are none |
| `ResponseText.ParseResponseEmptyIff` | servers/receipt_ocr_server.py:88-96 | the flattened text is "" exactly when no candidate has a part with non-empty text |
| `Sheets.BuildRows` | servers/receipt_ocr_server.py:154-164 | the loop's `values` is the row list of the receipt: one row per line item, in order |
| `Sheets.ItemRowsAt` | servers/receipt_ocr_server.py:157-164 | exactly one row per line item, and row k is [date, vendor, item, price, category] of line item k, with "" for a missing field |
| `Sheets.ItemRowsAppend` | servers/receipt_ocr_server.py:157-164 | the rows of consecutive runs of line items are concatenated in the same order |
| `Sheets.RowsOfReceipt` | servers/receipt_ocr_server.py:154-176 | `rows_added` equals the number of line items; each row has the receipt's date and vendor and the item's fields; a price (negative or not) is passed through unchanged |
| `Sheets.MergeAgreesWithoutDiscounts` | servers/receipt_ocr_server.py:145-148 | the documented (not implemented) merge rule gives the same rows as the code when no price is negative |
| `Sheets.DiscountIsNotMerged` | servers/receipt_ocr_server.py:145-164 | for a 3.50 milk line followed by a -1.00 discount line, the code emits two rows, the second keeping -1.00; the documented rule would emit one row priced 2.50 |
| `Sheets.SheetsTool.constructor` | servers/receipt_ocr_server.py:105-106 | a new tool has no service yet and has sent nothing |
| `Sheets.SheetsTool.AppendReceipt` | servers/receipt_ocr_server.py:129-176 | authorizes on first use; an auth failure surfaces as an error before any append is attempted; a service failure surfaces as an error and records no batch; otherwise exactly one batch, the receipt's rows, is recorded and the row count returned |
| `AppendTool.AllIn` | servers/receipt_ocr_server.py:268-269 | `all(k in data ...)` is true exactly when every key tests present; it raises exactly when the first test raises, with that test's error |
| `AppendTool.FirstFailing` | servers/receipt_ocr_server.py:278-284 | finds the first line item that is not a dict with item, price and category; none exactly when all pass |
| `AppendTool.AllRequiredInObject` | servers/receipt_ocr_server.py:268-269 | on a dict the key test is true exactly when vendor, date and line_items are all keys |
| `AppendTool.ValidateAcceptsExactlyReceipts` | servers/receipt_ocr_server.py:263-287 | the checks pass exactly when the data is a dict with the three keys, a list `line_items`, and every line item a dict with item, price and category |
| `AppendTool.MissingKeyReportedFirst` | servers/receipt_ocr_server.py:268-273 | a missing vendor, date or line_items is reported whatever line_items holds |
| `AppendTool.NonListReportedBeforeItems` | servers/receipt_ocr_server.py:275-276 | with all keys present, a non-list line_items is reported before any line item is examined |
| `AppendTool.FirstOffendingItemReported` | servers/receipt_ocr_server.py:278-284 | the first offending line item is the one reported: refused if it is a dict missing a key, an AttributeError if it is not a dict |
| `AppendTool.ScalarDocumentRaises` | servers/receipt_ocr_server.py:269 | a number, boolean or null document makes the first `in` test raise |
| `AppendTool.AppendToSheet` | servers/receipt_ocr_server.py:250-299 | a decode error replies with the input text as raw; a refusal replies with the parsed data as raw; an exception replies with the input text as raw; the sheet is touched only when the checks pass; a receipt that passes them is appended as its rows and replies with the number of line items, unless authorization (first use only) or the service fails, in which case that collaborator's message is reported with the input text and no batch is recorded |
| `CategoryRegistry.FirstIndex` | servers/receipt_ocr_server.py:351 | the position `list.remove` removes: an occurrence of the value with none before it |
| `CategoryRegistry.CategoryStore.constructor` | servers/receipt_ocr_server.py:39 | the store starts in the given file state |
| `CategoryRegistry.CategoryStore.Load` | servers/receipt_ocr_server.py:41-57 | returns the defaults and writes them when no file exists; otherwise returns `categories` (or []) of a dict document, an error for an undecodable or non-dict document, and writes nothing |
| `CategoryRegistry.CategoryStore.Save` | servers/receipt_ocr_server.py:59-61 | the file afterwards holds exactly {"categories": the given list} |
| `CategoryRegistry.CategoryStore.AddCategory` | servers/receipt_ocr_server.py:302-329 | reply and new file are those of the add step on the loaded list |
| `CategoryRegistry.CategoryStore.RemoveCategory` | servers/receipt_ocr_server.py:331-357 | reply and new file are those of the remove step on the loaded list |
| `CategoryRegistry.DefaultBootstrap` | servers/receipt_ocr_server.py:42-53 | with no file, a load returns the nine defaults and writes them, so the next load returns the same list and writes nothing more |
| `CategoryRegistry.SaveThenLoad` | servers/receipt_ocr_server.py:55-61 | saving a list and loading it gives back that list |
| `CategoryRegistry.LoadIsStable` | servers/receipt_ocr_server.py:41-57 | a load never changes what the next load returns |
| `CategoryRegistry.AddAbsentAppends` | servers/receipt_ocr_server.py:321-325 | an absent name is appended at the end, the new list is written and the status is added |
| `CategoryRegistry.AddPresentReportsExists` | servers/receipt_ocr_server.py:321-327 | a present name gives status exists with the loaded list, and the file as the load left it (the defaults are written when there was no file) |
| `CategoryRegistry.AddIsIdempotent` | servers/receipt_ocr_server.py:321-327 | adding a name a second time gives status exists and changes neither list nor file |
| `CategoryRegistry.MatchingIsExact` | servers/receipt_ocr_server.py:322 | "dairy" and " Dairy" are new categories beside the default "Dairy"; only "Dairy" itself exists |
| `CategoryRegistry.RemoveFirstSplits` | servers/receipt_ocr_server.py:351 | removal drops only the first occurrence; everything before and after it keeps its order |
| `CategoryRegistry.RemoveFirstCounts` | servers/receipt_ocr_server.py:351 | removal shortens the list by one and removes exactly one copy of the value |
| `CategoryRegistry.RemoveFirstOfAppended` | servers/receipt_ocr_server.py:351 | removing a value just appended to a list without it gives back the list |
| `CategoryRegistry.RemovePresentDropsFirst` | servers/receipt_ocr_server.py:349-353 | a present name loses its first occurrence only, the result is written and the status is removed |
| `CategoryRegistry.RemoveAbsentReportsNotFound` | servers/receipt_ocr_server.py:349-355 | an absent name gives status not_found with the loaded list, and the file as the load left it (the defaults are written when there was no file) |
| `CategoryRegistry.AddThenRemoveRestores` | servers/receipt_ocr_server.py:321-355 | removing a name just added to a list that lacked it restores the list, and the file then holds exactly {"categories": that list} (any other top-level key, or the absence of a file, is not restored) |

## Left out

- The generative-model calls (`model.generate_content`) and the tools built on them, `extract_receipt_text` and `structure_receipt_text` (lines 182-247). They are calls to an external OCR/LLM service. `ParseResponse` models the only logic they share.
- `load_image_as_base64`: file reading and base64 encoding.
- `SheetsTool.auth` (OAuth, the token file) and the spreadsheet API call. Their outcomes are the `authError` and `serviceError` parameters. The sheet id, the tab name, the `A:D` range and the `USER_ENTERED` value interpretation are not modelled.
- A corrupt `token.json`: the credentials loader (line 111) would raise a JSON decode error that `append_to_sheet` reports as "Invalid JSON received from LLM" (line 290). The model reports every authorization failure through `authError` as a collaborator failure instead.
- The file system: the workspace path, open and write failures, and atomic writes. The categories file is `Option<Stored>`, and `save_categories` never fails in the model.
- JSON text: the `indent=2` formatting, the exact error message strings (`str(e)`, the repr of the key set and of a line item), and the `json.loads` parser itself.
- Python dict key order: `Json.Obj` is a map. Python's int/float distinction is also dropped: numbers are `real`.
- Concurrency between processes sharing the categories file. Each tool call is one atomic step of the model.
- MCP server wiring, async decorators, environment and dotenv setup, and `__main__`. The other files (`client_ui.py`, `receipt_client.py`, `receipt_rest_bridge.py`) are UI and transport glue.
- `ResponseText.ParseResponse`: the inner loop over a candidate's parts is the separate method `AppendPartTexts`, so that each loop is verified on its own.
- Sheets.SheetsTool.AppendReceipt: requires `line_items`, when present, to be a list of dicts (`WellShaped`). On other input the Python code raises, or, when `line_items` is an empty string or an empty dict, iterates nothing and appends no rows. `append_to_sheet` refuses all such input first (lines 275-284), so this path cannot be reached from the tool and is not modelled.
- Sheets.SheetsTool.AppendReceipt: a `serviceError` is taken to mean the spreadsheet service appended nothing. A failed `execute()` call (lines 168-174) that the service nonetheless applied, such as a time-out after the write, is not modelled. Neither is the double append a retry would then cause.
- AppendTool.AppendToSheet: inherits the same reading of `serviceError`. A batch that the service applied before reporting the failure, and its double append on retry, are not modelled.
- Sheets.BuildRows: requires the same `WellShaped` precondition. On other input the Python loop either raises or, for an empty string or dict, builds no rows. `append_to_sheet` refuses such input first (lines 275-284), so the path is not modelled.
