# receipt_analyzer — a Dafny model of the receipt pipeline core

The receipt analyzer turns a photographed receipt into a structured,
validated and searchable record. OCR produces text. A language model
extracts a JSON record from that text, classifies each item into an
expense category, and reviews the record. The dict then becomes a
`Receipt` entity and is stored in a vector index, where it can be searched
by similarity or by vendor and looked up by id. A set of tools checks the
arithmetic of a receipt and summarises a vendor's history. An orchestrator
either lets a planner call the tools and folds their outputs into one
record, or runs the tools in a fixed order.

The model covers the logic around the foreign calls:

- `receipts.dfy` (`Receipts`): the entity model. It covers line totals, the
  derived subtotal and total, the positivity guard on the stated total,
  the field defaults, and the analysis record.
- `llm.dfy` (`Llm`): everything `LLMService` does with the model's replies.
  - Pulling the JSON candidate out of a fenced reply.
  - Filling in a missing vendor, date or total, with the total inferred
    from the items.
  - Index-wise category assignment.
  - Merging in the review verdict.
  - Mapping the dict to a `Receipt`.
- `vectorstore.dfy` (`VectorStore`): the receipt store, a class over the
  sequence of inserted documents. It covers:
  - the line-by-line text serialiser;
  - the metadata stored beside the text;
  - insertion;
  - the search that maps the query engine's source nodes to records;
  - the vendor search;
  - the first-match lookup by id.
- `tools.dfy` (`Tools`): the agent's tools.
  - The calculation validator: items plus tax against the stated total,
    with an absolute tolerance of 0.01.
  - The vendor-history fold: count, sum of totals, and the earliest and
    latest dates.
  - The similarity search.
  - The image-to-stored-receipt pipeline.
- `agent.dfy` (`Agent`): the orchestrator.
  - The last-writer-wins merge of the planner's tool outputs into the
    analysis record.
  - The direct pipeline, which fetches the vendor history only for a
    truthy vendor.
- `py.dfy` (`Py`) and `text.dfy` (`Text`): the Python semantics the code relies on.
  - JSON values, with dicts as insertion-ordered key/value sequences.
  - `dict.get`, item assignment, truthiness, `float()`, `*` and iteration.
  - `str` ordering.
  - `in`, `split`, `strip` and `join`.

Foreign calls are oracles passed in as parameters:

- `Py.Runtime`: `json.loads`, `float()` of a string, `str()` of a value,
  and `str(e)` of an exception.
- `Llm.LlmService`: the three model replies, `strptime`, and today's date.
- `VectorStore.Backend`: the query engine over the stored documents,
  `json.dumps` of a receipt, and the index's insertion failure.
- `Tools.Services`: OCR, together with the three above.
- In `Agent.AnalyzeReceipt`: the planner.

Exceptions are `Result.Err(Error)`. Each `except` in the code is an explicit
branch of the model.

Two consequences of the code are easy to miss, and the model records both.

- **The calculated total includes the tax.** The validator adds the tax to
  the item sum (app/agent/tools.py:112-122). Items 10.0 × 2 and 5.0 × 1
  with tax 2.0 therefore give a calculated total of 27, not the item sum 25
  or 22. A stated total of 27 passes with difference 0, and a stated total
  of 22 fails with difference 5. `Tools.ExampleTotals` proves both.
- **A missing total never counts as 0 in the vendor history.** The search
  always builds records with a "total" key (`None` when the metadata lacks
  it, app/vector_store/pinecone.py:138). So `r.get("total", 0)` never falls
  back to 0 (app/agent/tools.py:86). `float(None)` or `float("abc")` then
  raises, and the whole history becomes the empty fallback record.
  `Tools.UnconvertibleTotalGivesFallback` proves this.

The image pipeline (`Tools.ProcessReceiptImage`) chains the stages OCR →
`extract_receipt_data` → `classify_expenses` → `validate_receipt` →
`create_receipt_object` → `add_receipt`. Each stage method's contract is a
predicate (`Llm.ExtractionOf`, `Llm.ClassificationOf`, `Llm.ReviewOf`,
`Llm.ReceiptFrom`). `Tools.ImageProcessed` states the whole run as those
predicates chained: the first failing stage decides the error and leaves
the store unchanged. When no stage fails, the result is the reviewed dict
with "receipt_id" set, and exactly its receipt's document is appended.

## Model

| member | source | states |
|---|---|---|
| Receipts.NewItem | app/models/receipt.py:8-14 | An item holds exactly the name, price, quantity and category it is given |
| Receipts.ItemDefaults | app/models/receipt.py:11-19 | An item given only a name and a price has quantity 1.0, no category, and `total_price` equal to its price |
| Receipts.SubtotalOfOneMore | app/models/receipt.py:35-38 | Adding one item to a receipt raises `calculated_subtotal` by exactly price × quantity of that item |
| Receipts.SubtotalAppend | app/models/receipt.py:35-38 | `calculated_subtotal` is additive: the subtotal of two item lists put together is the sum of their subtotals (with the empty list giving 0) |
| Receipts.NewReceipt | app/models/receipt.py:22-52 | Construction succeeds exactly when total > 0, with every field as given; otherwise it fails with a validation error on "total" |
| Receipts.ReceiptDefaults | app/models/receipt.py:27-33 | Any positive total with every optional field left out constructs a receipt: no items, "USD", no subtotal, tax, OCR text or image path, and derived subtotal and total 0 |
| Receipts.TaxOnlyShiftsTotal | app/models/receipt.py:40-45 | `calculated_total` with tax t is the tax-free total plus t, and a tax of 0 gives the same total as no tax |
| Receipts.NewAnalysis | app/models/receipt.py:54-66 | `has_corrections` holds exactly when the corrections list is non-empty, and every field is the one given |
| Receipts.IsoDate | app/vector_store/pinecone.py:94 | `str(date)` of a valid date is ten characters, with dashes at positions 4 and 7 |
| Llm.JsonCandidate | app/services/llm.py:78-82 | The JSON candidate is the whole reply when there is no fence; otherwise the extracted candidate contains no fence |
| Llm.JsonFencedBody | app/services/llm.py:78-79 | A reply of the form pre + "```json" + body + "```" + post yields `body.strip()`, when pre and body hold no backtick and post does not start with one |
| Llm.JsonFenceAfterBody | app/services/llm.py:78-79 | In body + "```" + post, with a backtick-free body and post not starting with a backtick, a "```json" can only start at the closing fence or after it |
| Llm.PlainFencedBody | app/services/llm.py:80-81 | A reply with a plain "```" fence around a backtick-free body, and no "```json" anywhere, yields `body.strip()`; post is unconstrained |
| Llm.ItemsSum | app/services/llm.py:95-96 | The item sum can only be defined when the items value is iterable |
| Llm.SumAmountsDefined | app/services/llm.py:96-97 | The sum of price × quantity lines is defined exactly when every line's product is |
| Llm.Fallback | app/services/llm.py:111-117 | The fallback record has vendor "Unknown Vendor", today's date, no items, total 0.0 and the OCR text |
| Llm.DefaultedTotal | app/services/llm.py:93-100 | A present truthy total is kept. A missing or falsy total becomes the item sum when there are items (failing when that sum raises), and otherwise 0.0 |
| Llm.DefaultVendor | app/services/llm.py:87-88 | An absent vendor key becomes "Unknown Vendor" (a present falsy vendor is kept); no other key changes |
| Llm.DefaultDate | app/services/llm.py:90-91 | An absent or falsy date becomes today; no other key changes |
| Llm.DefaultTotal | app/services/llm.py:93-100 | The total becomes the defaulted total, failing exactly when the item sum raises; no other key changes |
| Llm.FillDefaults | app/services/llm.py:87-103 | The parsed record completed: defaulted vendor, date and total, and the OCR text, with every other key as the model returned it; it fails exactly when the total inference raises |
| Llm.ExtractReceiptData | app/services/llm.py:45-117 | (`ExtractionOf`) A failing model call propagates. Otherwise the result's "ocr_text" is always the input text, and the result is the completed record or, when the reply is not a dict or its item sum raises, the fallback record |
| Llm.ItemNames | app/services/llm.py:127 | One name per item |
| Llm.WithCategory | app/services/llm.py:169 | Writing the category sets "category" and leaves every other key of the item as it was |
| Llm.ClassifyExpenses | app/services/llm.py:119-177 | (`ClassificationOf`) Missing or empty items: unchanged. Items that are not a list of dicts: the exception raised outside the try. A failed call or parse: unchanged. Otherwise item i gets category i exactly when i is below the number of categories, later items keep their fields, extra categories are ignored, and no other key changes |
| Llm.ValidateReceipt | app/services/llm.py:179-235 | (`ReviewOf`) The reviewer's "corrected_data" (or the input) gets a "validation" verdict, with "valid" defaulting to True and "corrections" to []. When the call, the parse or the assignment fails, the input gets the passing, empty verdict; no other key changes |
| Llm.OptStrField | app/services/llm.py:256 | An absent or null optional string field is None, and a string is kept |
| Llm.OptFloatField | app/services/llm.py:264-265 | An absent or null optional amount is None, and a number is kept as its value |
| Llm.ToItem | app/services/llm.py:252-257 | A non-dict item raises. An empty dict becomes "Unknown Item" at price 0.0 and quantity 1.0. A converted item's price and quantity are `float()` of the dict's values (defaults 0 and 1) and its name and category those of the dict |
| Llm.ReceiptDate | app/services/llm.py:243-247 | A date that is not a string becomes today |
| Llm.CreateReceiptObject | app/services/llm.py:237-273 | (`ReceiptFrom`) The receipt is built exactly when every conversion succeeds and the stated total is positive. Its items are the converted item dicts in order, its fields are the converted dict fields, its currency is "USD" and it has no image path |
| Llm.FallbackIsNotConstructible | app/services/llm.py:108-117 | The fallback record never becomes a receipt, because its total 0.0 fails the positivity check |
| Llm.LineAmountOfItem | app/agent/tools.py:113 | For an item dict with plain numeric price and quantity, the validator's price × quantity is the converted item's `total_price` |
| Llm.ItemsSumIsSubtotal | app/agent/tools.py:112-114 | The validator's item sum over dicts equals `calculated_subtotal` of the items built from them |
| VectorStore.ItemLines | app/vector_store/pinecone.py:61-65 | Exactly one item line per item, in item order |
| VectorStore.AppendItemLines | app/vector_store/pinecone.py:61-65 | The loop appends exactly the item lines, in item order, to the lines so far |
| VectorStore.AppendTrailer | app/vector_store/pinecone.py:67-77 | The conditional appends add exactly the trailer: subtotal and tax when truthy, the total, and the OCR block when there is OCR text |
| VectorStore.ReceiptToText | app/vector_store/pinecone.py:52-79 | The serialised text is the newline join of the header, item and trailer lines |
| VectorStore.TrailerLayout | app/vector_store/pinecone.py:67-77 | The trailer has one line more than the optional lines present ("Subtotal: s", "Tax: t", the OCR block), each at its position, with "Total: t" after the tax |
| VectorStore.HeaderLines | app/vector_store/pinecone.py:54-59 | The first four lines are "Vendor: v", "Date: d", "Total: t currency" and "Items:" |
| VectorStore.ItemLinesAt | app/vector_store/pinecone.py:61-65 | Line 4 + i is the line of item i |
| VectorStore.TrailingLines | app/vector_store/pinecone.py:67-77 | After the items come "Subtotal: s" only when the subtotal is truthy, then "Tax: t" only when the tax is truthy, then "Total: t", and last "\nOriginal Text:" and the OCR text only when it is truthy; the line count matches |
| VectorStore.ReceiptLinesLayout | app/vector_store/pinecone.py:52-79 | The full layout of the serialised receipt, line by line, with its exact length |
| VectorStore.ItemLineCategory | app/vector_store/pinecone.py:62-64 | An item line extends the plain "- name: q x p = total" line, and differs from it exactly when the category is truthy |
| VectorStore.VendorQueryIsPrefix | app/vector_store/pinecone.py:54-55 | The stored text begins with "Vendor: v" and a newline, the query `search_by_vendor` issues |
| VectorStore.Metadata | app/vector_store/pinecone.py:91-99 | The metadata holds the id, the vendor, `str(date)`, the total and the currency unchanged, `items_count` = number of items, and the JSON dump |
| VectorStore.DecodedFails | app/vector_store/pinecone.py:125-151 | The whole search fails (and answers []) exactly when some node's stored JSON is not a string |
| VectorStore.DecodedKeepsOrder | app/vector_store/pinecone.py:125-144 | The search is a filter in node order: record i comes from node idx[i], idx is strictly increasing, every node it names decoded, and every node whose JSON decodes is named; so there are at most as many records as nodes |
| VectorStore.DecodedAll | app/vector_store/pinecone.py:125-142 | When every node's JSON decodes, there is one record per node, in node order |
| VectorStore.FirstWithId | app/vector_store/pinecone.py:166-168 | The index found is the first node carrying the id, and none is found only when no node carries it |
| VectorStore.LookupMatchesId | app/vector_store/pinecone.py:157-181 | A found record carries the requested id, and when no node carries the id nothing is found |
| VectorStore.StoredReceiptIsFound | app/vector_store/pinecone.py:166-174 | Round trip: when the first node with the id holds the metadata stored for a receipt, the lookup returns the decoded JSON dump of that receipt (nothing when the dump does not decode) |
| VectorStore.ReceiptStore.constructor | app/vector_store/pinecone.py:36-48 | A new store has had nothing inserted through it: its list of inserted documents is empty (what the named index already holds is left to the query oracle) |
| VectorStore.ReceiptStore.AddReceipt | app/vector_store/pinecone.py:81-114 | On success the id is returned and exactly one document (the text and metadata under that id) is appended. When the index raises, the error propagates and nothing changes; a fresh id keeps the stored ids unique |
| VectorStore.ReceiptStore.Search | app/vector_store/pinecone.py:116-151 | The loop yields the decoded records of the source nodes, in order, skipping undecodable JSON, and [] on any other failure |
| VectorStore.ReceiptStore.SearchByVendor | app/vector_store/pinecone.py:153-155 | The search for "Vendor: name", with a default limit of 10 |
| VectorStore.ReceiptStore.GetById | app/vector_store/pinecone.py:157-181 | The early-return scan finds the first node carrying the id, and None when there is none or anything raises; a found record carries the requested id |
| Tools.ItemsTotal | app/agent/tools.py:111-114 | No items give 0.0. Otherwise the sum succeeds exactly when the items iterate and every line's price × quantity (defaults 0 and 1) is defined, and its value is then the sum of those lines; any failure is a TypeError |
| Tools.TaxAmount | app/agent/tools.py:120-122 | No tax is added when the tax is absent or None; otherwise the tax added is `float(tax)` |
| Tools.Validated | app/agent/tools.py:105-151 | When nothing raises: calculated = items + tax, the stated total, difference = their absolute difference, valid iff difference < 0.01, and no corrections iff valid, else exactly one "Total mismatch" note naming both totals. On an exception: the error and exactly one "Error during validation" note |
| Tools.ValidateCalculations | app/agent/tools.py:105-151 | The accumulating, appending implementation returns exactly that record and never propagates an exception |
| Tools.ValidatorAgreesWithReceipt | app/agent/tools.py:112-128 | For a dict that converts to a receipt with plain numeric amounts, the validator recomputes exactly `calculated_total` and accepts it exactly when it is within 0.01 of the stated total |
| Tools.ExampleValidation | app/agent/tools.py:112-128 | Items 10 × 2 and 5 × 1 with tax 2 give a calculated total of 27.0 whatever the stated total; the difference is taken against it |
| Tools.ExampleTotals | app/agent/tools.py:125-142 | A stated 27 passes with difference 0 and no correction; a stated 22 fails with difference 5 and one mismatch note |
| Tools.VendorSummary | app/agent/tools.py:78-103 | Count = number of records, total spent = sum of `float(total)`, first and last = min and max of the truthy dates (None when there are none). The empty fallback record is produced when a total or a date comparison raises; zero records give count 0, spent 0 and no dates |
| Tools.DatesAreTheTruthyDates | app/agent/tools.py:87 | The dates kept are exactly the truthy dates of the records, at most one per record |
| Tools.SpentDefined | app/agent/tools.py:86 | The total spent is defined exactly when every record's total converts |
| Tools.MinOfStrings | app/agent/tools.py:93 | Over date strings, `min` is one of them and no date is lexicographically smaller |
| Tools.MaxOfStrings | app/agent/tools.py:94 | Over date strings, `max` is one of them and no date is lexicographically larger |
| Tools.DatedRecords | app/agent/tools.py:87 | When every record has a date string, every record's date is among the kept dates and they are all strings |
| Tools.MinNotAfterMax | app/agent/tools.py:93-94 | Over date strings, the first purchase does not come after the last |
| Tools.DatedHistory | app/agent/tools.py:86-96 | When every record is dated and every total converts, no record lies before the first purchase or after the last |
| Tools.UnconvertibleTotalGivesFallback | app/agent/tools.py:86 | One record whose total `float()` refuses turns the whole history into the empty fallback record |
| Tools.TwoReceiptHistory | app/agent/tools.py:82-96 | Two records with numeric totals, the earlier dated first: count 2, the totals summed, the dates as first and last purchase |
| Tools.HistoryExample | app/agent/tools.py:82-96 | Receipts of 12.50 and 7.25 dated 2024-01-01 and 2024-02-15 give 19.75 spent, first 2024-01-01, last 2024-02-15, count 2 |
| Tools.FindSimilar | app/agent/tools.py:68-76 | The store's search with a default limit of 3, [] on failure |
| Tools.VendorQuery | app/vector_store/pinecone.py:155 | A vendor string v gives the query "Vendor: v" |
| Tools.GetVendorHistory | app/agent/tools.py:78-103 | The summary of what the vendor search (limit 10) returns |
| Tools.StoreReviewed | app/agent/tools.py:53-63 | `create_receipt_object` then `add_receipt` on the reviewed dict: a failure of either propagates and stores nothing; success returns the dict with "receipt_id" and appends exactly the stored form of the receipt built from it |
| Tools.ProcessReceiptImage | app/agent/tools.py:33-66 | (`ImageProcessed`) The result is the `validate_receipt(classify_expenses(extract_receipt_data(text)))` chain: the first stage that fails (OCR, extraction, classification, construction, insertion) gives the error and leaves the store unchanged. When none fails, the result is the reviewed dict with "receipt_id" = the id, and exactly the receipt built from it by `create_receipt_object` is appended (with a positive total, and the dict's vendor or "Unknown Vendor") |
| Tools.ExtractsFallback | app/services/llm.py:108-117 | A reply that does not parse as a dict extracts to the fallback record |
| Tools.ClassifiesFallback | app/services/llm.py:125-126 | Classification leaves the fallback record, which has no items, as it is |
| Tools.ReviewKeepsFallbackTotal | app/services/llm.py:216-235 | A review without corrected data keeps the fallback's total of 0.0 |
| Tools.ZeroTotalIsRefused | app/services/llm.py:237-273 | A dict whose total is 0.0 never becomes a receipt |
| Tools.UnreadableReplyIsNotStored | app/agent/tools.py:33-66 | When the extraction reply is not a dict and the reviewer supplies no corrected data, the pipeline fails and stores nothing |
| Agent.Record | app/agent/agent.py:84-91 | A tool output is written to the slot of its tool name, and every other slot is unchanged |
| Agent.LastIndex | app/agent/agent.py:83-91 | The position found is the last output naming the tool |
| Agent.MergeFails | app/agent/agent.py:83-100 | Reading the outputs fails exactly when one of them is not a dict |
| Agent.LastWriterWins | app/agent/agent.py:83-91 | Each slot holds the output of the last entry naming its tool, or its initial value (None, or [] for similar receipts) when no entry does |
| Agent.UnknownToolIgnored | app/agent/agent.py:83-91 | An output naming no tool changes no slot |
| Agent.ToolOutputs | app/agent/agent.py:80-81 | Falsy metadata gives no outputs, and truthy metadata that is not a dict raises |
| Agent.AnalysisOf | app/agent/agent.py:63-100 | A planner failure gives the failure record with `str(e)`. A reply without metadata gives the reply's text with the initial slots. When the metadata reads as tool outputs and they merge, the analysis is exactly the reply's text with that merge; any other failure is a TypeError record |
| Agent.AnalyzeReceipt | app/agent/agent.py:47-100 | The loop over the tool outputs returns exactly that record |
| Agent.Summarise | app/agent/agent.py:110-131 | The success record of a processed dict: its calculation check, the similar receipts for its vendor query, and the vendor history exactly when the vendor is truthy |
| Agent.ProcessReceipt | app/agent/agent.py:102-140 | The record is a success exactly when the image pipeline (`ImageProcessed`) succeeded, and holds that pipeline's dict; a pipeline error e gives the failure record `str(e)` and leaves the store unchanged. On success: the stored dict with its id, its calculation check, the similar receipts for "Vendor: " + the vendor (or ""), and the vendor history exactly when the vendor is truthy; the stored text of the new receipt starts with that vendor query |

## Left out

- OCR (app/services/ocr.py): HTTP, file reading, base64 and image resizing. OCR is the `Services.ocr` oracle returning the response's "text". A non-string "text" is not modelled.
- The network call in `_call_mistral` and the prompts: each reply is an oracle keyed by what the prompt is built from.
- `json.loads`, `json.dumps`, `strptime`, `str()` of a value and the text of an exception: these are the `Runtime`, `LlmService` and `Backend` oracles.
- The embedding model, Pinecone and the LlamaIndex query engine: `Backend.query` returns the source nodes for the stored documents, a query and a limit. A response without source nodes is the empty list.
- `uuid4()` and `datetime.now()`: the id is a parameter (fresh ids keep stored ids unique), and today is `LlmService.today`.
- Floating point: amounts are reals, so the IEEE rounding and the `str(float)` spelling are not modelled (`Show` is abstract). The int/float distinction of JSON numbers is not modelled either; both are `Num`.
- `min`/`max` over lists: `Py.Less` treats a list operand as a raising comparison, where Python compares lists lexicographically.
- `Llm.CreateReceiptObject`: reports one validation error, for the first failing field (vendor, subtotal, tax, OCR text, then the positivity of the total). pydantic reports every failing field at once, in one exception.
- `Llm.OptFloatField`: pydantic's `float` coercion is approximated by `float()`. Values pydantic coerces differently, such as a bool, are not distinguished.
- `Agent.AnalyzeReceipt`: the ReAct planner, `async` execution and how the planner chooses and calls the tools are out of scope. The planner is an oracle from the image path to its reply or its exception.
- Logging and `get_llamaindex_tools` (the tool registration): no behaviour beyond the wrapped functions.
- Configuration, the command-line entry point and packaging (app/config.py, app/main.py, setup.py, app/services/init.py): not part of this model.
- `VectorStore.ReceiptStore`: the named Pinecone index may already hold documents when the store is opened (app/vector_store/pinecone.py:36). The model's `documents` are only those inserted through the store. Earlier contents reach the model only through the query oracle.
- Aliasing: the code mutates the dict it receives, and in `process_receipt_image` the caller's dict is that same object. The model passes dict values, so sharing between the dict the caller holds and the one returned is not captured.
