/**
 * The receipt store (`ReceiptVectorStore`): the text a receipt is indexed
 * under, the metadata stored beside it, insertion, and the two lookups
 * that turn the query engine's source nodes back into records.  Embedding
 * and ranking are the `Backend` oracle.
 */
module VectorStore {

  import opened Py
  import opened Text
  import opened Receipts

  /** An indexed document: its text and its metadata. */
  datatype Document = Document(text: string, metadata: Dict)

  /** A source node returned by the query engine. */
  datatype Node = Node(metadata: Dict, score: Option<real>)

  /** The embedding index and the serialiser, as oracles. */
  datatype Backend = Backend(
    query: (seq<Document>, string, nat) -> Result<seq<Node>>,  // the query engine over the index with similarity_top_k; a response without source nodes is Ok([])
    dumps: Receipt -> string,                                  // json.dumps(receipt.model_dump(), default=str)
    insert: (seq<Document>, Document) -> Option<Error>)        // the error the index raises on insertion, if any

  /** One record of `search_similar_receipts`. */
  datatype SearchResult = SearchResult(
    receiptId: Value,
    vendor: Value,
    date: Value,
    total: Value,
    receiptData: Value,
    score: Option<real>)

  /** The record `get_receipt_by_id` returns. */
  datatype Found = Found(receiptId: string, receiptData: Value)

  // ---------------------------------------------------------------------
  // _receipt_to_text
  // ---------------------------------------------------------------------

  /** `f"{x}"` for an amount. */
  function Show(x: real, rt: Runtime): string {
    rt.show(Num(x))
  }

  /** `if x:` on an optional amount. */
  predicate Present(x: Option<real>) {
    x.Some? && x.value != 0.0
  }

  /** `if s:` on an optional string. */
  predicate PresentText(s: Option<string>) {
    s.Some? && s.value != ""
  }

  /** The four header lines. */
  function Header(r: Receipt, rt: Runtime): seq<string> {
    ["Vendor: " + r.vendor, "Date: " + IsoDate(r.date), "Total: " + Show(r.total, rt) + " " + r.currency, "Items:"]
  }

  /** The line of one item, with its category only when the category is non-empty. */
  function ItemLine(item: Item, rt: Runtime): string {
    var line := "- " + item.name + ": " + Show(item.quantity, rt) + " x " + Show(item.price, rt) + " = " + Show(item.TotalPrice(), rt);
    if PresentText(item.category) then line + " (Category: " + item.category.value + ")" else line
  }

  /** One line per item, in item order. */
  function ItemLines(items: seq<Item>, rt: Runtime): (lines: seq<string>)
    ensures |lines| == |items|
    ensures forall i :: 0 <= i < |items| ==> lines[i] == ItemLine(items[i], rt)
  {
    seq(|items|, i requires 0 <= i < |items| => ItemLine(items[i], rt))
  }

  function SubtotalLine(x: real, rt: Runtime): string {
    "Subtotal: " + Show(x, rt)
  }

  function TaxLine(x: real, rt: Runtime): string {
    "Tax: " + Show(x, rt)
  }

  function TotalLine(x: real, rt: Runtime): string {
    "Total: " + Show(x, rt)
  }

  const OcrHeading := "\nOriginal Text:"

  /** The subtotal line, when the subtotal is present. */
  function SubtotalLines(r: Receipt, rt: Runtime): seq<string> {
    if Present(r.subtotal) then [SubtotalLine(r.subtotal.value, rt)] else []
  }

  /** The tax line, when the tax is present. */
  function TaxLines(r: Receipt, rt: Runtime): seq<string> {
    if Present(r.tax) then [TaxLine(r.tax.value, rt)] else []
  }

  /** The OCR block, when there is OCR text. */
  function OcrLines(r: Receipt): seq<string> {
    if PresentText(r.ocrText) then [OcrHeading, r.ocrText.value] else []
  }

  /** The lines that follow the items: subtotal and tax when present, the total, the OCR block when present. */
  function TrailerLines(r: Receipt, rt: Runtime): seq<string> {
    SubtotalLines(r, rt) + TaxLines(r, rt) + [TotalLine(r.total, rt)] + OcrLines(r)
  }

  /** The lines `_receipt_to_text` joins. */
  function ReceiptLines(r: Receipt, rt: Runtime): seq<string> {
    Header(r, rt) + ItemLines(r.items, rt) + TrailerLines(r, rt)
  }

  lemma ItemLinesSnoc(items: seq<Item>, i: nat, rt: Runtime)
    requires i < |items|
    ensures ItemLines(items[..i + 1], rt) == ItemLines(items[..i], rt) + [ItemLine(items[i], rt)]
  {
    assert items[..i + 1] == items[..i] + [items[i]];
  }

  lemma AppendAssoc(a: seq<string>, b: seq<string>, c: seq<string>)
    ensures a + b + c == a + (b + c)
  {
  }

  /** Appends one line per item to `lines`, in item order. */
  method AppendItemLines(lines: seq<string>, items: seq<Item>, rt: Runtime) returns (out: seq<string>)
    ensures out == lines + ItemLines(items, rt)
  {
    out := lines;
    for i := 0 to |items|
      invariant out == lines + ItemLines(items[..i], rt)
    {
      ItemLinesSnoc(items, i, rt);
      out := out + [ItemLine(items[i], rt)];
    }
    assert items[..|items|] == items;
  }

  /** Appends the trailer lines to `lines`: only the fields that are set, the total always. */
  method AppendTrailer(lines: seq<string>, r: Receipt, rt: Runtime) returns (out: seq<string>)
    ensures out == lines + TrailerLines(r, rt)
  {
    out := lines;
    ghost var tail: seq<string> := [];
    if r.subtotal.Some? && r.subtotal.value != 0.0 {
      var line := SubtotalLine(r.subtotal.value, rt);
      AppendAssoc(lines, tail, [line]);
      out, tail := out + [line], tail + [line];
    }
    assert tail == SubtotalLines(r, rt);
    if r.tax.Some? && r.tax.value != 0.0 {
      var line := TaxLine(r.tax.value, rt);
      AppendAssoc(lines, tail, [line]);
      out, tail := out + [line], tail + [line];
    }
    assert tail == SubtotalLines(r, rt) + TaxLines(r, rt);
    var line := TotalLine(r.total, rt);
    AppendAssoc(lines, tail, [line]);
    out, tail := out + [line], tail + [line];
    if r.ocrText.Some? && r.ocrText.value != "" {
      var block := [OcrHeading, r.ocrText.value];
      AppendAssoc(lines, tail, block);
      out, tail := out + block, tail + block;
    }
    assert tail == TrailerLines(r, rt);
  }

  /**
   * `_receipt_to_text`: builds the lines one at a time (the header, a line
   * per item, then the trailer lines whose fields are set) and joins them
   * with newlines.
   */
  method ReceiptToText(r: Receipt, rt: Runtime) returns (text: string)
    ensures text == Join(ReceiptLines(r, rt), "\n")
  {
    var lines := Header(r, rt);
    lines := AppendItemLines(lines, r.items, rt);
    lines := AppendTrailer(lines, r, rt);
    text := Join(lines, "\n");
  }

  /** The trailer: subtotal and tax when present, the total, the OCR block when present. */
  lemma TrailerLayout(r: Receipt, rt: Runtime)
    ensures var q := TrailerLines(r, rt);
      var s := if Present(r.subtotal) then 1 else 0;
      var t := if Present(r.tax) then 1 else 0;
      var o := if PresentText(r.ocrText) then 2 else 0;
      && |q| == 1 + s + t + o
      && (Present(r.subtotal) ==> q[0] == "Subtotal: " + Show(r.subtotal.value, rt))
      && (Present(r.tax) ==> q[s] == "Tax: " + Show(r.tax.value, rt))
      && q[s + t] == "Total: " + Show(r.total, rt)
      && (PresentText(r.ocrText) ==> q[|q| - 2] == "\nOriginal Text:" && q[|q| - 1] == r.ocrText.value)
  {
  }

  /** The four header lines open the serialised receipt. */
  lemma HeaderLines(r: Receipt, rt: Runtime)
    ensures var lines := ReceiptLines(r, rt);
      && |lines| > 4 + |r.items|
      && lines[0] == "Vendor: " + r.vendor
      && lines[1] == "Date: " + IsoDate(r.date)
      && lines[2] == "Total: " + Show(r.total, rt) + " " + r.currency
      && lines[3] == "Items:"
  {
    var h := Header(r, rt);
    var p := h + ItemLines(r.items, rt);
    var lines := ReceiptLines(r, rt);
    assert lines == p + TrailerLines(r, rt);
    assert lines[0] == p[0] == h[0];
    assert lines[1] == p[1] == h[1];
    assert lines[2] == p[2] == h[2];
    assert lines[3] == p[3] == h[3];
  }

  /** The element at offset `i` of the middle block of `h + m + q`. */
  lemma MiddleAt(h: seq<string>, m: seq<string>, q: seq<string>, i: nat)
    requires i < |m|
    ensures (h + m + q)[|h| + i] == m[i]
  {
  }

  /** One line per item follows the header, in item order. */
  lemma ItemLinesAt(r: Receipt, rt: Runtime)
    ensures var lines := ReceiptLines(r, rt);
      && |lines| > 4 + |r.items|
      && forall i :: 0 <= i < |r.items| ==> lines[4 + i] == ItemLine(r.items[i], rt)
  {
    var h := Header(r, rt);
    var items := ItemLines(r.items, rt);
    var q := TrailerLines(r, rt);
    assert |h| == 4 && |q| >= 1;
    forall i | 0 <= i < |r.items|
      ensures ReceiptLines(r, rt)[4 + i] == ItemLine(r.items[i], rt)
    {
      MiddleAt(h, items, q, i);
    }
  }

  /** The trailer follows the item lines. */
  lemma TrailingLines(r: Receipt, rt: Runtime)
    ensures var lines := ReceiptLines(r, rt);
      var n := |r.items|;
      var s := if Present(r.subtotal) then 1 else 0;
      var t := if Present(r.tax) then 1 else 0;
      var o := if PresentText(r.ocrText) then 2 else 0;
      && |lines| == 5 + n + s + t + o
      && (Present(r.subtotal) ==> lines[4 + n] == "Subtotal: " + Show(r.subtotal.value, rt))
      && (Present(r.tax) ==> lines[4 + n + s] == "Tax: " + Show(r.tax.value, rt))
      && lines[4 + n + s + t] == "Total: " + Show(r.total, rt)
      && (PresentText(r.ocrText) ==> lines[|lines| - 2] == "\nOriginal Text:" && lines[|lines| - 1] == r.ocrText.value)
  {
    var p := Header(r, rt) + ItemLines(r.items, rt);
    var q := TrailerLines(r, rt);
    var lines := ReceiptLines(r, rt);
    assert lines == p + q;
    assert |p| == 4 + |r.items|;
    TrailerLayout(r, rt);
    assert forall k :: 0 <= k < |q| ==> lines[|p| + k] == q[k];
  }

  /**
   * The layout of the serialised receipt: the four header lines, one line
   * per item in item order, the optional subtotal and tax lines, the total
   * line, and the OCR text block last when there is OCR text.
   */
  lemma ReceiptLinesLayout(r: Receipt, rt: Runtime)
    ensures var lines := ReceiptLines(r, rt);
      var n := |r.items|;
      var s := if Present(r.subtotal) then 1 else 0;
      var t := if Present(r.tax) then 1 else 0;
      var o := if PresentText(r.ocrText) then 2 else 0;
      && |lines| == 5 + n + s + t + o
      && lines[0] == "Vendor: " + r.vendor
      && lines[1] == "Date: " + IsoDate(r.date)
      && lines[2] == "Total: " + Show(r.total, rt) + " " + r.currency
      && lines[3] == "Items:"
      && (forall i :: 0 <= i < n ==> lines[4 + i] == ItemLine(r.items[i], rt))
      && (Present(r.subtotal) ==> lines[4 + n] == "Subtotal: " + Show(r.subtotal.value, rt))
      && (Present(r.tax) ==> lines[4 + n + s] == "Tax: " + Show(r.tax.value, rt))
      && lines[4 + n + s + t] == "Total: " + Show(r.total, rt)
      && (PresentText(r.ocrText) ==> lines[|lines| - 2] == "\nOriginal Text:" && lines[|lines| - 1] == r.ocrText.value)
  {
    HeaderLines(r, rt);
    ItemLinesAt(r, rt);
    TrailingLines(r, rt);
  }

  /** An item line carries the category exactly when the category is a non-empty string. */
  lemma ItemLineCategory(item: Item, rt: Runtime)
    ensures var plain := "- " + item.name + ": " + Show(item.quantity, rt) + " x " + Show(item.price, rt) + " = " + Show(item.TotalPrice(), rt);
      && plain <= ItemLine(item, rt)
      && (PresentText(item.category) <==> ItemLine(item, rt) != plain)
  {
  }

  /**
   * The stored text begins with the vendor line, so the vendor query
   * "Vendor: <name>" is a prefix of the text of every receipt of that vendor.
   */
  lemma VendorQueryIsPrefix(r: Receipt, rt: Runtime)
    ensures "Vendor: " + r.vendor + "\n" <= Join(ReceiptLines(r, rt), "\n")
  {
    var lines := ReceiptLines(r, rt);
    assert lines[0] == "Vendor: " + r.vendor;
    assert Join(lines, "\n") == lines[0] + "\n" + Join(lines[1..], "\n");
  }

  // ---------------------------------------------------------------------
  // add_receipt
  // ---------------------------------------------------------------------

  /** The keys of the stored metadata, in insertion order. */
  predicate MetadataKeys(m: Dict) {
    && |m| == 7
    && m[0].0 == "receipt_id" && m[1].0 == "vendor" && m[2].0 == "date" && m[3].0 == "total"
    && m[4].0 == "currency" && m[5].0 == "items_count" && m[6].0 == "receipt_json"
  }

  lemma LeadingKeys(m: Dict)
    requires MetadataKeys(m)
    ensures Get(m, "receipt_id") == Some(m[0].1) && Get(m, "vendor") == Some(m[1].1)
    ensures Get(m, "date") == Some(m[2].1) && Get(m, "total") == Some(m[3].1)
  {
    GetAt(m, "vendor", 1);
    GetAt(m, "date", 2);
    GetAt(m, "total", 3);
  }

  lemma TrailingKeys(m: Dict)
    requires MetadataKeys(m)
    ensures Get(m, "currency") == Some(m[4].1) && Get(m, "items_count") == Some(m[5].1)
    ensures Get(m, "receipt_json") == Some(m[6].1)
  {
    GetAt(m, "currency", 4);
    GetAt(m, "items_count", 5);
    GetAt(m, "receipt_json", 6);
  }

  /** The metadata stored with a receipt. */
  function Metadata(id: string, r: Receipt, backend: Backend): (m: Dict)
    ensures Get(m, "receipt_id") == Some(Str(id))
    ensures Get(m, "vendor") == Some(Str(r.vendor))
    ensures Get(m, "date") == Some(Str(IsoDate(r.date)))
    ensures Get(m, "total") == Some(Num(r.total))
    ensures Get(m, "currency") == Some(Str(r.currency))
    ensures Get(m, "items_count") == Some(Num(|r.items| as real))
    ensures Get(m, "receipt_json") == Some(Str(backend.dumps(r)))
  {
    var m := [("receipt_id", Str(id)), ("vendor", Str(r.vendor)), ("date", Str(IsoDate(r.date))),
              ("total", Num(r.total)), ("currency", Str(r.currency)), ("items_count", Num(|r.items| as real)),
              ("receipt_json", Str(backend.dumps(r)))];
    assert MetadataKeys(m);
    LeadingKeys(m);
    TrailingKeys(m);
    m
  }

  /** The document `add_receipt` inserts for a receipt under an id. */
  function StoredDocument(id: string, r: Receipt, backend: Backend, rt: Runtime): Document {
    Document(Join(ReceiptLines(r, rt), "\n"), Metadata(id, r, backend))
  }

  /** The id a document is stored under. */
  function DocId(doc: Document): Option<Value> {
    Get(doc.metadata, "receipt_id")
  }

  ghost predicate UniqueIds(docs: seq<Document>) {
    forall i, j :: 0 <= i < j < |docs| ==> DocId(docs[i]) != DocId(docs[j])
  }

  // ---------------------------------------------------------------------
  // search_similar_receipts
  // ---------------------------------------------------------------------

  /** `node.metadata.get("receipt_json", "{}")` */
  function ReceiptJson(node: Node): Value {
    GetOr(node.metadata, "receipt_json", Str("{}"))
  }

  /** The record built from a node whose JSON decoded to `data`. */
  function ResultOf(node: Node, data: Value): SearchResult {
    var m := node.metadata;
    SearchResult(GetOr(m, "receipt_id", Null), GetOr(m, "vendor", Null), GetOr(m, "date", Null), GetOr(m, "total", Null), data, node.score)
  }

  /**
   * The records of the source nodes, in order: a node whose JSON text does
   * not decode is skipped; a node whose stored JSON is not a string makes
   * `json.loads` raise a TypeError that ends the whole search (None).
   */
  function Decoded(nodes: seq<Node>, rt: Runtime): Option<seq<SearchResult>> {
    if nodes == [] then Some([])
    else
      var init := Decoded(nodes[..|nodes| - 1], rt);
      var node := nodes[|nodes| - 1];
      var json := ReceiptJson(node);
      if init.None? || !json.Str? then None
      else
        var data := rt.parseJson(json.s);
        if data.None? then init else Some(init.value + [ResultOf(node, data.value)])
  }

  /** `search_similar_receipts`: [] whenever the query or the mapping raises. */
  function SearchResults(docs: seq<Document>, query: string, limit: nat, backend: Backend, rt: Runtime): seq<SearchResult> {
    var nodes := backend.query(docs, query, limit);
    if nodes.Err? then []
    else
      var rs := Decoded(nodes.value, rt);
      if rs.None? then [] else rs.value
  }

  /** The node's stored JSON is a string that decodes. */
  predicate Decodable(node: Node, rt: Runtime) {
    ReceiptJson(node).Str? && rt.parseJson(ReceiptJson(node).s).Some?
  }

  /**
   * `idx` picks, in increasing order, the nodes that the records `rs` come
   * from, and it picks every node whose JSON decodes.
   */
  ghost predicate Picks(idx: seq<nat>, nodes: seq<Node>, rs: seq<SearchResult>, rt: Runtime) {
    && |idx| == |rs|
    && (forall i, j :: 0 <= i < j < |idx| ==> idx[i] < idx[j])
    && (forall i :: 0 <= i < |idx| ==>
          && idx[i] < |nodes|
          && Decodable(nodes[idx[i]], rt)
          && rs[i] == ResultOf(nodes[idx[i]], rt.parseJson(ReceiptJson(nodes[idx[i]]).s).value))
    && (forall j :: 0 <= j < |nodes| && Decodable(nodes[j], rt) ==> j in idx)
  }

  /** The search fails as a whole exactly when some node's stored JSON is not a string. */
  lemma {:induction false} DecodedFails(nodes: seq<Node>, rt: Runtime)
    ensures Decoded(nodes, rt).None? <==> exists i :: 0 <= i < |nodes| && !ReceiptJson(nodes[i]).Str?
  {
    if nodes != [] {
      var init := nodes[..|nodes| - 1];
      DecodedFails(init, rt);
      if exists i :: 0 <= i < |init| && !ReceiptJson(init[i]).Str? {
        var i :| 0 <= i < |init| && !ReceiptJson(init[i]).Str?;
        assert nodes[i] == init[i];
      }
      if exists i :: 0 <= i < |nodes| && !ReceiptJson(nodes[i]).Str? {
        var i :| 0 <= i < |nodes| && !ReceiptJson(nodes[i]).Str?;
        if i < |init| {
          assert init[i] == nodes[i];
        }
      }
    }
  }

  /** A node whose JSON does not decode adds no record and no pick. */
  lemma PicksSkip(idx: seq<nat>, init: seq<Node>, rs: seq<SearchResult>, last: Node, rt: Runtime)
    requires Picks(idx, init, rs, rt) && !Decodable(last, rt)
    ensures Picks(idx, init + [last], rs, rt)
  {
    var nodes := init + [last];
    assert forall j :: 0 <= j < |init| ==> nodes[j] == init[j];
  }

  /** A node whose JSON decodes adds its record and its own index. */
  lemma PicksTake(idx: seq<nat>, init: seq<Node>, rs: seq<SearchResult>, last: Node, rt: Runtime)
    requires Picks(idx, init, rs, rt) && Decodable(last, rt)
    ensures Picks(idx + [|init|], init + [last], rs + [ResultOf(last, rt.parseJson(ReceiptJson(last).s).value)], rt)
  {
    var nodes := init + [last];
    var idx' := idx + [|init|];
    assert forall j :: 0 <= j < |init| ==> nodes[j] == init[j];
    forall j | 0 <= j < |nodes| && Decodable(nodes[j], rt)
      ensures j in idx'
    {
      if j < |init| {
        assert j in idx;
      } else {
        assert idx'[|idx|] == j;
      }
    }
  }

  /**
   * The search is a filter in source-node order: the records come from
   * distinct nodes in increasing order, every node whose JSON decodes gives
   * one, and the others are skipped.
   */
  lemma {:induction false} DecodedKeepsOrder(nodes: seq<Node>, rt: Runtime)
    requires Decoded(nodes, rt).Some?
    ensures exists idx :: Picks(idx, nodes, Decoded(nodes, rt).value, rt)
    ensures |Decoded(nodes, rt).value| <= |nodes|
  {
    if nodes == [] {
      assert Picks([], nodes, [], rt);
    } else {
      var n := |nodes| - 1;
      var init := nodes[..n];
      assert nodes == init + [nodes[n]];
      DecodedKeepsOrder(init, rt);
      var rs := Decoded(init, rt).value;
      var idx: seq<nat> :| Picks(idx, init, rs, rt);
      if Decodable(nodes[n], rt) {
        PicksTake(idx, init, rs, nodes[n], rt);
      } else {
        PicksSkip(idx, init, rs, nodes[n], rt);
      }
    }
  }

  /** When every node decodes, there is one record per node, in node order. */
  lemma {:induction false} DecodedAll(nodes: seq<Node>, rt: Runtime)
    requires forall i :: 0 <= i < |nodes| ==> ReceiptJson(nodes[i]).Str? && rt.parseJson(ReceiptJson(nodes[i]).s).Some?
    ensures Decoded(nodes, rt).Some?
    ensures var rs := Decoded(nodes, rt).value;
      && |rs| == |nodes|
      && forall i :: 0 <= i < |nodes| ==> rs[i] == ResultOf(nodes[i], rt.parseJson(ReceiptJson(nodes[i]).s).value)
  {
    if nodes != [] {
      var init := nodes[..|nodes| - 1];
      assert forall i :: 0 <= i < |init| ==> init[i] == nodes[i];
      DecodedAll(init, rt);
    }
  }

  // ---------------------------------------------------------------------
  // get_receipt_by_id
  // ---------------------------------------------------------------------

  /** `node.metadata.get("receipt_id") == receipt_id` */
  predicate HasId(node: Node, id: string) {
    Get(node.metadata, "receipt_id") == Some(Str(id))
  }

  /** The index of the first node carrying `id`, searching from `from`. */
  function FirstWithId(nodes: seq<Node>, id: string, from: nat): (r: Option<nat>)
    decreases |nodes| - from
    ensures r.Some? ==> from <= r.value < |nodes| && HasId(nodes[r.value], id)
    ensures r.Some? ==> forall j :: from <= j < r.value ==> !HasId(nodes[j], id)
    ensures r.None? ==> forall j :: from <= j < |nodes| ==> !HasId(nodes[j], id)
  {
    if from >= |nodes| then None
    else if HasId(nodes[from], id) then Some(from)
    else FirstWithId(nodes, id, from + 1)
  }

  /**
   * The record of the first node carrying `id`, or None when no node does;
   * when that node's JSON cannot be decoded the exception is swallowed and
   * the answer is None as well.
   */
  function Lookup(nodes: seq<Node>, id: string, rt: Runtime): Option<Found> {
    var i := FirstWithId(nodes, id, 0);
    if i.None? then None
    else
      var json := ReceiptJson(nodes[i.value]);
      if json.Str? && rt.parseJson(json.s).Some? then Some(Found(id, rt.parseJson(json.s).value)) else None
  }

  /** The query `get_receipt_by_id` issues: "receipt_id:<id>" with the ten best nodes. */
  function LookupById(docs: seq<Document>, id: string, backend: Backend, rt: Runtime): Option<Found> {
    var nodes := backend.query(docs, "receipt_id:" + id, 10);
    if nodes.Err? then None else Lookup(nodes.value, id, rt)
  }

  /** A found record always carries the requested id, and no node carrying that id means nothing is found. */
  lemma LookupMatchesId(nodes: seq<Node>, id: string, rt: Runtime)
    ensures Lookup(nodes, id, rt).Some? ==> Lookup(nodes, id, rt).value.receiptId == id
    ensures (forall j :: 0 <= j < |nodes| ==> !HasId(nodes[j], id)) ==> Lookup(nodes, id, rt).None?
  {
    if forall j :: 0 <= j < |nodes| ==> !HasId(nodes[j], id) {
      assert FirstWithId(nodes, id, 0).None?;
    }
  }

  /**
   * Round trip: when the first node carrying `id` holds the metadata that
   * `add_receipt` stored for `r` under `id`, the lookup returns the decoded
   * JSON of `r`.
   */
  lemma StoredReceiptIsFound(before: seq<Node>, id: string, r: Receipt, score: Option<real>, after: seq<Node>, backend: Backend, rt: Runtime)
    requires forall j :: 0 <= j < |before| ==> !HasId(before[j], id)
    ensures var nodes := before + [Node(Metadata(id, r, backend), score)] + after;
      var data := rt.parseJson(backend.dumps(r));
      Lookup(nodes, id, rt) == if data.Some? then Some(Found(id, data.value)) else None
  {
    var nodes := before + [Node(Metadata(id, r, backend), score)] + after;
    assert nodes[|before|] == Node(Metadata(id, r, backend), score);
    assert forall j :: 0 <= j < |before| ==> nodes[j] == before[j];
    var k := FirstWithId(nodes, id, 0);
    assert k == Some(|before|) by {
      if k.None? || k.value != |before| {
        assert HasId(nodes[|before|], id);
      }
    }
  }

  // ---------------------------------------------------------------------
  // The store
  // ---------------------------------------------------------------------

  /** The documents inserted through this store, in insertion order. */
  class ReceiptStore {

    var documents: seq<Document>

    /**
     * A fresh store: nothing has been inserted through it yet.  Documents
     * the named index already holds are not among `documents`; the query
     * oracle `Backend.query` may still return them.
     */
    constructor ()
      ensures documents == []
    {
      documents := [];
    }

    /**
     * `add_receipt`: stores the receipt's text and metadata under `id` (the
     * fresh uuid) and returns `id`; when the index raises, the error is
     * re-raised and nothing is stored.
     */
    method AddReceipt(r: Receipt, id: string, backend: Backend, rt: Runtime) returns (res: Result<string>)
      modifies this
      ensures var doc := StoredDocument(id, r, backend, rt);
        if backend.insert(old(documents), doc).None? then
          res == Ok(id) && documents == old(documents) + [doc]
        else
          res == Err(backend.insert(old(documents), doc).value) && documents == old(documents)
      ensures UniqueIds(old(documents)) && (forall i :: 0 <= i < |old(documents)| ==> DocId(old(documents)[i]) != Some(Str(id)))
        ==> UniqueIds(documents)
    {
      var text := ReceiptToText(r, rt);
      var metadata := Metadata(id, r, backend);
      var doc := Document(text, metadata);
      var failure := backend.insert(documents, doc);
      if failure.Some? {
        return Err(failure.value);
      }
      documents := documents + [doc];
      res := Ok(id);
    }

    /**
     * `search_similar_receipts`: asks the query engine for the `limit` best
     * nodes and maps them, in order, to records.
     */
    method Search(query: string, limit: nat, backend: Backend, rt: Runtime) returns (results: seq<SearchResult>)
      ensures results == SearchResults(documents, query, limit, backend, rt)
    {
      var response := backend.query(documents, query, limit);
      if response.Err? {
        return [];
      }
      var nodes := response.value;
      results := [];
      var i := 0;
      while i < |nodes|
        invariant 0 <= i <= |nodes|
        invariant Decoded(nodes[..i], rt) == Some(results)
      {
        var node := nodes[i];
        assert nodes[..i + 1][..i] == nodes[..i];
        var json := GetOr(node.metadata, "receipt_json", Str("{}"));
        if !json.Str? {
          assert !ReceiptJson(nodes[i]).Str?;
          DecodedFails(nodes, rt);
          return [];
        }
        var data := rt.parseJson(json.s);
        if data.Some? {
          var m := node.metadata;
          var result := SearchResult(GetOr(m, "receipt_id", Null), GetOr(m, "vendor", Null), GetOr(m, "date", Null),
                                     GetOr(m, "total", Null), data.value, node.score);
          results := results + [result];
        }
        i := i + 1;
      }
      assert nodes[..|nodes|] == nodes;
    }

    /** `search_by_vendor`: the search for "Vendor: <name>", ten records by default. */
    method SearchByVendor(name: string, backend: Backend, rt: Runtime, limit: nat := 10) returns (results: seq<SearchResult>)
      ensures results == SearchResults(documents, "Vendor: " + name, limit, backend, rt)
    {
      results := Search("Vendor: " + name, limit, backend, rt);
    }

    /**
     * `get_receipt_by_id`: scans the ten best nodes for "receipt_id:<id>" and
     * returns the first whose stored id is `id`; None when there is none or
     * when anything raises.
     */
    method GetById(id: string, backend: Backend, rt: Runtime) returns (found: Option<Found>)
      ensures found == LookupById(documents, id, backend, rt)
      ensures found.Some? ==> found.value.receiptId == id
    {
      var response := backend.query(documents, "receipt_id:" + id, 10);
      if response.Err? {
        return None;
      }
      var nodes := response.value;
      var i := 0;
      while i < |nodes|
        invariant 0 <= i <= |nodes|
        invariant FirstWithId(nodes, id, 0) == FirstWithId(nodes, id, i)
      {
        var node := nodes[i];
        if Get(node.metadata, "receipt_id") == Some(Str(id)) {
          assert FirstWithId(nodes, id, i) == Some(i);
          var json := GetOr(node.metadata, "receipt_json", Str("{}"));
          if !json.Str? {
            return None;
          }
          var data := rt.parseJson(json.s);
          if data.None? {
            return None;
          }
          return Some(Found(id, data.value));
        }
        i := i + 1;
      }
      return None;
    }
  }
}
