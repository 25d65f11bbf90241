/**
 * The logic around the LLM calls of `LLMService`: pulling the JSON out of
 * a fenced reply, filling in missing receipt fields, writing categories
 * into the item list, attaching the validation verdict, and mapping the
 * resulting dict to a `Receipt`.  The replies themselves are oracles.
 */
module Llm {

  import opened Py
  import opened Text
  import opened Receipts

  /** The model's replies and the clock. */
  datatype LlmService = LlmService(
    extractReply: string -> Result<string>,       // reply to the extraction prompt built from the OCR text
    classifyReply: seq<Value> -> Result<string>,  // reply to the classification prompt built from the item names
    validateReply: Dict -> Result<string>,        // reply to the validation prompt built from the receipt data
    parseDate: string -> Option<Date>,            // datetime.strptime(s, "%Y-%m-%d").date(); None when it raises
    today: Date)                                  // datetime.now(), as a date

  const JsonFence := "```json"
  const Fence := "```"
  const UnknownVendor := "Unknown Vendor"
  const UnknownItem := "Unknown Item"

  // ---------------------------------------------------------------------
  // Fence extraction
  // ---------------------------------------------------------------------

  /**
   * The JSON candidate in a reply: the stripped text after the first
   * "```json" up to the next "```"; otherwise the stripped text between the
   * first two "```"; otherwise the whole reply.
   */
  function JsonCandidate(reply: string): (s: string)
    ensures !Contains(reply, Fence) ==> s == reply
    ensures Contains(reply, Fence) ==> !Contains(s, Fence)
  {
    JsonFenceHasFence(reply);
    if Contains(reply, JsonFence) then
      var s := Strip(Before(SplitSecond(reply, JsonFence), Fence));
      StrippedHasNoFence(SplitSecond(reply, JsonFence));
      s
    else if Contains(reply, Fence) then
      var s := Strip(Before(SplitSecond(reply, Fence), Fence));
      StrippedHasNoFence(SplitSecond(reply, Fence));
      s
    else reply
  }

  lemma JsonFenceHasFence(s: string)
    ensures Contains(s, JsonFence) ==> Contains(s, Fence)
  {
    if Contains(s, JsonFence) {
      var i := Find(s, JsonFence).value;
      assert s[i..i + 3] == s[i..i + 7][..3] == Fence;
      assert MatchAt(s, Fence, i);
    }
  }

  lemma StrippedHasNoFence(t: string)
    ensures !Contains(Strip(Before(t, Fence)), Fence)
  {
    var b := Before(t, Fence);
    BeforeHasNoMatch(t, Fence);
    var lo, hi :| 0 <= lo <= hi <= |b| && Strip(b) == b[lo..hi];
    NoMatchInSlice(b, Fence, lo, hi);
  }

  predicate NoBacktick(s: string) {
    forall k :: 0 <= k < |s| ==> s[k] != '`'
  }

  /** A pattern that starts with a backtick can only match where `s` has one. */
  lemma BacktickAt(s: string, pat: string, j: nat)
    requires pat != [] && pat[0] == '`' && MatchAt(s, pat, j)
    ensures j < |s| && s[j] == '`'
  {
    assert s[j..j + |pat|][0] == s[j];
  }

  lemma NoBacktickNoFence(s: string, pat: string)
    requires pat != [] && pat[0] == '`' && NoBacktick(s)
    ensures !Contains(s, pat)
  {
    if Contains(s, pat) {
      BacktickAt(s, pat, Find(s, pat).value);
    }
  }

  lemma FirstMatch(s: string, pat: string, i: nat)
    requires MatchAt(s, pat, i)
    requires forall j: nat :: j < i ==> !MatchAt(s, pat, j)
    ensures Find(s, pat) == Some(i)
  {
  }

  /** A fence after backtick-free text is found right after that text. */
  lemma FenceAfter(pre: string, pat: string, rest: string)
    requires pat != [] && pat[0] == '`' && NoBacktick(pre)
    ensures Find(pre + pat + rest, pat) == Some(|pre|)
  {
    var s := pre + pat + rest;
    assert s[|pre|..|pre| + |pat|] == pat;
    forall j: nat | j < |pre| ensures !MatchAt(s, pat, j) {
      if MatchAt(s, pat, j) {
        BacktickAt(s, pat, j);
      }
    }
    FirstMatch(s, pat, |pre|);
  }

  lemma BeforeFirstFence(body: string, rest: string)
    requires NoBacktick(body)
    ensures Before(body + Fence + rest, Fence) == body
  {
    FenceAfter(body, Fence, rest);
    assert (body + Fence + rest)[..|body|] == body;
  }

  /**
   * After a backtick-free body and a fence, a "```json" can only start right
   * at the fence or after it, unless the text that follows opens with a
   * backtick.
   */
  lemma JsonFenceAfterBody(body: string, post: string, j: nat)
    requires NoBacktick(body) && (post == [] || post[0] != '`')
    requires MatchAt(body + Fence + post, JsonFence, j)
    ensures j == |body| || j >= |body| + 3
  {
    var seg := body + Fence + post;
    var w := seg[j..j + 7];
    assert w == JsonFence;
    assert seg[j] == w[0] == '`' && seg[j + 1] == w[1] == '`' && seg[j + 2] == w[2] == '`';
    assert forall k :: 0 <= k < |body| ==> seg[k] == body[k];
    assert j + 7 <= |seg|;
    assert |seg| > |body| + 3 ==> seg[|body| + 3] == post[0];
  }

  /**
   * A reply that wraps a backtick-free body in a "```json" fence yields the
   * stripped body, whatever follows the closing fence (another fenced block
   * included), provided it does not open with a backtick.
   */
  lemma {:induction false} JsonFencedBody(pre: string, body: string, post: string)
    requires NoBacktick(pre) && NoBacktick(body) && (post == [] || post[0] != '`')
    ensures JsonCandidate(pre + JsonFence + body + Fence + post) == Strip(body)
  {
    var s := pre + JsonFence + body + Fence + post;
    assert s == pre + JsonFence + (body + Fence + post);
    FenceAfter(pre, JsonFence, body + Fence + post);
    var seg := body + Fence + post;
    assert After(s, JsonFence) == seg;
    var cut := Before(seg, JsonFence);
    assert cut == seg || seg[..Find(seg, JsonFence).value] == cut;
    NoBacktickNoFence(body, Fence);
    if Contains(seg, JsonFence) {
      var j := Find(seg, JsonFence).value;
      JsonFenceAfterBody(body, post, j);
      if j == |body| {
        assert cut == body;
      } else {
        assert cut == body + Fence + post[..j - |body| - 3];
        BeforeFirstFence(body, post[..j - |body| - 3]);
      }
    } else {
      BeforeFirstFence(body, post);
    }
  }

  /**
   * A reply with a plain "```" fence around a backtick-free body (and no
   * "```json" anywhere) yields the stripped body, whatever follows.
   */
  lemma {:induction false} PlainFencedBody(pre: string, body: string, post: string)
    requires NoBacktick(pre) && NoBacktick(body)
    requires !Contains(pre + Fence + body + Fence + post, JsonFence)
    ensures JsonCandidate(pre + Fence + body + Fence + post) == Strip(body)
  {
    var s := pre + Fence + body + Fence + post;
    assert s == pre + Fence + (body + Fence + post);
    FenceAfter(pre, Fence, body + Fence + post);
    assert After(s, Fence) == body + Fence + post;
    BeforeFirstFence(body, post);
    NoBacktickNoFence(body, Fence);
  }

  // ---------------------------------------------------------------------
  // Item arithmetic shared with the calculation validator
  // ---------------------------------------------------------------------

  /** `item.get("price", 0) * item.get("quantity", 1)`; None when Python raises. */
  function LineAmount(item: Value): Option<real> {
    if item.Obj? then Mul(GetOr(item.fields, "price", Num(0.0)), GetOr(item.fields, "quantity", Num(1.0)))
    else None
  }

  /** `sum(line amount for item in xs)`; None when any line raises. */
  function SumAmounts(xs: seq<Value>): Option<real> {
    if xs == [] then Some(0.0)
    else
      var init := SumAmounts(xs[..|xs| - 1]);
      var last := LineAmount(xs[|xs| - 1]);
      if init.Some? && last.Some? then Some(init.value + last.value) else None
  }

  /** `sum(item.get("price", 0) * item.get("quantity", 1) for item in items)` */
  function ItemsSum(items: Value): (r: Option<real>)
    ensures r.Some? ==> Iterate(items).Some?
  {
    var xs := Iterate(items);
    if xs.Some? then SumAmounts(xs.value) else None
  }

  /** The sum succeeds exactly when every line does. */
  lemma {:induction false} SumAmountsDefined(xs: seq<Value>)
    ensures SumAmounts(xs).Some? <==> forall i :: 0 <= i < |xs| ==> LineAmount(xs[i]).Some?
  {
    if xs != [] {
      var init := xs[..|xs| - 1];
      SumAmountsDefined(init);
      assert forall i :: 0 <= i < |init| ==> init[i] == xs[i];
    }
  }

  // ---------------------------------------------------------------------
  // extract_receipt_data
  // ---------------------------------------------------------------------

  /** The record returned when the reply cannot be used. */
  function Fallback(ocrText: string, today: string): (d: Dict)
    ensures Get(d, "vendor") == Some(Str(UnknownVendor)) && Get(d, "date") == Some(Str(today))
    ensures Get(d, "items") == Some(Arr([])) && Get(d, "total") == Some(Num(0.0))
    ensures Get(d, "ocr_text") == Some(Str(ocrText))
  {
    var d := [("vendor", Str(UnknownVendor)), ("date", Str(today)), ("items", Arr([])),
              ("total", Num(0.0)), ("ocr_text", Str(ocrText))];
    GetAt(d, "date", 1);
    GetAt(d, "items", 2);
    GetAt(d, "total", 3);
    GetAt(d, "ocr_text", 4);
    d
  }

  /** The parsed reply, when it is a dict. */
  function ParsedRecord(reply: string, rt: Runtime): Option<Dict> {
    var v := rt.parseJson(JsonCandidate(reply));
    if v.Some? && v.value.Obj? then Some(v.value.fields) else None
  }

  /**
   * The total after defaulting: kept when present and truthy, else the
   * items' sum when there are items, else 0.0; None when the sum raises.
   */
  function DefaultedTotal(d: Dict): (r: Option<Value>)
    ensures !Missing(d, "total") ==> r == Get(d, "total")
    ensures Missing(d, "total") && Missing(d, "items") ==> r == Some(Num(0.0))
    ensures Missing(d, "total") && !Missing(d, "items") ==>
      (r.Some? <==> ItemsSum(Get(d, "items").value).Some?) &&
      (r.Some? ==> r.value == Num(ItemsSum(Get(d, "items").value).value))
  {
    if !Missing(d, "total") then Get(d, "total")
    else if !Missing(d, "items") then
      var sum := ItemsSum(Get(d, "items").value);
      if sum.Some? then Some(Num(sum.value)) else None
    else Some(Num(0.0))
  }

  /**
   * `r` is the reply record `d` completed: a vendor when the key is absent,
   * today's date when the date is missing, the defaulted total, the OCR
   * text; every other key as the model returned it.
   */
  ghost predicate Completes(r: Dict, d: Dict, ocrText: string, today: string) {
    && Get(r, "vendor") == (if Has(d, "vendor") then Get(d, "vendor") else Some(Str(UnknownVendor)))
    && Get(r, "date") == (if Missing(d, "date") then Some(Str(today)) else Get(d, "date"))
    && Get(r, "total") == DefaultedTotal(d)
    && Get(r, "ocr_text") == Some(Str(ocrText))
    && forall k :: k != "vendor" && k != "date" && k != "total" && k != "ocr_text" ==> Get(r, k) == Get(d, k)
  }

  /** The four keys the defaulting steps write are distinct. */
  lemma FilledKeysDistinct()
    ensures "vendor" != "date" && "vendor" != "total" && "vendor" != "ocr_text"
    ensures "date" != "total" && "date" != "ocr_text" && "total" != "ocr_text"
  {
    assert "vendor"[0] == 'v' && "date"[0] == 'd' && "total"[0] == 't' && "ocr_text"[0] == 'o';
  }

  /** `if 'vendor' not in d: d['vendor'] = 'Unknown Vendor'` */
  method DefaultVendor(d: Dict) returns (e: Dict)
    ensures Get(e, "vendor") == (if Has(d, "vendor") then Get(d, "vendor") else Some(Str(UnknownVendor)))
    ensures forall k :: k != "vendor" ==> Get(e, k) == Get(d, k)
  {
    e := d;
    if !Has(e, "vendor") {
      e := Set(e, "vendor", Str(UnknownVendor));
    }
  }

  /** `if not d.get('date'): d['date'] = today` */
  method DefaultDate(d: Dict, today: string) returns (e: Dict)
    ensures Get(e, "date") == (if Missing(d, "date") then Some(Str(today)) else Get(d, "date"))
    ensures forall k :: k != "date" ==> Get(e, k) == Get(d, k)
  {
    e := d;
    if Missing(e, "date") {
      e := Set(e, "date", Str(today));
    }
  }

  /** The total defaulting step; None when summing the items raises. */
  method DefaultTotal(d: Dict) returns (e: Option<Dict>)
    ensures e.Some? <==> DefaultedTotal(d).Some?
    ensures e.Some? ==> Get(e.value, "total") == DefaultedTotal(d)
    ensures e.Some? ==> forall k :: k != "total" ==> Get(e.value, k) == Get(d, k)
  {
    if !Missing(d, "total") {
      return Some(d);
    }
    if Missing(d, "items") {
      return Some(Set(d, "total", Num(0.0)));
    }
    var total := ItemsSum(Get(d, "items").value);
    if total.None? {
      return None;
    }
    return Some(Set(d, "total", Num(total.value)));
  }

  /**
   * The defaulting steps of `extract_receipt_data` on a parsed record; None
   * when summing the items raises, which sends the caller to the fallback.
   */
  method FillDefaults(d0: Dict, ocrText: string, today: string) returns (r: Option<Dict>)
    ensures r.Some? <==> DefaultedTotal(d0).Some?
    ensures r.Some? ==> Completes(r.value, d0, ocrText, today)
  {
    FilledKeysDistinct();
    var d1 := DefaultVendor(d0);
    var d2 := DefaultDate(d1, today);
    assert Get(d2, "date") == (if Missing(d0, "date") then Some(Str(today)) else Get(d0, "date")) by {
      assert Get(d1, "date") == Get(d0, "date");
    }
    assert DefaultedTotal(d2) == DefaultedTotal(d0) by {
      assert Get(d2, "total") == Get(d0, "total") && Get(d2, "items") == Get(d0, "items");
    }
    var d3 := DefaultTotal(d2);
    if d3.None? {
      return None;
    }
    var d := Set(d3.value, "ocr_text", Str(ocrText));
    assert Get(d, "vendor") == Get(d1, "vendor");
    assert Get(d, "date") == Get(d2, "date");
    assert Get(d, "total") == DefaultedTotal(d0);
    return Some(d);
  }

  /** `r` is a possible result of `extract_receipt_data` on `ocrText`, as the method below states it. */
  ghost predicate ExtractionOf(ocrText: string, llm: LlmService, rt: Runtime, r: Result<Dict>) {
    && (llm.extractReply(ocrText).Err? ==> r == Err(llm.extractReply(ocrText).error))
    && (llm.extractReply(ocrText).Ok? ==> r.Ok? && Get(r.value, "ocr_text") == Some(Str(ocrText)))
    && (llm.extractReply(ocrText).Ok? ==>
      var p := ParsedRecord(llm.extractReply(ocrText).value, rt);
      if p.Some? && DefaultedTotal(p.value).Some? then Completes(r.value, p.value, ocrText, IsoDate(llm.today))
      else r.value == Fallback(ocrText, IsoDate(llm.today)))
  }

  /**
   * `extract_receipt_data`: asks the model for the structured record and
   * fills in what it left out.  A failing model call propagates; a reply
   * that is not a JSON dict, or whose item sum raises, yields the fallback.
   */
  method ExtractReceiptData(ocrText: string, llm: LlmService, rt: Runtime) returns (r: Result<Dict>)
    ensures ExtractionOf(ocrText, llm, rt, r)
  {
    var reply := llm.extractReply(ocrText);
    if reply.Err? {
      return Err(reply.error);
    }
    var today := IsoDate(llm.today);
    var parsed := rt.parseJson(JsonCandidate(reply.value));
    if !(parsed.Some? && parsed.value.Obj?) {
      return Ok(Fallback(ocrText, today));
    }
    var completed := FillDefaults(parsed.value.fields, ocrText, today);
    if completed.None? {
      return Ok(Fallback(ocrText, today));
    }
    return Ok(completed.value);
  }

  // ---------------------------------------------------------------------
  // classify_expenses
  // ---------------------------------------------------------------------

  predicate AllDicts(xs: seq<Value>) {
    forall i :: 0 <= i < |xs| ==> xs[i].Obj?
  }

  /** `[item.get("name", "") for item in items]` */
  function ItemNames(xs: seq<Value>): (names: seq<Value>)
    requires AllDicts(xs)
    ensures |names| == |xs|
  {
    seq(|xs|, i requires 0 <= i < |xs| => GetOr(xs[i].fields, "name", Str("")))
  }

  /** The categories the model returned, as `enumerate` walks them; None when the call, the parse or the iteration raises. */
  function Categories(reply: Result<string>, rt: Runtime): Option<seq<Value>> {
    if reply.Err? then None
    else
      var v := rt.parseJson(JsonCandidate(reply.value));
      if v.Some? then Iterate(v.value) else None
  }

  /** `item["category"] = c` */
  function WithCategory(item: Value, c: Value): (r: Value)
    requires item.Obj?
    ensures r.Obj? && Get(r.fields, "category") == Some(c)
    ensures forall k :: k != "category" ==> Get(r.fields, k) == Get(item.fields, k)
  {
    Obj(Set(item.fields, "category", c))
  }

  /** `r` is a possible result of `classify_expenses` on `data`. */
  ghost predicate ClassificationOf(data: Dict, llm: LlmService, rt: Runtime, r: Result<Dict>) {
    && (Missing(data, "items") ==> r == Ok(data))
    && (!Missing(data, "items") && !(Get(data, "items").value.Arr? && AllDicts(Get(data, "items").value.elems)) ==>
      r == Err(TypeError))
    && (!Missing(data, "items") && Get(data, "items").value.Arr? && AllDicts(Get(data, "items").value.elems) ==>
      var xs := Get(data, "items").value.elems;
      var cats := Categories(llm.classifyReply(ItemNames(xs)), rt);
      && r.Ok?
      && (cats.None? ==> r.value == data)
      && (cats.Some? ==>
            && (forall k :: k != "items" ==> Get(r.value, k) == Get(data, k))
            && Get(r.value, "items").Some? && Get(r.value, "items").value.Arr?
            && var ys := Get(r.value, "items").value.elems;
            && |ys| == |xs|
            && forall i :: 0 <= i < |xs| ==>
                 ys[i] == if i < |cats.value| then WithCategory(xs[i], cats.value[i]) else xs[i]))
  }

  /**
   * `classify_expenses`: writes category i into item i for every i below
   * the length of both lists.  No items: unchanged.  Items that are not a
   * list of dicts make the name collection (outside the try) raise.  A
   * failing call, parse or iteration: unchanged.
   */
  method ClassifyExpenses(data: Dict, llm: LlmService, rt: Runtime) returns (r: Result<Dict>)
    ensures ClassificationOf(data, llm, rt, r)
  {
    if Missing(data, "items") {
      return Ok(data);
    }
    var items := Get(data, "items").value;
    if !(items.Arr? && AllDicts(items.elems)) {
      return Err(TypeError);
    }
    var xs := items.elems;
    var cats := Categories(llm.classifyReply(ItemNames(xs)), rt);
    if cats.None? {
      return Ok(data);
    }
    var cs := cats.value;
    var ys := xs;
    var i := 0;
    while i < |cs|
      invariant 0 <= i <= |cs|
      invariant |ys| == |xs|
      invariant forall k :: 0 <= k < |xs| ==> ys[k] == if k < i && k < |cs| then WithCategory(xs[k], cs[k]) else xs[k]
    {
      if i < |ys| {
        ys := ys[i := WithCategory(ys[i], cs[i])];
      }
      i := i + 1;
    }
    return Ok(Set(data, "items", Arr(ys)));
  }

  // ---------------------------------------------------------------------
  // validate_receipt
  // ---------------------------------------------------------------------

  /** The verdict attached under "validation". */
  function Verdict(valid: Value, corrections: Value): Value {
    Obj([("valid", valid), ("corrections", corrections)])
  }

  /** The reviewer's reply, when the call succeeds and the reply parses as a dict. */
  function Review(data: Dict, llm: LlmService, rt: Runtime): Option<Dict> {
    var reply := llm.validateReply(data);
    if reply.Err? then None
    else
      var v := rt.parseJson(JsonCandidate(reply.value));
      if v.Some? && v.value.Obj? then Some(v.value.fields) else None
  }

  /** `validation_result.get("corrected_data", receipt_data)`, when it is a dict that can take the verdict. */
  function CorrectedData(data: Dict, review: Dict): Option<Dict> {
    var c := GetOr(review, "corrected_data", Obj(data));
    if c.Obj? then Some(c.fields) else None
  }

  /** `r` is a possible result of `validate_receipt` on `data`. */
  ghost predicate ReviewOf(data: Dict, llm: LlmService, rt: Runtime, r: Dict) {
    var review := Review(data, llm, rt);
    if review.Some? && CorrectedData(data, review.value).Some? then
      && (forall k :: k != "validation" ==> Get(r, k) == Get(CorrectedData(data, review.value).value, k))
      && Get(r, "validation") == Some(Verdict(GetOr(review.value, "valid", Bool(true)), GetOr(review.value, "corrections", Arr([]))))
    else
      && (forall k :: k != "validation" ==> Get(r, k) == Get(data, k))
      && Get(r, "validation") == Some(Verdict(Bool(true), Arr([])))
  }

  /**
   * `validate_receipt`: the reviewer's corrected data (or the input) with
   * its verdict under "validation", "valid" defaulting to true and
   * "corrections" to []; when anything fails, the input with a passing,
   * empty verdict.
   */
  method ValidateReceipt(data: Dict, llm: LlmService, rt: Runtime) returns (r: Dict)
    ensures ReviewOf(data, llm, rt, r)
  {
    var review := Review(data, llm, rt);
    if review.Some? {
      var corrected := CorrectedData(data, review.value);
      if corrected.Some? {
        var verdict := Verdict(GetOr(review.value, "valid", Bool(true)), GetOr(review.value, "corrections", Arr([])));
        return Set(corrected.value, "validation", verdict);
      }
    }
    return Set(data, "validation", Verdict(Bool(true), Arr([])));
  }

  // ---------------------------------------------------------------------
  // create_receipt_object
  // ---------------------------------------------------------------------

  /** An optional `str` field: None or absent gives None, a str is kept, anything else is refused. */
  function OptStrField(v: Option<Value>, field: string): (r: Result<Option<string>>)
    ensures v.None? || v.value.Null? ==> r == Ok(None)
    ensures v.Some? && v.value.Str? ==> r == Ok(Some(v.value.s))
  {
    if v.None? || v.value.Null? then Ok(None)
    else if v.value.Str? then Ok(Some(v.value.s))
    else Err(ValidationError(field))
  }

  /** An optional `float` field, coerced as `float()` would. */
  function OptFloatField(v: Option<Value>, field: string, rt: Runtime): (r: Result<Option<real>>)
    ensures v.None? || v.value.Null? ==> r == Ok(None)
    ensures v.Some? && Numeric(v.value).Some? ==> r == Ok(Some(Numeric(v.value).value))
  {
    if v.None? || v.value.Null? then Ok(None)
    else
      var f := Float(v.value, rt);
      if f.Ok? then Ok(Some(f.value)) else Err(ValidationError(field))
  }

  /**
   * One item dict as a `ReceiptItem`: the name defaults to "Unknown Item",
   * the price (default 0) and the quantity (default 1) go through `float()`,
   * the category is taken as it is.
   */
  function ToItem(x: Value, rt: Runtime): (r: Result<Item>)
    ensures !x.Obj? ==> r == Err(TypeError)
    ensures x.Obj? && !Has(x.fields, "name") && !Has(x.fields, "price") && !Has(x.fields, "quantity") && !Has(x.fields, "category") ==>
      r == Ok(Item(UnknownItem, 0.0, 1.0, None))
    ensures r.Ok? ==>
      && x.Obj?
      && Float(GetOr(x.fields, "price", Num(0.0)), rt) == Ok(r.value.price)
      && Float(GetOr(x.fields, "quantity", Num(1.0)), rt) == Ok(r.value.quantity)
      && GetOr(x.fields, "name", Str(UnknownItem)) == Str(r.value.name)
      && OptStrField(Get(x.fields, "category"), "category") == Ok(r.value.category)
  {
    if !x.Obj? then Err(TypeError)
    else
      var f := x.fields;
      var price := Float(GetOr(f, "price", Num(0.0)), rt);
      var quantity := Float(GetOr(f, "quantity", Num(1.0)), rt);
      var name := GetOr(f, "name", Str(UnknownItem));
      var category := OptStrField(Get(f, "category"), "category");
      if price.Err? then Err(price.error)
      else if quantity.Err? then Err(quantity.error)
      else if !name.Str? then Err(ValidationError("name"))
      else if category.Err? then Err(category.error)
      else Ok(NewItem(name.s, price.value, quantity.value, category.value))
  }

  /** The receipt date: a str is parsed (and may raise), anything else is today. */
  function ReceiptDate(data: Dict, llm: LlmService): (r: Result<Date>)
    ensures !(Has(data, "date") && Get(data, "date").value.Str?) ==> r == Ok(llm.today)
  {
    var v := Get(data, "date");
    if v.Some? && v.value.Str? then
      (if llm.parseDate(v.value.s).Some? then Ok(llm.parseDate(v.value.s).value) else Err(ValueError))
    else Ok(llm.today)
  }

  /** `float(receipt_data.get("total", 0))` */
  function StatedTotal(data: Dict, rt: Runtime): Result<real> {
    Float(GetOr(data, "total", Num(0.0)), rt)
  }

  /** Every step of `create_receipt_object` succeeds. */
  predicate Constructible(data: Dict, llm: LlmService, rt: Runtime) {
    var xs := Iterate(GetOr(data, "items", Arr([])));
    && ReceiptDate(data, llm).Ok?
    && xs.Some?
    && (forall i :: 0 <= i < |xs.value| ==> ToItem(xs.value[i], rt).Ok?)
    && StatedTotal(data, rt).Ok?
    && GetOr(data, "vendor", Str(UnknownVendor)).Str?
    && OptFloatField(Get(data, "subtotal"), "subtotal", rt).Ok?
    && OptFloatField(Get(data, "tax"), "tax", rt).Ok?
    && OptStrField(Get(data, "ocr_text"), "ocr_text").Ok?
    && StatedTotal(data, rt).value > 0.0
  }

  /** `r` is the result of `create_receipt_object` on `data`. */
  ghost predicate ReceiptFrom(data: Dict, llm: LlmService, rt: Runtime, r: Result<Receipt>) {
    && (r.Ok? <==> Constructible(data, llm, rt))
    && (r.Ok? ==>
      var xs := Iterate(GetOr(data, "items", Arr([]))).value;
      && ReceiptDate(data, llm) == Ok(r.value.date)
      && |r.value.items| == |xs|
      && (forall i :: 0 <= i < |xs| ==> ToItem(xs[i], rt) == Ok(r.value.items[i]))
      && StatedTotal(data, rt) == Ok(r.value.total) && r.value.total > 0.0
      && GetOr(data, "vendor", Str(UnknownVendor)) == Str(r.value.vendor)
      && OptFloatField(Get(data, "subtotal"), "subtotal", rt) == Ok(r.value.subtotal)
      && OptFloatField(Get(data, "tax"), "tax", rt) == Ok(r.value.tax)
      && OptStrField(Get(data, "ocr_text"), "ocr_text") == Ok(r.value.ocrText)
      && r.value.currency == DefaultCurrency && r.value.imagePath.None?)
  }

  /**
   * `create_receipt_object`: maps the dict to a `Receipt`, item by item in
   * order; every failure (a bad date string, an item that does not convert,
   * a refused field, a total that is not positive) is re-raised.
   */
  method CreateReceiptObject(data: Dict, llm: LlmService, rt: Runtime) returns (r: Result<Receipt>)
    ensures ReceiptFrom(data, llm, rt, r)
  {
    var date := ReceiptDate(data, llm);
    if date.Err? {
      return Err(date.error);
    }
    var source := Iterate(GetOr(data, "items", Arr([])));
    if source.None? {
      return Err(TypeError);
    }
    var xs := source.value;
    var items: seq<Item> := [];
    var i := 0;
    while i < |xs|
      invariant 0 <= i <= |xs|
      invariant |items| == i
      invariant forall k :: 0 <= k < i ==> ToItem(xs[k], rt) == Ok(items[k])
    {
      var item := ToItem(xs[i], rt);
      if item.Err? {
        return Err(item.error);
      }
      items := items + [item.value];
      i := i + 1;
    }
    var total := StatedTotal(data, rt);
    if total.Err? {
      return Err(total.error);
    }
    var vendor := GetOr(data, "vendor", Str(UnknownVendor));
    var subtotal := OptFloatField(Get(data, "subtotal"), "subtotal", rt);
    var tax := OptFloatField(Get(data, "tax"), "tax", rt);
    var ocrText := OptStrField(Get(data, "ocr_text"), "ocr_text");
    if !vendor.Str? {
      return Err(ValidationError("vendor"));
    }
    if subtotal.Err? {
      return Err(subtotal.error);
    }
    if tax.Err? {
      return Err(tax.error);
    }
    if ocrText.Err? {
      return Err(ocrText.error);
    }
    r := NewReceipt(vendor.s, date.value, total.value, items, subtotal.value, tax.value, ocrText := ocrText.value);
  }

  /** The fallback record can never become a `Receipt`: its total is 0.0. */
  lemma FallbackIsNotConstructible(ocrText: string, today: string, llm: LlmService, rt: Runtime)
    ensures !Constructible(Fallback(ocrText, today), llm, rt)
  {
    assert StatedTotal(Fallback(ocrText, today), rt) == Ok(0.0);
  }

  /** Prices and quantities that arithmetic accepts as they are (numbers, not numeric strings). */
  predicate PlainAmounts(x: Value) {
    x.Obj? && Numeric(GetOr(x.fields, "price", Num(0.0))).Some?
    && Numeric(GetOr(x.fields, "quantity", Num(1.0))).Some?
  }

  /** A converted item's line total is what the arithmetic on its dict gives. */
  lemma LineAmountOfItem(x: Value, item: Item, rt: Runtime)
    requires ToItem(x, rt) == Ok(item) && PlainAmounts(x)
    ensures LineAmount(x) == Some(item.TotalPrice())
  {
    var price := GetOr(x.fields, "price", Num(0.0));
    var quantity := GetOr(x.fields, "quantity", Num(1.0));
    assert Float(price, rt) == Ok(item.price) && Float(quantity, rt) == Ok(item.quantity);
    assert Numeric(price) == Some(item.price) && Numeric(quantity) == Some(item.quantity);
    assert LineAmount(x) == Mul(price, quantity);
    assert Mul(price, quantity).value == Numeric(price).value * Numeric(quantity).value;
    assert Mul(price, quantity).value == item.price * item.quantity;
    assert item.TotalPrice() == item.price * item.quantity;
  }

  /**
   * The total the validator recomputes from the dict items agrees with the
   * entity's `calculated_subtotal` of the items built from them, whenever
   * prices and quantities are plain numbers.
   */
  lemma {:induction false} ItemsSumIsSubtotal(xs: seq<Value>, items: seq<Item>, rt: Runtime)
    requires |xs| == |items|
    requires forall i :: 0 <= i < |xs| ==> ToItem(xs[i], rt) == Ok(items[i]) && PlainAmounts(xs[i])
    ensures SumAmounts(xs) == Some(Subtotal(items))
  {
    if xs != [] {
      var n := |xs| - 1;
      ItemsSumIsSubtotal(xs[..n], items[..n], rt);
      LineAmountOfItem(xs[n], items[n], rt);
    }
  }
}
