/**
 * The tools the agent calls (`ReceiptTools`): the calculation validator,
 * the vendor-history aggregator, the similarity search, and the
 * image-to-stored-receipt pipeline.  OCR is an oracle.
 */
module Tools {

  import opened Py
  import opened Text
  import opened Receipts
  import opened Llm
  import opened VectorStore

  // ---------------------------------------------------------------------
  // validate_calculations
  // ---------------------------------------------------------------------

  /** The dict `validate_calculations` returns, by shape. */
  datatype Validation =
    | Checked(isValid: bool, calculatedTotal: real, receiptTotal: real, difference: real, corrections: seq<string>)
    | ValidationFailed(error: string, corrections: seq<string>)   // "is_valid" is False

  /** The absolute tolerance on the difference between the two totals. */
  const Tolerance := 0.01

  function Abs(x: real): real {
    if x < 0.0 then -x else x
  }

  /** The correction naming both totals. */
  function MismatchNote(receiptTotal: real, calculatedTotal: real, rt: Runtime): string {
    "Total mismatch: Receipt shows " + Show(receiptTotal, rt) + " but calculated total is " + Show(calculatedTotal, rt) + "."
  }

  /** The correction reporting an exception. */
  function FailureNote(error: string): string {
    "Error during validation: " + error
  }

  /** `sum(item.get("price", 0) * item.get("quantity", 1) for item in receipt_data.get("items", []))` */
  function ItemsTotal(data: Dict): (r: Result<real>)
    ensures !Has(data, "items") ==> r == Ok(0.0)
    ensures var xs := Iterate(GetOr(data, "items", Arr([])));
      r.Ok? <==> xs.Some? && forall i :: 0 <= i < |xs.value| ==> LineAmount(xs.value[i]).Some?
    ensures var xs := Iterate(GetOr(data, "items", Arr([])));
      r.Ok? ==> xs.Some? && SumAmounts(xs.value) == Some(r.value)
    ensures r.Err? ==> r.error == TypeError
  {
    var xs := Iterate(GetOr(data, "items", Arr([])));
    if xs.Some? && SumAmounts(xs.value).Some? then
      SumAmountsDefined(xs.value);
      Ok(SumAmounts(xs.value).value)
    else
      if xs.Some? then SumAmountsDefined(xs.value); Err(TypeError) else Err(TypeError)
  }

  /** `float(tax)` when `tax` is not None; None when there is no tax to add. */
  function TaxAmount(data: Dict, rt: Runtime): (r: Result<Option<real>>)
    ensures Get(data, "tax").None? || Get(data, "tax").value.Null? ==> r == Ok(None)
    ensures r.Ok? && r.value.Some? ==> Float(Get(data, "tax").value, rt) == Ok(r.value.value)
  {
    var tax := Get(data, "tax");
    if tax.None? || tax.value.Null? then Ok(None)
    else
      var t := Float(tax.value, rt);
      if t.Ok? then Ok(Some(t.value)) else Err(t.error)
  }

  /** The exception `validate_calculations` catches, in evaluation order: the item sum, the total, the tax. */
  function Failure(data: Dict, rt: Runtime): Option<Error> {
    if ItemsTotal(data).Err? then Some(ItemsTotal(data).error)
    else if StatedTotal(data, rt).Err? then Some(StatedTotal(data, rt).error)
    else if TaxAmount(data, rt).Err? then Some(TaxAmount(data, rt).error)
    else None
  }

  /**
   * What `validate_calculations` returns: when nothing raises, the
   * recomputed total (items plus tax), the stated total, their absolute
   * difference, validity within the tolerance and a correction exactly
   * when invalid; otherwise the error with one correction reporting it.
   */
  function Validated(data: Dict, rt: Runtime): (v: Validation)
    ensures v.Checked? <==> Failure(data, rt).None?
    ensures v.Checked? ==>
      && v.calculatedTotal == ItemsTotal(data).value + TaxAmount(data, rt).value.GetOr(0.0)
      && v.receiptTotal == StatedTotal(data, rt).value
      && v.difference == Abs(v.calculatedTotal - v.receiptTotal)
      && (v.isValid <==> v.difference < Tolerance)
      && (v.corrections == [] <==> v.isValid)
      && (!v.isValid ==> v.corrections == [MismatchNote(v.receiptTotal, v.calculatedTotal, rt)])
    ensures v.ValidationFailed? ==>
      && v.error == rt.describe(Failure(data, rt).value)
      && v.corrections == [FailureNote(v.error)]
  {
    match Failure(data, rt)
    case Some(e) => ValidationFailed(rt.describe(e), [FailureNote(rt.describe(e))])
    case None =>
      var calculated := ItemsTotal(data).value + TaxAmount(data, rt).value.GetOr(0.0);
      var stated := StatedTotal(data, rt).value;
      var difference := Abs(calculated - stated);
      var ok := difference < Tolerance;
      Checked(ok, calculated, stated, difference, if ok then [] else [MismatchNote(stated, calculated, rt)])
  }

  /**
   * `validate_calculations`: accumulates the tax onto the item sum, compares
   * with the stated total and appends the correction when they differ; an
   * exception becomes the failure record and never propagates.
   */
  method ValidateCalculations(data: Dict, rt: Runtime) returns (v: Validation)
    ensures v == Validated(data, rt)
  {
    var sum := ItemsSum(GetOr(data, "items", Arr([])));
    if sum.None? {
      var error := rt.describe(TypeError);
      return ValidationFailed(error, [FailureNote(error)]);
    }
    var calculatedTotal := sum.value;
    var receiptTotal := Float(GetOr(data, "total", Num(0.0)), rt);
    if receiptTotal.Err? {
      var error := rt.describe(receiptTotal.error);
      return ValidationFailed(error, [FailureNote(error)]);
    }
    var tax := Get(data, "tax");
    if tax.Some? && !tax.value.Null? {
      var t := Float(tax.value, rt);
      if t.Err? {
        var error := rt.describe(t.error);
        return ValidationFailed(error, [FailureNote(error)]);
      }
      calculatedTotal := calculatedTotal + t.value;
    }
    var difference := Abs(calculatedTotal - receiptTotal.value);
    var isValid := difference < Tolerance;
    var corrections: seq<string> := [];
    if !isValid {
      corrections := corrections + [MismatchNote(receiptTotal.value, calculatedTotal, rt)];
    }
    return Checked(isValid, calculatedTotal, receiptTotal.value, difference, corrections);
  }

  /**
   * The validator and the entity agree: for a dict whose items convert to
   * the receipt's items with plain numeric amounts, whose tax converts to
   * the receipt's tax and whose total is the receipt's total, the validator
   * recomputes exactly `calculated_total` and accepts the dict exactly when
   * the stated total is within the tolerance of it.
   */
  lemma ValidatorAgreesWithReceipt(data: Dict, rc: Receipt, rt: Runtime)
    requires Iterate(GetOr(data, "items", Arr([]))).Some?
    requires var xs := Iterate(GetOr(data, "items", Arr([]))).value;
      && |xs| == |rc.items|
      && forall i :: 0 <= i < |xs| ==> ToItem(xs[i], rt) == Ok(rc.items[i]) && PlainAmounts(xs[i])
    requires OptFloatField(Get(data, "tax"), "tax", rt) == Ok(rc.tax)
    requires StatedTotal(data, rt) == Ok(rc.total)
    ensures var v := Validated(data, rt);
      && v.Checked?
      && v.calculatedTotal == rc.CalculatedTotal()
      && v.receiptTotal == rc.total
      && (v.isValid <==> Abs(rc.CalculatedTotal() - rc.total) < Tolerance)
  {
    var xs := Iterate(GetOr(data, "items", Arr([]))).value;
    ItemsSumIsSubtotal(xs, rc.items, rt);
    assert ItemsTotal(data) == Ok(rc.CalculatedSubtotal());
    assert TaxAmount(data, rt) == Ok(rc.tax);
  }

  /** The dict of a worked example: two units at 10.0, one at 5.0, tax 2.0, and the given stated total. */
  function ExampleData(stated: real): (d: Dict)
    ensures Get(d, "items") == Some(Arr([Obj([("price", Num(10.0)), ("quantity", Num(2.0))]), Obj([("price", Num(5.0))])]))
    ensures Get(d, "tax") == Some(Num(2.0)) && Get(d, "total") == Some(Num(stated))
  {
    var d := [("items", Arr([Obj([("price", Num(10.0)), ("quantity", Num(2.0))]), Obj([("price", Num(5.0))])])),
              ("tax", Num(2.0)), ("total", Num(stated))];
    GetAt(d, "tax", 1);
    GetAt(d, "total", 2);
    d
  }

  /** In the worked example the items come to 25.0 and the tax brings them to 27.0, whatever the stated total. */
  lemma ExampleValidation(stated: real, rt: Runtime)
    ensures var v := Validated(ExampleData(stated), rt);
      && v.Checked? && v.calculatedTotal == 27.0 && v.receiptTotal == stated
      && v.difference == Abs(27.0 - stated) && (v.isValid <==> Abs(27.0 - stated) < Tolerance)
  {
    var first := [("price", Num(10.0)), ("quantity", Num(2.0))];
    var second := [("price", Num(5.0))];
    GetAt(first, "quantity", 1);
    var xs := [Obj(first), Obj(second)];
    assert LineAmount(xs[0]) == Some(20.0);
    assert LineAmount(xs[1]) == Some(5.0);
    assert xs[..1] == [Obj(first)];
    assert SumAmounts(xs[..1]) == Some(20.0);
    assert SumAmounts(xs) == Some(25.0);
    assert ItemsTotal(ExampleData(stated)) == Ok(25.0);
  }

  /** A stated total of 27.0 passes with no correction; 22.0 is off by 5.0 and gets the mismatch note. */
  lemma ExampleTotals(rt: Runtime)
    ensures Validated(ExampleData(27.0), rt) == Checked(true, 27.0, 27.0, 0.0, [])
    ensures Validated(ExampleData(22.0), rt) == Checked(false, 27.0, 22.0, 5.0, [MismatchNote(22.0, 27.0, rt)])
  {
    ExampleValidation(27.0, rt);
    ExampleValidation(22.0, rt);
  }

  // ---------------------------------------------------------------------
  // get_vendor_history
  // ---------------------------------------------------------------------

  /** The dict `get_vendor_history` returns, by shape. */
  datatype History =
    | Summary(vendor: Value, receiptCount: nat, totalSpent: real, firstPurchase: Option<Value>, lastPurchase: Option<Value>, receipts: seq<SearchResult>)
    | Unavailable(vendor: Value)   // "receipt_count" 0 and "receipts" []
  {
    function ReceiptCount(): nat {
      if Summary? then receiptCount else 0
    }

    function Receipts(): seq<SearchResult> {
      if Summary? then receipts else []
    }
  }

  /** `sum(float(r.get("total", 0)) for r in receipts)`; None when a `float()` raises. */
  function Spent(rs: seq<SearchResult>, rt: Runtime): Option<real> {
    if rs == [] then Some(0.0)
    else
      var init := Spent(rs[..|rs| - 1], rt);
      var last := Float(rs[|rs| - 1].total, rt);
      if init.Some? && last.Ok? then Some(init.value + last.value) else None
  }

  /** `[r.get("date") for r in receipts if r.get("date")]` */
  function Dates(rs: seq<SearchResult>): seq<Value> {
    if rs == [] then []
    else Dates(rs[..|rs| - 1]) + (if Truthy(rs[|rs| - 1].date) then [rs[|rs| - 1].date] else [])
  }

  /** `min(xs)`: keeps the first least element, replacing it only on a strict `<`; None when a comparison raises. */
  function MinOf(xs: seq<Value>): Option<Value>
    requires xs != []
  {
    if |xs| == 1 then Some(xs[0])
    else
      var m := MinOf(xs[..|xs| - 1]);
      var x := xs[|xs| - 1];
      if m.None? then None
      else
        match Less(x, m.value)
        case None => None
        case Some(smaller) => if smaller then Some(x) else m
  }

  /** `max(xs)`: keeps the first greatest element, replacing it only on a strict `>`; None when a comparison raises. */
  function MaxOf(xs: seq<Value>): Option<Value>
    requires xs != []
  {
    if |xs| == 1 then Some(xs[0])
    else
      var m := MaxOf(xs[..|xs| - 1]);
      var x := xs[|xs| - 1];
      if m.None? then None
      else
        match Less(m.value, x)
        case None => None
        case Some(larger) => if larger then Some(x) else m
  }

  /**
   * The summary of the records found for a vendor; when a total does not
   * convert or two dates do not compare, the empty fallback record.
   */
  function VendorSummary(vendor: Value, rs: seq<SearchResult>, rt: Runtime): (h: History)
    ensures h.vendor == vendor
    ensures h.Summary? <==> Spent(rs, rt).Some? && (Dates(rs) != [] ==> MinOf(Dates(rs)).Some? && MaxOf(Dates(rs)).Some?)
    ensures h.Summary? ==>
      && h.receiptCount == |rs| && h.receipts == rs
      && h.totalSpent == Spent(rs, rt).value
      && (h.firstPurchase.None? <==> Dates(rs) == [])
      && (h.lastPurchase.None? <==> Dates(rs) == [])
      && (Dates(rs) != [] ==> h.firstPurchase == MinOf(Dates(rs)) && h.lastPurchase == MaxOf(Dates(rs)))
    ensures h.Unavailable? ==> h.ReceiptCount() == 0 && h.Receipts() == []
    ensures rs == [] ==> h == Summary(vendor, 0, 0.0, None, None, [])
  {
    var spent := Spent(rs, rt);
    var dates := Dates(rs);
    if spent.None? then Unavailable(vendor)
    else if dates == [] then Summary(vendor, |rs|, spent.value, None, None, rs)
    else
      var first := MinOf(dates);
      var last := MaxOf(dates);
      if first.None? || last.None? then Unavailable(vendor)
      else Summary(vendor, |rs|, spent.value, first, last, rs)
  }

  /** The dates kept are the truthy dates of the records, in record order. */
  lemma {:induction false} DatesAreTheTruthyDates(rs: seq<SearchResult>)
    ensures |Dates(rs)| <= |rs|
    ensures forall x :: x in Dates(rs) <==> exists i :: 0 <= i < |rs| && rs[i].date == x && Truthy(x)
  {
    if rs != [] {
      var init := rs[..|rs| - 1];
      DatesAreTheTruthyDates(init);
      forall x | (exists i :: 0 <= i < |rs| && rs[i].date == x && Truthy(x))
        ensures x in Dates(rs)
      {
        var i :| 0 <= i < |rs| && rs[i].date == x && Truthy(x);
        if i < |init| {
          assert init[i].date == x;
        }
      }
    }
  }

  /** Every record's total converts exactly when the sum of totals is defined. */
  lemma {:induction false} SpentDefined(rs: seq<SearchResult>, rt: Runtime)
    ensures Spent(rs, rt).Some? <==> forall i :: 0 <= i < |rs| ==> Float(rs[i].total, rt).Ok?
  {
    if rs != [] {
      var init := rs[..|rs| - 1];
      SpentDefined(init, rt);
      assert forall i :: 0 <= i < |init| ==> init[i] == rs[i];
    }
  }

  predicate AllStrings(xs: seq<Value>) {
    forall i :: 0 <= i < |xs| ==> xs[i].Str?
  }

  /** Over date strings, `min` is one of them and no other is lexicographically smaller. */
  lemma {:induction false} MinOfStrings(xs: seq<Value>)
    requires xs != [] && AllStrings(xs)
    ensures MinOf(xs).Some? && MinOf(xs).value in xs
    ensures forall i :: 0 <= i < |xs| ==> !LexLess(xs[i].s, MinOf(xs).value.s)
  {
    if |xs| > 1 {
      var init := xs[..|xs| - 1];
      var x := xs[|xs| - 1];
      MinOfStrings(init);
      var m := MinOf(init).value;
      assert Less(x, m) == Some(LexLess(x.s, m.s));
      if LexLess(x.s, m.s) {
        forall i | 0 <= i < |xs|
          ensures !LexLess(xs[i].s, x.s)
        {
          if i < |init| {
            assert init[i] == xs[i];
            if LexLess(xs[i].s, x.s) {
              LexLessTransitive(xs[i].s, x.s, m.s);
            }
          } else {
            LexLessIrreflexive(x.s);
          }
        }
      } else {
        forall i | 0 <= i < |xs|
          ensures !LexLess(xs[i].s, m.s)
        {
          if i < |init| {
            assert init[i] == xs[i];
          }
        }
      }
     } else {
      LexLessIrreflexive(xs[0].s);
    }
  }

  /** Over date strings, `max` is one of them and no other is lexicographically greater. */
  lemma {:induction false} MaxOfStrings(xs: seq<Value>)
    requires xs != [] && AllStrings(xs)
    ensures MaxOf(xs).Some? && MaxOf(xs).value in xs
    ensures forall i :: 0 <= i < |xs| ==> !LexLess(MaxOf(xs).value.s, xs[i].s)
  {
    if |xs| > 1 {
      var init := xs[..|xs| - 1];
      var x := xs[|xs| - 1];
      MaxOfStrings(init);
      var m := MaxOf(init).value;
      assert Less(m, x) == Some(LexLess(m.s, x.s));
      if LexLess(m.s, x.s) {
        forall i | 0 <= i < |xs|
          ensures !LexLess(x.s, xs[i].s)
        {
          if i < |init| {
            assert init[i] == xs[i];
            if LexLess(x.s, xs[i].s) {
              LexLessTransitive(m.s, x.s, xs[i].s);
            }
          } else {
            LexLessIrreflexive(x.s);
          }
        }
      } else {
        forall i | 0 <= i < |xs|
          ensures !LexLess(m.s, xs[i].s)
        {
          if i < |init| {
            assert init[i] == xs[i];
          }
        }
      }
     } else {
      LexLessIrreflexive(xs[0].s);
    }
  }

  /** When every record carries a date string, the dates are those strings, one per record. */
  lemma DatedRecords(rs: seq<SearchResult>)
    requires rs != [] && forall i :: 0 <= i < |rs| ==> rs[i].date.Str? && rs[i].date.s != ""
    ensures Dates(rs) != [] && AllStrings(Dates(rs))
    ensures forall i :: 0 <= i < |rs| ==> rs[i].date in Dates(rs)
  {
    DatesAreTheTruthyDates(rs);
    forall i | 0 <= i < |rs|
      ensures rs[i].date in Dates(rs)
    {
      assert Truthy(rs[i].date);
    }
    forall j | 0 <= j < |Dates(rs)|
      ensures Dates(rs)[j].Str?
    {
      assert Dates(rs)[j] in Dates(rs);
    }
  }

  /** Over date strings, the smallest does not come after the largest. */
  lemma MinNotAfterMax(xs: seq<Value>)
    requires xs != [] && AllStrings(xs)
    ensures MinOf(xs).Some? && MaxOf(xs).Some?
    ensures !LexLess(MaxOf(xs).value.s, MinOf(xs).value.s)
  {
    MinOfStrings(xs);
    MaxOfStrings(xs);
    var k :| 0 <= k < |xs| && xs[k] == MaxOf(xs).value;
  }

  /**
   * When every record carries a date string, the history spans the dates:
   * no record lies before the first purchase or after the last, and the
   * first purchase does not come after the last.
   */
  lemma DatedHistory(vendor: Value, rs: seq<SearchResult>, rt: Runtime)
    requires rs != [] && forall i :: 0 <= i < |rs| ==> rs[i].date.Str? && rs[i].date.s != ""
    requires Spent(rs, rt).Some?
    ensures var h := VendorSummary(vendor, rs, rt);
      && h.Summary?
      && h.firstPurchase.Some? && h.firstPurchase.value.Str?
      && h.lastPurchase.Some? && h.lastPurchase.value.Str?
      && (forall i :: 0 <= i < |rs| ==> !LexLess(rs[i].date.s, h.firstPurchase.value.s) && !LexLess(h.lastPurchase.value.s, rs[i].date.s))
      && !LexLess(h.lastPurchase.value.s, h.firstPurchase.value.s)
  {
    var dates := Dates(rs);
    DatedRecords(rs);
    MinOfStrings(dates);
    MaxOfStrings(dates);
    MinNotAfterMax(dates);
    var first := MinOf(dates).value;
    var last := MaxOf(dates).value;
    forall i | 0 <= i < |rs|
      ensures !LexLess(rs[i].date.s, first.s) && !LexLess(last.s, rs[i].date.s)
    {
      var j :| 0 <= j < |dates| && dates[j] == rs[i].date;
    }
  }

  /**
   * A record whose stored total does not convert makes `float()` raise, so
   * the whole history is the empty fallback record; such a total is not
   * counted as 0.
   */
  lemma UnconvertibleTotalGivesFallback(vendor: Value, rs: seq<SearchResult>, rt: Runtime, i: nat)
    requires i < |rs| && Float(rs[i].total, rt).Err?
    ensures VendorSummary(vendor, rs, rt) == Unavailable(vendor)
  {
    SpentDefined(rs, rt);
  }

  /** The two example dates compare as dates do. */
  lemma ExampleDatesOrdered()
    ensures LexLess("2024-01-01", "2024-02-15")
  {
    assert "2024-01-01" == "2024-0" + "1-01";
    assert "2024-02-15" == "2024-0" + "2-15";
    LexLessCommonPrefix("2024-0", "1-01", "2-15");
  }

  /**
   * Two records with numeric totals and dates, the earlier first: the count
   * is two, the totals add up, and the dates are the first and the last
   * purchase.
   */
  lemma TwoReceiptHistory(vendor: Value, x: SearchResult, y: SearchResult, rt: Runtime)
    requires x.total.Num? && y.total.Num?
    requires x.date.Str? && y.date.Str? && x.date.s != "" && LexLess(x.date.s, y.date.s)
    ensures VendorSummary(vendor, [x, y], rt) == Summary(vendor, 2, x.total.n + y.total.n, Some(x.date), Some(y.date), [x, y])
  {
    var rs := [x, y];
    assert rs[..1] == [x] && rs[..1][..0] == [];
    assert Spent(rs[..1], rt) == Some(x.total.n);
    assert Spent(rs, rt) == Some(x.total.n + y.total.n);
    assert Dates(rs[..1]) == [x.date];
    var dates := Dates(rs);
    assert dates == [x.date, y.date];
    assert dates[..1] == [x.date];
    LexLessAsymmetric(x.date.s, y.date.s);
    assert MinOf(dates) == Some(x.date);
    assert MaxOf(dates) == Some(y.date);
  }

  /** Two receipts of 12.50 and 7.25 dated 2024-01-01 and 2024-02-15: 19.75 spent over that span. */
  lemma HistoryExample(vendor: Value, rt: Runtime)
    ensures var rs := [SearchResult(Null, vendor, Str("2024-01-01"), Num(12.5), Null, None),
                       SearchResult(Null, vendor, Str("2024-02-15"), Num(7.25), Null, None)];
      VendorSummary(vendor, rs, rt) == Summary(vendor, 2, 19.75, Some(Str("2024-01-01")), Some(Str("2024-02-15")), rs)
  {
    ExampleDatesOrdered();
    TwoReceiptHistory(vendor, SearchResult(Null, vendor, Str("2024-01-01"), Num(12.5), Null, None),
                      SearchResult(Null, vendor, Str("2024-02-15"), Num(7.25), Null, None), rt);
  }

  // ---------------------------------------------------------------------
  // The tools over the store
  // ---------------------------------------------------------------------

  /** The services the tools call: OCR (the "text" of the response, "" when absent), the model, the index, the built-ins. */
  datatype Services = Services(ocr: string -> Result<string>, llm: LlmService, backend: Backend, rt: Runtime)

  /** `find_similar_receipts`: the store's search, which never raises. */
  method FindSimilar(store: ReceiptStore, query: string, sv: Services, limit: nat := 3) returns (results: seq<SearchResult>)
    ensures results == SearchResults(store.documents, query, limit, sv.backend, sv.rt)
  {
    results := store.Search(query, limit, sv.backend, sv.rt);
  }

  /** The vendor query: "Vendor: " and the vendor as an f-string renders it. */
  function VendorQuery(vendor: Value, rt: Runtime): (q: string)
    ensures vendor.Str? ==> q == "Vendor: " + vendor.s
  {
    "Vendor: " + PyStr(vendor, rt)
  }

  /** `get_vendor_history`: the summary of what the vendor search returns. */
  method GetVendorHistory(store: ReceiptStore, vendor: Value, sv: Services) returns (h: History)
    ensures h == VendorSummary(vendor, SearchResults(store.documents, VendorQuery(vendor, sv.rt), 10, sv.backend, sv.rt), sv.rt)
  {
    var receipts := store.SearchByVendor(PyStr(vendor, sv.rt), sv.backend, sv.rt);
    h := VendorSummary(vendor, receipts, sv.rt);
  }

  /** Setting "receipt_id" leaves the vendor as it was. */
  lemma IdKeepsVendor(d: Dict, v: Value)
    ensures Get(Set(d, "receipt_id", v), "vendor") == Get(d, "vendor")
  {
    assert "vendor" != "receipt_id";
  }

  // The stages of `process_receipt_image`, each as its own contract
  // describes it: the first stage that raises ends the pipeline with its
  // error and leaves the index (`before`) as it was; when none raises, the
  // result is the reviewed dict with the new id and the index has gained
  // the stored receipt (`after`).

  ghost predicate ImageProcessed(imagePath: string, id: string, sv: Services, before: seq<Document>, after: seq<Document>, r: Result<Dict>) {
    var text := sv.ocr(imagePath);
    if text.Err? then r == Err(text.error) && after == before
    else exists e :: ExtractionOf(text.value, sv.llm, sv.rt, e) && AfterExtraction(e, id, sv, before, after, r)
  }

  ghost predicate AfterExtraction(e: Result<Dict>, id: string, sv: Services, before: seq<Document>, after: seq<Document>, r: Result<Dict>) {
    if e.Err? then r == Err(e.error) && after == before
    else exists c :: ClassificationOf(e.value, sv.llm, sv.rt, c) && AfterClassification(c, id, sv, before, after, r)
  }

  ghost predicate AfterClassification(c: Result<Dict>, id: string, sv: Services, before: seq<Document>, after: seq<Document>, r: Result<Dict>) {
    if c.Err? then r == Err(c.error) && after == before
    else exists data :: ReviewOf(c.value, sv.llm, sv.rt, data) && AfterReview(data, id, sv, before, after, r)
  }

  ghost predicate AfterReview(data: Dict, id: string, sv: Services, before: seq<Document>, after: seq<Document>, r: Result<Dict>) {
    exists b :: ReceiptFrom(data, sv.llm, sv.rt, b) && AfterConstruction(data, b, id, sv, before, after, r)
  }

  ghost predicate AfterConstruction(data: Dict, b: Result<Receipt>, id: string, sv: Services, before: seq<Document>, after: seq<Document>, r: Result<Dict>) {
    if b.Err? then r == Err(b.error) && after == before
    else
      var doc := StoredDocument(id, b.value, sv.backend, sv.rt);
      var failure := sv.backend.insert(before, doc);
      if failure.Some? then r == Err(failure.value) && after == before
      else r == Ok(Set(data, "receipt_id", Str(id))) && after == before + [doc]
  }

  /**
   * The last two stages of `process_receipt_image`: the reviewed dict
   * becomes a receipt, the receipt is stored under `id`, and the result is
   * the dict with "receipt_id" set.
   */
  method StoreReviewed(store: ReceiptStore, data: Dict, id: string, sv: Services) returns (r: Result<Dict>)
    modifies store
    ensures AfterReview(data, id, sv, old(store.documents), store.documents, r)
    ensures r.Err? ==> store.documents == old(store.documents)
    ensures r.Ok? ==> Get(r.value, "receipt_id") == Some(Str(id))
    ensures r.Ok? ==> exists rc: Receipt ::
      && rc.total > 0.0
      && store.documents == old(store.documents) + [StoredDocument(id, rc, sv.backend, sv.rt)]
      && GetOr(r.value, "vendor", Str(UnknownVendor)) == Str(rc.vendor)
  {
    var receipt := CreateReceiptObject(data, sv.llm, sv.rt);
    if receipt.Err? {
      r := Err(receipt.error);
      assert AfterConstruction(data, receipt, id, sv, store.documents, store.documents, r);
      return;
    }
    var stored := store.AddReceipt(receipt.value, id, sv.backend, sv.rt);
    if stored.Err? {
      r := Err(stored.error);
    } else {
      r := Ok(Set(data, "receipt_id", Str(stored.value)));
      IdKeepsVendor(data, Str(stored.value));
      assert store.documents == old(store.documents) + [StoredDocument(id, receipt.value, sv.backend, sv.rt)];
    }
    assert AfterConstruction(data, receipt, id, sv, old(store.documents), store.documents, r);
  }

  /**
   * `process_receipt_image`: OCR, extraction, classification, review,
   * construction and storage under `id`; the result is the reviewed dict
   * with "receipt_id" set.  Every failure propagates and leaves the store
   * as it was.
   */
  method ProcessReceiptImage(store: ReceiptStore, imagePath: string, id: string, sv: Services) returns (r: Result<Dict>)
    modifies store
    ensures ImageProcessed(imagePath, id, sv, old(store.documents), store.documents, r)
    ensures sv.ocr(imagePath).Err? ==> r == Err(sv.ocr(imagePath).error)
    ensures r.Err? ==> store.documents == old(store.documents)
    ensures r.Ok? ==> Get(r.value, "receipt_id") == Some(Str(id))
    ensures r.Ok? ==> exists rc: Receipt ::
      && rc.total > 0.0
      && store.documents == old(store.documents) + [StoredDocument(id, rc, sv.backend, sv.rt)]
      && GetOr(r.value, "vendor", Str(UnknownVendor)) == Str(rc.vendor)
  {
    var text := sv.ocr(imagePath);
    if text.Err? {
      return Err(text.error);
    }
    ghost var before := store.documents;
    var extracted := ExtractReceiptData(text.value, sv.llm, sv.rt);
    if extracted.Err? {
      r := Err(extracted.error);
      assert AfterExtraction(extracted, id, sv, before, before, r);
      return;
    }
    var classified := ClassifyExpenses(extracted.value, sv.llm, sv.rt);
    if classified.Err? {
      r := Err(classified.error);
      assert AfterClassification(classified, id, sv, before, before, r);
      assert AfterExtraction(extracted, id, sv, before, before, r);
      return;
    }
    var data := ValidateReceipt(classified.value, sv.llm, sv.rt);
    r := StoreReviewed(store, data, id, sv);
    assert AfterClassification(classified, id, sv, before, store.documents, r);
    assert AfterExtraction(extracted, id, sv, before, store.documents, r);
  }


  /** A reply that does not parse as a dict extracts to the fallback record. */
  lemma ExtractsFallback(text: string, llm: LlmService, rt: Runtime, e: Result<Dict>)
    requires ExtractionOf(text, llm, rt, e)
    requires llm.extractReply(text).Ok? && ParsedRecord(llm.extractReply(text).value, rt).None?
    ensures e == Ok(Fallback(text, IsoDate(llm.today)))
  {
  }

  /** The fallback record has no items to classify. */
  lemma ClassifiesFallback(text: string, today: string, llm: LlmService, rt: Runtime, c: Result<Dict>)
    requires ClassificationOf(Fallback(text, today), llm, rt, c)
    ensures c == Ok(Fallback(text, today))
  {
    assert Missing(Fallback(text, today), "items");
  }

  /** A review that supplies no corrected data keeps the fallback's total. */
  lemma ReviewKeepsFallbackTotal(text: string, today: string, llm: LlmService, rt: Runtime, data: Dict)
    requires ReviewOf(Fallback(text, today), llm, rt, data)
    requires var review := Review(Fallback(text, today), llm, rt);
      review.None? || !Has(review.value, "corrected_data")
    ensures Get(data, "total") == Some(Num(0.0))
  {
    assert "total" != "validation";
  }

  /** A dict whose total is 0.0 is refused by `create_receipt_object`. */
  lemma ZeroTotalIsRefused(data: Dict, llm: LlmService, rt: Runtime, b: Result<Receipt>)
    requires Get(data, "total") == Some(Num(0.0)) && ReceiptFrom(data, llm, rt, b)
    ensures b.Err?
  {
    assert StatedTotal(data, rt) == Ok(0.0);
  }

  /**
   * An unreadable reply is never stored: when the extraction reply does
   * not parse as a dict, the fallback record goes down the pipeline, and
   * unless the reviewer supplies corrected data, its total of 0.0 makes
   * `create_receipt_object` raise, so nothing is inserted.
   */
  lemma UnreadableReplyIsNotStored(imagePath: string, id: string, sv: Services, before: seq<Document>, after: seq<Document>, r: Result<Dict>)
    requires ImageProcessed(imagePath, id, sv, before, after, r)
    requires sv.ocr(imagePath).Ok? && sv.llm.extractReply(sv.ocr(imagePath).value).Ok?
    requires ParsedRecord(sv.llm.extractReply(sv.ocr(imagePath).value).value, sv.rt).None?
    requires var review := Review(Fallback(sv.ocr(imagePath).value, IsoDate(sv.llm.today)), sv.llm, sv.rt);
      review.None? || !Has(review.value, "corrected_data")
    ensures r.Err? && after == before
  {
    var text := sv.ocr(imagePath).value;
    var today := IsoDate(sv.llm.today);
    var e :| ExtractionOf(text, sv.llm, sv.rt, e) && AfterExtraction(e, id, sv, before, after, r);
    ExtractsFallback(text, sv.llm, sv.rt, e);
    var c :| ClassificationOf(e.value, sv.llm, sv.rt, c) && AfterClassification(c, id, sv, before, after, r);
    ClassifiesFallback(text, today, sv.llm, sv.rt, c);
    var data :| ReviewOf(c.value, sv.llm, sv.rt, data) && AfterReview(data, id, sv, before, after, r);
    ReviewKeepsFallbackTotal(text, today, sv.llm, sv.rt, data);
    var b :| ReceiptFrom(data, sv.llm, sv.rt, b) && AfterConstruction(data, b, id, sv, before, after, r);
    ZeroTotalIsRefused(data, sv.llm, sv.rt, b);
  }
}
