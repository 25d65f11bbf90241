/**
 * The receipt entity model: line items, receipts with their derived
 * subtotal and total, the positivity check on the stated total, and the
 * analysis record that carries corrections.
 */
module Receipts {

  import opened Py

  /** A calendar date, as Python's `datetime.date` holds it. */
  datatype Date = Date(year: nat, month: nat, day: nat)

  predicate ValidDate(d: Date) {
    1 <= d.year <= 9999 && 1 <= d.month <= 12 && 1 <= d.day <= 31
  }

  function DigitChar(d: nat): char
    requires d < 10
  {
    "0123456789"[d]
  }

  /** The decimal digits of `n`, most significant first. */
  function Digits(n: nat): (s: string)
    ensures |s| >= 1
    ensures n < 10 <==> |s| == 1
    ensures n < 100 ==> |s| <= 2
    ensures n < 10000 ==> |s| <= 4
  {
    if n < 10 then [DigitChar(n)] else Digits(n / 10) + [DigitChar(n % 10)]
  }

  function Zeros(k: nat): (s: string)
    ensures |s| == k
  {
    if k == 0 then "" else "0" + Zeros(k - 1)
  }

  /** `n` in decimal, left-padded with zeros to at least `width` characters (`%0*d`). */
  function Padded(n: nat, width: nat): (s: string)
    ensures |s| == if |Digits(n)| >= width then |Digits(n)| else width
  {
    var d := Digits(n);
    if |d| >= width then d else Zeros(width - |d|) + d
  }

  /** `str(date)`: "YYYY-MM-DD". */
  function IsoDate(d: Date): (s: string)
    ensures ValidDate(d) ==> |s| == 10 && s[4] == '-' && s[7] == '-'
  {
    Padded(d.year, 4) + "-" + Padded(d.month, 2) + "-" + Padded(d.day, 2)
  }

  /** A single line of a receipt (`ReceiptItem`). */
  datatype Item = Item(name: string, price: real, quantity: real, category: Option<string>) {
    /** `total_price` */
    function TotalPrice(): real {
      price * quantity
    }
  }

  /** `ReceiptItem(name=…, price=…)`: the quantity defaults to 1.0, the category to None. */
  function NewItem(name: string, price: real, quantity: real := 1.0, category: Option<string> := None): (i: Item)
    ensures i.name == name && i.price == price && i.quantity == quantity && i.category == category
  {
    Item(name, price, quantity, category)
  }

  /** An item given only a name and a price counts once, uncategorised, at its price. */
  lemma ItemDefaults(name: string, price: real)
    ensures NewItem(name, price).quantity == 1.0 && NewItem(name, price).category.None?
    ensures NewItem(name, price).TotalPrice() == price
  {
  }

  /** The sum of the line totals, in item order. */
  function Subtotal(items: seq<Item>): real {
    if items == [] then 0.0 else Subtotal(items[..|items| - 1]) + items[|items| - 1].TotalPrice()
  }

  lemma {:induction false} SubtotalAppend(a: seq<Item>, b: seq<Item>)
    ensures Subtotal(a + b) == Subtotal(a) + Subtotal(b)
  {
    if b == [] {
      assert a + b == a;
    } else {
      var b' := b[..|b| - 1];
      assert (a + b)[..|a + b| - 1] == a + b';
      SubtotalAppend(a, b');
    }
  }

  /** The subtotal of one item more is the old subtotal plus that item's line total. */
  lemma SubtotalOfOneMore(items: seq<Item>, x: Item)
    ensures Subtotal(items + [x]) == Subtotal(items) + x.price * x.quantity
  {
    assert (items + [x])[..|items + [x]| - 1] == items;
  }

  /** A receipt (`Receipt`). */
  datatype Receipt = Receipt(
    vendor: string,
    date: Date,
    items: seq<Item>,
    subtotal: Option<real>,
    tax: Option<real>,
    total: real,
    currency: string,
    ocrText: Option<string>,
    imagePath: Option<string>)
  {
    /** `calculated_subtotal`: the sum of the line totals. */
    function CalculatedSubtotal(): real {
      Subtotal(items)
    }

    /** `calculated_total`: the subtotal plus the tax when a tax is given. */
    function CalculatedTotal(): real {
      if tax.Some? then CalculatedSubtotal() + tax.value else CalculatedSubtotal()
    }
  }

  const DefaultCurrency := "USD"

  /**
   * `Receipt(…)`: construction with pydantic's defaults and the `total`
   * validator, which refuses a total that is not positive.
   */
  function NewReceipt(
    vendor: string,
    date: Date,
    total: real,
    items: seq<Item> := [],
    subtotal: Option<real> := None,
    tax: Option<real> := None,
    currency: string := DefaultCurrency,
    ocrText: Option<string> := None,
    imagePath: Option<string> := None): (r: Result<Receipt>)
    ensures r.Ok? <==> total > 0.0
    ensures r.Err? ==> r.error == ValidationError("total")
    ensures r.Ok? ==> r.value == Receipt(vendor, date, items, subtotal, tax, total, currency, ocrText, imagePath)
  {
    if total <= 0.0 then Err(ValidationError("total"))
    else Ok(Receipt(vendor, date, items, subtotal, tax, total, currency, ocrText, imagePath))
  }

  /** Leaving out every optional field gives the documented defaults, with or without items. */
  lemma ReceiptDefaults(vendor: string, date: Date, total: real)
    requires total > 0.0
    ensures NewReceipt(vendor, date, total).Ok?
    ensures var r := NewReceipt(vendor, date, total).value;
      && r.items == [] && r.currency == "USD" && r.subtotal.None? && r.tax.None?
      && r.ocrText.None? && r.imagePath.None?
      && r.CalculatedSubtotal() == 0.0 && r.CalculatedTotal() == 0.0
  {
  }

  /** Adding the tax on top of the subtotal: receipts that differ only in their tax differ in total by exactly that tax. */
  lemma TaxOnlyShiftsTotal(r: Receipt, t: real)
    ensures r.(tax := Some(t)).CalculatedTotal() == r.(tax := None).CalculatedTotal() + t
    ensures r.(tax := Some(0.0)).CalculatedTotal() == r.(tax := None).CalculatedTotal()
  {
  }

  /** The analysis of a receipt (`ReceiptAnalysis`). */
  datatype Analysis = Analysis(
    receipt: Receipt,
    correctCalculations: bool,
    corrections: seq<string>,
    similarReceipts: seq<Value>,
    expenseSummary: Option<Dict>)
  {
    /** `has_corrections` */
    predicate HasCorrections() {
      |corrections| > 0
    }
  }

  function NewAnalysis(
    receipt: Receipt,
    correctCalculations: bool := true,
    corrections: seq<string> := [],
    similarReceipts: seq<Value> := [],
    expenseSummary: Option<Dict> := None): (a: Analysis)
    ensures a.HasCorrections() <==> corrections != []
    ensures a.receipt == receipt && a.correctCalculations == correctCalculations && a.corrections == corrections
    ensures a.similarReceipts == similarReceipts && a.expenseSummary == expenseSummary
  {
    Analysis(receipt, correctCalculations, corrections, similarReceipts, expenseSummary)
  }
}
