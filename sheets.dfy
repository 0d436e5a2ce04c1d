/**
 * The spreadsheet side of the server (`SheetsTool`): turning a structured
 * receipt into rows `[date, vendor, item, price, category]`, and the append of
 * that batch to the sheet, which is an external service modelled as a recorder
 * of the batches it accepted.
 */
module Sheets {
  import opened Wrappers
  import opened JsonValue

  /** One spreadsheet row: the cell values, in column order. */
  type Row = seq<Json>

  /** The line items of a receipt can be iterated as dicts: `line_items`, when present,
      is a list whose elements are all objects (what `append_receipt` needs of its caller). */
  predicate WellShaped(data: map<string, Json>) {
    "line_items" in data ==>
      data["line_items"].Arr? &&
      forall k :: 0 <= k < |data["line_items"].items| ==> data["line_items"].items[k].Obj?
  }

  /** `data.get("line_items", [])`. */
  function LineItems(data: map<string, Json>): (r: seq<Json>)
    requires WellShaped(data)
  {
    if "line_items" in data then data["line_items"].items else []
  }

  /** The row of one line item; a missing field becomes "". */
  function RowOf(date: Json, vendor: Json, li: map<string, Json>): (r: Row) {
    [date, vendor, Get(li, "item", Str("")), Get(li, "price", Str("")), Get(li, "category", Str(""))]
  }

  /** One row per line item, in the line items' order. */
  function ItemRows(date: Json, vendor: Json, items: seq<Json>): (r: seq<Row>)
    requires forall k :: 0 <= k < |items| ==> items[k].Obj?
  {
    if |items| == 0 then []
    else ItemRows(date, vendor, items[..|items| - 1]) + [RowOf(date, vendor, items[|items| - 1].fields)]
  }

  /** The batch `append_receipt` sends for `data`. */
  function Rows(data: map<string, Json>): (r: seq<Row>)
    requires WellShaped(data)
  {
    ItemRows(Get(data, "date", Str("")), Get(data, "vendor", Str("")), LineItems(data))
  }

  lemma ItemRowsStep(date: Json, vendor: Json, items: seq<Json>, i: nat)
    requires forall k :: 0 <= k < |items| ==> items[k].Obj?
    requires i < |items|
    ensures ItemRows(date, vendor, items[..i + 1]) ==
            ItemRows(date, vendor, items[..i]) + [RowOf(date, vendor, items[i].fields)]
  {
    assert items[..i + 1][..i] == items[..i];
  }

  /** The row-building loop of `append_receipt`. */
  method BuildRows(data: map<string, Json>) returns (values: seq<Row>)
    requires WellShaped(data)
    ensures values == Rows(data)
  {
    values := [];
    var vendor := Get(data, "vendor", Str(""));
    var date := Get(data, "date", Str(""));
    var items := LineItems(data);
    var i := 0;
    while i < |items|
      invariant 0 <= i <= |items|
      invariant values == ItemRows(date, vendor, items[..i])
    {
      var li := items[i].fields;
      values := values + [[date, vendor, Get(li, "item", Str("")), Get(li, "price", Str("")),
                           Get(li, "category", Str(""))]];
      ItemRowsStep(date, vendor, items, i);
      i := i + 1;
    }
    assert items[..|items|] == items;
  }

  /** Exactly one row per line item, and row k is built from line item k alone. */
  lemma {:induction false} ItemRowsAt(date: Json, vendor: Json, items: seq<Json>)
    requires forall k :: 0 <= k < |items| ==> items[k].Obj?
    ensures |ItemRows(date, vendor, items)| == |items|
    ensures forall k :: 0 <= k < |items| ==> ItemRows(date, vendor, items)[k] == RowOf(date, vendor, items[k].fields)
  {
    if |items| > 0 {
      var items' := items[..|items| - 1];
      ItemRowsAt(date, vendor, items');
      forall k | 0 <= k < |items'| ensures items'[k] == items[k] { }
    }
  }

  /** Rows of a split list of line items are the rows of the halves, in order. */
  lemma {:induction false} ItemRowsAppend(date: Json, vendor: Json, a: seq<Json>, b: seq<Json>)
    requires forall k :: 0 <= k < |a| ==> a[k].Obj?
    requires forall k :: 0 <= k < |b| ==> b[k].Obj?
    ensures forall k :: 0 <= k < |a + b| ==> (a + b)[k].Obj?
    ensures ItemRows(date, vendor, a + b) == ItemRows(date, vendor, a) + ItemRows(date, vendor, b)
    decreases |b|
  {
    assert forall k :: 0 <= k < |a + b| ==> (a + b)[k] == if k < |a| then a[k] else b[k - |a|];
    if |b| == 0 {
      assert a + b == a;
    } else {
      var b' := b[..|b| - 1];
      assert (a + b)[..|a + b| - 1] == a + b';
      ItemRowsAppend(date, vendor, a, b');
    }
  }

  /** `rows_added` is the number of line items; every row is [date, vendor, item, price,
      category] with "" for a missing field, and a negative price is passed through as is. */
  lemma RowsOfReceipt(data: map<string, Json>)
    requires WellShaped(data)
    ensures |Rows(data)| == |LineItems(data)|
    ensures forall k :: 0 <= k < |LineItems(data)| ==>
      var li := LineItems(data)[k].fields;
      Rows(data)[k] == [Get(data, "date", Str("")), Get(data, "vendor", Str("")),
                        Get(li, "item", Str("")), Get(li, "price", Str("")), Get(li, "category", Str(""))]
    ensures forall k :: 0 <= k < |LineItems(data)| && "price" in LineItems(data)[k].fields ==>
      Rows(data)[k][3] == LineItems(data)[k].fields["price"]
  {
    ItemRowsAt(Get(data, "date", Str("")), Get(data, "vendor", Str("")), LineItems(data));
  }

  // ---------------------------------------------------------------------------
  // The merge rule that the doc-comment of `append_receipt` describes. The code
  // does NOT implement it: `BuildRows` above is the behaviour. It is kept here,
  // under its own name, only to state precisely where the two differ.
  // ---------------------------------------------------------------------------

  /** The line item carries a negative numeric price. */
  predicate IsDiscount(li: Json)
    requires li.Obj?
  {
    "price" in li.fields && li.fields["price"].Num? && li.fields["price"].n < 0.0
  }

  /** Documented but not implemented: a negative-price item is subtracted from the
      previous row's price instead of becoming a row; a leading one stays a row. */
  function DocumentedMergeRows(date: Json, vendor: Json, items: seq<Json>): (r: seq<Row>)
    requires forall k :: 0 <= k < |items| ==> items[k].Obj?
  {
    if |items| == 0 then []
    else
      var prev := DocumentedMergeRows(date, vendor, items[..|items| - 1]);
      var li := items[|items| - 1];
      if IsDiscount(li) && |prev| > 0 && |prev[|prev| - 1]| == 5 && prev[|prev| - 1][3].Num? then
        var last := prev[|prev| - 1];
        prev[..|prev| - 1] + [last[3 := Num(last[3].n + li.fields["price"].n)]]
      else
        prev + [RowOf(date, vendor, li.fields)]
  }

  /** Without negative prices the documented rule and the code give the same rows. */
  lemma {:induction false} MergeAgreesWithoutDiscounts(date: Json, vendor: Json, items: seq<Json>)
    requires forall k :: 0 <= k < |items| ==> items[k].Obj? && !IsDiscount(items[k])
    ensures DocumentedMergeRows(date, vendor, items) == ItemRows(date, vendor, items)
  {
    if |items| > 0 {
      var items' := items[..|items| - 1];
      assert forall k :: 0 <= k < |items'| ==> items'[k] == items[k];
      MergeAgreesWithoutDiscounts(date, vendor, items');
    }
  }

  /** On a milk line followed by a discount line the code emits two rows, the second
      with the negative price; the documented rule would emit one row priced 2.50. */
  lemma DiscountIsNotMerged(date: Json, vendor: Json)
    ensures var milk := Obj(map["item" := Str("MILK"), "price" := Num(3.5), "category" := Str("Dairy")]);
            var discount := Obj(map["item" := Str("DISCOUNT"), "price" := Num(-1.0), "category" := Str("Dairy")]);
            ItemRows(date, vendor, [milk, discount]) ==
              [[date, vendor, Str("MILK"), Num(3.5), Str("Dairy")],
               [date, vendor, Str("DISCOUNT"), Num(-1.0), Str("Dairy")]] &&
            DocumentedMergeRows(date, vendor, [milk, discount]) ==
              [[date, vendor, Str("MILK"), Num(2.5), Str("Dairy")]]
  {
    var milk := Obj(map["item" := Str("MILK"), "price" := Num(3.5), "category" := Str("Dairy")]);
    var discount := Obj(map["item" := Str("DISCOUNT"), "price" := Num(-1.0), "category" := Str("Dairy")]);
    var items := [milk, discount];
    assert items[..1] == [milk];
    assert [milk][..0] == [];
    var row := RowOf(date, vendor, milk.fields);
    assert row == [date, vendor, Str("MILK"), Num(3.5), Str("Dairy")];
    assert ItemRows(date, vendor, [milk]) == [row];
    assert RowOf(date, vendor, discount.fields) == [date, vendor, Str("DISCOUNT"), Num(-1.0), Str("Dairy")];
    assert DocumentedMergeRows(date, vendor, [milk]) == [row];
    assert IsDiscount(discount);
    assert row[3 := Num(3.5 + -1.0)] == [date, vendor, Str("MILK"), Num(2.5), Str("Dairy")];
  }

  /**
   * The server's `SheetsTool`: `authorized` stands for `self.service` having been
   * built by `auth()`, and `received` for what the spreadsheet service has
   * accepted, one batch per successful append.
   */
  class SheetsTool {
    var authorized: bool
    var received: seq<seq<Row>>

    constructor ()
      ensures !authorized && received == []
    {
      authorized := false;
      received := [];
    }

    /**
     * `append_receipt`: authorize on first use, build the rows, send them in one
     * batch. `authError` and `serviceError` are the outcomes of the two external
     * calls (OAuth and the spreadsheet append); either one surfaces as an exception.
     * A `serviceError` is read as "the service appended nothing".
     */
    method AppendReceipt(data: map<string, Json>, authError: Option<string>, serviceError: Option<string>)
      returns (r: Result<nat, Fault>)
      requires WellShaped(data)
      modifies this
      ensures !old(authorized) && authError.Some? ==>
        r == Err(Collaborator(authError.value)) && !authorized && received == old(received)
      ensures (old(authorized) || authError.None?) ==> authorized
      ensures (old(authorized) || authError.None?) && serviceError.Some? ==>
        r == Err(Collaborator(serviceError.value)) && received == old(received)
      ensures (old(authorized) || authError.None?) && serviceError.None? ==>
        r == Ok(|LineItems(data)|) && received == old(received) + [Rows(data)]
    {
      if !authorized {
        if authError.Some? {
          return Err(Collaborator(authError.value));
        }
        authorized := true;
      }
      var values := BuildRows(data);
      if serviceError.Some? {
        return Err(Collaborator(serviceError.value));
      }
      received := received + [values];
      RowsOfReceipt(data);
      r := Ok(|values|);
    }
  }
}
