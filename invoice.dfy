/** The invoice page: reads the checkout payload from the store, shows one
    row per product with quantity 1, computes subtotal, taxes (10%),
    discount (5%) and total, and offers purchase (which clears the payload)
    and cancel (which keeps it). Prices are exact reals. */
module Invoice {
  import opened Browser

  const TaxRate: real := 0.10
  const DiscountRate: real := 0.05

  /** The sum of the prices of a payload. */
  function Sum(items: seq<Entry>): real
  {
    if items == [] then 0.0 else items[0].price + Sum(items[1..])
  }

  lemma {:induction false} SumAppend(a: seq<Entry>, b: seq<Entry>)
    ensures Sum(a + b) == Sum(a) + Sum(b)
  {
    if a != [] {
      assert (a + b)[1..] == a[1..] + b;
      SumAppend(a[1..], b);
    } else {
      assert a + b == b;
    }
  }

  predicate NonNegativePrices(items: seq<Entry>)
  {
    forall k :: 0 <= k < |items| ==> items[k].price >= 0.0
  }

  /** With non-negative prices every price is at most the subtotal (so the
      subtotal is non-negative too). */
  lemma {:induction false} PriceAtMostSum(items: seq<Entry>, k: nat)
    requires NonNegativePrices(items) && k < |items|
    ensures 0.0 <= items[k].price <= Sum(items)
  {
    SumNonNegative(items[1..]);
    if k > 0 {
      PriceAtMostSum(items[1..], k - 1);
    }
  }

  lemma {:induction false} SumNonNegative(items: seq<Entry>)
    requires NonNegativePrices(items)
    ensures Sum(items) >= 0.0
  {
    if items != [] {
      SumNonNegative(items[1..]);
    }
  }

  /** What the store holds under the payload key, as the page reads it: an
      absent key reads as an empty payload; stored text stands for text
      that is not valid JSON, on which the page's parse throws (None). */
  function ReadPayload(v: Option<StoredValue>): (r: Option<seq<Entry>>)
    ensures v.None? ==> r == Some([])
    ensures v.Some? && v.value.Products? ==> r == Some(v.value.entries)
    ensures r.None? <==> v.Some? && v.value.Text?
  {
    match v
    case None => Some([])
    case Some(Products(entries)) => Some(entries)
    case Some(Text(_)) => None
  }

  /** One row of the order table. */
  datatype Row = Row(name: string, price: real, quantity: nat, total: real)

  /** The charge block of the invoice. */
  datatype Charges = Charges(subtotal: real, taxes: real, discount: real, total: real)

  /** Taxes are 10% and the discount 5% of the subtotal, and the total is
      the subtotal plus taxes minus discount; over the reals that is 105% of
      the subtotal, and for a non-negative subtotal the discount never
      exceeds the taxes, so the total is never below the subtotal. */
  function ChargesFor(subtotal: real): (c: Charges)
    ensures c.subtotal == subtotal
    ensures c.taxes == subtotal * TaxRate && c.discount == subtotal * DiscountRate
    ensures c.total == c.subtotal + c.taxes - c.discount
    ensures c.total == subtotal * 1.05
    ensures c.taxes == 2.0 * c.discount
    ensures subtotal >= 0.0 ==> 0.0 <= c.discount <= c.taxes && subtotal <= c.total
    ensures subtotal == 0.0 ==> c == Charges(0.0, 0.0, 0.0, 0.0)
  {
    var taxes := subtotal * TaxRate;
    var discount := subtotal * DiscountRate;
    Charges(subtotal, taxes, discount, subtotal + taxes - discount)
  }

  /** The worked example: a 4.50 latte and a 2.25 muffin. */
  lemma LatteAndMuffin()
    ensures var items := [Entry("Latte", 4.50), Entry("Muffin", 2.25)];
      ChargesFor(Sum(items)) == Charges(6.75, 0.675, 0.3375, 7.0875)
  {
  }

  /** The table rows and the subtotal: one row per entry in payload order,
      quantity 1, row total equal to the price; the subtotal is the sum of
      the prices. */
  method BuildRows(items: seq<Entry>) returns (rows: seq<Row>, subtotal: real)
    ensures |rows| == |items|
    ensures forall k :: 0 <= k < |items| ==>
      rows[k] == Row(items[k].name, items[k].price, 1, items[k].price)
    ensures subtotal == Sum(items)
  {
    rows := [];
    subtotal := 0.0;
    var k := 0;
    while k < |items|
      invariant k <= |items| && |rows| == k
      invariant forall j :: 0 <= j < k ==> rows[j] == Row(items[j].name, items[j].price, 1, items[j].price)
      invariant subtotal == Sum(items[..k])
    {
      var quantity := 1;
      var total := items[k].price * quantity as real;
      subtotal := subtotal + total;
      rows := rows + [Row(items[k].name, items[k].price, quantity, total)];
      assert items[..k + 1] == items[..k] + [items[k]];
      SumAppend(items[..k], [items[k]]);
      assert Sum([items[k]]) == items[k].price + Sum([]);
      k := k + 1;
    }
    assert items[..k] == items;
  }

  /** One numbered product line of the purchase receipt. */
  datatype ReceiptLine = ReceiptLine(number: nat, name: string, price: real)

  /** The receipt, without its date and customer header. */
  datatype Receipt = Receipt(lines: seq<ReceiptLine>, charges: Charges)

  /** The product lines of the receipt: numbered 1..n in payload order. */
  method ReceiptLines(items: seq<Entry>) returns (lines: seq<ReceiptLine>)
    ensures |lines| == |items|
    ensures forall k :: 0 <= k < |items| ==>
      lines[k].number == k + 1 && lines[k].name == items[k].name && lines[k].price == items[k].price
  {
    lines := [];
    var index := 0;
    while index < |items|
      invariant index <= |items| && |lines| == index
      invariant forall k :: 0 <= k < index ==>
        lines[k].number == k + 1 && lines[k].name == items[k].name && lines[k].price == items[k].price
    {
      lines := lines + [ReceiptLine(index + 1, items[index].name, items[index].price)];
      index := index + 1;
    }
  }

  class InvoicePage {
    const store: LocalStorage
    /** The payload read at page load. */
    const items: seq<Entry>
    const rows: seq<Row>
    const charges: Charges

    /** Page load. The stored payload must be absent or a product list:
        text that is not valid JSON makes the page's parse throw before it
        renders. */
    constructor (store: LocalStorage)
      requires ReadPayload(store.GetItem(SelectedProductsKey)).Some?
      ensures this.store == store
      ensures items == ReadPayload(store.GetItem(SelectedProductsKey)).value
      ensures |rows| == |items|
      ensures forall k :: 0 <= k < |items| ==>
        rows[k] == Row(items[k].name, items[k].price, 1, items[k].price)
      ensures charges == ChargesFor(Sum(items))
    {
      var payload := ReadPayload(store.GetItem(SelectedProductsKey)).value;
      var builtRows, subtotal := BuildRows(payload);
      this.store := store;
      items := payload;
      rows := builtRows;
      charges := ChargesFor(subtotal);
    }

    /** The purchase button: the receipt lists the payload and the charges;
        the payload key is removed from the store and no other key changes;
        the user goes back to the product page. */
    method HandlePurchase() returns (receipt: Receipt, redirect: Redirect)
      modifies store
      ensures store.items == old(store.items) - {SelectedProductsKey}
      ensures SelectedProductsKey !in store.items
      ensures forall key :: key != SelectedProductsKey ==>
        (key in store.items <==> key in old(store.items))
      ensures |receipt.lines| == |items|
      ensures forall k :: 0 <= k < |items| ==>
        receipt.lines[k] == ReceiptLine(k + 1, items[k].name, items[k].price)
      ensures receipt.charges == charges
      ensures redirect == ToServices
    {
      var lines := ReceiptLines(items);
      receipt := Receipt(lines, charges);
      store.RemoveItem(SelectedProductsKey);
      redirect := ToServices;
    }

    /** The cancel button, given the answer to "go back to the service
        page?". The store is not touched. */
    method HandleCancelExit(goBack: bool) returns (redirect: Redirect)
      ensures redirect == ToServices <==> goBack
      ensures redirect != ToServices ==> redirect == Stay
    {
      redirect := Stay;
      if goBack {
        redirect := ToServices;
      }
    }
  }
}
