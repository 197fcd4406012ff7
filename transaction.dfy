/**
 * The sales page: a drawer that builds a sale from line items (each a product
 * from the catalogue and a quantity), the submit that records it as PAID with a
 * generated invoice number, and the searchable, status-filtered sales list shown
 * ten rows a page.
 */
module TransactionPage {
  import opened Wrappers
  import opened Text
  import Seqs
  import Table

  /** An entry of the product catalogue the item select offers. */
  datatype CatalogProduct = CatalogProduct(id: string, code: string, name: string, price: int, stock: int, unit: string)

  datatype SaleItem = SaleItem(productId: string, productName: string, price: int, quantity: int, subtotal: int)

  datatype SaleStatus = Paid | Pending | Cancelled {
    function Name(): string {
      match this
      case Paid => "PAID"
      case Pending => "PENDING"
      case Cancelled => "CANCELLED"
    }
  }

  datatype Sale = Sale(
    id: string, invoiceNumber: string, date: string, customerName: string,
    items: seq<SaleItem>, totalAmount: int, status: SaleStatus)

  /** The catalogue the page keeps in state and never changes. */
  const Catalog: seq<CatalogProduct> := [
    CatalogProduct("1", "TRK-001", "Sapi Potong", 150000, 10, "ekor"),
    CatalogProduct("2", "TRK-002", "Ayam Kampung", 50000, 50, "ekor"),
    CatalogProduct("4", "SYR-001", "Bayam Organik", 5000, 100, "kg"),
    CatalogProduct("7", "BUH-001", "Apel Malang", 25000, 300, "kg"),
    CatalogProduct("8", "BUH-002", "Pisang Cavendish", 15000, 400, "kg"),
    CatalogProduct("12", "BUH-004", "Mangga Arumanis", 18000, 150, "kg")
  ]

  const ItemsPerPage := 10

  /** The row `addSaleItem` appends: no product, price 0, quantity 1, subtotal 0. */
  const BlankItem: SaleItem := SaleItem("", "", 0, 1, 0)

  // ----- line items -----

  /** `addSaleItem`: `[...saleItems, blank]`. */
  function AddItem(items: seq<SaleItem>): (r: seq<SaleItem>)
    ensures |r| == |items| + 1 && r[..|items|] == items && r[|items|] == BlankItem
  {
    items + [BlankItem]
  }

  /** `products.find(p => p.id === id)`. */
  function FindProduct(catalog: seq<CatalogProduct>, id: string): (r: Option<CatalogProduct>)
    ensures r.Some? ==> r.value in catalog && r.value.id == id
    ensures r.None? ==> forall i :: 0 <= i < |catalog| ==> catalog[i].id != id
  {
    if catalog == [] then None
    else if catalog[0].id == id then Some(catalog[0])
    else FindProduct(catalog[1..], id)
  }

  /** The two edits the item row makes: choosing a product, and typing a quantity. */
  datatype ItemEdit = ChooseProduct(productId: string) | TypeQuantity(text: string)

  /** `Math.max(1, Number(text) || 1)`: a typed quantity that is not a positive whole number becomes 1. */
  function QuantityOf(text: string): (q: int)
    ensures q >= 1
    ensures ToNumber(text).Finite? && ToNumber(text).value >= 1 ==> q == ToNumber(text).value
    ensures !(ToNumber(text).Finite? && ToNumber(text).value >= 1) ==> q == 1
  {
    var n := ToNumber(text);
    var v := if n.Truthy() then n.value else 1;
    if v > 1 then v else 1
  }

  /**
   * `updateSaleItem` on one row: a known product copies its id, name and
   * price, an unknown one leaves them; a quantity edit sets the clamped
   * quantity; either way the subtotal is recomputed.
   */
  function UpdateItem(item: SaleItem, edit: ItemEdit): (r: SaleItem)
    ensures r.subtotal == r.price * r.quantity
    ensures edit.TypeQuantity? ==>
      r.quantity >= 1 && r.productId == item.productId && r.productName == item.productName && r.price == item.price
    ensures edit.ChooseProduct? ==> r.quantity == item.quantity
    ensures edit.ChooseProduct? ==>
      match FindProduct(Catalog, edit.productId)
      case Some(p) => r.productId == p.id && r.productName == p.name && r.price == p.price
      case None => r.productId == item.productId && r.productName == item.productName && r.price == item.price
  {
    var chosen := match edit
      case ChooseProduct(id) =>
        (match FindProduct(Catalog, id)
         case Some(p) => item.(productId := p.id, productName := p.name, price := p.price)
         case None => item)
      case TypeQuantity(text) => item.(quantity := QuantityOf(text));
    chosen.(subtotal := chosen.price * chosen.quantity)
  }

  /** `saleItems.filter((_, i) => i !== index)`: an index outside the list removes nothing. */
  function RemoveItem(items: seq<SaleItem>, index: int): (r: seq<SaleItem>)
    ensures 0 <= index < |items| ==> r == Seqs.RemoveAt(items, index)
    ensures !(0 <= index < |items|) ==> r == items
  {
    if 0 <= index < |items| then items[..index] + items[index + 1..] else items
  }

  function Subtotal(item: SaleItem): int {
    item.subtotal
  }

  /** `saleItems.reduce((sum, item) => sum + item.subtotal, 0)`. */
  function TotalAmount(items: seq<SaleItem>): int {
    Seqs.Sum(items, Subtotal)
  }

  /** Every row's subtotal is its price times its quantity. */
  predicate SubtotalsConsistent(items: seq<SaleItem>) {
    forall i :: 0 <= i < |items| ==> items[i].subtotal == items[i].price * items[i].quantity
  }

  /** Adding a blank row keeps the subtotals consistent and the total unchanged. */
  lemma AddItemKeepsTotal(items: seq<SaleItem>)
    requires SubtotalsConsistent(items)
    ensures SubtotalsConsistent(AddItem(items))
    ensures TotalAmount(AddItem(items)) == TotalAmount(items)
  {
    Seqs.SumAppend(items, [BlankItem], Subtotal);
  }

  /**
   * Updating row `index` keeps every subtotal consistent, leaves the other rows
   * as they were, and moves the total by exactly the change in that row.
   */
  lemma UpdateItemAdjustsTotal(items: seq<SaleItem>, index: int, edit: ItemEdit)
    requires SubtotalsConsistent(items) && 0 <= index < |items|
    ensures var r := items[index := UpdateItem(items[index], edit)];
      SubtotalsConsistent(r) &&
      TotalAmount(r) == TotalAmount(items) - items[index].subtotal + r[index].subtotal
  {
    var r := items[index := UpdateItem(items[index], edit)];
    Seqs.SumRemoveAt(items, index, Subtotal);
    Seqs.SumRemoveAt(r, index, Subtotal);
    assert Seqs.RemoveAt(r, index) == Seqs.RemoveAt(items, index);
  }

  /** Removing row `index` keeps the order of the rest and lowers the total by that row's subtotal. */
  lemma RemoveItemLowersTotal(items: seq<SaleItem>, index: int)
    requires SubtotalsConsistent(items) && 0 <= index < |items|
    ensures var r := RemoveItem(items, index);
      SubtotalsConsistent(r) && |r| == |items| - 1 &&
      (forall j :: 0 <= j < |r| ==> r[j] == items[if j < index then j else j + 1]) &&
      TotalAmount(r) == TotalAmount(items) - items[index].subtotal
  {
    Seqs.SumRemoveAt(items, index, Subtotal);
  }

  /** The total of consistent rows is the sum of price times quantity. */
  lemma {:induction false} TotalIsSumOfPriceTimesQuantity(items: seq<SaleItem>)
    requires SubtotalsConsistent(items)
    ensures TotalAmount(items) == Seqs.Sum(items, (it: SaleItem) => it.price * it.quantity)
  {
    if items != [] {
      TotalIsSumOfPriceTimesQuantity(items[1..]);
    }
  }

  // ----- invoice numbers -----

  /** `String(n).padStart(2, "0")`. */
  function TwoDigits(n: nat): string {
    PadStart(NatToString(n), 2)
  }

  /**
   * `INV-${year}${month}${day}-${random}` with the month (1 to 12) and the day
   * zero-padded to two digits; the suffix is `Math.floor(1000 + Math.random() * 9000)`.
   */
  function InvoiceNumber(year: nat, month: nat, day: nat, suffix: nat): string {
    "INV-" + NatToString(year) + TwoDigits(month) + TwoDigits(day) + "-" + NatToString(suffix)
  }

  lemma FourDigitLength(n: nat)
    requires 1000 <= n <= 9999
    ensures |NatToString(n)| == 4
  {
    var a := n / 10;
    var b := a / 10;
    assert 100 <= a <= 999 && 10 <= b <= 99 && 1 <= b / 10 <= 9;
    OneMoreDigit(n);
    OneMoreDigit(a);
    OneMoreDigit(b);
  }

  lemma OneMoreDigit(n: nat)
    requires n >= 10
    ensures |NatToString(n)| == |NatToString(n / 10)| + 1
  {
  }

  lemma TwoDigitLength(n: nat)
    requires 1 <= n <= 99
    ensures |TwoDigits(n)| == 2 && AllDigits(TwoDigits(n)) && DigitsValue(TwoDigits(n)) == n
  {
    if n >= 10 {
      assert NatToString(n) == NatToString(n / 10) + [DigitChar(n % 10)];
    }
  }

  /**
   * For a four-digit year, a month from 1 to 12, a day from 1 to 31 and a
   * suffix in [1000, 9999], the invoice number is `INV-YYYYMMDD-NNNN`: 17
   * characters whose digit fields read back as the year, month, day and suffix.
   */
  lemma InvoiceNumberFormat(year: nat, month: nat, day: nat, suffix: nat)
    requires 1000 <= year <= 9999 && 1 <= month <= 12 && 1 <= day <= 31 && 1000 <= suffix <= 9999
    ensures var s := InvoiceNumber(year, month, day, suffix);
      |s| == 17 && s[..4] == "INV-" && s[12] == '-' &&
      AllDigits(s[4..8]) && DigitsValue(s[4..8]) == year &&
      AllDigits(s[8..10]) && DigitsValue(s[8..10]) == month &&
      AllDigits(s[10..12]) && DigitsValue(s[10..12]) == day &&
      AllDigits(s[13..]) && DigitsValue(s[13..]) == suffix
  {
    FourDigitLength(year);
    FourDigitLength(suffix);
    TwoDigitLength(month);
    TwoDigitLength(day);
    var s := InvoiceNumber(year, month, day, suffix);
    assert s[4..8] == NatToString(year);
    assert s[8..10] == TwoDigits(month);
    assert s[10..12] == TwoDigits(day);
    assert s[13..] == NatToString(suffix);
  }

  // ----- submitting a sale -----

  /** Why `handleSubmitSale` refuses a sale. */
  datatype Rejection = MissingCustomer | NoValidItem

  /**
   * `handleSubmitSale`'s checks, in order: a blank customer name, then an empty
   * item list or a row without a product; otherwise the PAID sale to prepend.
   */
  function NewSale(customerName: string, items: seq<SaleItem>, id: string, invoice: string, date: string): (r: Result)
    ensures r.Rejected? ==> (r.why == MissingCustomer <==> Trim(customerName) == "")
    ensures r.Rejected? <==> Trim(customerName) == "" || items == [] || exists i :: 0 <= i < |items| && items[i].productId == ""
    ensures r.Accepted? ==>
      r.sale.status == Paid && r.sale.customerName == Trim(customerName) && r.sale.customerName != "" &&
      r.sale.items == items && r.sale.totalAmount == TotalAmount(items) && r.sale.invoiceNumber == invoice
  {
    if Trim(customerName) == "" then Rejected(MissingCustomer)
    else if items == [] || exists i :: 0 <= i < |items| && items[i].productId == "" then Rejected(NoValidItem)
    else Accepted(Sale(id, invoice, date, Trim(customerName), items, TotalAmount(items), Paid))
  }

  datatype Result = Accepted(sale: Sale) | Rejected(why: Rejection)

  // ----- the list -----

  datatype Filters = Filters(search: string, status: string)

  /** The invoice number or the customer contains the search term in any case, and the status matches when selected. */
  predicate Shown(s: Sale, fl: Filters) {
    (ContainsIgnoringCase(s.invoiceNumber, fl.search) || ContainsIgnoringCase(s.customerName, fl.search))
    && (fl.status == "" || s.status.Name() == fl.status)
  }

  function Filtered(sales: seq<Sale>, fl: Filters): seq<Sale> {
    Seqs.Filter(sales, s => Shown(s, fl))
  }

  lemma FilteredIsShownSubsequence(sales: seq<Sale>, fl: Filters, s: Sale)
    ensures Seqs.IsSubsequence(Filtered(sales, fl), sales)
    ensures s in Filtered(sales, fl) <==> s in sales && Shown(s, fl)
  {
    Seqs.FilterMembership(sales, x => Shown(x, fl), s);
  }

  /** The clamped previous/next buttons keep any page in `[1, totalPages]`, and from inside it move by one unless at an end. */
  lemma ClampedStepsStayInRange(page: int, totalPages: int)
    requires 1 <= page <= totalPages
    ensures 1 <= Table.ClampedBack(page) <= totalPages
    ensures 1 <= Table.ClampedForward(page, totalPages) <= totalPages
    ensures Table.ClampedBack(page) == (if page == 1 then 1 else page - 1)
    ensures Table.ClampedForward(page, totalPages) == (if page == totalPages then page else page + 1)
  {
  }

  class Page {
    var sales: seq<Sale>
    var customerName: string
    var saleItems: seq<SaleItem>
    var addDrawerOpen: bool
    var filters: Filters
    var currentPage: int

    constructor (initial: seq<Sale>)
      ensures sales == initial && customerName == "" && saleItems == [] && !addDrawerOpen
      ensures filters == Filters("", "") && currentPage == 1
    {
      sales := initial;
      customerName := "";
      saleItems := [];
      addDrawerOpen := false;
      filters := Filters("", "");
      currentPage := 1;
    }

    /** `openAddDrawer`: an empty form in an open drawer. */
    method OpenAddDrawer()
      modifies this
      ensures customerName == "" && saleItems == [] && addDrawerOpen
      ensures sales == old(sales) && filters == old(filters) && currentPage == old(currentPage)
    {
      customerName := "";
      saleItems := [];
      addDrawerOpen := true;
    }

    method AddSaleItem()
      modifies this`saleItems
      ensures saleItems == AddItem(old(saleItems))
    {
      saleItems := saleItems + [BlankItem];
    }

    /** `updateSaleItem(index, field, value)` on a row the drawer shows. */
    method UpdateSaleItem(index: int, edit: ItemEdit)
      requires 0 <= index < |saleItems|
      modifies this`saleItems
      ensures saleItems == old(saleItems)[index := UpdateItem(old(saleItems)[index], edit)]
    {
      var item := saleItems[index];
      match edit {
        case ChooseProduct(id) =>
          var found := FindProduct(Catalog, id);
          if found.Some? {
            item := item.(productId := found.value.id, productName := found.value.name, price := found.value.price);
          }
        case TypeQuantity(text) =>
          item := item.(quantity := QuantityOf(text));
      }
      item := item.(subtotal := item.price * item.quantity);
      saleItems := saleItems[index := item];
    }

    method RemoveSaleItem(index: int)
      modifies this`saleItems
      ensures saleItems == RemoveItem(old(saleItems), index)
    {
      saleItems := RemoveItem(saleItems, index);
    }

    /**
     * `handleSubmitSale`: a rejected sale changes nothing; an accepted one is
     * put in front of the list, and the drawer closes with an empty form.
     */
    method HandleSubmitSale(id: string, invoice: string, date: string) returns (r: Result)
      modifies this
      ensures r == NewSale(old(customerName), old(saleItems), id, invoice, date)
      ensures r.Accepted? ==> sales == [r.sale] + old(sales) && !addDrawerOpen && customerName == "" && saleItems == []
      ensures r.Rejected? ==>
        sales == old(sales) && addDrawerOpen == old(addDrawerOpen) &&
        customerName == old(customerName) && saleItems == old(saleItems)
      ensures filters == old(filters) && currentPage == old(currentPage)
    {
      r := NewSale(customerName, saleItems, id, invoice, date);
      if r.Rejected? {
        return;
      }
      sales := [r.sale] + sales;
      addDrawerOpen := false;
      customerName := "";
      saleItems := [];
    }

    /** A change to the search or the status select; the page goes back to 1. */
    method SetFilters(fl: Filters)
      modifies this
      ensures filters == fl && currentPage == 1
      ensures sales == old(sales) && customerName == old(customerName) && saleItems == old(saleItems)
      ensures addDrawerOpen == old(addDrawerOpen)
    {
      filters := fl;
      currentPage := 1;
    }

    function TotalPages(): nat
      reads this
    {
      Table.TotalPages(|Filtered(sales, filters)|, ItemsPerPage)
    }

    function CurrentData(): seq<Sale>
      reads this
    {
      Table.Page(Filtered(sales, filters), currentPage, ItemsPerPage)
    }

    /**
     * At most ten rows are shown, the filtered sales from `(currentPage - 1) * 10` on.
     * The constructor starts on page 1 and every method keeps the page at least
     * 1 while there is a page, so the lemma applies whenever the pager is shown.
     */
    lemma CurrentDataIsWindow()
      requires currentPage >= 1
      ensures |CurrentData()| <= ItemsPerPage
      ensures forall i :: 0 <= i < |CurrentData()| ==>
        CurrentData()[i] == Filtered(sales, filters)[Table.PageStart(currentPage, ItemsPerPage) + i]
    {
      Table.PageWindow(Filtered(sales, filters), currentPage, ItemsPerPage);
    }

    /** The previous button: `Math.max(1, p - 1)`, disabled on page 1. */
    method GoBack()
      modifies this`currentPage
      ensures currentPage == if old(currentPage) == 1 then 1 else Table.ClampedBack(old(currentPage))
      ensures currentPage >= 1
    {
      if currentPage != 1 {
        currentPage := Table.ClampedBack(currentPage);
      }
    }

    /**
     * The next button: `Math.min(totalPages, p + 1)`, disabled on the last page.
     * The pager is only shown from two pages on; with no page at all the clamp
     * would lead to page 0.
     */
    method GoForward()
      modifies this`currentPage
      ensures currentPage ==
        if old(currentPage) == TotalPages() then old(currentPage) else Table.ClampedForward(old(currentPage), TotalPages())
      ensures old(currentPage) >= 1 && TotalPages() >= 1 ==> currentPage >= 1
    {
      if currentPage != TotalPages() {
        currentPage := Table.ClampedForward(currentPage, TotalPages());
      }
    }
  }
}
