/**
 * The product management page: a list of products that the add/edit drawer
 * upserts, deactivate/activate buttons that change one product's status, a
 * search with three exact-match filters, and a pager whose page size the user
 * picks from 5, 10 or 20.
 */
module ProductPage {
  import opened Wrappers
  import opened Text
  import Seqs
  import Table

  datatype Category = Category(id: string, name: string)

  datatype Product = Product(
    id: string, code: string, name: string, category: Category,
    price: Num, stock: Num, unit: string, description: string,
    thumbnail: string, origin: string, status: Table.Status, addedDate: string)

  /** The drawer's inputs, all text, and the selected category id. */
  datatype Form = Form(
    name: string, code: string, price: string, stock: string, unit: string,
    description: string, thumbnail: string, origin: string, categoryId: string)

  /** The search box and the category, price and status selects. */
  datatype Filters = Filters(search: string, category: string, price: string, status: string)

  /** The categories the page loads on mount and never changes afterwards. */
  const Categories: seq<Category> := [Category("1", "Ternak"), Category("2", "Sayur"), Category("3", "Buah")]

  /** What `resetForm` leaves: every input empty and the first category selected. */
  const EmptyForm: Form := Form("", "", "", "", "", "", "", "", Categories[0].id)

  const NoFilters: Filters := Filters("", "", "", "")

  /** The submit guard: every field is filled in, and the code too unless a product is being edited. */
  predicate FormComplete(f: Form, editing: bool) {
    f.name != "" && f.price != "" && f.stock != "" && f.unit != "" && f.description != ""
    && f.thumbnail != "" && f.origin != "" && f.categoryId != "" && (editing || f.code != "")
  }

  /** `categories.find(c => c.id === id) || categories[0]`. */
  function PickCategory(id: string): (c: Category)
    ensures c in Categories
    ensures (exists i :: 0 <= i < |Categories| && Categories[i].id == id) ==> c.id == id
  {
    if Categories[0].id == id then Categories[0]
    else if Categories[1].id == id then Categories[1]
    else if Categories[2].id == id then Categories[2]
    else Categories[0]
  }

  /**
   * The product a valid submit stores. An edit keeps the edited product's id,
   * status and added date (each falling back to the fresh value only when it is
   * the empty string) and keeps its code when the code input was cleared; a new
   * product gets the fresh id, the current time and status ACTIVE.
   */
  function Build(f: Form, editing: Option<Product>, freshId: string, now: string): Product
    requires FormComplete(f, editing.Some?)
  {
    Product(
      id := if editing.Some? then OrElse(editing.value.id, freshId) else freshId,
      code := if editing.Some? then OrElse(f.code, editing.value.code) else f.code,
      name := f.name,
      category := PickCategory(f.categoryId),
      price := ToNumber(f.price),
      stock := ToNumber(f.stock),
      unit := f.unit,
      description := f.description,
      thumbnail := f.thumbnail,
      origin := f.origin,
      status := if editing.Some? then editing.value.status else Table.Active,
      addedDate := if editing.Some? then OrElse(editing.value.addedDate, now) else now)
  }

  /** The id whose records an edit replaces, or None when the drawer adds a product. */
  function EditingId(editing: Option<Product>): Option<string> {
    if editing.Some? then Some(editing.value.id) else None
  }

  /** The new product list after a submit, or None when the guard rejects the form. */
  function Submit(products: seq<Product>, f: Form, editing: Option<Product>, freshId: string, now: string): (r: Option<seq<Product>>)
    ensures r.Some? <==> FormComplete(f, editing.Some?)
  {
    if FormComplete(f, editing.Some?) then
      Some(Table.Save(products, EditingId(editing), (p: Product) => p.id, Build(f, editing, freshId, now)))
    else None
  }

  /**
   * Editing keeps the list's length, replaces exactly the products with the
   * edited id by the rebuilt product, which keeps that id, status and added
   * date, and leaves every other product as it was.
   */
  lemma EditReplacesOnlyTarget(products: seq<Product>, f: Form, e: Product, freshId: string, now: string)
    requires FormComplete(f, true) && e.id != "" && e.addedDate != ""
    ensures var r := Submit(products, f, Some(e), freshId, now).value;
      |r| == |products| &&
      (forall i :: 0 <= i < |products| && products[i].id == e.id ==>
        r[i].id == e.id && r[i].status == e.status && r[i].addedDate == e.addedDate &&
        r[i].code == (if f.code != "" then f.code else e.code)) &&
      (forall i :: 0 <= i < |products| && products[i].id != e.id ==> r[i] == products[i])
  {
  }

  /** Adding puts exactly one ACTIVE product with the fresh id in front of the unchanged list. */
  lemma AddPrepends(products: seq<Product>, f: Form, freshId: string, now: string)
    requires FormComplete(f, false)
    ensures var r := Submit(products, f, None, freshId, now).value;
      |r| == |products| + 1 && r[0].status == Table.Active && r[0].id == freshId &&
      r[0].code == f.code && r[0].addedDate == now && r[1..] == products
  {
  }

  /** `products.map(p => p.id === target.id ? { ...p, status } : p)`. */
  function SetStatus(products: seq<Product>, target: Product, status: Table.Status): (r: seq<Product>)
    ensures |r| == |products|
    ensures forall i :: 0 <= i < |products| ==>
      r[i] == if products[i].id == target.id then products[i].(status := status) else products[i]
  {
    Table.MapWhere(products, (p: Product) => p.id == target.id, (p: Product) => p.(status := status))
  }

  /** Deactivating and then activating a product returns every row to its old state when all its rows were active. */
  lemma DeactivateThenActivate(products: seq<Product>, target: Product)
    requires forall i :: 0 <= i < |products| && products[i].id == target.id ==> products[i].status == Table.Active
    ensures SetStatus(SetStatus(products, target, Table.Inactive), target, Table.Active) == products
  {
    var r := SetStatus(SetStatus(products, target, Table.Inactive), target, Table.Active);
    assert forall i :: 0 <= i < |products| ==> r[i] == products[i];
  }

  /** The row filter: the search term in the name or code, and each non-empty select matched exactly. */
  predicate Shown(p: Product, fl: Filters) {
    (ContainsIgnoringCase(p.name, fl.search) || ContainsIgnoringCase(p.code, fl.search))
    && (fl.category == "" || p.category.id == fl.category)
    && (fl.price == "" || StrictEquals(p.price, ToNumber(fl.price)))
    && Table.StatusMatches(fl.status, p.status)
  }

  function Filtered(products: seq<Product>, fl: Filters): seq<Product> {
    Seqs.Filter(products, p => Shown(p, fl))
  }

  /** The filtered list keeps the products that pass the filter, in their order, and only those. */
  lemma FilteredIsShownSubsequence(products: seq<Product>, fl: Filters, p: Product)
    ensures Seqs.IsSubsequence(Filtered(products, fl), products)
    ensures p in Filtered(products, fl) <==> p in products && Shown(p, fl)
  {
    Seqs.FilterMembership(products, q => Shown(q, fl), p);
  }

  /** A price filter that `Number` reads as NaN hides every product: `NaN === x` is never true. */
  lemma NaNPriceHidesAll(products: seq<Product>, fl: Filters)
    requires fl.price != "" && ToNumber(fl.price) == NaN
    ensures Filtered(products, fl) == []
  {
    assert Seqs.Count(products, p => Shown(p, fl)) == 0 by {
      CountNone(products, p => Shown(p, fl));
    }
  }

  lemma {:induction false} CountNone(s: seq<Product>, p: Product -> bool)
    requires forall i :: 0 <= i < |s| ==> !p(s[i])
    ensures Seqs.Count(s, p) == 0
  {
    if s != [] {
      assert !p(s[0]);
      CountNone(s[1..], p);
    }
  }

  /** With the search box and every select empty, all products are listed. */
  lemma NoFiltersShowAll(products: seq<Product>)
    ensures Filtered(products, NoFilters) == products
  {
    forall i | 0 <= i < |products|
      ensures Shown(products[i], NoFilters)
    {
      EmptyIsEverywhere(products[i].name);
    }
    Seqs.FilterAll(products, p => Shown(p, NoFilters));
  }

  class Page {
    var products: seq<Product>
    var form: Form
    var editing: Option<Product>
    var editDrawerOpen: bool
    var filters: Filters
    var currentPage: int
    var itemsPerPage: int

    /** The page size is one of the three choices, and the pager never goes below page 1. */
    predicate Valid()
      reads this
    {
      (itemsPerPage == 5 || itemsPerPage == 10 || itemsPerPage == 20) && currentPage >= 1
    }

    /** The page after mounting: `initial` loaded, an empty form, no filters, page 1 of 10 rows. */
    constructor (initial: seq<Product>)
      ensures Valid()
      ensures products == initial && form == EmptyForm && editing == None && !editDrawerOpen
      ensures filters == NoFilters && currentPage == 1 && itemsPerPage == 10
    {
      products := initial;
      form := EmptyForm;
      editing := None;
      editDrawerOpen := false;
      filters := NoFilters;
      currentPage := 1;
      itemsPerPage := 10;
    }

    /** `resetForm`: clears every input, selects the first category and ends editing. */
    method ResetForm()
      modifies this
      ensures form == EmptyForm && editing == None
      ensures products == old(products) && editDrawerOpen == old(editDrawerOpen)
      ensures filters == old(filters) && currentPage == old(currentPage) && itemsPerPage == old(itemsPerPage)
    {
      form := EmptyForm;
      editing := None;
    }

    /**
     * `handleSubmit`: an incomplete form changes nothing; a complete one stores
     * the upserted list, closes the drawer and resets the form.
     */
    method HandleSubmit(freshId: string, now: string) returns (accepted: bool)
      requires Valid()
      modifies this
      ensures Valid()
      ensures accepted == FormComplete(old(form), old(editing).Some?)
      ensures accepted ==>
        products == Submit(old(products), old(form), old(editing), freshId, now).value &&
        !editDrawerOpen && form == EmptyForm && editing == None
      ensures !accepted ==>
        products == old(products) && form == old(form) && editing == old(editing) &&
        editDrawerOpen == old(editDrawerOpen)
      ensures filters == old(filters) && currentPage == old(currentPage) && itemsPerPage == old(itemsPerPage)
    {
      var result := Submit(products, form, editing, freshId, now);
      if result.None? {
        accepted := false;
        return;
      }
      products := result.value;
      editDrawerOpen := false;
      ResetForm();
      accepted := true;
    }

    /** `handleDeactivate`: when confirmed, only the target's status becomes INACTIVE. */
    method HandleDeactivate(target: Product, confirmed: bool)
      modifies this
      ensures products == if confirmed then SetStatus(old(products), target, Table.Inactive) else old(products)
      ensures form == old(form) && editing == old(editing) && editDrawerOpen == old(editDrawerOpen)
      ensures filters == old(filters) && currentPage == old(currentPage) && itemsPerPage == old(itemsPerPage)
    {
      if !confirmed {
        return;
      }
      products := SetStatus(products, target, Table.Inactive);
    }

    /** `handleActivate`: when confirmed, only the target's status becomes ACTIVE. */
    method HandleActivate(target: Product, confirmed: bool)
      modifies this
      ensures products == if confirmed then SetStatus(old(products), target, Table.Active) else old(products)
      ensures form == old(form) && editing == old(editing) && editDrawerOpen == old(editDrawerOpen)
      ensures filters == old(filters) && currentPage == old(currentPage) && itemsPerPage == old(itemsPerPage)
    {
      if !confirmed {
        return;
      }
      products := SetStatus(products, target, Table.Active);
    }

    /** A change to the search or a filter; the effect that watches them goes back to page 1. */
    method SetFilters(fl: Filters)
      requires Valid()
      modifies this
      ensures Valid()
      ensures filters == fl && currentPage == 1
      ensures products == old(products) && form == old(form) && editing == old(editing)
      ensures editDrawerOpen == old(editDrawerOpen) && itemsPerPage == old(itemsPerPage)
    {
      filters := fl;
      currentPage := 1;
    }

    /** The page-size select: the new size, and back to page 1. */
    method SetItemsPerPage(n: int)
      requires Valid() && (n == 5 || n == 10 || n == 20)
      modifies this
      ensures Valid()
      ensures itemsPerPage == n && currentPage == 1
      ensures products == old(products) && form == old(form) && editing == old(editing)
      ensures editDrawerOpen == old(editDrawerOpen) && filters == old(filters)
    {
      itemsPerPage := n;
      currentPage := 1;
    }

    /** `totalPagesCalc`. */
    function TotalPages(): nat
      reads this
      requires Valid()
    {
      Table.TotalPages(|Filtered(products, filters)|, itemsPerPage)
    }

    /** `currentData`: the rows of the current page of the filtered list. */
    function CurrentData(): seq<Product>
      reads this
    {
      Table.Page(Filtered(products, filters), currentPage, itemsPerPage)
    }

    /** The rows shown are at most one page of filtered products, taken from `(currentPage - 1) * itemsPerPage` on. */
    lemma CurrentDataIsWindow()
      requires Valid()
      ensures |CurrentData()| <= itemsPerPage
      ensures forall i :: 0 <= i < |CurrentData()| ==>
        CurrentData()[i] == Filtered(products, filters)[Table.PageStart(currentPage, itemsPerPage) + i]
    {
      Table.PageWindow(Filtered(products, filters), currentPage, itemsPerPage);
    }

    /** The previous/next buttons, disabled on the first and the last page. */
    method GoBack()
      requires Valid()
      modifies this`currentPage
      ensures Valid()
      ensures currentPage == Table.StepBack(old(currentPage))
    {
      if currentPage != 1 {
        currentPage := currentPage - 1;
      }
    }

    method GoForward()
      requires Valid()
      modifies this`currentPage
      ensures Valid()
      ensures currentPage == Table.StepForward(old(currentPage), TotalPages())
    {
      if currentPage != TotalPages() {
        currentPage := currentPage + 1;
      }
    }
  }
}
