/**
 * The category page: the drawer stores a trimmed name and description, the
 * status button flips one category, and the list is searched by name, filtered
 * by status and shown ten rows a page.
 */
module CategoryPage {
  import opened Wrappers
  import opened Text
  import Seqs
  import Table

  datatype Category = Category(id: string, name: string, description: string, status: Table.Status)

  datatype Form = Form(name: string, description: string)

  datatype Filters = Filters(search: string, status: string)

  const EmptyForm: Form := Form("", "")

  const NoFilters: Filters := Filters("", "")

  const ItemsPerPage := 10

  /** The submit guard: the name must not be blank. */
  predicate FormComplete(f: Form) {
    Trim(f.name) != ""
  }

  /** Trimmed name and description; the edited category's id and status, or a fresh id and ACTIVE. */
  function Build(f: Form, editing: Option<Category>, freshId: string): Category {
    Category(
      id := if editing.Some? then OrElse(editing.value.id, freshId) else freshId,
      name := Trim(f.name),
      description := Trim(f.description),
      status := if editing.Some? then editing.value.status else Table.Active)
  }

  function EditingId(editing: Option<Category>): Option<string> {
    if editing.Some? then Some(editing.value.id) else None
  }

  /** The new list after a submit, or None when the guard rejects the form. */
  function Submit(categories: seq<Category>, f: Form, editing: Option<Category>, freshId: string): (r: Option<seq<Category>>)
    ensures r.Some? <==> FormComplete(f)
  {
    if FormComplete(f) then
      Some(Table.Save(categories, EditingId(editing), (c: Category) => c.id, Build(f, editing, freshId)))
    else None
  }

  /**
   * A saved category has a non-empty trimmed name; an edit keeps the id and
   * status and touches only the rows with that id; an add prepends one ACTIVE
   * category.
   */
  lemma SubmitKeepsIdentity(categories: seq<Category>, f: Form, editing: Option<Category>, freshId: string)
    requires FormComplete(f)
    ensures var r := Submit(categories, f, editing, freshId).value;
      var b := Build(f, editing, freshId);
      b.name != "" && Trim(b.name) == b.name && Trim(b.description) == b.description &&
      match editing
      case Some(e) =>
        e.id != "" ==>
          |r| == |categories| &&
          (forall i :: 0 <= i < |categories| && categories[i].id == e.id ==>
            r[i].id == e.id && r[i].status == e.status) &&
          (forall i :: 0 <= i < |categories| && categories[i].id != e.id ==> r[i] == categories[i])
      case None =>
        |r| == |categories| + 1 && r[0].id == freshId && r[0].status == Table.Active && r[1..] == categories
  {
    TrimIdempotent(f.name);
    TrimIdempotent(f.description);
  }

  /** `handleToggleStatus(target)`: the rows with the target's id get the opposite of the target's status. */
  function Toggle(categories: seq<Category>, target: Category): (r: seq<Category>)
    ensures |r| == |categories|
    ensures forall i :: 0 <= i < |categories| ==>
      r[i] == if categories[i].id == target.id then categories[i].(status := target.status.Flipped()) else categories[i]
  {
    Table.MapWhere(categories, (c: Category) => c.id == target.id, (c: Category) => c.(status := target.status.Flipped()))
  }

  /** Clicking twice, the second time on the row the first click produced, restores the list. */
  lemma ToggleTwiceRestores(categories: seq<Category>, target: Category)
    requires forall i :: 0 <= i < |categories| && categories[i].id == target.id ==> categories[i].status == target.status
    ensures Toggle(Toggle(categories, target), target.(status := target.status.Flipped())) == categories
  {
    Table.MapWhereTwice(categories, (c: Category) => c.id == target.id,
      (c: Category) => c.(status := target.status.Flipped()),
      (c: Category) => c.(status := target.status.Flipped().Flipped()));
  }

  /** The name contains the search term in any case, and the status matches when one is selected. */
  predicate Shown(c: Category, fl: Filters) {
    ContainsIgnoringCase(c.name, fl.search) && Table.StatusMatches(fl.status, c.status)
  }

  function Filtered(categories: seq<Category>, fl: Filters): seq<Category> {
    Seqs.Filter(categories, c => Shown(c, fl))
  }

  lemma FilteredIsShownSubsequence(categories: seq<Category>, fl: Filters, c: Category)
    ensures Seqs.IsSubsequence(Filtered(categories, fl), categories)
    ensures c in Filtered(categories, fl) <==> c in categories && Shown(c, fl)
  {
    Seqs.FilterMembership(categories, x => Shown(x, fl), c);
  }

  /** Selecting "ACTIVE" lists only active categories. */
  lemma ActiveFilterKeepsOnlyActive(categories: seq<Category>, search: string)
    ensures forall i :: 0 <= i < |Filtered(categories, Filters(search, "ACTIVE"))| ==>
      Filtered(categories, Filters(search, "ACTIVE"))[i].status == Table.Active
  {
  }

  class Page {
    var categories: seq<Category>
    var form: Form
    var editing: Option<Category>
    var editDrawerOpen: bool
    var filters: Filters
    var currentPage: int

    constructor (initial: seq<Category>)
      ensures categories == initial && form == EmptyForm && editing == None && !editDrawerOpen
      ensures filters == NoFilters && currentPage == 1
    {
      categories := initial;
      form := EmptyForm;
      editing := None;
      editDrawerOpen := false;
      filters := NoFilters;
      currentPage := 1;
    }

    /** `handleSubmit`: a rejected form changes nothing; an accepted one stores the list, closes the drawer and resets the form. */
    method HandleSubmit(freshId: string) returns (accepted: bool)
      modifies this
      ensures accepted == FormComplete(old(form))
      ensures accepted ==>
        categories == Submit(old(categories), old(form), old(editing), freshId).value &&
        !editDrawerOpen && form == EmptyForm && editing == None
      ensures !accepted ==>
        categories == old(categories) && form == old(form) && editing == old(editing) &&
        editDrawerOpen == old(editDrawerOpen)
      ensures filters == old(filters) && currentPage == old(currentPage)
    {
      var result := Submit(categories, form, editing, freshId);
      if result.None? {
        accepted := false;
        return;
      }
      categories := result.value;
      editDrawerOpen := false;
      form := EmptyForm;
      editing := None;
      accepted := true;
    }

    /** `handleToggleStatus`: when confirmed, the target's rows flip status; nothing else changes. */
    method HandleToggleStatus(target: Category, confirmed: bool)
      modifies this
      ensures categories == if confirmed then Toggle(old(categories), target) else old(categories)
      ensures form == old(form) && editing == old(editing) && editDrawerOpen == old(editDrawerOpen)
      ensures filters == old(filters) && currentPage == old(currentPage)
    {
      if !confirmed {
        return;
      }
      categories := Toggle(categories, target);
    }

    /** A change to the search or the status select; the page goes back to 1. */
    method SetFilters(fl: Filters)
      modifies this
      ensures filters == fl && currentPage == 1
      ensures categories == old(categories) && form == old(form) && editing == old(editing)
      ensures editDrawerOpen == old(editDrawerOpen)
    {
      filters := fl;
      currentPage := 1;
    }

    function TotalPages(): nat
      reads this
    {
      Table.TotalPages(|Filtered(categories, filters)|, ItemsPerPage)
    }

    /** `filtered.slice(startIndex, startIndex + itemsPerPage)`. */
    function CurrentData(): seq<Category>
      reads this
    {
      var start := Table.PageStart(currentPage, ItemsPerPage);
      Table.Slice(Filtered(categories, filters), start, start + ItemsPerPage)
    }

    /**
     * The slice is the same page the other tables show: at most ten rows from `(currentPage - 1) * 10` on.
     * The constructor starts on page 1 and every method keeps the page at least
     * 1, so the lemma applies in every state the page reaches.
     */
    lemma CurrentDataIsWindow()
      requires currentPage >= 1
      ensures CurrentData() == Table.Page(Filtered(categories, filters), currentPage, ItemsPerPage)
      ensures |CurrentData()| <= ItemsPerPage
      ensures forall i :: 0 <= i < |CurrentData()| ==>
        CurrentData()[i] == Filtered(categories, filters)[Table.PageStart(currentPage, ItemsPerPage) + i]
    {
      assert currentPage * ItemsPerPage == Table.PageStart(currentPage, ItemsPerPage) + ItemsPerPage;
      Table.PageWindow(Filtered(categories, filters), currentPage, ItemsPerPage);
    }

    method GoBack()
      modifies this`currentPage
      ensures currentPage == Table.StepBack(old(currentPage))
      ensures old(currentPage) >= 1 ==> currentPage >= 1
    {
      if currentPage != 1 {
        currentPage := currentPage - 1;
      }
    }

    method GoForward()
      modifies this`currentPage
      ensures currentPage == Table.StepForward(old(currentPage), TotalPages())
      ensures old(currentPage) >= 1 ==> currentPage >= 1
    {
      if currentPage != TotalPages() {
        currentPage := currentPage + 1;
      }
    }
  }
}
