/**
 * The customer page: the add/edit drawer stores trimmed fields and keeps a
 * customer's purchase history on edit; the list is searched by name, phone or
 * email and shown ten rows a page.
 */
module CustomerPage {
  import opened Wrappers
  import opened Text
  import Seqs
  import Table

  datatype Customer = Customer(
    id: string, name: string, phone: string, email: Option<string>,
    address: Option<string>, totalPurchases: int, lastPurchase: string, notes: Option<string>)

  datatype Form = Form(name: string, phone: string, email: string, address: string, notes: string)

  const EmptyForm: Form := Form("", "", "", "", "")

  const ItemsPerPage := 10

  /** The submit guard: name and phone must not be blank. */
  predicate FormComplete(f: Form) {
    Trim(f.name) != "" && Trim(f.phone) != ""
  }

  /**
   * The customer a submit stores: trimmed text, optional fields only when
   * something was typed, and the edited customer's id and purchase history;
   * `totalPurchases || 0` and `lastPurchase || "-"` fall back for a new one.
   */
  function Build(f: Form, editing: Option<Customer>, freshId: string): Customer {
    Customer(
      id := if editing.Some? then OrElse(editing.value.id, freshId) else freshId,
      name := Trim(f.name),
      phone := Trim(f.phone),
      email := NonBlank(f.email),
      address := NonBlank(f.address),
      notes := NonBlank(f.notes),
      totalPurchases := if editing.Some? then editing.value.totalPurchases else 0,
      lastPurchase := if editing.Some? then OrElse(editing.value.lastPurchase, "-") else "-")
  }

  function EditingId(editing: Option<Customer>): Option<string> {
    if editing.Some? then Some(editing.value.id) else None
  }

  /** The new list after a submit, or None when the guard rejects the form. */
  function Submit(customers: seq<Customer>, f: Form, editing: Option<Customer>, freshId: string): (r: Option<seq<Customer>>)
    ensures r.Some? <==> FormComplete(f)
  {
    if FormComplete(f) then
      Some(Table.Save(customers, EditingId(editing), (c: Customer) => c.id, Build(f, editing, freshId)))
    else None
  }

  /**
   * An edit keeps the purchase total and the last purchase date of the edited
   * customer (a date that is the empty string reads as "-"); a new customer
   * starts at 0 and "-" and is put first.
   */
  lemma SubmitKeepsPurchaseHistory(customers: seq<Customer>, f: Form, editing: Option<Customer>, freshId: string)
    requires FormComplete(f)
    ensures var r := Submit(customers, f, editing, freshId).value;
      match editing
      case Some(e) =>
        |r| == |customers| &&
        (forall i :: 0 <= i < |customers| && customers[i].id == e.id ==>
          r[i].totalPurchases == e.totalPurchases &&
          r[i].lastPurchase == (if e.lastPurchase == "" then "-" else e.lastPurchase)) &&
        (forall i :: 0 <= i < |customers| && customers[i].id != e.id ==> r[i] == customers[i])
      case None =>
        |r| == |customers| + 1 && r[0].id == freshId && r[0].totalPurchases == 0 &&
        r[0].lastPurchase == "-" && r[1..] == customers
  {
  }

  /** An optional field is stored exactly when the input holds something besides white space, and then trimmed. */
  lemma OptionalFieldsAbsentWhenBlank(f: Form, editing: Option<Customer>, freshId: string)
    ensures var c := Build(f, editing, freshId);
      (c.email.None? <==> IsBlank(f.email)) &&
      (c.address.None? <==> IsBlank(f.address)) &&
      (c.notes.None? <==> IsBlank(f.notes)) &&
      (c.email.Some? ==> c.email.value == Trim(f.email))
  {
    TrimFacts(f.email);
    TrimFacts(f.address);
    TrimFacts(f.notes);
  }

  /** The search: name in any case, phone as typed, or an email that is present and non-empty, in any case. */
  predicate Shown(c: Customer, search: string) {
    ContainsIgnoringCase(c.name, search) || Contains(c.phone, search)
    || (c.email.Some? && c.email.value != "" && ContainsIgnoringCase(c.email.value, search))
  }

  function Filtered(customers: seq<Customer>, search: string): seq<Customer> {
    Seqs.Filter(customers, c => Shown(c, search))
  }

  lemma FilteredIsShownSubsequence(customers: seq<Customer>, search: string, c: Customer)
    ensures Seqs.IsSubsequence(Filtered(customers, search), customers)
    ensures c in Filtered(customers, search) <==> c in customers && Shown(c, search)
  {
    Seqs.FilterMembership(customers, x => Shown(x, search), c);
  }

  /** A customer without an email is found only through the name or the phone. */
  lemma MissingEmailIsNotSearched(c: Customer, search: string)
    requires c.email.None?
    ensures Shown(c, search) <==> ContainsIgnoringCase(c.name, search) || Contains(c.phone, search)
  {
  }

  class Page {
    var customers: seq<Customer>
    var form: Form
    var editing: Option<Customer>
    var editDrawerOpen: bool
    var search: string
    var currentPage: int

    constructor (initial: seq<Customer>)
      ensures customers == initial && form == EmptyForm && editing == None && !editDrawerOpen
      ensures search == "" && currentPage == 1
    {
      customers := initial;
      form := EmptyForm;
      editing := None;
      editDrawerOpen := false;
      search := "";
      currentPage := 1;
    }

    /** `handleSubmit`: a rejected form changes nothing; an accepted one stores the list, closes the drawer and resets the form. */
    method HandleSubmit(freshId: string) returns (accepted: bool)
      modifies this
      ensures accepted == FormComplete(old(form))
      ensures accepted ==>
        customers == Submit(old(customers), old(form), old(editing), freshId).value &&
        !editDrawerOpen && form == EmptyForm && editing == None
      ensures !accepted ==>
        customers == old(customers) && form == old(form) && editing == old(editing) &&
        editDrawerOpen == old(editDrawerOpen)
      ensures search == old(search) && currentPage == old(currentPage)
    {
      var result := Submit(customers, form, editing, freshId);
      if result.None? {
        accepted := false;
        return;
      }
      customers := result.value;
      editDrawerOpen := false;
      form := EmptyForm;
      editing := None;
      accepted := true;
    }

    /** A change to the search box; the page goes back to 1. */
    method SetSearch(term: string)
      modifies this
      ensures search == term && currentPage == 1
      ensures customers == old(customers) && form == old(form) && editing == old(editing)
      ensures editDrawerOpen == old(editDrawerOpen)
    {
      search := term;
      currentPage := 1;
    }

    function TotalPages(): nat
      reads this
    {
      Table.TotalPages(|Filtered(customers, search)|, ItemsPerPage)
    }

    function CurrentData(): seq<Customer>
      reads this
    {
      Table.Page(Filtered(customers, search), currentPage, ItemsPerPage)
    }

    /**
     * At most ten rows are shown, the filtered customers from `(currentPage - 1) * 10` on.
     * The constructor starts on page 1 and every method keeps the page at least
     * 1, so the lemma applies in every state the page reaches.
     */
    lemma CurrentDataIsWindow()
      requires currentPage >= 1
      ensures |CurrentData()| <= ItemsPerPage
      ensures forall i :: 0 <= i < |CurrentData()| ==>
        CurrentData()[i] == Filtered(customers, search)[Table.PageStart(currentPage, ItemsPerPage) + i]
    {
      Table.PageWindow(Filtered(customers, search), currentPage, ItemsPerPage);
    }

    method GoBack()
      modifies this`currentPage
      ensures currentPage == Table.StepBack(old(currentPage))
      ensures old(currentPage) >= 1 ==> currentPage >= 1
    {
      if currentPage != 1 {
        currentPage := currentPage - 1;
      }
    }

    method GoForward()
      modifies this`currentPage
      ensures currentPage == Table.StepForward(old(currentPage), TotalPages())
      ensures old(currentPage) >= 1 ==> currentPage >= 1
    {
      if currentPage != TotalPages() {
        currentPage := currentPage + 1;
      }
    }
  }
}
