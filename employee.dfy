/**
 * The employee management page: the add/edit drawer stores trimmed fields,
 * the status button flips one employee between ACTIVE and INACTIVE, and the
 * list is searched, filtered by role and status, and shown ten rows a page.
 */
module EmployeePage {
  import opened Wrappers
  import opened Text
  import Seqs
  import Table

  datatype Role = Admin | Manager | Staff | Warehouse {
    function Name(): string {
      match this
      case Admin => "ADMIN"
      case Manager => "MANAGER"
      case Staff => "STAFF"
      case Warehouse => "WAREHOUSE"
    }
  }

  datatype Employee = Employee(
    id: string, name: string, email: string, phone: string, role: Role,
    status: Table.Status, joinDate: string, address: Option<string>)

  datatype Form = Form(name: string, email: string, phone: string, role: Role, address: string)

  /** The search box and the role and status selects. */
  datatype Filters = Filters(search: string, role: string, status: string)

  /** What `resetForm` leaves: empty inputs and the STAFF role. */
  const EmptyForm: Form := Form("", "", "", Staff, "")

  const NoFilters: Filters := Filters("", "", "")

  const ItemsPerPage := 10

  /** The submit guard: name, email and phone must not be blank. */
  predicate FormComplete(f: Form) {
    Trim(f.name) != "" && Trim(f.email) != "" && Trim(f.phone) != ""
  }

  /**
   * The employee a submit stores: trimmed text, an address only when one was
   * typed, and from the edited employee its id, status and join date (each
   * replaced by the fresh value only when it is the empty string).
   */
  function Build(f: Form, editing: Option<Employee>, freshId: string, now: string): Employee {
    Employee(
      id := if editing.Some? then OrElse(editing.value.id, freshId) else freshId,
      name := Trim(f.name),
      email := Trim(f.email),
      phone := Trim(f.phone),
      role := f.role,
      status := if editing.Some? then editing.value.status else Table.Active,
      joinDate := if editing.Some? then OrElse(editing.value.joinDate, now) else now,
      address := NonBlank(f.address))
  }

  function EditingId(editing: Option<Employee>): Option<string> {
    if editing.Some? then Some(editing.value.id) else None
  }

  /** The new list after a submit, or None when the guard rejects the form. */
  function Submit(employees: seq<Employee>, f: Form, editing: Option<Employee>, freshId: string, now: string): (r: Option<seq<Employee>>)
    ensures r.Some? <==> FormComplete(f)
  {
    if FormComplete(f) then
      Some(Table.Save(employees, EditingId(editing), (e: Employee) => e.id, Build(f, editing, freshId, now)))
    else None
  }

  /** A stored employee's name, email and phone are non-empty and trimmed, and a stored address is never blank. */
  lemma SavedFieldsAreTrimmed(f: Form, editing: Option<Employee>, freshId: string, now: string)
    requires FormComplete(f)
    ensures var e := Build(f, editing, freshId, now);
      e.name != "" && Trim(e.name) == e.name &&
      e.email != "" && Trim(e.email) == e.email &&
      e.phone != "" && Trim(e.phone) == e.phone &&
      (e.address.None? <==> IsBlank(f.address)) &&
      (e.address.Some? ==> e.address.value != "" && Trim(e.address.value) == e.address.value)
  {
    TrimIdempotent(f.name);
    TrimIdempotent(f.email);
    TrimIdempotent(f.phone);
    TrimIdempotent(f.address);
    TrimFacts(f.address);
  }

  /**
   * Editing replaces only the employees with the edited id, keeping that id, the
   * status and the join date; adding prepends one ACTIVE employee.
   */
  lemma SubmitKeepsIdentity(employees: seq<Employee>, f: Form, editing: Option<Employee>, freshId: string, now: string)
    requires FormComplete(f)
    ensures var r := Submit(employees, f, editing, freshId, now).value;
      match editing
      case Some(e) =>
        e.id != "" && e.joinDate != "" ==>
          |r| == |employees| &&
          (forall i :: 0 <= i < |employees| && employees[i].id == e.id ==>
            r[i].id == e.id && r[i].status == e.status && r[i].joinDate == e.joinDate) &&
          (forall i :: 0 <= i < |employees| && employees[i].id != e.id ==> r[i] == employees[i])
      case None =>
        |r| == |employees| + 1 && r[0].id == freshId && r[0].status == Table.Active && r[1..] == employees
  {
  }

  /** `handleToggleStatus(target)`: every row with the target's id gets the opposite of the target's status. */
  function Toggle(employees: seq<Employee>, target: Employee): (r: seq<Employee>)
    ensures |r| == |employees|
    ensures forall i :: 0 <= i < |employees| ==>
      r[i] == if employees[i].id == target.id then employees[i].(status := target.status.Flipped()) else employees[i]
  {
    Table.MapWhere(employees, (e: Employee) => e.id == target.id, (e: Employee) => e.(status := target.status.Flipped()))
  }

  /**
   * Clicking the button twice, the second time on the row the first click
   * produced, restores the list when every row with that id had the clicked
   * row's status.
   */
  lemma ToggleTwiceRestores(employees: seq<Employee>, target: Employee)
    requires forall i :: 0 <= i < |employees| && employees[i].id == target.id ==> employees[i].status == target.status
    ensures Toggle(Toggle(employees, target), target.(status := target.status.Flipped())) == employees
  {
    Table.MapWhereTwice(employees, (e: Employee) => e.id == target.id,
      (e: Employee) => e.(status := target.status.Flipped()),
      (e: Employee) => e.(status := target.status.Flipped().Flipped()));
  }

  /** The row filter: the term in the name or email (any case) or the phone (as typed), and the selects matched when set. */
  predicate Shown(e: Employee, fl: Filters) {
    (ContainsIgnoringCase(e.name, fl.search) || ContainsIgnoringCase(e.email, fl.search) || Contains(e.phone, fl.search))
    && (fl.role == "" || e.role.Name() == fl.role)
    && Table.StatusMatches(fl.status, e.status)
  }

  function Filtered(employees: seq<Employee>, fl: Filters): seq<Employee> {
    Seqs.Filter(employees, e => Shown(e, fl))
  }

  lemma FilteredIsShownSubsequence(employees: seq<Employee>, fl: Filters, e: Employee)
    ensures Seqs.IsSubsequence(Filtered(employees, fl), employees)
    ensures e in Filtered(employees, fl) <==> e in employees && Shown(e, fl)
  {
    Seqs.FilterMembership(employees, x => Shown(x, fl), e);
  }

  /** The phone is searched as typed: a term that is a digit string matches a phone that contains it, whatever the name and email hold. */
  lemma PhoneSearchIsRaw(e: Employee, fl: Filters, i: int)
    requires fl.role == "" && fl.status == "" && OccursAt(e.phone, fl.search, i)
    ensures Shown(e, fl)
  {
  }

  class Page {
    var employees: seq<Employee>
    var form: Form
    var editing: Option<Employee>
    var editDrawerOpen: bool
    var filters: Filters
    var currentPage: int

    constructor (initial: seq<Employee>)
      ensures employees == initial && form == EmptyForm && editing == None && !editDrawerOpen
      ensures filters == NoFilters && currentPage == 1
    {
      employees := initial;
      form := EmptyForm;
      editing := None;
      editDrawerOpen := false;
      filters := NoFilters;
      currentPage := 1;
    }

    /** `handleSubmit`: a rejected form changes nothing; an accepted one stores the list, closes the drawer and resets the form. */
    method HandleSubmit(freshId: string, now: string) returns (accepted: bool)
      modifies this
      ensures accepted == FormComplete(old(form))
      ensures accepted ==>
        employees == Submit(old(employees), old(form), old(editing), freshId, now).value &&
        !editDrawerOpen && form == EmptyForm && editing == None
      ensures !accepted ==>
        employees == old(employees) && form == old(form) && editing == old(editing) &&
        editDrawerOpen == old(editDrawerOpen)
      ensures filters == old(filters) && currentPage == old(currentPage)
    {
      var result := Submit(employees, form, editing, freshId, now);
      if result.None? {
        accepted := false;
        return;
      }
      employees := result.value;
      editDrawerOpen := false;
      form := EmptyForm;
      editing := None;
      accepted := true;
    }

    /** `handleToggleStatus`: when confirmed, the target's rows flip status; nothing else changes. */
    method HandleToggleStatus(target: Employee, confirmed: bool)
      modifies this
      ensures employees == if confirmed then Toggle(old(employees), target) else old(employees)
      ensures form == old(form) && editing == old(editing) && editDrawerOpen == old(editDrawerOpen)
      ensures filters == old(filters) && currentPage == old(currentPage)
    {
      if !confirmed {
        return;
      }
      employees := Toggle(employees, target);
    }

    /** A change to the search or a select; the page goes back to 1. */
    method SetFilters(fl: Filters)
      modifies this
      ensures filters == fl && currentPage == 1
      ensures employees == old(employees) && form == old(form) && editing == old(editing)
      ensures editDrawerOpen == old(editDrawerOpen)
    {
      filters := fl;
      currentPage := 1;
    }

    function TotalPages(): nat
      reads this
    {
      Table.TotalPages(|Filtered(employees, filters)|, ItemsPerPage)
    }

    function CurrentData(): seq<Employee>
      reads this
    {
      Table.Page(Filtered(employees, filters), currentPage, ItemsPerPage)
    }

    /**
     * At most ten rows are shown, the filtered employees from `(currentPage - 1) * 10` on.
     * The constructor starts on page 1 and every method keeps the page at least
     * 1, so the lemma applies in every state the page reaches.
     */
    lemma CurrentDataIsWindow()
      requires currentPage >= 1
      ensures |CurrentData()| <= ItemsPerPage
      ensures forall i :: 0 <= i < |CurrentData()| ==>
        CurrentData()[i] == Filtered(employees, filters)[Table.PageStart(currentPage, ItemsPerPage) + i]
    {
      Table.PageWindow(Filtered(employees, filters), currentPage, ItemsPerPage);
    }

    method GoBack()
      modifies this`currentPage
      ensures currentPage == Table.StepBack(old(currentPage))
      ensures old(currentPage) >= 1 ==> currentPage >= 1
    {
      if currentPage != 1 {
        currentPage := currentPage - 1;
      }
    }

    method GoForward()
      modifies this`currentPage
      ensures currentPage == Table.StepForward(old(currentPage), TotalPages())
      ensures old(currentPage) >= 1 ==> currentPage >= 1
    {
      if currentPage != TotalPages() {
        currentPage := currentPage + 1;
      }
    }
  }
}
