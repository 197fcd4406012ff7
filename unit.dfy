/**
 * The unit page: the drawer stores a trimmed, lower-cased short name with a
 * trimmed full name and description, the status button flips one unit, and the
 * list is searched by either name, filtered by status and shown ten rows a page.
 */
module UnitPage {
  import opened Wrappers
  import opened Text
  import Seqs
  import Table

  datatype Unit = Unit(id: string, name: string, fullName: string, description: string, status: Table.Status)

  datatype Form = Form(name: string, fullName: string, description: string)

  datatype Filters = Filters(search: string, status: string)

  const EmptyForm: Form := Form("", "", "")

  const NoFilters: Filters := Filters("", "")

  const ItemsPerPage := 10

  /** The submit guard: neither the short name nor the full name may be blank. */
  predicate FormComplete(f: Form) {
    Trim(f.name) != "" && Trim(f.fullName) != ""
  }

  /** `name.trim().toLowerCase()`. */
  function ShortName(s: string): string {
    ToLower(Trim(s))
  }

  /** Lower-casing never turns a white-space character into another character or the reverse. */
  lemma LowerKeepsSpaces(c: char)
    ensures IsSpace(LowerChar(c)) <==> IsSpace(c)
  {
  }

  /** Normalising a stored short name again changes nothing, so re-saving a unit keeps its name. */
  lemma ShortNameIdempotent(s: string)
    ensures ShortName(ShortName(s)) == ShortName(s)
  {
    var t := Trim(s);
    TrimFacts(s);
    var u := ToLower(t);
    if u != [] {
      LowerKeepsSpaces(t[0]);
      LowerKeepsSpaces(t[|t| - 1]);
    }
    TrimOfTrimmed(u);
    ToLowerIdempotent(t);
  }

  /** A stored short name has no upper-case ASCII letter. */
  lemma ShortNameIsLowerCase(s: string)
    ensures forall i :: 0 <= i < |ShortName(s)| ==> !('A' <= ShortName(s)[i] <= 'Z')
  {
  }

  /** The normalised short name, trimmed full name and description; the edited unit's id and status, or a fresh id and ACTIVE. */
  function Build(f: Form, editing: Option<Unit>, freshId: string): Unit {
    Unit(
      id := if editing.Some? then OrElse(editing.value.id, freshId) else freshId,
      name := ShortName(f.name),
      fullName := Trim(f.fullName),
      description := Trim(f.description),
      status := if editing.Some? then editing.value.status else Table.Active)
  }

  function EditingId(editing: Option<Unit>): Option<string> {
    if editing.Some? then Some(editing.value.id) else None
  }

  /** The new list after a submit, or None when the guard rejects the form. */
  function Submit(units: seq<Unit>, f: Form, editing: Option<Unit>, freshId: string): (r: Option<seq<Unit>>)
    ensures r.Some? <==> FormComplete(f)
  {
    if FormComplete(f) then
      Some(Table.Save(units, EditingId(editing), (u: Unit) => u.id, Build(f, editing, freshId)))
    else None
  }

  /**
   * A saved unit has a non-empty short name that normalising again leaves
   * alone; an edit keeps the id and status and touches only the rows with that
   * id; an add prepends one ACTIVE unit.
   */
  lemma SubmitKeepsIdentity(units: seq<Unit>, f: Form, editing: Option<Unit>, freshId: string)
    requires FormComplete(f)
    ensures var r := Submit(units, f, editing, freshId).value;
      var b := Build(f, editing, freshId);
      b.name != "" && ShortName(b.name) == b.name && b.fullName != "" &&
      match editing
      case Some(e) =>
        e.id != "" ==>
          |r| == |units| &&
          (forall i :: 0 <= i < |units| && units[i].id == e.id ==>
            r[i].id == e.id && r[i].status == e.status) &&
          (forall i :: 0 <= i < |units| && units[i].id != e.id ==> r[i] == units[i])
      case None =>
        |r| == |units| + 1 && r[0].id == freshId && r[0].status == Table.Active && r[1..] == units
  {
    ShortNameIdempotent(f.name);
  }

  /** `handleToggleStatus(target)`: the rows with the target's id get the opposite of the target's status. */
  function Toggle(units: seq<Unit>, target: Unit): (r: seq<Unit>)
    ensures |r| == |units|
    ensures forall i :: 0 <= i < |units| ==>
      r[i] == if units[i].id == target.id then units[i].(status := target.status.Flipped()) else units[i]
  {
    Table.MapWhere(units, (u: Unit) => u.id == target.id, (u: Unit) => u.(status := target.status.Flipped()))
  }

  /** Clicking twice, the second time on the row the first click produced, restores the list. */
  lemma ToggleTwiceRestores(units: seq<Unit>, target: Unit)
    requires forall i :: 0 <= i < |units| && units[i].id == target.id ==> units[i].status == target.status
    ensures Toggle(Toggle(units, target), target.(status := target.status.Flipped())) == units
  {
    Table.MapWhereTwice(units, (u: Unit) => u.id == target.id,
      (u: Unit) => u.(status := target.status.Flipped()),
      (u: Unit) => u.(status := target.status.Flipped().Flipped()));
  }

  /** The short or the full name contains the search term in any case, and the status matches when one is selected. */
  predicate Shown(c: Unit, fl: Filters) {
    (ContainsIgnoringCase(c.name, fl.search) || ContainsIgnoringCase(c.fullName, fl.search))
    && Table.StatusMatches(fl.status, c.status)
  }

  function Filtered(units: seq<Unit>, fl: Filters): seq<Unit> {
    Seqs.Filter(units, c => Shown(c, fl))
  }

  lemma FilteredIsShownSubsequence(units: seq<Unit>, fl: Filters, c: Unit)
    ensures Seqs.IsSubsequence(Filtered(units, fl), units)
    ensures c in Filtered(units, fl) <==> c in units && Shown(c, fl)
  {
    Seqs.FilterMembership(units, x => Shown(x, fl), c);
  }

  /** Selecting "ACTIVE" lists only active units. */
  lemma ActiveFilterKeepsOnlyActive(units: seq<Unit>, search: string)
    ensures forall i :: 0 <= i < |Filtered(units, Filters(search, "ACTIVE"))| ==>
      Filtered(units, Filters(search, "ACTIVE"))[i].status == Table.Active
  {
  }

  class Page {
    var units: seq<Unit>
    var form: Form
    var editing: Option<Unit>
    var editDrawerOpen: bool
    var filters: Filters
    var currentPage: int

    constructor (initial: seq<Unit>)
      ensures units == initial && form == EmptyForm && editing == None && !editDrawerOpen
      ensures filters == NoFilters && currentPage == 1
    {
      units := initial;
      form := EmptyForm;
      editing := None;
      editDrawerOpen := false;
      filters := NoFilters;
      currentPage := 1;
    }

    /** `handleSubmit`: a rejected form changes nothing; an accepted one stores the list, closes the drawer and resets the form. */
    method HandleSubmit(freshId: string) returns (accepted: bool)
      modifies this
      ensures accepted == FormComplete(old(form))
      ensures accepted ==>
        units == Submit(old(units), old(form), old(editing), freshId).value &&
        !editDrawerOpen && form == EmptyForm && editing == None
      ensures !accepted ==>
        units == old(units) && form == old(form) && editing == old(editing) &&
        editDrawerOpen == old(editDrawerOpen)
      ensures filters == old(filters) && currentPage == old(currentPage)
    {
      var result := Submit(units, form, editing, freshId);
      if result.None? {
        accepted := false;
        return;
      }
      units := result.value;
      editDrawerOpen := false;
      form := EmptyForm;
      editing := None;
      accepted := true;
    }

    /** `handleToggleStatus`: when confirmed, the target's rows flip status; nothing else changes. */
    method HandleToggleStatus(target: Unit, confirmed: bool)
      modifies this
      ensures units == if confirmed then Toggle(old(units), target) else old(units)
      ensures form == old(form) && editing == old(editing) && editDrawerOpen == old(editDrawerOpen)
      ensures filters == old(filters) && currentPage == old(currentPage)
    {
      if !confirmed {
        return;
      }
      units := Toggle(units, target);
    }

    /** A change to the search or the status select; the page goes back to 1. */
    method SetFilters(fl: Filters)
      modifies this
      ensures filters == fl && currentPage == 1
      ensures units == old(units) && form == old(form) && editing == old(editing)
      ensures editDrawerOpen == old(editDrawerOpen)
    {
      filters := fl;
      currentPage := 1;
    }

    function TotalPages(): nat
      reads this
    {
      Table.TotalPages(|Filtered(units, filters)|, ItemsPerPage)
    }

    function CurrentData(): seq<Unit>
      reads this
    {
      Table.Page(Filtered(units, filters), currentPage, ItemsPerPage)
    }

    /**
     * At most ten rows are shown, the filtered units from `(currentPage - 1) * 10` on.
     * The constructor starts on page 1 and every method keeps the page at least
     * 1, so the lemma applies in every state the page reaches.
     */
    lemma CurrentDataIsWindow()
      requires currentPage >= 1
      ensures |CurrentData()| <= ItemsPerPage
      ensures forall i :: 0 <= i < |CurrentData()| ==>
        CurrentData()[i] == Filtered(units, filters)[Table.PageStart(currentPage, ItemsPerPage) + i]
    {
      Table.PageWindow(Filtered(units, filters), currentPage, ItemsPerPage);
    }

    method GoBack()
      modifies this`currentPage
      ensures currentPage == Table.StepBack(old(currentPage))
      ensures old(currentPage) >= 1 ==> currentPage >= 1
    {
      if currentPage != 1 {
        currentPage := currentPage - 1;
      }
    }

    method GoForward()
      modifies this`currentPage
      ensures currentPage == Table.StepForward(old(currentPage), TotalPages())
      ensures old(currentPage) >= 1 ==> currentPage >= 1
    {
      if currentPage != TotalPages() {
        currentPage := currentPage + 1;
      }
    }
  }
}
