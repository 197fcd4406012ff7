/**
 * The call-quota (voucher) page: vouchers come a page at a time from the
 * server, are filtered on the client by search text, inmate number, prison
 * code and status, and new vouchers are generated for a chosen inmate.
 */
module QuotaPage {
  import opened Wrappers
  import opened Text
  import Seqs
  import Http

  datatype Prison = Prison(code: string, name: string)

  datatype Inmate = Inmate(id: string, name: string, inmateNumber: string, cellBlock: string, prison: Prison)

  datatype Voucher = Voucher(
    id: string, inmateId: string, purchasedMinutes: int, voucherExpiresAt: string,
    redeemedAt: Option<string>, isRedeemed: bool, isExpired: bool, notes: Option<string>, inmate: Inmate)

  /** The four client-side filters. */
  datatype Filters = Filters(search: string, inmateNumber: string, prisonCode: string, status: string)

  const NoFilters: Filters := Filters("", "", "", "")

  // ----- client-side filtering -----

  /**
   * The status select: "redeemed" keeps redeemed vouchers, "unused" those
   * neither redeemed nor expired, "expired" expired ones; any other value keeps all.
   */
  predicate StatusMatches(status: string, v: Voucher) {
    if status == "redeemed" then v.isRedeemed
    else if status == "unused" then !v.isRedeemed && !v.isExpired
    else if status == "expired" then v.isExpired
    else true
  }

  /**
   * The search term in the inmate's name or number or the voucher id, any case;
   * the inmate-number and prison-code filters as substrings, any case, when set.
   */
  predicate Shown(v: Voucher, fl: Filters) {
    (ContainsIgnoringCase(v.inmate.name, fl.search) || ContainsIgnoringCase(v.inmate.inmateNumber, fl.search)
     || ContainsIgnoringCase(v.id, fl.search))
    && (fl.inmateNumber == "" || ContainsIgnoringCase(v.inmate.inmateNumber, fl.inmateNumber))
    && (fl.prisonCode == "" || ContainsIgnoringCase(v.inmate.prison.code, fl.prisonCode))
    && StatusMatches(fl.status, v)
  }

  function Filtered(vouchers: seq<Voucher>, fl: Filters): seq<Voucher> {
    Seqs.Filter(vouchers, v => Shown(v, fl))
  }

  lemma FilteredIsShownSubsequence(vouchers: seq<Voucher>, fl: Filters, v: Voucher)
    ensures Seqs.IsSubsequence(Filtered(vouchers, fl), vouchers)
    ensures v in Filtered(vouchers, fl) <==> v in vouchers && Shown(v, fl)
  {
    Seqs.FilterMembership(vouchers, x => Shown(x, fl), v);
  }

  /**
   * Every voucher passes at least one of the three status choices, and one that
   * passes "unused" passes neither of the others.
   */
  lemma StatusChoicesCoverEveryVoucher(v: Voucher)
    ensures StatusMatches("redeemed", v) || StatusMatches("unused", v) || StatusMatches("expired", v)
    ensures StatusMatches("unused", v) ==> !StatusMatches("redeemed", v) && !StatusMatches("expired", v)
  {
  }

  /** `hasActiveFilter`: one of the four filters is a non-empty string. */
  predicate HasActiveFilter(fl: Filters) {
    fl.search != "" || fl.inmateNumber != "" || fl.prisonCode != "" || fl.status != ""
  }

  /** `currentData`: with a filter set, the filtered vouchers; otherwise the server page as it came. */
  function CurrentData(vouchers: seq<Voucher>, fl: Filters): seq<Voucher> {
    if HasActiveFilter(fl) then Filtered(vouchers, fl) else vouchers
  }

  /** `displayedTotal`: with a filter set, the number of filtered vouchers; otherwise the server's total. */
  function DisplayedTotal(vouchers: seq<Voucher>, fl: Filters, totalItems: int): int {
    if HasActiveFilter(fl) then |Filtered(vouchers, fl)| else totalItems
  }

  /**
   * With no filter set the rows are the server page and the total is the
   * server's; the filtered list would have been that same page, so only the
   * total depends on the switch. With a filter set, the total counts the rows.
   */
  lemma {:induction false} DisplayedRows(vouchers: seq<Voucher>, fl: Filters, totalItems: int)
    ensures !HasActiveFilter(fl) ==>
      CurrentData(vouchers, fl) == vouchers && DisplayedTotal(vouchers, fl, totalItems) == totalItems &&
      Filtered(vouchers, fl) == vouchers
    ensures HasActiveFilter(fl) ==>
      CurrentData(vouchers, fl) == Filtered(vouchers, fl) &&
      DisplayedTotal(vouchers, fl, totalItems) == |CurrentData(vouchers, fl)|
  {
    if !HasActiveFilter(fl) {
      forall i | 0 <= i < |vouchers|
        ensures Shown(vouchers[i], fl)
      {
        EmptyIsEverywhere(vouchers[i].inmate.name);
      }
      Seqs.FilterAll(vouchers, v => Shown(v, fl));
    }
  }

  /** The inmate select: name, number or prison code contains `inmateSearch`, any case. */
  predicate InmateShown(i: Inmate, inmateSearch: string) {
    ContainsIgnoringCase(i.name, inmateSearch) || ContainsIgnoringCase(i.inmateNumber, inmateSearch)
    || ContainsIgnoringCase(i.prison.code, inmateSearch)
  }

  /** `inmateSearch` is never set, so it stays "". */
  const InmateSearch := ""

  function FilteredInmates(inmates: seq<Inmate>): seq<Inmate> {
    Seqs.Filter(inmates, (i: Inmate) => InmateShown(i, InmateSearch))
  }

  /** Since the inmate search is always empty, the select offers every inmate, in order. */
  lemma FilteredInmatesKeepsAll(inmates: seq<Inmate>)
    ensures FilteredInmates(inmates) == inmates
  {
    forall k | 0 <= k < |inmates|
      ensures InmateShown(inmates[k], InmateSearch)
    {
      EmptyIsEverywhere(inmates[k].name);
    }
    Seqs.FilterAll(inmates, (i: Inmate) => InmateShown(i, InmateSearch));
  }

  // ----- loading a page of vouchers -----

  datatype Meta = Meta(total: int, totalPages: int, page: int)

  /** The body of `GET /quotas`; `success: false` carries no data. */
  datatype ListBody = ListBody(success: bool, data: seq<Voucher>, meta: Meta)

  /** How a `fetchVouchers` run ends. */
  datatype LoadOutcome = SessionExpired | LoadFailed | Loaded(data: seq<Voucher>, meta: Meta)

  /**
   * `fetchVouchers`' reading of the reply: a 401 means the session expired, any
   * other status outside 2xx, a body that is not JSON, a network error and
   * `success: false` are failures; otherwise the data and the paging metadata.
   */
  function LoadOutcomeOf(reply: Http.Reply<ListBody>): (r: LoadOutcome)
    ensures r.SessionExpired? <==> reply.Answer? && reply.response.status == Http.Unauthorized
    ensures r.Loaded? <==>
      reply.Answer? && reply.response.Ok() && reply.response.body.Some? && reply.response.body.value.success
    ensures r.Loaded? ==> r.data == reply.response.body.value.data && r.meta == reply.response.body.value.meta
  {
    match reply
    case NetworkError => LoadFailed
    case Answer(resp) =>
      if resp.status == Http.Unauthorized then SessionExpired
      else if !resp.Ok() then LoadFailed
      else match resp.body
        case None => LoadFailed
        case Some(b) => if b.success then Loaded(b.data, b.meta) else LoadFailed
  }

  /** The server-paged part of the page's state: the vouchers shown and the paging metadata. */
  datatype Listing = Listing(vouchers: seq<Voucher>, totalItems: int, totalPages: int, currentPage: int)

  /**
   * What `fetchVouchers` makes of the listing: a loaded reply replaces the
   * vouchers and all three paging figures with the server's; a 401 or any
   * other failure keeps them.
   */
  function AfterLoad(l: Listing, o: LoadOutcome): (r: Listing)
    ensures o.Loaded? ==>
      r.vouchers == o.data && r.totalItems == o.meta.total && r.totalPages == o.meta.totalPages &&
      r.currentPage == o.meta.page
    ensures !o.Loaded? ==> r == l
  {
    match o
    case Loaded(data, meta) => Listing(data, meta.total, meta.totalPages, meta.page)
    case _ => l
  }

  /** The routes `fetchVouchers` navigates to: only a 401 sends the user to sign in. */
  function LoadNavigations(o: LoadOutcome): (r: seq<string>)
    ensures |r| <= 1
    ensures r == ["/signin"] <==> o.SessionExpired?
  {
    if o.SessionExpired? then ["/signin"] else []
  }

  /** A loaded reply decides the whole listing, whatever was shown before it. */
  lemma LoadedListingForgetsThePast(a: Listing, b: Listing, reply: Http.Reply<ListBody>)
    requires reply.Answer? && reply.response.Ok() && reply.response.body.Some? && reply.response.body.value.success
    ensures AfterLoad(a, LoadOutcomeOf(reply)) == AfterLoad(b, LoadOutcomeOf(reply))
    ensures AfterLoad(a, LoadOutcomeOf(reply)).vouchers == reply.response.body.value.data
  {
  }

  /** The query string of `GET /quotas?page=…&limit=…`. */
  datatype Query = Query(page: int, limit: int)

  // ----- generating a voucher -----

  /** What the POST to `/quotas/generate` carries: `notes` only when something besides white space was typed. */
  datatype GenerateRequest = GenerateRequest(inmateId: string, minutes: Num, notes: Option<string>)

  /** The success modal's contents. */
  datatype Receipt = Receipt(
    redemptionCode: string, purchasedMinutes: int, inmateName: string, inmateNumber: string,
    prisonCode: string, prisonName: string, expiresInDays: int)

  /** The body of the generate reply; a successful one without data makes the handler throw. */
  datatype GenerateBody = GenerateBody(success: bool, data: Option<Receipt>)

  /** `!selectedInmate || !minutes`: the guard that sends nothing. */
  predicate CanGenerate(selected: Option<Inmate>, minutes: string) {
    selected.Some? && minutes != ""
  }

  function GenerateRequestOf(selected: Inmate, minutes: string, notes: string): (r: GenerateRequest)
    ensures r.inmateId == selected.id && r.minutes == ToNumber(minutes)
    ensures r.notes.None? <==> IsBlank(notes)
    ensures r.notes.Some? ==> r.notes.value == Trim(notes)
  {
    TrimFacts(notes);
    GenerateRequest(selected.id, ToNumber(minutes), NonBlank(notes))
  }

  /** The receipt of a generate reply that succeeded, whatever its status; None for every failure. */
  function ReceiptOf(reply: Http.Reply<GenerateBody>): (r: Option<Receipt>)
    ensures r.Some? <==>
      reply.Answer? && reply.response.body.Some? && reply.response.body.value.success &&
      reply.response.body.value.data.Some?
    ensures r.Some? ==> r.value == reply.response.body.value.data.value
  {
    match reply
    case NetworkError => None
    case Answer(resp) =>
      if resp.body.Some? && resp.body.value.success then resp.body.value.data else None
  }

  class Page {
    var vouchers: seq<Voucher>
    var totalItems: int
    var totalPages: int
    var currentPage: int
    var itemsPerPage: int
    var filters: Filters
    var drawerOpen: bool
    var selectedInmate: Option<Inmate>
    var minutes: string
    var notes: string
    var receipt: Option<Receipt>
    /** The voucher queries sent, in order. */
    var queries: seq<Query>
    /** The generate requests sent, in order. */
    var generated: seq<GenerateRequest>
    /** The routes navigated to, in order. */
    var navigations: seq<string>

    /** The page as it mounts, before its first load. */
    constructor ()
      ensures vouchers == [] && totalItems == 0 && totalPages == 1 && currentPage == 1 && itemsPerPage == 20
      ensures filters == NoFilters && !drawerOpen && selectedInmate == None && minutes == "" && notes == ""
      ensures receipt == None && queries == [] && generated == [] && navigations == []
    {
      vouchers := [];
      totalItems := 0;
      totalPages := 1;
      currentPage := 1;
      itemsPerPage := 20;
      filters := NoFilters;
      drawerOpen := false;
      selectedInmate := None;
      minutes := "";
      notes := "";
      receipt := None;
      queries := [];
      generated := [];
      navigations := [];
    }

    /** The listing part of the state. */
    function Listed(): Listing
      reads this
    {
      Listing(vouchers, totalItems, totalPages, currentPage)
    }

    /** The generate form, the receipt and the log of generate requests are as they were. */
    twostate predicate FormKept()
      reads this
    {
      drawerOpen == old(drawerOpen) && selectedInmate == old(selectedInmate) && minutes == old(minutes) &&
      notes == old(notes) && receipt == old(receipt) && generated == old(generated)
    }

    /**
     * `fetchVouchers(page)`: one query with the current page size; a loaded
     * reply replaces the vouchers and the paging state with the server's, a
     * 401 navigates to the sign-in page, and every other failure changes nothing.
     */
    method FetchVouchers(page: int, reply: Http.Reply<ListBody>)
      modifies this`queries, this`vouchers, this`totalItems, this`totalPages, this`currentPage, this`navigations
      ensures queries == old(queries) + [Query(page, old(itemsPerPage))]
      ensures Listed() == AfterLoad(old(Listed()), LoadOutcomeOf(reply))
      ensures navigations == old(navigations) + LoadNavigations(LoadOutcomeOf(reply))
      ensures itemsPerPage == old(itemsPerPage) && filters == old(filters)
    {
      queries := queries + [Query(page, itemsPerPage)];
      var outcome := LoadOutcomeOf(reply);
      if outcome.Loaded? {
        vouchers, totalItems, totalPages, currentPage := outcome.data, outcome.meta.total, outcome.meta.totalPages, outcome.meta.page;
      }
      navigations := navigations + LoadNavigations(outcome);
    }

    /**
     * `handleGenerate`: without an inmate and a duration nothing is sent. Otherwise
     * one request is sent; a successful reply shows the receipt, reloads page 1
     * (answered by `reload`), clears the inmate, the minutes and the notes, and
     * closes the drawer. A failed one leaves everything as it was.
     */
    method HandleGenerate(reply: Http.Reply<GenerateBody>, reload: Http.Reply<ListBody>) returns (sent: bool, ok: bool)
      modifies this`generated, this`receipt, this`selectedInmate, this`minutes, this`notes, this`drawerOpen
      modifies this`queries, this`vouchers, this`totalItems, this`totalPages, this`currentPage, this`navigations
      ensures sent == CanGenerate(old(selectedInmate), old(minutes))
      ensures !sent ==> generated == old(generated)
      ensures sent ==> generated == old(generated) + [GenerateRequestOf(old(selectedInmate).value, old(minutes), old(notes))]
      ensures ok <==> sent && ReceiptOf(reply).Some?
      ensures ok ==>
        receipt == ReceiptOf(reply) && selectedInmate == None && minutes == "" && notes == "" && !drawerOpen &&
        queries == old(queries) + [Query(1, old(itemsPerPage))] &&
        Listed() == AfterLoad(old(Listed()), LoadOutcomeOf(reload)) &&
        navigations == old(navigations) + LoadNavigations(LoadOutcomeOf(reload))
      ensures !ok ==>
        receipt == old(receipt) && selectedInmate == old(selectedInmate) && minutes == old(minutes) &&
        notes == old(notes) && drawerOpen == old(drawerOpen) && queries == old(queries) &&
        Listed() == old(Listed()) && navigations == old(navigations)
      ensures filters == old(filters) && itemsPerPage == old(itemsPerPage)
    {
      if !CanGenerate(selectedInmate, minutes) {
        sent, ok := false, false;
        return;
      }
      sent := true;
      generated := generated + [GenerateRequestOf(selectedInmate.value, minutes, notes)];
      var r := ReceiptOf(reply);
      if r.None? {
        ok := false;
        return;
      }
      ok := true;
      ShowReceipt(r, reload);
    }

    /** The success branch of `handleGenerate`: the receipt, the reload of page 1, and a cleared, closed form. */
    method ShowReceipt(r: Option<Receipt>, reload: Http.Reply<ListBody>)
      modifies this`receipt, this`selectedInmate, this`minutes, this`notes, this`drawerOpen
      modifies this`queries, this`vouchers, this`totalItems, this`totalPages, this`currentPage, this`navigations
      ensures receipt == r && selectedInmate == None && minutes == "" && notes == "" && !drawerOpen
      ensures queries == old(queries) + [Query(1, itemsPerPage)]
      ensures Listed() == AfterLoad(old(Listed()), LoadOutcomeOf(reload))
      ensures navigations == old(navigations) + LoadNavigations(LoadOutcomeOf(reload))
    {
      receipt := r;
      FetchVouchers(1, reload);
      selectedInmate := None;
      minutes := "";
      notes := "";
      drawerOpen := false;
    }

    /** A change to one of the filter inputs; the page number goes back to 1 and nothing is fetched. */
    method SetFilters(fl: Filters)
      modifies this`filters, this`currentPage
      ensures filters == fl && currentPage == 1
    {
      filters := fl;
      currentPage := 1;
    }

    /** `resetFilters`: all four filters cleared, page 1, and page 1 fetched again. */
    method ResetFilters(reply: Http.Reply<ListBody>)
      modifies this
      ensures filters == NoFilters && itemsPerPage == old(itemsPerPage)
      ensures queries == old(queries) + [Query(1, old(itemsPerPage))]
      ensures Listed() == AfterLoad(old(Listed()).(currentPage := 1), LoadOutcomeOf(reply))
      ensures navigations == old(navigations) + LoadNavigations(LoadOutcomeOf(reply))
      ensures FormKept()
    {
      filters := NoFilters;
      currentPage := 1;
      FetchVouchers(1, reply);
    }

    /**
     * `handlePageSizeChange`: the new size and page 1. The reload is the effect
     * that watches the page size, so it runs only when the size really changes.
     */
    method SetPageSize(size: int, reply: Http.Reply<ListBody>)
      modifies this
      ensures itemsPerPage == size && filters == old(filters) && FormKept()
      ensures size == old(itemsPerPage) ==>
        queries == old(queries) && Listed() == old(Listed()).(currentPage := 1) && navigations == old(navigations)
      ensures size != old(itemsPerPage) ==>
        queries == old(queries) + [Query(1, size)] &&
        Listed() == AfterLoad(old(Listed()).(currentPage := 1), LoadOutcomeOf(reply)) &&
        navigations == old(navigations) + LoadNavigations(LoadOutcomeOf(reply))
    {
      var changed := size != itemsPerPage;
      itemsPerPage := size;
      currentPage := 1;
      if changed {
        FetchVouchers(1, reply);
      }
    }

    /** The previous button asks the server for the page before; it is disabled on page 1. */
    method GoBack(reply: Http.Reply<ListBody>)
      modifies this
      ensures old(currentPage) == 1 ==>
        queries == old(queries) && Listed() == old(Listed()) && navigations == old(navigations)
      ensures old(currentPage) != 1 ==>
        queries == old(queries) + [Query(old(currentPage) - 1, old(itemsPerPage))] &&
        Listed() == AfterLoad(old(Listed()), LoadOutcomeOf(reply)) &&
        navigations == old(navigations) + LoadNavigations(LoadOutcomeOf(reply))
      ensures filters == old(filters) && itemsPerPage == old(itemsPerPage) && FormKept()
    {
      if currentPage != 1 {
        FetchVouchers(currentPage - 1, reply);
      }
    }

    /** The next button asks for the page after; it is disabled on the server's last page. */
    method GoForward(reply: Http.Reply<ListBody>)
      modifies this
      ensures old(currentPage) == old(totalPages) ==>
        queries == old(queries) && Listed() == old(Listed()) && navigations == old(navigations)
      ensures old(currentPage) != old(totalPages) ==>
        queries == old(queries) + [Query(old(currentPage) + 1, old(itemsPerPage))] &&
        Listed() == AfterLoad(old(Listed()), LoadOutcomeOf(reply)) &&
        navigations == old(navigations) + LoadNavigations(LoadOutcomeOf(reply))
      ensures filters == old(filters) && itemsPerPage == old(itemsPerPage) && FormKept()
    {
      if currentPage != totalPages {
        FetchVouchers(currentPage + 1, reply);
      }
    }
  }
}
