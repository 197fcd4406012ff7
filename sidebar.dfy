/**
 * The side navigation: menu entries hidden by role, parents hidden when none
 * of their sub-entries is visible, the active entry found by exact path, and
 * the submenu that opens by itself when one of its entries is the current page.
 */
module Sidebar {
  import opened Wrappers
  import opened Text
  import Seqs

  datatype SubItem = SubItem(name: string, path: string, roles: Option<seq<string>>)

  datatype NavItem = NavItem(name: string, path: Option<string>, roles: Option<seq<string>>, subItems: Option<seq<SubItem>>)

  /** The user object parsed from storage, as far as the menu reads it. */
  datatype StoredUser = StoredUser(role: Option<string>)

  /** The menu as shipped: nine plain links, none restricted by role, none with sub-entries. */
  const AllNavItems: seq<NavItem> := [
    NavItem("Halaman Utama", Some("/"), None, None),
    NavItem("Penjualan", Some("/penjualan"), None, None),
    NavItem("Produk", Some("/manajemen-produk"), None, None),
    NavItem("Kategori", Some("/manajemen-kategori"), None, None),
    NavItem("Satuan", Some("/manajemen-satuan"), None, None),
    NavItem("Pelanggan", Some("/pelanggan"), None, None),
    NavItem("Laporan", Some("/laporan"), None, None),
    NavItem("Pegawai", Some("/manajemen-pegawai"), None, None),
    NavItem("Profil Akun", Some("/profile"), None, None)
  ]

  const DefaultRole := "ADMIN"

  /** `(currentUser?.role || "ADMIN").toUpperCase()`: no user, no role or an empty role fall back to ADMIN. */
  function NormalizedRole(user: Option<StoredUser>): (r: string)
    ensures user.None? || user.value.role.None? || user.value.role.value == "" ==> r == ToUpper(DefaultRole)
    ensures user.Some? && user.value.role.Some? && user.value.role.value != "" ==> r == ToUpper(user.value.role.value)
  {
    if user.Some? && user.value.role.Some? && user.value.role.value != "" then ToUpper(user.value.role.value)
    else ToUpper(DefaultRole)
  }

  /** The role test shared by entries and sub-entries: no list admits everyone, a list admits its roles in any case. */
  predicate Admits(roles: Option<seq<string>>, userRole: string) {
    roles.None? || exists i :: 0 <= i < |roles.value| && ToUpper(roles.value[i]) == userRole
  }

  predicate NavAdmits(userRole: string, item: NavItem) {
    Admits(item.roles, userRole)
  }

  /** `filteredNavItems`. */
  function FilteredNavItems(items: seq<NavItem>, userRole: string): seq<NavItem> {
    Seqs.Filter(items, (item: NavItem) => NavAdmits(userRole, item))
  }

  /**
   * The visible entries keep their order; an entry without a role list is
   * always among them, and one with a list is among them exactly when one of
   * its roles, upper-cased, is the user's role.
   */
  lemma FilteredNavItemsMeaning(items: seq<NavItem>, userRole: string, item: NavItem)
    ensures Seqs.IsSubsequence(FilteredNavItems(items, userRole), items)
    ensures item in FilteredNavItems(items, userRole) <==>
      item in items &&
      (item.roles.None? || exists i :: 0 <= i < |item.roles.value| && ToUpper(item.roles.value[i]) == userRole)
  {
    Seqs.FilterMembership(items, (x: NavItem) => NavAdmits(userRole, x), item);
  }

  /** A role written in any case admits the same user: it is compared upper-cased on both sides. */
  lemma RoleCaseDoesNotMatter(role: string, user: Option<StoredUser>)
    requires user.Some? && user.value.role.Some? && user.value.role.value != ""
    requires ToUpper(role) == ToUpper(user.value.role.value)
    ensures Admits(Some([role]), NormalizedRole(user))
  {
    assert ToUpper([role][0]) == NormalizedRole(user);
  }

  predicate SubAdmits(userRole: string, sub: SubItem) {
    Admits(sub.roles, userRole)
  }

  /** `nav.subItems?.filter(...)`: None for an entry without sub-entries. */
  function VisibleSubItems(item: NavItem, userRole: string): (r: Option<seq<SubItem>>)
    ensures r.Some? <==> item.subItems.Some?
    ensures r.Some? ==> Seqs.IsSubsequence(r.value, item.subItems.value)
  {
    if item.subItems.Some? then Some(Seqs.Filter(item.subItems.value, (s: SubItem) => SubAdmits(userRole, s))) else None
  }

  /** An entry is drawn unless it is a parent with no visible sub-entry. */
  predicate Rendered(userRole: string, item: NavItem) {
    item.subItems.None? || |VisibleSubItems(item, userRole).value| > 0
  }

  /** A parent all of whose sub-entries are hidden by role is not drawn; a plain link always is. */
  lemma HiddenParentNotRendered(item: NavItem, userRole: string)
    requires item.subItems.Some?
    requires forall j :: 0 <= j < |item.subItems.value| ==> !SubAdmits(userRole, item.subItems.value[j])
    ensures !Rendered(userRole, item)
  {
    var subs := item.subItems.value;
    var r := VisibleSubItems(item, userRole).value;
    if |r| > 0 {
      Seqs.FilterMembership(subs, (s: SubItem) => SubAdmits(userRole, s), r[0]);
    }
  }

  /** An entry with neither a role list nor sub-entries. */
  predicate Plain(item: NavItem) {
    item.roles.None? && item.subItems.None?
  }

  /** A menu of plain entries is shown whole, in order, to every user. */
  lemma PlainMenuShowsEverything(items: seq<NavItem>, userRole: string)
    requires forall i :: 0 <= i < |items| ==> Plain(items[i])
    ensures FilteredNavItems(items, userRole) == items
    ensures forall i :: 0 <= i < |items| ==> Rendered(userRole, items[i])
  {
    Seqs.FilterAll(items, (item: NavItem) => NavAdmits(userRole, item));
  }

  /** With the menu as shipped, every user sees all nine entries, in order. */
  lemma ShippedMenuShowsEverything(userRole: string)
    ensures FilteredNavItems(AllNavItems, userRole) == AllNavItems
    ensures forall i :: 0 <= i < |AllNavItems| ==> Rendered(userRole, AllNavItems[i])
  {
    ShippedMenuIsPlain();
    PlainMenuShowsEverything(AllNavItems, userRole);
  }

  lemma ShippedMenuIsPlain()
    ensures forall i :: 0 <= i < |AllNavItems| ==> Plain(AllNavItems[i])
  {
  }

  /** `isActive(path)`: the path is the location's exact path name. */
  predicate IsActive(pathname: string, path: string) {
    pathname == path
  }

  /** Some sub-entry of the item (visible or not) is the current page. */
  predicate HasActiveSub(item: NavItem, pathname: string) {
    item.subItems.Some? && exists j :: 0 <= j < |item.subItems.value| && IsActive(pathname, item.subItems.value[j].path)
  }

  /** The name the auto-open scan settles on: that of the last entry with an active sub-entry. */
  function LastMatch(items: seq<NavItem>, pathname: string): (r: Option<string>)
    ensures r.Some? <==> exists i :: 0 <= i < |items| && HasActiveSub(items[i], pathname)
  {
    if items == [] then None
    else if HasActiveSub(items[|items| - 1], pathname) then Some(items[|items| - 1].name)
    else
      var r := LastMatch(items[..|items| - 1], pathname);
      assert forall i :: 0 <= i < |items| - 1 ==> items[..|items| - 1][i] == items[i];
      r
  }

  /** The name found is that of an entry with an active sub-entry after which no entry has one. */
  lemma {:induction false} LastMatchIsLast(items: seq<NavItem>, pathname: string)
    requires LastMatch(items, pathname).Some?
    ensures exists i ::
              0 <= i < |items| && HasActiveSub(items[i], pathname) &&
              items[i].name == LastMatch(items, pathname).value && NoActiveSubAfter(items, i, pathname)
  {
    var n := |items| - 1;
    if HasActiveSub(items[n], pathname) {
      assert NoActiveSubAfter(items, n, pathname);
    } else {
      var front := items[..n];
      LastMatchIsLast(front, pathname);
      var i :| 0 <= i < |front| && HasActiveSub(front[i], pathname) &&
        front[i].name == LastMatch(front, pathname).value && NoActiveSubAfter(front, i, pathname);
      assert front[i] == items[i];
      assert NoActiveSubAfter(items, i, pathname);
    }
  }

  predicate NoActiveSubAfter(items: seq<NavItem>, i: int, pathname: string) {
    forall k :: 0 <= k < |items| && i < k ==> !HasActiveSub(items[k], pathname)
  }

  /** The scan of the auto-open effect: every entry, and every sub-entry of it, in order. */
  method MatchedSubmenu(items: seq<NavItem>, pathname: string) returns (matched: Option<string>)
    ensures matched == LastMatch(items, pathname)
  {
    matched := None;
    var i := 0;
    while i < |items|
      invariant 0 <= i <= |items|
      invariant matched == LastMatch(items[..i], pathname)
    {
      var nav := items[i];
      if nav.subItems.Some? {
        var subs := nav.subItems.value;
        var k := 0;
        while k < |subs|
          invariant 0 <= k <= |subs|
          invariant (exists j :: 0 <= j < k && IsActive(pathname, subs[j].path)) ==> matched == Some(nav.name)
          invariant !(exists j :: 0 <= j < k && IsActive(pathname, subs[j].path)) ==> matched == LastMatch(items[..i], pathname)
        {
          if IsActive(pathname, subs[k].path) {
            matched := Some(nav.name);
          }
          k := k + 1;
        }
      }
      assert items[..i + 1][..i] == items[..i];
      i := i + 1;
    }
    assert items[..|items|] == items;
  }

  /** `toggleSubmenu(name)`: the same name again closes it, another name opens that one. */
  function ToggleSubmenu(open: Option<string>, name: string): Option<string> {
    if open == Some(name) then None else Some(name)
  }

  /**
   * The auto-open effect's decision: a matched entry not already open is
   * toggled (so opened), and without a match an open submenu is toggled (so
   * closed). Names are judged by truthiness, so an empty name counts as none.
   */
  function AutoOpened(open: Option<string>, matched: Option<string>): (r: Option<string>)
    ensures matched.Some? && matched.value != "" ==> r == matched
    ensures (matched.None? || matched.value == "") && open.Some? && open.value != "" ==> r == None
    ensures (matched.None? || matched.value == "") && (open.None? || open.value == "") ==> r == open
  {
    if matched.Some? && matched.value != "" && open != matched then ToggleSubmenu(open, matched.value)
    else if (matched.None? || matched.value == "") && open.Some? && open.value != "" then ToggleSubmenu(open, open.value)
    else open
  }

  /** With the shipped menu nothing ever matches, so the effect closes any open submenu. */
  lemma ShippedMenuClosesSubmenus(open: Option<string>, pathname: string, userRole: string)
    ensures LastMatch(FilteredNavItems(AllNavItems, userRole), pathname) == None
    ensures open.Some? && open.value != "" ==> AutoOpened(open, None) == None
  {
    ShippedMenuShowsEverything(userRole);
    ShippedMenuIsPlain();
    assert forall i :: 0 <= i < |AllNavItems| ==> !HasActiveSub(AllNavItems[i], pathname);
  }

  /** The sidebar state the component reads from its context, and the location. */
  class State {
    var isExpanded: bool
    var isMobileOpen: bool
    var isHovered: bool
    var openSubmenu: Option<string>
    var pathname: string

    constructor (expanded: bool, mobileOpen: bool, hovered: bool, open: Option<string>, path: string)
      ensures isExpanded == expanded && isMobileOpen == mobileOpen && isHovered == hovered
      ensures openSubmenu == open && pathname == path
    {
      isExpanded := expanded;
      isMobileOpen := mobileOpen;
      isHovered := hovered;
      openSubmenu := open;
      pathname := path;
    }

    /** `handleMenuClick`: an open mobile sidebar closes, and a collapsed sidebar stops being hovered. */
    method HandleMenuClick()
      modifies this`isMobileOpen, this`isHovered
      ensures !isMobileOpen
      ensures isHovered == (old(isHovered) && isExpanded)
    {
      if isMobileOpen {
        isMobileOpen := !isMobileOpen;
      }
      if !isExpanded && isHovered {
        isHovered := false;
      }
    }

    /** The auto-open effect over the visible entries. */
    method AutoOpenEffect(userRole: string)
      modifies this`openSubmenu
      ensures openSubmenu == AutoOpened(old(openSubmenu), LastMatch(FilteredNavItems(AllNavItems, userRole), pathname))
    {
      var matched := MatchedSubmenu(FilteredNavItems(AllNavItems, userRole), pathname);
      if matched.Some? && matched.value != "" && openSubmenu != matched {
        openSubmenu := ToggleSubmenu(openSubmenu, matched.value);
      } else if (matched.None? || matched.value == "") && openSubmenu.Some? && openSubmenu.value != "" {
        openSubmenu := ToggleSubmenu(openSubmenu, openSubmenu.value);
      }
    }
  }
}
