/**
 * The list operations every record page shares: the submit that either replaces
 * the record being edited or puts a new one in front, the `map` that changes the
 * records with one id, and the `slice` that picks the rows of the current page.
 */
module Table {
  import opened Wrappers
  import Seqs

  /** The ACTIVE / INACTIVE status the record pages show and toggle. */
  datatype Status = Active | Inactive {
    function Name(): string {
      if Active? then "ACTIVE" else "INACTIVE"
    }

    /** `status === "ACTIVE" ? "INACTIVE" : "ACTIVE"`. */
    function Flipped(): (r: Status)
      ensures r != this
    {
      if Active? then Inactive else Active
    }
  }

  /** A status select: empty means "any status", otherwise the status with that name. */
  predicate StatusMatches(filter: string, s: Status) {
    filter == "" || s.Name() == filter
  }

  /** `rs.map(x => matches(x) ? f(x) : x)`. */
  function MapWhere<T>(rs: seq<T>, matches: T -> bool, f: T -> T): (out: seq<T>)
    ensures |out| == |rs|
    ensures forall i :: 0 <= i < |rs| && matches(rs[i]) ==> out[i] == f(rs[i])
    ensures forall i :: 0 <= i < |rs| && !matches(rs[i]) ==> out[i] == rs[i]
  {
    if rs == [] then []
    else [if matches(rs[0]) then f(rs[0]) else rs[0]] + MapWhere(rs[1..], matches, f)
  }

  /** Mapping twice with `f` and then `g` restores the list when `g` undoes `f` on every matching element. */
  lemma MapWhereTwice<T>(rs: seq<T>, m: T -> bool, f: T -> T, g: T -> T)
    requires forall i :: 0 <= i < |rs| && m(rs[i]) ==> m(f(rs[i])) && g(f(rs[i])) == rs[i]
    ensures MapWhere(MapWhere(rs, m, f), m, g) == rs
  {
    var r := MapWhere(MapWhere(rs, m, f), m, g);
    assert forall i :: 0 <= i < |rs| ==> r[i] == rs[i];
  }

  /**
   * The list a submit handler stores: while `editingId` names the record being
   * edited, `rs.map(x => x.id === editingId ? r : x)`; otherwise `[r, ...rs]`.
   */
  function Save<T>(rs: seq<T>, editingId: Option<string>, id: T -> string, r: T): (out: seq<T>)
    ensures editingId.Some? ==> |out| == |rs|
    ensures editingId.Some? ==> forall i :: 0 <= i < |rs| && id(rs[i]) == editingId.value ==> out[i] == r
    ensures editingId.Some? ==> forall i :: 0 <= i < |rs| && id(rs[i]) != editingId.value ==> out[i] == rs[i]
    ensures editingId.None? ==> |out| == |rs| + 1 && out[0] == r && out[1..] == rs
  {
    match editingId
    case Some(e) => MapWhere(rs, x => id(x) == e, _ => r)
    case None => [r] + rs
  }

  /**
   * When ids are unique and the edited id occurs at index `k`, an edit is a
   * single-slot update: the list is `rs[k := r]`, so its multiset loses exactly
   * the old record and gains exactly the new one.
   */
  lemma {:induction false} EditIsUpdateAt<T>(rs: seq<T>, id: T -> string, k: int, r: T)
    requires Seqs.DistinctBy(rs, id) && 0 <= k < |rs|
    ensures Save(rs, Some(id(rs[k])), id, r) == rs[k := r]
    ensures multiset(Save(rs, Some(id(rs[k])), id, r)) == multiset(rs) - multiset{rs[k]} + multiset{r}
  {
    var out := Save(rs, Some(id(rs[k])), id, r);
    forall i | 0 <= i < |rs|
      ensures out[i] == rs[k := r][i]
    {
      if i != k {
        assert id(rs[i]) != id(rs[k]);
      }
    }
    assert out == rs[k := r];
    assert rs == rs[..k] + [rs[k]] + rs[k + 1..];
    assert rs[k := r] == rs[..k] + [r] + rs[k + 1..];
  }

  /** An edit whose id matches no record leaves the list as it was. */
  lemma EditOfMissingIdIsNoOp<T>(rs: seq<T>, id: T -> string, e: string, r: T)
    requires forall i :: 0 <= i < |rs| ==> id(rs[i]) != e
    ensures Save(rs, Some(e), id, r) == rs
  {
  }

  // ----- pagination -----

  /** How `Array.prototype.slice` reads an index: negative counts from the end, and the result is clamped to `[0, n]`. */
  function SliceIndex(i: int, n: nat): (k: nat)
    ensures k <= n
    ensures 0 <= i <= n ==> k == i
    ensures i > n ==> k == n
    ensures i < 0 ==> k == if n + i < 0 then 0 else n + i
  {
    if i < 0 then (if n + i < 0 then 0 else n + i) else if i > n then n else i
  }

  /** `s.slice(start, end)`. */
  function Slice<T>(s: seq<T>, start: int, end: int): (r: seq<T>)
  {
    var a := SliceIndex(start, |s|);
    var b := SliceIndex(end, |s|);
    if a < b then s[a..b] else []
  }

  /** `(page - 1) * perPage`: the index of a page's first row. */
  function PageStart(page: int, perPage: int): int {
    (page - 1) * perPage
  }

  /** `s.slice((page - 1) * perPage, page * perPage)`: the rows the table shows. */
  function Page<T>(s: seq<T>, page: int, perPage: int): seq<T> {
    Slice(s, PageStart(page, perPage), page * perPage)
  }

  /** `Math.ceil(n / perPage)`. */
  function TotalPages(n: nat, perPage: int): (t: nat)
    requires perPage > 0
    ensures n == 0 <==> t == 0
    ensures (t - 1) * perPage < n <= t * perPage || t == 0
  {
    (n + perPage - 1) / perPage
  }

  /**
   * For a page from 1 on, the page is the window of at most `perPage` rows
   * starting at `(page - 1) * perPage`, cut short only by the end of the list.
   */
  lemma PageWindow<T>(s: seq<T>, page: int, perPage: int)
    requires page >= 1 && perPage >= 1
    ensures var start := PageStart(page, perPage);
      var r := Page(s, page, perPage);
      |r| <= perPage &&
      |r| == (if start >= |s| then 0 else if |s| - start < perPage then |s| - start else perPage) &&
      forall i :: 0 <= i < |r| ==> r[i] == s[start + i]
  {
    var start := (page - 1) * perPage;
    assert start >= 0 by { MulNonNegative(page - 1, perPage); }
    assert page * perPage == start + perPage;
  }

  lemma MulNonNegative(a: int, b: int)
    requires a >= 0 && b >= 0
    ensures a * b >= 0
  {
  }

  /** Every row is shown, at position `i % perPage`, on page `i / perPage + 1`. */
  lemma EveryRowHasAPage<T>(s: seq<T>, perPage: int, i: int)
    requires perPage >= 1 && 0 <= i < |s|
    ensures var p := i / perPage + 1;
      1 <= p <= TotalPages(|s|, perPage) &&
      i % perPage < |Page(s, p, perPage)| && Page(s, p, perPage)[i % perPage] == s[i]
  {
    var p := i / perPage + 1;
    var start := (p - 1) * perPage;
    assert start + i % perPage == i;
    PageWindow(s, p, perPage);
    var t := TotalPages(|s|, perPage);
    if p > t {
      assert start >= t * perPage by { MulMonotone(t, p - 1, perPage); }
      assert false;
    }
  }

  lemma MulMonotone(a: int, b: int, c: int)
    requires 0 <= a <= b && c >= 0
    ensures a * c <= b * c
  {
  }

  /** The pages from 1 to `TotalPages` are exactly the ones that show a row. */
  lemma PageNonEmptyIffInRange<T>(s: seq<T>, page: int, perPage: int)
    requires page >= 1 && perPage >= 1
    ensures Page(s, page, perPage) != [] <==> page <= TotalPages(|s|, perPage)
  {
    PageWindow(s, page, perPage);
    var t := TotalPages(|s|, perPage);
    var start := (page - 1) * perPage;
    if page <= t {
      assert start <= (t - 1) * perPage by { MulMonotone(page - 1, t - 1, perPage); }
    } else {
      assert start >= t * perPage by { MulMonotone(t, page - 1, perPage); }
    }
  }

  /** The "previous" button: `page - 1`, disabled (so the page stays) on page 1. */
  function StepBack(page: int): int {
    if page == 1 then page else page - 1
  }

  /** The "next" button: `page + 1`, disabled (so the page stays) on the last page. */
  function StepForward(page: int, totalPages: int): int {
    if page == totalPages then page else page + 1
  }

  /** The buttons that are disabled at the ends keep a page in `[1, totalPages]` there. */
  lemma StepsStayInRange(page: int, totalPages: int)
    requires 1 <= page <= totalPages
    ensures 1 <= StepBack(page) <= totalPages
    ensures 1 <= StepForward(page, totalPages) <= totalPages
    ensures StepBack(page) == page <==> page == 1
    ensures StepForward(page, totalPages) == page <==> page == totalPages
  {
  }

  /** `Math.max(1, page - 1)`. */
  function ClampedBack(page: int): (p: int)
    ensures p >= 1
    ensures page > 1 ==> p == page - 1
  {
    if page - 1 > 1 then page - 1 else 1
  }

  /** `Math.min(totalPages, page + 1)`. */
  function ClampedForward(page: int, totalPages: int): (p: int)
    ensures p <= totalPages
    ensures page < totalPages ==> p == page + 1
  {
    if page + 1 < totalPages then page + 1 else totalPages
  }
}
