/**
 * The per-province chart: the prisons are grouped by province (a prison with
 * no province goes to "Tidak Diketahui"), each group counts its prisons and
 * sums their inmates and officers, and the groups are sorted by the sum of
 * the three, largest first.
 */
module StatisticsChart {
  import opened Wrappers
  import opened Lapas
  import Seqs
  import Http

  const UnknownProvince := "Tidak Diketahui"

  /** `p.province || "Tidak Diketahui"`: a missing or empty province is the unknown one. */
  function ProvinceOf(p: PrisonRecord): (k: string)
    ensures k != ""
    ensures p.province.Some? && p.province.value != "" ==> k == p.province.value
    ensures p.province.None? || p.province.value == "" ==> k == UnknownProvince
  {
    if p.province.Some? && p.province.value != "" then p.province.value else UnknownProvince
  }

  /** One bar group of the chart. */
  datatype ProvinceData = ProvinceData(province: string, prisons: int, inmates: int, officers: int)

  function RowPrisons(d: ProvinceData): int { d.prisons }
  function RowInmates(d: ProvinceData): int { d.inmates }
  function RowOfficers(d: ProvinceData): int { d.officers }
  function RowProvince(d: ProvinceData): string { d.province }

  /** The sort key: `inmates + officers + prisons`. */
  function Weight(d: ProvinceData): int { d.inmates + d.officers + d.prisons }

  // ----- the specification of a group -----

  /** The prisons of province `k` among the first `n`, in their original order. */
  function InProvince(prisons: seq<PrisonRecord>, n: nat, k: string): seq<PrisonRecord>
    requires n <= |prisons|
  {
    if n == 0 then []
    else InProvince(prisons, n - 1, k) + (if ProvinceOf(prisons[n - 1]) == k then [prisons[n - 1]] else [])
  }

  /** A prison of province `k` among the first `n` is in that province's group... */
  lemma {:induction false} InProvinceHasIt(prisons: seq<PrisonRecord>, n: nat, k: string, i: int)
    requires 0 <= i < n <= |prisons| && ProvinceOf(prisons[i]) == k
    ensures prisons[i] in InProvince(prisons, n, k)
  {
    if i < n - 1 {
      InProvinceHasIt(prisons, n - 1, k, i);
    }
  }

  /** ...and the group holds nothing else. */
  lemma {:induction false} InProvinceOnlyIt(prisons: seq<PrisonRecord>, n: nat, k: string, x: PrisonRecord)
    requires n <= |prisons| && x in InProvince(prisons, n, k)
    ensures ProvinceOf(x) == k && exists i :: 0 <= i < n && prisons[i] == x
  {
    if x !in InProvince(prisons, n - 1, k) {
      assert x == prisons[n - 1];
    } else {
      InProvinceOnlyIt(prisons, n - 1, k, x);
    }
  }

  /** The row province `k` should have after the first `n` prisons: its prisons counted, their inmates and officers summed. */
  function RowOf(prisons: seq<PrisonRecord>, n: nat, k: string): ProvinceData
    requires n <= |prisons|
  {
    var ps := InProvince(prisons, n, k);
    ProvinceData(k, |ps|, Seqs.Sum(ps, InmatesOf), Seqs.Sum(ps, OfficersOf))
  }

  /** The row province `k` has once every prison is in. */
  function Row(prisons: seq<PrisonRecord>, k: string): ProvinceData {
    RowOf(prisons, |prisons|, k)
  }

  /**
   * `data` is a grouping of `prisons`: one row per province that has a prison,
   * no province twice, and each row holding that province's figures.
   */
  predicate IsGrouping(prisons: seq<PrisonRecord>, data: seq<ProvinceData>) {
    Seqs.DistinctBy(data, RowProvince) &&
    (forall j :: 0 <= j < |data| ==>
      InProvince(prisons, |prisons|, data[j].province) != [] && data[j] == Row(prisons, data[j].province)) &&
    (forall i :: 0 <= i < |prisons| ==> exists j :: 0 <= j < |data| && data[j].province == ProvinceOf(prisons[i]))
  }

  /** The rows add up to the whole list: every prison, inmate and officer is in some row, and in one only. */
  predicate AddsUp(prisons: seq<PrisonRecord>, data: seq<ProvinceData>) {
    Seqs.Sum(data, RowPrisons) == |prisons| &&
    Seqs.Sum(data, RowInmates) == Seqs.Sum(prisons, InmatesOf) &&
    Seqs.Sum(data, RowOfficers) == Seqs.Sum(prisons, OfficersOf)
  }

  /** The rows add up to the first `n` prisons. */
  predicate Conserves(prisons: seq<PrisonRecord>, n: nat, data: seq<ProvinceData>)
    requires n <= |prisons|
  {
    Seqs.Sum(data, RowPrisons) == n &&
    Seqs.Sum(data, RowInmates) == Seqs.Sum(prisons[..n], InmatesOf) &&
    Seqs.Sum(data, RowOfficers) == Seqs.Sum(prisons[..n], OfficersOf)
  }

  /** In a grouping, the prison at index `i` is counted in exactly one row, the one of its own province. */
  lemma EachPrisonInOneGroup(prisons: seq<PrisonRecord>, data: seq<ProvinceData>, i: int)
    requires IsGrouping(prisons, data) && 0 <= i < |prisons|
    ensures exists j ::
              0 <= j < |data| && data[j].province == ProvinceOf(prisons[i]) &&
              prisons[i] in InProvince(prisons, |prisons|, data[j].province) &&
              forall j' :: 0 <= j' < |data| && prisons[i] in InProvince(prisons, |prisons|, data[j'].province) ==> j' == j
  {
    var k := ProvinceOf(prisons[i]);
    var j :| 0 <= j < |data| && data[j].province == k;
    InProvinceHasIt(prisons, |prisons|, data[j].province, i);
    forall j' | 0 <= j' < |data| && j' != j
      ensures prisons[i] !in InProvince(prisons, |prisons|, data[j'].province)
    {
      assert RowProvince(data[j']) != RowProvince(data[j]);
      if prisons[i] in InProvince(prisons, |prisons|, data[j'].province) {
        InProvinceOnlyIt(prisons, |prisons|, data[j'].province, prisons[i]);
      }
    }
  }

  // ----- the accumulator of the reduce -----

  /**
   * `acc[prov]`: the index of the row of province `k` in the accumulator, or -1
   * when it has none. The accumulator is kept as its list of rows, in the order
   * `Object.keys` gives them back: the order their provinces first appeared.
   */
  function Find(rows: seq<ProvinceData>, k: string): (m: int)
    ensures -1 <= m < |rows|
    ensures m == -1 <==> forall j :: 0 <= j < |rows| ==> rows[j].province != k
    ensures m != -1 ==> rows[m].province == k
  {
    if rows == [] then -1
    else if rows[|rows| - 1].province == k then |rows| - 1
    else Find(rows[..|rows| - 1], k)
  }

  /** The three sums over `rows` grow by the figures of the one row appended. */
  lemma RowSumsAppend(rows: seq<ProvinceData>, d: ProvinceData)
    ensures Seqs.Sum(rows + [d], RowPrisons) == Seqs.Sum(rows, RowPrisons) + d.prisons
    ensures Seqs.Sum(rows + [d], RowInmates) == Seqs.Sum(rows, RowInmates) + d.inmates
    ensures Seqs.Sum(rows + [d], RowOfficers) == Seqs.Sum(rows, RowOfficers) + d.officers
  {
    Seqs.SumAppend(rows, [d], RowPrisons);
    Seqs.SumAppend(rows, [d], RowInmates);
    Seqs.SumAppend(rows, [d], RowOfficers);
  }

  /** The three sums over `rows` change by the difference of the one row replaced. */
  lemma RowSumsUpdate(rows: seq<ProvinceData>, m: int, d: ProvinceData)
    requires 0 <= m < |rows|
    ensures Seqs.Sum(rows[m := d], RowPrisons) == Seqs.Sum(rows, RowPrisons) - rows[m].prisons + d.prisons
    ensures Seqs.Sum(rows[m := d], RowInmates) == Seqs.Sum(rows, RowInmates) - rows[m].inmates + d.inmates
    ensures Seqs.Sum(rows[m := d], RowOfficers) == Seqs.Sum(rows, RowOfficers) - rows[m].officers + d.officers
  {
    Seqs.SumUpdate(rows, m, d, RowPrisons);
    Seqs.SumUpdate(rows, m, d, RowInmates);
    Seqs.SumUpdate(rows, m, d, RowOfficers);
  }

  /** One more prison: the group of its province gains it, every other group stays as it was. */
  lemma InProvinceStep(prisons: seq<PrisonRecord>, i: int, k: string)
    requires 0 <= i < |prisons|
    ensures RowOf(prisons, i + 1, k) ==
      if ProvinceOf(prisons[i]) == k then Added(RowOf(prisons, i, k), prisons[i]) else RowOf(prisons, i, k)
    ensures InProvince(prisons, i + 1, k) == [] <==> InProvince(prisons, i, k) == [] && ProvinceOf(prisons[i]) != k
  {
    var g := InProvince(prisons, i, k);
    if ProvinceOf(prisons[i]) == k {
      Seqs.SumAppend(g, [prisons[i]], InmatesOf);
      Seqs.SumAppend(g, [prisons[i]], OfficersOf);
    } else {
      assert g + [] == g;
    }
  }

  /** A row with prison `p` added to its figures. */
  function Added(d: ProvinceData, p: PrisonRecord): ProvinceData {
    d.(prisons := d.prisons + 1, inmates := d.inmates + InmatesOf(p), officers := d.officers + OfficersOf(p))
  }

  /** The first row of a province, holding prison `p` alone. */
  function Opened(p: PrisonRecord): ProvinceData {
    ProvinceData(ProvinceOf(p), 1, InmatesOf(p), OfficersOf(p))
  }

  /** The sums over the first `i + 1` prisons are those over the first `i` plus the next one. */
  lemma PrefixSumsStep(prisons: seq<PrisonRecord>, i: int)
    requires 0 <= i < |prisons|
    ensures Seqs.Sum(prisons[..i + 1], InmatesOf) == Seqs.Sum(prisons[..i], InmatesOf) + InmatesOf(prisons[i])
    ensures Seqs.Sum(prisons[..i + 1], OfficersOf) == Seqs.Sum(prisons[..i], OfficersOf) + OfficersOf(prisons[i])
  {
    assert prisons[..i + 1] == prisons[..i] + [prisons[i]];
    Seqs.SumAppend(prisons[..i], [prisons[i]], InmatesOf);
    Seqs.SumAppend(prisons[..i], [prisons[i]], OfficersOf);
  }

  /** Each row holds the figures of its province so far, and no province without a prison has one. */
  ghost predicate RowsCorrect(prisons: seq<PrisonRecord>, n: nat, rows: seq<ProvinceData>)
    requires n <= |prisons|
  {
    forall j :: 0 <= j < |rows| ==> InProvince(prisons, n, rows[j].province) != [] && rows[j] == RowOf(prisons, n, rows[j].province)
  }

  /** Every prison seen so far has the row of its province. */
  ghost predicate Covered(prisons: seq<PrisonRecord>, n: nat, rows: seq<ProvinceData>)
    requires n <= |prisons|
  {
    forall i :: 0 <= i < n ==> exists j :: 0 <= j < |rows| && rows[j].province == ProvinceOf(prisons[i])
  }

  /** What the accumulator holds after the first `n` prisons. */
  ghost predicate Accumulated(prisons: seq<PrisonRecord>, n: nat, rows: seq<ProvinceData>)
    requires n <= |prisons|
  {
    Seqs.DistinctBy(rows, RowProvince) && RowsCorrect(prisons, n, rows) && Covered(prisons, n, rows) && Conserves(prisons, n, rows)
  }

  /** A province with a prison among the first `n` has a row. */
  lemma CoveredHasRow(prisons: seq<PrisonRecord>, n: nat, rows: seq<ProvinceData>, k: string)
    requires n <= |prisons| && Covered(prisons, n, rows)
    ensures InProvince(prisons, n, k) != [] ==> exists j :: 0 <= j < |rows| && rows[j].province == k
  {
    if InProvince(prisons, n, k) != [] {
      var x := InProvince(prisons, n, k)[0];
      InProvinceOnlyIt(prisons, n, k, x);
      var i :| 0 <= i < n && prisons[i] == x;
      var k' := ProvinceOf(prisons[i]);
      assert exists j :: 0 <= j < |rows| && rows[j].province == k';
    }
  }

  lemma AppendKeepsDistinct(rows: seq<ProvinceData>, d: ProvinceData)
    requires Seqs.DistinctBy(rows, RowProvince)
    requires forall j :: 0 <= j < |rows| ==> rows[j].province != d.province
    ensures Seqs.DistinctBy(rows + [d], RowProvince)
  {
    var rows' := rows + [d];
    forall a, b | 0 <= a < |rows'| && 0 <= b < |rows'| && a != b
      ensures RowProvince(rows'[a]) != RowProvince(rows'[b])
    {
      if a < |rows| && b < |rows| {
        assert RowProvince(rows[a]) != RowProvince(rows[b]);
      }
    }
  }

  lemma UpdateKeepsDistinct(rows: seq<ProvinceData>, m: int, d: ProvinceData)
    requires Seqs.DistinctBy(rows, RowProvince)
    requires 0 <= m < |rows| && d.province == rows[m].province
    ensures Seqs.DistinctBy(rows[m := d], RowProvince)
  {
    var rows' := rows[m := d];
    forall a, b | 0 <= a < |rows'| && 0 <= b < |rows'| && a != b
      ensures RowProvince(rows'[a]) != RowProvince(rows'[b])
    {
      assert RowProvince(rows[a]) != RowProvince(rows[b]);
    }
  }

  lemma CorrectAfterNew(prisons: seq<PrisonRecord>, i: int, rows: seq<ProvinceData>)
    requires 0 <= i < |prisons| && RowsCorrect(prisons, i, rows) && Covered(prisons, i, rows)
    requires forall j :: 0 <= j < |rows| ==> rows[j].province != ProvinceOf(prisons[i])
    ensures RowsCorrect(prisons, i + 1, rows + [Opened(prisons[i])])
  {
    var rows' := rows + [Opened(prisons[i])];
    CoveredHasRow(prisons, i, rows, ProvinceOf(prisons[i]));
    forall j | 0 <= j < |rows'|
      ensures InProvince(prisons, i + 1, rows'[j].province) != [] && rows'[j] == RowOf(prisons, i + 1, rows'[j].province)
    {
      InProvinceStep(prisons, i, rows'[j].province);
    }
  }

  lemma CorrectAfterKnown(prisons: seq<PrisonRecord>, i: int, rows: seq<ProvinceData>, m: int)
    requires 0 <= i < |prisons| && RowsCorrect(prisons, i, rows) && Seqs.DistinctBy(rows, RowProvince)
    requires 0 <= m < |rows| && rows[m].province == ProvinceOf(prisons[i])
    ensures RowsCorrect(prisons, i + 1, rows[m := Added(rows[m], prisons[i])])
  {
    var rows' := rows[m := Added(rows[m], prisons[i])];
    forall j | 0 <= j < |rows'|
      ensures InProvince(prisons, i + 1, rows'[j].province) != [] && rows'[j] == RowOf(prisons, i + 1, rows'[j].province)
    {
      InProvinceStep(prisons, i, rows'[j].province);
      if j != m {
        assert RowProvince(rows[j]) != RowProvince(rows[m]);
      }
    }
  }

  lemma CoveredAfterNew(prisons: seq<PrisonRecord>, i: int, rows: seq<ProvinceData>)
    requires 0 <= i < |prisons| && Covered(prisons, i, rows)
    ensures Covered(prisons, i + 1, rows + [Opened(prisons[i])])
  {
    var rows' := rows + [Opened(prisons[i])];
    forall i' | 0 <= i' < i + 1
      ensures exists j :: 0 <= j < |rows'| && rows'[j].province == ProvinceOf(prisons[i'])
    {
      var k' := ProvinceOf(prisons[i']);
      if i' == i {
        assert rows'[|rows|].province == k';
      } else {
        var j :| 0 <= j < |rows| && rows[j].province == k';
        assert rows'[j].province == k';
      }
    }
  }

  lemma CoveredAfterKnown(prisons: seq<PrisonRecord>, i: int, rows: seq<ProvinceData>, m: int)
    requires 0 <= i < |prisons| && Covered(prisons, i, rows)
    requires 0 <= m < |rows| && rows[m].province == ProvinceOf(prisons[i])
    ensures Covered(prisons, i + 1, rows[m := Added(rows[m], prisons[i])])
  {
    var rows' := rows[m := Added(rows[m], prisons[i])];
    forall i' | 0 <= i' < i + 1
      ensures exists j :: 0 <= j < |rows'| && rows'[j].province == ProvinceOf(prisons[i'])
    {
      var k' := ProvinceOf(prisons[i']);
      if i' == i {
        assert rows'[m].province == k';
      } else {
        var j :| 0 <= j < |rows| && rows[j].province == k';
        assert rows'[j].province == k';
      }
    }
  }

  lemma ConservesAfterNew(prisons: seq<PrisonRecord>, i: int, rows: seq<ProvinceData>)
    requires 0 <= i < |prisons| && Conserves(prisons, i, rows)
    ensures Conserves(prisons, i + 1, rows + [Opened(prisons[i])])
  {
    PrefixSumsStep(prisons, i);
    RowSumsAppend(rows, Opened(prisons[i]));
  }

  lemma ConservesAfterKnown(prisons: seq<PrisonRecord>, i: int, rows: seq<ProvinceData>, m: int)
    requires 0 <= i < |prisons| && Conserves(prisons, i, rows) && 0 <= m < |rows|
    ensures Conserves(prisons, i + 1, rows[m := Added(rows[m], prisons[i])])
  {
    PrefixSumsStep(prisons, i);
    RowSumsUpdate(rows, m, Added(rows[m], prisons[i]));
  }

  /** The first prison of a new province opens a row of its own at the end. */
  lemma NewProvinceStep(prisons: seq<PrisonRecord>, i: int, rows: seq<ProvinceData>)
    requires 0 <= i < |prisons| && Accumulated(prisons, i, rows)
    requires Find(rows, ProvinceOf(prisons[i])) == -1
    ensures Accumulated(prisons, i + 1, rows + [Opened(prisons[i])])
  {
    AppendKeepsDistinct(rows, Opened(prisons[i]));
    CorrectAfterNew(prisons, i, rows);
    CoveredAfterNew(prisons, i, rows);
    ConservesAfterNew(prisons, i, rows);
  }

  /** A later prison of a province already seen adds itself to that province's row. */
  lemma KnownProvinceStep(prisons: seq<PrisonRecord>, i: int, rows: seq<ProvinceData>, m: int)
    requires 0 <= i < |prisons| && Accumulated(prisons, i, rows)
    requires 0 <= m < |rows| && rows[m].province == ProvinceOf(prisons[i])
    ensures Accumulated(prisons, i + 1, rows[m := Added(rows[m], prisons[i])])
  {
    UpdateKeepsDistinct(rows, m, Added(rows[m], prisons[i]));
    CorrectAfterKnown(prisons, i, rows, m);
    CoveredAfterKnown(prisons, i, rows, m);
    ConservesAfterKnown(prisons, i, rows, m);
  }

  /** The `reduce` and the `map` after it: one row per province, in order of first appearance. */
  method Group(prisons: seq<PrisonRecord>) returns (rows: seq<ProvinceData>)
    ensures IsGrouping(prisons, rows) && AddsUp(prisons, rows)
  {
    rows := [];
    var i := 0;
    while i < |prisons|
      invariant 0 <= i <= |prisons|
      invariant Accumulated(prisons, i, rows)
    {
      var p := prisons[i];
      var m := Find(rows, ProvinceOf(p));
      if m == -1 {
        NewProvinceStep(prisons, i, rows);
        rows := rows + [Opened(p)];
      } else {
        KnownProvinceStep(prisons, i, rows, m);
        rows := rows[m := Added(rows[m], p)];
      }
      i := i + 1;
    }
    assert prisons[..i] == prisons;
  }

  // ----- the sort and the component -----

  /** Reordering the rows of a grouping leaves a grouping with the same sums. */
  lemma PermutationKeepsGrouping(prisons: seq<PrisonRecord>, a: seq<ProvinceData>, b: seq<ProvinceData>)
    requires IsGrouping(prisons, a) && AddsUp(prisons, a) && multiset(a) == multiset(b)
    ensures IsGrouping(prisons, b) && AddsUp(prisons, b)
  {
    Seqs.PermutationKeepsDistinct(a, b, RowProvince);
    forall j | 0 <= j < |b|
      ensures InProvince(prisons, |prisons|, b[j].province) != [] && b[j] == Row(prisons, b[j].province)
    {
      assert b[j] in multiset(a);
      var x := Seqs.IndexOf(a, b[j]);
    }
    forall i | 0 <= i < |prisons|
      ensures exists j :: 0 <= j < |b| && b[j].province == ProvinceOf(prisons[i])
    {
      var k := ProvinceOf(prisons[i]);
      var j :| 0 <= j < |a| && a[j].province == k;
      assert a[j] in multiset(b);
      var x := Seqs.IndexOf(b, a[j]);
    }
    Seqs.SumPermutation(a, b, RowPrisons);
    Seqs.SumPermutation(a, b, RowInmates);
    Seqs.SumPermutation(a, b, RowOfficers);
  }

  /** The whole computation: the grouping, then `formatted.sort` by weight, largest first. */
  method Aggregate(prisons: seq<PrisonRecord>) returns (data: seq<ProvinceData>)
    ensures IsGrouping(prisons, data) && AddsUp(prisons, data)
    ensures Seqs.SortedDescendingBy(data, Weight)
  {
    var rows := Group(prisons);
    var formatted := new ProvinceData[|rows|](j requires 0 <= j < |rows| => rows[j]);
    assert formatted[..] == rows;
    Seqs.SortDescending(formatted, Weight);
    data := formatted[..];
    PermutationKeepsGrouping(prisons, rows, data);
  }

  /** The chart's state: its rows, and whether the request is still out. */
  class Chart {
    var data: seq<ProvinceData>
    var loading: bool

    constructor ()
      ensures data == [] && loading
    {
      data := [];
      loading := true;
    }

    /**
     * `fetchData`: a reply that is not ok, or a body that is not JSON, leaves
     * the rows as they were; otherwise `json.data || []` is grouped and sorted.
     */
    method FetchData(reply: Http.Reply<ListBody<PrisonRecord>>) returns (failed: bool)
      modifies this
      ensures failed <==> !(reply.Answer? && reply.response.Ok() && reply.response.body.Some?)
      ensures failed ==> data == old(data)
      ensures !failed ==>
        var prisons := reply.response.body.value.data.GetOr([]);
        IsGrouping(prisons, data) && AddsUp(prisons, data) && Seqs.SortedDescendingBy(data, Weight)
      ensures !loading
    {
      failed := !(reply.Answer? && reply.response.Ok() && reply.response.body.Some?);
      if !failed {
        data := Aggregate(reply.response.body.value.data.GetOr([]));
      }
      loading := false;
    }
  }
}
