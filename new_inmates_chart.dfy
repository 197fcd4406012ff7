/**
 * The new-admissions chart: twelve monthly buckets, one per month of the
 * current year, each counting the inmates admitted in that month. An
 * admission date is taken as the year and month it falls in.
 */
module NewInmatesChart {
  import opened Wrappers
  import Seqs
  import Http
  import Lapas

  /** `date.getMonth()`: 0 for January up to 11 for December. */
  type Month = m: int | 0 <= m < 12

  /** What `new Date(admissionDate)` yields, as far as the chart looks at it. */
  datatype YearMonth = YearMonth(year: int, month: Month)

  /** One inmate of `GET /inmates`; None stands for a date that does not parse, whose year is `NaN`. */
  datatype InmateRecord = InmateRecord(name: string, admission: Option<YearMonth>)

  /** Whether the inmate was admitted in `month` of `year`. */
  predicate AdmittedIn(inmate: InmateRecord, year: int, month: int) {
    inmate.admission.Some? && inmate.admission.value.year == year && inmate.admission.value.month == month
  }

  /** Whether the inmate was admitted at some time in `year`. */
  predicate AdmittedInYear(inmate: InmateRecord, year: int) {
    inmate.admission.Some? && inmate.admission.value.year == year
  }

  /** How many of the first `n` inmates were admitted in `month` of `year`. */
  function Admissions(inmates: seq<InmateRecord>, n: nat, year: int, month: int): nat
    requires n <= |inmates|
  {
    if n == 0 then 0
    else Admissions(inmates, n - 1, year, month) + (if AdmittedIn(inmates[n - 1], year, month) then 1 else 0)
  }

  /** How many of the first `n` inmates were admitted in `year`. */
  function YearAdmissions(inmates: seq<InmateRecord>, n: nat, year: int): nat
    requires n <= |inmates|
  {
    if n == 0 then 0
    else YearAdmissions(inmates, n - 1, year) + (if AdmittedInYear(inmates[n - 1], year) then 1 else 0)
  }

  /** The twelve buckets the first `n` inmates give, January first. */
  function MonthTotals(inmates: seq<InmateRecord>, n: nat, year: int): (b: seq<int>)
    requires n <= |inmates|
    ensures |b| == 12
    ensures forall m :: 0 <= m < 12 ==> b[m] == Admissions(inmates, n, year, m)
  {
    seq(12, m => Admissions(inmates, n, year, m))
  }

  /** A bucket's value as a term of their sum. */
  function Value(x: int): int { x }

  /** One more inmate: the bucket of its month gains one if it was admitted in `year`; nothing else changes. */
  lemma MonthTotalsStep(inmates: seq<InmateRecord>, n: nat, year: int)
    requires n < |inmates|
    ensures var b := MonthTotals(inmates, n, year);
      MonthTotals(inmates, n + 1, year) ==
        if AdmittedInYear(inmates[n], year) then
          var m := inmates[n].admission.value.month; b[m := b[m] + 1]
        else b
  {
  }

  lemma {:induction false} ZerosAddUpToZero(b: seq<int>)
    requires forall m :: 0 <= m < |b| ==> b[m] == 0
    ensures Seqs.Sum(b, Value) == 0
  {
    if b != [] {
      ZerosAddUpToZero(b[1..]);
    }
  }

  /** The buckets add up to the number of inmates admitted in `year`: no admission is lost or counted twice. */
  lemma {:induction false} BucketsAddUp(inmates: seq<InmateRecord>, n: nat, year: int)
    requires n <= |inmates|
    ensures Seqs.Sum(MonthTotals(inmates, n, year), Value) == YearAdmissions(inmates, n, year)
  {
    if n == 0 {
      ZerosAddUpToZero(MonthTotals(inmates, 0, year));
    } else {
      BucketsAddUp(inmates, n - 1, year);
      MonthTotalsStep(inmates, n - 1, year);
      if AdmittedInYear(inmates[n - 1], year) {
        var b := MonthTotals(inmates, n - 1, year);
        var m := inmates[n - 1].admission.value.month;
        Seqs.SumUpdate(b, m, b[m] + 1, Value);
      }
    }
  }

  /** An inmate admitted in another year, or with a date that does not parse, changes no bucket. */
  lemma OtherYearsChangeNothing(inmates: seq<InmateRecord>, x: InmateRecord, year: int)
    requires !AdmittedInYear(x, year)
    ensures MonthTotals(inmates + [x], |inmates| + 1, year) == MonthTotals(inmates, |inmates|, year)
  {
    var s := inmates + [x];
    forall m, k | 0 <= m < 12 && 0 <= k <= |inmates|
      ensures Admissions(s, k, year, m) == Admissions(inmates, k, year, m)
    {
      AdmissionsOfPrefix(inmates, s, k, year, m);
    }
  }

  /** Counting over the first `k` items looks at those items only. */
  lemma {:induction false} AdmissionsOfPrefix(a: seq<InmateRecord>, b: seq<InmateRecord>, k: nat, year: int, month: int)
    requires k <= |a| && k <= |b| && a[..k] == b[..k]
    ensures Admissions(a, k, year, month) == Admissions(b, k, year, month)
  {
    if k > 0 {
      assert a[k - 1] == a[..k][k - 1] == b[..k][k - 1] == b[k - 1];
      assert a[..k - 1] == a[..k][..k - 1] == b[..k][..k - 1] == b[..k - 1];
      AdmissionsOfPrefix(a, b, k - 1, year, month);
    }
  }

  /** No inmates: twelve zeros. */
  lemma NoInmatesAllZero(year: int)
    ensures MonthTotals([], 0, year) == [0, 0, 0, 0, 0, 0, 0, 0, 0, 0, 0, 0]
  {
  }

  /** `monthlyData`: `Array(12).fill(0)`, then one `forEach` incrementing the bucket of each admission this year. */
  method MonthlyData(inmates: seq<InmateRecord>, currentYear: int) returns (data: seq<int>)
    ensures data == MonthTotals(inmates, |inmates|, currentYear)
  {
    var monthly := new int[12](_ => 0);
    var i := 0;
    while i < |inmates|
      invariant 0 <= i <= |inmates|
      invariant monthly[..] == MonthTotals(inmates, i, currentYear)
    {
      MonthTotalsStep(inmates, i, currentYear);
      match inmates[i].admission {
        case Some(date) =>
          if date.year == currentYear {
            monthly[date.month] := monthly[date.month] + 1;
          }
        case None =>
      }
      i := i + 1;
    }
    data := monthly[..];
  }

  class Chart {
    var inmates: seq<InmateRecord>
    var loading: bool

    constructor ()
      ensures inmates == [] && loading
    {
      inmates := [];
      loading := true;
    }

    /** `fetchInmates`: an ok reply with a JSON body stores `json.data || []`; anything else keeps the list. */
    method FetchInmates(reply: Http.Reply<Lapas.ListBody<InmateRecord>>) returns (failed: bool)
      modifies this
      ensures failed <==> !(reply.Answer? && reply.response.Ok() && reply.response.body.Some?)
      ensures failed ==> inmates == old(inmates)
      ensures !failed ==> inmates == reply.response.body.value.data.GetOr([])
      ensures !loading
    {
      failed := !(reply.Answer? && reply.response.Ok() && reply.response.body.Some?);
      if !failed {
        inmates := reply.response.body.value.data.GetOr([]);
      }
      loading := false;
    }
  }
}
