/**
 * The four overview cards: the number of prisons, the inmates and officers
 * they hold, and the call vouchers still usable. Both lists are fetched
 * together; the figures are computed only when both replies are usable.
 */
module OverviewMetrics {
  import opened Wrappers
  import opened Lapas
  import Seqs
  import Http

  /** One quota (call voucher) of `GET /quotas`. */
  datatype Quota = Quota(id: string, isRedeemed: bool, isExpired: bool)

  datatype Metrics = Metrics(totalPrisons: int, totalInmates: int, totalOfficers: int, activeQuotas: int)

  /** What the cards show before any figures have arrived. */
  const NoMetrics: Metrics := Metrics(0, 0, 0, 0)

  /** A quota that can still be used: neither redeemed nor expired. */
  predicate IsActive(q: Quota) {
    !q.isRedeemed && !q.isExpired
  }

  /** `quotas.filter(q => !q.isRedeemed && !q.isExpired).length`. */
  function ActiveQuotas(quotas: seq<Quota>): (n: nat)
    ensures n <= |quotas|
    ensures n == |quotas| <==> forall i :: 0 <= i < |quotas| ==> IsActive(quotas[i])
    ensures n == 0 <==> forall i :: 0 <= i < |quotas| ==> !IsActive(quotas[i])
  {
    Seqs.CountExtremes(quotas, IsActive);
    Seqs.Count(quotas, IsActive)
  }

  /**
   * The figures `fetchMetrics` stores: the prison count, the two `reduce`
   * sums over `_count` (a missing count adds 0) and the active quotas.
   */
  function Summarise(prisons: seq<PrisonRecord>, quotas: seq<Quota>): (m: Metrics)
    ensures m.totalPrisons == |prisons|
    ensures m.totalInmates >= 0 && m.totalOfficers >= 0
    ensures 0 <= m.activeQuotas <= |quotas|
  {
    Seqs.SumNonNegative(prisons, InmatesOf);
    Seqs.SumNonNegative(prisons, OfficersOf);
    Metrics(|prisons|, Seqs.Sum(prisons, InmatesOf), Seqs.Sum(prisons, OfficersOf), ActiveQuotas(quotas))
  }

  function Plus(a: Metrics, b: Metrics): Metrics {
    Metrics(a.totalPrisons + b.totalPrisons, a.totalInmates + b.totalInmates,
            a.totalOfficers + b.totalOfficers, a.activeQuotas + b.activeQuotas)
  }

  /** Every figure is additive: the figures of two lists joined are the sums of their figures. */
  lemma SummariseJoined(p1: seq<PrisonRecord>, p2: seq<PrisonRecord>, q1: seq<Quota>, q2: seq<Quota>)
    ensures Summarise(p1 + p2, q1 + q2) == Plus(Summarise(p1, q1), Summarise(p2, q2))
  {
    Seqs.SumAppend(p1, p2, InmatesOf);
    Seqs.SumAppend(p1, p2, OfficersOf);
    Seqs.CountAppend(q1, q2, IsActive);
  }

  /**
   * The figures of nothing are the zeros, and one prison with one quota gives
   * that prison's own counts and 1 or 0 for the quota; with `SummariseJoined`
   * this determines the figures of every list.
   */
  lemma SummariseOfOne(p: PrisonRecord, q: Quota)
    ensures Summarise([], []) == NoMetrics
    ensures Summarise([p], [q]) == Metrics(1, InmatesOf(p), OfficersOf(p), if IsActive(q) then 1 else 0)
  {
    assert [p][1..] == [];
    assert [q][1..] == [];
  }

  /** A prison whose `_count` is missing adds one prison to the figures and nothing else. */
  lemma PrisonWithoutCountAddsOnlyItself(prisons: seq<PrisonRecord>, p: PrisonRecord, quotas: seq<Quota>)
    requires p.count.None?
    ensures Summarise(prisons + [p], quotas) == Summarise(prisons, quotas).(totalPrisons := |prisons| + 1)
  {
    Seqs.SumAppend(prisons, [p], InmatesOf);
    Seqs.SumAppend(prisons, [p], OfficersOf);
  }

  /** Why the figures could not be computed. */
  datatype MetricsError =
    /** A request got no reply at all (`fetch` throws a `TypeError`). */
    | NoConnection
    /** A reply arrived with a status outside 200-299. */
    | NotOk
    /** A body was not JSON, or had no `data` list. */
    | BadBody

  datatype MetricsOutcome = Computed(metrics: Metrics) | Failed(error: MetricsError)

  /** A reply whose status is ok and whose body is JSON with a `data` list. */
  predicate Usable<T>(reply: Http.Reply<ListBody<T>>) {
    reply.Answer? && reply.response.Ok() && reply.response.body.Some? && reply.response.body.value.data.Some?
  }

  /**
   * `fetchMetrics` once both replies are in: a missing reply fails first, then
   * a status that is not ok, then a body without a `data` list.
   */
  function MetricsOf(prisons: Http.Reply<ListBody<PrisonRecord>>, quotas: Http.Reply<ListBody<Quota>>): (r: MetricsOutcome)
    ensures r.Computed? <==> Usable(prisons) && Usable(quotas)
    ensures r.Computed? ==>
      r.metrics == Summarise(prisons.response.body.value.data.value, quotas.response.body.value.data.value)
    ensures r == Failed(NoConnection) <==> prisons.NetworkError? || quotas.NetworkError?
    ensures r == Failed(NotOk) <==>
      prisons.Answer? && quotas.Answer? && (!prisons.response.Ok() || !quotas.response.Ok())
  {
    if prisons.NetworkError? || quotas.NetworkError? then Failed(NoConnection)
    else if !prisons.response.Ok() || !quotas.response.Ok() then Failed(NotOk)
    else if !Usable(prisons) || !Usable(quotas) then Failed(BadBody)
    else Computed(Summarise(prisons.response.body.value.data.value, quotas.response.body.value.data.value))
  }

  /** The destructuring with defaults: no figures yet shows four zeros, otherwise the figures as stored. */
  function Displayed(data: Option<Metrics>): (m: Metrics)
    ensures data.None? ==> m == NoMetrics
    ensures data.Some? ==> m == data.value
  {
    data.GetOr(NoMetrics)
  }

  class Overview {
    var data: Option<Metrics>
    var loading: bool

    constructor ()
      ensures data == None && loading
    {
      data := None;
      loading := true;
    }

    /** `fetchMetrics`: stores the figures, or keeps the old ones and reports why; loading ends either way. */
    method FetchMetrics(prisons: Http.Reply<ListBody<PrisonRecord>>, quotas: Http.Reply<ListBody<Quota>>)
      returns (failure: Option<MetricsError>)
      modifies this
      ensures MetricsOf(prisons, quotas).Computed? ==> data == Some(MetricsOf(prisons, quotas).metrics) && failure == None
      ensures MetricsOf(prisons, quotas).Failed? ==> data == old(data) && failure == Some(MetricsOf(prisons, quotas).error)
      ensures !loading
    {
      failure := None;
      if prisons.NetworkError? || quotas.NetworkError? {
        failure := Some(NoConnection);
      } else if !prisons.response.Ok() || !quotas.response.Ok() {
        failure := Some(NotOk);
      } else if prisons.response.body.None? || quotas.response.body.None? {
        failure := Some(BadBody);
      } else {
        var ps := prisons.response.body.value.data;
        var qs := quotas.response.body.value.data;
        if ps.None? || qs.None? {
          failure := Some(BadBody);
        } else {
          data := Some(Summarise(ps.value, qs.value));
        }
      }
      loading := false;
    }
  }
}
