/**
 * The records the dashboard widgets read from the prison API, as far as they
 * look at them. Every list endpoint answers `{ data: [...] }`; a field the
 * server leaves out is None.
 */
module Lapas {
  import opened Wrappers

  /** A prison's `_count` object: how many inmates and officers it holds. */
  datatype Counts = Counts(inmates: Option<nat>, officers: Option<nat>)

  /** One prison of `GET /prison`. */
  datatype PrisonRecord = PrisonRecord(name: string, province: Option<string>, count: Option<Counts>)

  /** The body of a list endpoint; `data` is None when the server sent none. */
  datatype ListBody<T> = ListBody(data: Option<seq<T>>)

  /** `p._count?.inmates || 0`: a missing `_count` or a missing field counts as 0. */
  function InmatesOf(p: PrisonRecord): (n: int)
    ensures n >= 0
    ensures p.count.None? || p.count.value.inmates.None? ==> n == 0
    ensures p.count.Some? && p.count.value.inmates.Some? ==> n == p.count.value.inmates.value
  {
    match p.count
    case None => 0
    case Some(c) => c.inmates.GetOr(0)
  }

  /** `p._count?.officers || 0`. */
  function OfficersOf(p: PrisonRecord): (n: int)
    ensures n >= 0
    ensures p.count.None? || p.count.value.officers.None? ==> n == 0
    ensures p.count.Some? && p.count.value.officers.Some? ==> n == p.count.value.officers.value
  {
    match p.count
    case None => 0
    case Some(c) => c.officers.GetOr(0)
  }
}
