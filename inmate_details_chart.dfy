/**
 * The cell-block chart: each inmate with a cell block counts towards the
 * block named by the text before its first "-", trimmed and upper-cased; the
 * blocks are then listed by their counts, largest first.
 */
module InmateDetailsChart {
  import opened Wrappers
  import opened Text
  import Seqs
  import Http
  import Lapas

  /** One inmate of `GET /inmates`, as far as the chart reads it. */
  datatype InmateRecord = InmateRecord(name: string, cellBlock: Option<string>)

  /** One entry of the counts: a block and how many inmates it holds. */
  datatype BlockCount = BlockCount(block: string, count: int)

  function BlockOf(e: BlockCount): string { e.block }
  function CountOf(e: BlockCount): int { e.count }

  /**
   * The key an inmate counts under: `cellBlock.split("-")[0]?.trim().toUpperCase()`.
   * A missing or empty cell block, or a key that comes out empty, counts nowhere.
   */
  function BlockPrefix(inmate: InmateRecord): (r: Option<string>)
    ensures r.Some? <==>
      inmate.cellBlock.Some? && inmate.cellBlock.value != "" && Trim(BeforeFirst(inmate.cellBlock.value, '-')) != ""
    ensures r.Some? ==> r.value == ToUpper(Trim(BeforeFirst(inmate.cellBlock.value, '-')))
    ensures r.Some? ==> r.value != "" && '-' !in r.value
  {
    match inmate.cellBlock
    case None => None
    case Some(cb) =>
      if cb == "" then None
      else
        var key := ToUpper(Trim(BeforeFirst(cb, '-')));
        if key == "" then None
        else
          assert '-' !in key by {
            if '-' in key {
              ToUpperKeepsOthers(Trim(BeforeFirst(cb, '-')), '-');
              TrimKeepsCharacters(BeforeFirst(cb, '-'), '-');
            }
          }
          Some(key)
  }

  /** Whether an inmate counts towards some block. */
  predicate HasPrefix(inmate: InmateRecord) {
    BlockPrefix(inmate).Some?
  }

  // ----- the specification of the counts -----

  /** How many of the first `n` inmates count towards block `k`. */
  function Occurrences(inmates: seq<InmateRecord>, n: nat, k: string): nat
    requires n <= |inmates|
  {
    if n == 0 then 0
    else Occurrences(inmates, n - 1, k) + (if BlockPrefix(inmates[n - 1]) == Some(k) then 1 else 0)
  }

  /** How many of the first `n` inmates count towards any block. */
  function Counted(inmates: seq<InmateRecord>, n: nat): (c: nat)
    requires n <= |inmates|
    ensures c <= n
  {
    if n == 0 then 0
    else Counted(inmates, n - 1) + (if HasPrefix(inmates[n - 1]) then 1 else 0)
  }

  /** A block counted at least once is the key of one of the inmates. */
  lemma {:induction false} OccurrenceWitness(inmates: seq<InmateRecord>, n: nat, k: string) returns (i: int)
    requires n <= |inmates| && Occurrences(inmates, n, k) > 0
    ensures 0 <= i < n && BlockPrefix(inmates[i]) == Some(k)
  {
    if BlockPrefix(inmates[n - 1]) == Some(k) {
      i := n - 1;
    } else {
      i := OccurrenceWitness(inmates, n - 1, k);
    }
  }

  /**
   * `entries` are the counts of `inmates`: no block twice, each block's count
   * is the number of inmates under it and at least 1, and every inmate with a
   * key has its block listed.
   */
  predicate IsTally(inmates: seq<InmateRecord>, entries: seq<BlockCount>) {
    Seqs.DistinctBy(entries, BlockOf) &&
    (forall j :: 0 <= j < |entries| ==>
      entries[j].count >= 1 && entries[j].count == Occurrences(inmates, |inmates|, entries[j].block)) &&
    (forall i :: 0 <= i < |inmates| && HasPrefix(inmates[i]) ==>
      exists j :: 0 <= j < |entries| && Some(entries[j].block) == BlockPrefix(inmates[i]))
  }

  /** The counts add up to the number of inmates that have a key. */
  predicate AddsUp(inmates: seq<InmateRecord>, entries: seq<BlockCount>) {
    Seqs.Sum(entries, CountOf) == Counted(inmates, |inmates|)
  }

  /** Every listed block is a real key: non-empty and free of "-". */
  lemma ListedBlocksAreKeys(inmates: seq<InmateRecord>, entries: seq<BlockCount>, j: int)
    requires IsTally(inmates, entries) && 0 <= j < |entries|
    ensures entries[j].block != "" && '-' !in entries[j].block
  {
    var i := OccurrenceWitness(inmates, |inmates|, entries[j].block);
  }

  // ----- the loop -----

  /** `counts[blockPrefix]`: the index of block `k` among the entries, or -1 when it has none yet. */
  function Find(entries: seq<BlockCount>, k: string): (m: int)
    ensures -1 <= m < |entries|
    ensures m == -1 <==> forall j :: 0 <= j < |entries| ==> entries[j].block != k
    ensures m != -1 ==> entries[m].block == k
  {
    if entries == [] then -1
    else if entries[|entries| - 1].block == k then |entries| - 1
    else Find(entries[..|entries| - 1], k)
  }

  /** Each entry holds its block's count so far. */
  ghost predicate CountsCorrect(inmates: seq<InmateRecord>, n: nat, entries: seq<BlockCount>)
    requires n <= |inmates|
  {
    forall j :: 0 <= j < |entries| ==>
      entries[j].count >= 1 && entries[j].count == Occurrences(inmates, n, entries[j].block)
  }

  /** Every inmate seen so far that has a key has its block listed. */
  ghost predicate Covered(inmates: seq<InmateRecord>, n: nat, entries: seq<BlockCount>)
    requires n <= |inmates|
  {
    forall i :: 0 <= i < n && HasPrefix(inmates[i]) ==>
      exists j :: 0 <= j < |entries| && Some(entries[j].block) == BlockPrefix(inmates[i])
  }

  /** What `counts` holds after the first `n` inmates. */
  ghost predicate Accumulated(inmates: seq<InmateRecord>, n: nat, entries: seq<BlockCount>)
    requires n <= |inmates|
  {
    Seqs.DistinctBy(entries, BlockOf) && CountsCorrect(inmates, n, entries) && Covered(inmates, n, entries) &&
    Seqs.Sum(entries, CountOf) == Counted(inmates, n)
  }

  /** A block without an entry has not been counted yet. */
  lemma UnlistedNotCounted(inmates: seq<InmateRecord>, n: nat, entries: seq<BlockCount>, k: string)
    requires n <= |inmates| && Covered(inmates, n, entries)
    ensures Occurrences(inmates, n, k) > 0 ==> exists j :: 0 <= j < |entries| && entries[j].block == k
  {
    if Occurrences(inmates, n, k) > 0 {
      var i := OccurrenceWitness(inmates, n, k);
      assert HasPrefix(inmates[i]);
      var j :| 0 <= j < |entries| && Some(entries[j].block) == BlockPrefix(inmates[i]);
    }
  }

  lemma AppendKeepsDistinct(entries: seq<BlockCount>, e: BlockCount)
    requires Seqs.DistinctBy(entries, BlockOf)
    requires forall j :: 0 <= j < |entries| ==> entries[j].block != e.block
    ensures Seqs.DistinctBy(entries + [e], BlockOf)
  {
    var entries' := entries + [e];
    forall a, b | 0 <= a < |entries'| && 0 <= b < |entries'| && a != b
      ensures BlockOf(entries'[a]) != BlockOf(entries'[b])
    {
      if a < |entries| && b < |entries| {
        assert BlockOf(entries[a]) != BlockOf(entries[b]);
      }
    }
  }

  lemma UpdateKeepsDistinct(entries: seq<BlockCount>, m: int, e: BlockCount)
    requires Seqs.DistinctBy(entries, BlockOf)
    requires 0 <= m < |entries| && e.block == entries[m].block
    ensures Seqs.DistinctBy(entries[m := e], BlockOf)
  {
    var entries' := entries[m := e];
    forall a, b | 0 <= a < |entries'| && 0 <= b < |entries'| && a != b
      ensures BlockOf(entries'[a]) != BlockOf(entries'[b])
    {
      assert BlockOf(entries[a]) != BlockOf(entries[b]);
    }
  }

  /** An inmate whose key has no entry yet opens one at the end, with count 1. */
  lemma NewBlockStep(inmates: seq<InmateRecord>, i: int, entries: seq<BlockCount>)
    requires 0 <= i < |inmates| && Accumulated(inmates, i, entries)
    requires BlockPrefix(inmates[i]).Some? && Find(entries, BlockPrefix(inmates[i]).value) == -1
    ensures Accumulated(inmates, i + 1, entries + [BlockCount(BlockPrefix(inmates[i]).value, 1)])
  {
    var k := BlockPrefix(inmates[i]).value;
    var e := BlockCount(k, 1);
    var entries' := entries + [e];
    AppendKeepsDistinct(entries, e);
    UnlistedNotCounted(inmates, i, entries, k);
    forall j | 0 <= j < |entries'|
      ensures entries'[j].count >= 1 && entries'[j].count == Occurrences(inmates, i + 1, entries'[j].block)
    {
    }
    forall i' | 0 <= i' < i + 1 && HasPrefix(inmates[i'])
      ensures exists j :: 0 <= j < |entries'| && Some(entries'[j].block) == BlockPrefix(inmates[i'])
    {
      if i' == i {
        assert entries'[|entries|].block == k;
      } else {
        var j :| 0 <= j < |entries| && Some(entries[j].block) == BlockPrefix(inmates[i']);
        assert entries'[j] == entries[j];
      }
    }
    Seqs.SumAppend(entries, [e], CountOf);
  }

  /** An inmate whose key already has an entry adds one to it. */
  lemma KnownBlockStep(inmates: seq<InmateRecord>, i: int, entries: seq<BlockCount>, m: int)
    requires 0 <= i < |inmates| && Accumulated(inmates, i, entries)
    requires 0 <= m < |entries| && BlockPrefix(inmates[i]) == Some(entries[m].block)
    ensures Accumulated(inmates, i + 1, entries[m := entries[m].(count := entries[m].count + 1)])
  {
    var e := entries[m].(count := entries[m].count + 1);
    var entries' := entries[m := e];
    UpdateKeepsDistinct(entries, m, e);
    forall j | 0 <= j < |entries'|
      ensures entries'[j].count >= 1 && entries'[j].count == Occurrences(inmates, i + 1, entries'[j].block)
    {
      if j != m {
        assert BlockOf(entries[j]) != BlockOf(entries[m]);
      }
    }
    forall i' | 0 <= i' < i + 1 && HasPrefix(inmates[i'])
      ensures exists j :: 0 <= j < |entries'| && Some(entries'[j].block) == BlockPrefix(inmates[i'])
    {
      if i' == i {
        assert entries'[m].block == entries[m].block;
      } else {
        var j :| 0 <= j < |entries| && Some(entries[j].block) == BlockPrefix(inmates[i']);
        assert entries'[j].block == entries[j].block;
      }
    }
    Seqs.SumUpdate(entries, m, e, CountOf);
  }

  /** An inmate without a key leaves the counts as they were. */
  lemma SkippedStep(inmates: seq<InmateRecord>, i: int, entries: seq<BlockCount>)
    requires 0 <= i < |inmates| && Accumulated(inmates, i, entries) && BlockPrefix(inmates[i]).None?
    ensures Accumulated(inmates, i + 1, entries)
  {
    forall j | 0 <= j < |entries|
      ensures Occurrences(inmates, i + 1, entries[j].block) == Occurrences(inmates, i, entries[j].block)
    {
    }
  }

  /** After the last inmate the entries are the counts of the whole list. */
  lemma AccumulatedAll(inmates: seq<InmateRecord>, entries: seq<BlockCount>)
    requires Accumulated(inmates, |inmates|, entries)
    ensures IsTally(inmates, entries) && AddsUp(inmates, entries)
  {
  }

  /** The `forEach` that fills `counts`: one entry per key, in order of first appearance. */
  method CountBlocks(inmates: seq<InmateRecord>) returns (entries: seq<BlockCount>)
    ensures IsTally(inmates, entries) && AddsUp(inmates, entries)
  {
    entries := [];
    var i := 0;
    while i < |inmates|
      invariant 0 <= i <= |inmates|
      invariant Accumulated(inmates, i, entries)
    {
      var key := BlockPrefix(inmates[i]);
      if key.Some? {
        var m := Find(entries, key.value);
        if m == -1 {
          NewBlockStep(inmates, i, entries);
          entries := entries + [BlockCount(key.value, 1)];
        } else {
          KnownBlockStep(inmates, i, entries, m);
          entries := entries[m := entries[m].(count := entries[m].count + 1)];
        }
      } else {
        SkippedStep(inmates, i, entries);
      }
      i := i + 1;
    }
    AccumulatedAll(inmates, entries);
  }

  // ----- the sort and the component -----

  /** Reordering the entries of a tally leaves a tally with the same sum. */
  lemma PermutationKeepsTally(inmates: seq<InmateRecord>, a: seq<BlockCount>, b: seq<BlockCount>)
    requires IsTally(inmates, a) && AddsUp(inmates, a) && multiset(a) == multiset(b)
    ensures IsTally(inmates, b) && AddsUp(inmates, b)
  {
    Seqs.PermutationKeepsDistinct(a, b, BlockOf);
    forall j | 0 <= j < |b|
      ensures b[j].count >= 1 && b[j].count == Occurrences(inmates, |inmates|, b[j].block)
    {
      assert b[j] in multiset(a);
      var x := Seqs.IndexOf(a, b[j]);
    }
    forall i | 0 <= i < |inmates| && HasPrefix(inmates[i])
      ensures exists j :: 0 <= j < |b| && Some(b[j].block) == BlockPrefix(inmates[i])
    {
      var j :| 0 <= j < |a| && Some(a[j].block) == BlockPrefix(inmates[i]);
      assert a[j] in multiset(b);
      var x := Seqs.IndexOf(b, a[j]);
    }
    Seqs.SumPermutation(a, b, CountOf);
  }

  /** The counting, then `Object.entries(counts).sort(...)` by count, largest first. */
  method SortedCounts(inmates: seq<InmateRecord>) returns (entries: seq<BlockCount>)
    ensures IsTally(inmates, entries) && AddsUp(inmates, entries)
    ensures Seqs.SortedDescendingBy(entries, CountOf)
  {
    var counts := CountBlocks(inmates);
    var sorted := new BlockCount[|counts|](j requires 0 <= j < |counts| => counts[j]);
    assert sorted[..] == counts;
    Seqs.SortDescending(sorted, CountOf);
    entries := sorted[..];
    PermutationKeepsTally(inmates, counts, entries);
  }

  const ConnectionMessage := "Tidak dapat terhubung ke server."
  const StatusMessagePrefix := "Gagal memuat data: "

  /** Why the chart could not be filled. */
  datatype LoadError =
    /** No reply at all: `fetch` throws a `TypeError`. */
    | NoConnection
    /** A reply whose status is outside 200-299. */
    | BadStatus(status: int)
    /** A body that is not JSON. */
    | BadBody

  /**
   * The text `setError` receives. The status is written into the message; a
   * body that does not parse shows the parser's own message, which is not
   * modelled, so it is None here.
   */
  function Message(e: LoadError): (m: Option<string>)
    ensures e.NoConnection? ==> m == Some(ConnectionMessage)
    ensures e.BadStatus? ==> m == Some(StatusMessagePrefix + IntToString(e.status))
    ensures e.BadBody? ==> m.None?
  {
    match e
    case NoConnection => Some(ConnectionMessage)
    case BadStatus(status) => Some(StatusMessagePrefix + IntToString(status))
    case BadBody => None
  }

  /** The status can be read back from the message: it is the decimal number after the fixed prefix. */
  lemma StatusReadBack(status: nat)
    ensures var m := Message(BadStatus(status)).value;
      |m| > |StatusMessagePrefix| && m[..|StatusMessagePrefix|] == StatusMessagePrefix &&
      AllDigits(m[|StatusMessagePrefix|..]) && DigitsValue(m[|StatusMessagePrefix|..]) == status
  {
    var m := Message(BadStatus(status)).value;
    assert m[|StatusMessagePrefix|..] == NatToString(status);
  }

  datatype LoadOutcome = Loaded(inmates: seq<InmateRecord>) | LoadFailed(error: LoadError)

  /** `fetchInmates` up to the counting: a status that is not ok fails before the body is read; `json.data || []`. */
  function LoadOutcomeOf(reply: Http.Reply<Lapas.ListBody<InmateRecord>>): (r: LoadOutcome)
    ensures r == LoadFailed(NoConnection) <==> reply.NetworkError?
    ensures r.LoadFailed? && r.error.BadStatus? <==> reply.Answer? && !reply.response.Ok()
    ensures r.LoadFailed? && r.error.BadStatus? ==> r.error.status == reply.response.status
    ensures r.Loaded? <==> reply.Answer? && reply.response.Ok() && reply.response.body.Some?
    ensures r.Loaded? ==> r.inmates == reply.response.body.value.data.GetOr([])
  {
    match reply
    case NetworkError => LoadFailed(NoConnection)
    case Answer(resp) =>
      if !resp.Ok() then LoadFailed(BadStatus(resp.status))
      else if resp.body.None? then LoadFailed(BadBody)
      else Loaded(resp.body.value.data.GetOr([]))
  }

  class Chart {
    var blockCounts: seq<BlockCount>
    var loading: bool
    /** The failure whose `Message` the chart shows, if any. */
    var error: Option<LoadError>

    constructor ()
      ensures blockCounts == [] && loading && error == None
    {
      blockCounts := [];
      loading := true;
      error := None;
    }

    /**
     * `fetchInmates`: clears the error, then either fills the counts or keeps
     * the old ones and records the error. Loading ends either way.
     */
    method FetchInmates(reply: Http.Reply<Lapas.ListBody<InmateRecord>>)
      modifies this
      ensures match LoadOutcomeOf(reply)
        case Loaded(inmates) =>
          IsTally(inmates, blockCounts) && AddsUp(inmates, blockCounts) &&
          Seqs.SortedDescendingBy(blockCounts, CountOf) && error == None
        case LoadFailed(e) =>
          blockCounts == old(blockCounts) && error == Some(e)
      ensures !loading
    {
      loading := true;
      error := None;
      var outcome := LoadOutcomeOf(reply);
      match outcome {
        case Loaded(inmates) =>
          blockCounts := SortedCounts(inmates);
        case LoadFailed(e) =>
          error := Some(e);
      }
      loading := false;
    }
  }
}
