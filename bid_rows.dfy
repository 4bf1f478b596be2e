/** The rows of the bid ledger table `tbl_bid` and the relations that say how a
    row may change over time. */
module BidRows {

  /** A bid identifier: the 16 bytes of a UUID. */
  type Uuid = s: seq<bv8> | |s| == 16 witness seq(16, _ => 0 as bv8)

  /** A point in time. The clock is not modelled: every operation that stamps a
      row receives the time as a parameter. */
  type Timestamp = int

  /** The three values of `song_status`. */
  const Queued: int := 0
  const Playing: int := 1
  const Finalized: int := 2

  /** One row of `tbl_bid`. Amounts are unbounded and never validated. */
  datatype BidRow = BidRow(
    bidAmount: int,
    songId: string,
    bidId: Uuid,
    songStatus: int,
    createdAt: Timestamp,
    updatedAt: Timestamp)

  /** A bid as posted by a client, and also one entry of the per-song ranking
      (`bidAmount` then holds the song's summed amount). */
  datatype PostBidData = PostBidData(bidAmount: int, songId: string)

  predicate IsQueued(r: BidRow) {
    r.songStatus == Queued
  }

  predicate IsPlaying(r: BidRow) {
    r.songStatus == Playing
  }

  /** The bid ids present in a table. */
  function Ids(t: seq<BidRow>): set<Uuid> {
    set r | r in t :: r.bidId
  }

  /** `bid_id` is the table's key: no two rows share one. */
  predicate UniqueIds(t: seq<BidRow>) {
    forall i, j :: 0 <= i < j < |t| ==> t[i].bidId != t[j].bidId
  }

  /** Every row holds one of the three statuses. */
  predicate KnownStatuses(t: seq<BidRow>) {
    forall i :: 0 <= i < |t| ==> Queued <= t[i].songStatus <= Finalized
  }

  /** The song ids that have at least one row with status `Playing`. */
  function PlayingSongs(t: seq<BidRow>): set<string> {
    set r | r in t && IsPlaying(r) :: r.songId
  }

  /** Every playing row's song is one of the playing songs. */
  lemma PlayingSongsHas(t: seq<BidRow>)
    ensures forall i :: 0 <= i < |t| && IsPlaying(t[i]) ==> t[i].songId in PlayingSongs(t)
  {
    forall i | 0 <= i < |t| && IsPlaying(t[i]) ensures t[i].songId in PlayingSongs(t) {
      assert t[i] in t;
    }
  }

  /** The immutable part of a row: amount, song, id and creation time. */
  predicate SameBid(a: BidRow, b: BidRow) {
    a.bidAmount == b.bidAmount && a.songId == b.songId &&
    a.bidId == b.bidId && a.createdAt == b.createdAt
  }

  /** One ledger operation changes a row at most by one status step:
      either not at all, or its status goes up by exactly one and nothing
      but the status and `updated_at` changes. */
  predicate RowStep(a: BidRow, b: BidRow) {
    a == b || (SameBid(a, b) && b.songStatus == a.songStatus + 1)
  }

  /** One ledger operation keeps every existing row, in place, changed by at
      most one status step; it may append new rows. */
  predicate Step(before: seq<BidRow>, after: seq<BidRow>) {
    |before| <= |after| &&
    forall i :: 0 <= i < |before| ==> RowStep(before[i], after[i])
  }

  /** Any number of operations: rows stay in place, the immutable part is
      kept and no status ever goes down. */
  predicate NoRegress(before: seq<BidRow>, after: seq<BidRow>) {
    |before| <= |after| &&
    forall i :: 0 <= i < |before| ==>
      SameBid(before[i], after[i]) && before[i].songStatus <= after[i].songStatus
  }

  /** A single step never makes a status go down. */
  lemma StepNoRegress(before: seq<BidRow>, after: seq<BidRow>)
    requires Step(before, after)
    ensures NoRegress(before, after)
  {
  }

  /** Status monotonicity composes over a run of operations. */
  lemma NoRegressTransitive(a: seq<BidRow>, b: seq<BidRow>, c: seq<BidRow>)
    requires NoRegress(a, b) && NoRegress(b, c)
    ensures NoRegress(a, c)
  {
  }

  /** Two steps never take a row from `Queued` straight to `Finalized`
      without passing through an intermediate state, and a status can never
      skip: after two steps it has gone up by at most two. */
  lemma TwoStepsBounded(a: seq<BidRow>, b: seq<BidRow>, c: seq<BidRow>, i: int)
    requires Step(a, b) && Step(b, c)
    requires 0 <= i < |a|
    ensures a[i].songStatus <= c[i].songStatus <= a[i].songStatus + 2
    ensures c[i].songStatus == a[i].songStatus + 2 ==> b[i].songStatus == a[i].songStatus + 1
  {
  }
}
