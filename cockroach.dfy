/** The bid ledger of package `cockroach`: the `tbl_bid` table as the state of
    a `Database`, and the operations that change it. Each operation is one
    atomic step on the table; the reads are the functions of module Ranking
    applied to `rows`. */
module Cockroach {
  import opened BidRows
  import opened Ranking
  import opened Transitions

  class Database {
    /** The rows of `tbl_bid`, in insertion order. */
    var rows: seq<BidRow>

    /** `bid_id` is the table's key, and statuses are 0, 1 or 2. */
    ghost predicate Valid()
      reads this
    {
      UniqueIds(rows) && KnownStatuses(rows)
    }

    /** A ledger whose table has been cleared, the state the package tests
        start from. Connecting attaches to a persistent table and neither
        creates nor empties it; that is not part of this model. */
    constructor ()
      ensures Valid() && rows == []
    {
      rows := [];
    }

    /** Appends a queued bid with the given amount and song, unvalidated.
        The fresh `bidId` stands for `uuid.New()`, and `createdAt` and
        `updatedAt` for the two separate reads of the clock, all supplied by
        the caller; the two readings need not be equal. */
    method PostBid(data: PostBidData, bidId: Uuid, createdAt: Timestamp, updatedAt: Timestamp)
      returns (result: Uuid)
      requires Valid()
      requires bidId !in Ids(rows)
      modifies this
      ensures Valid()
      ensures result == bidId
      ensures rows == old(rows) + [BidRow(data.bidAmount, data.songId, bidId, Queued, createdAt, updatedAt)]
      ensures Step(old(rows), rows)
    {
      var row := BidRow(data.bidAmount, data.songId, bidId, Queued, createdAt, updatedAt);
      assert forall i :: 0 <= i < |rows| ==> rows[i].bidId != bidId by {
        assert forall i :: 0 <= i < |rows| ==> rows[i] in rows;
      }
      rows := rows + [row];
      result := bidId;
    }

    /** Chooses a song whose queued total is maximal (any one of them when
        several tie, as the database may), moves every queued row of that
        song to playing with `updated_at = now`, and returns those rows.
        Nothing stops it from running while another song is still playing. */
    method PlayNextSong(now: Timestamp) returns (played: seq<BidRow>, ghost top: string)
      requires Valid()
      modifies this
      ensures Valid()
      ensures QueuedSongs(old(rows)) != {} ==> IsTopSong(old(rows), top)
      ensures rows == Promote(old(rows), top, now)
      ensures played == PromotedRows(old(rows), top, now)
      ensures QueuedSongs(old(rows)) == {} ==> played == [] && rows == old(rows)
      ensures PlayingSongs(old(rows)) == {} ==> PlayingSongs(rows) <= {top}
    {
      if QueuedSongs(rows) == {} {
        top := "";
        NothingQueuedNoChange(rows, top, now);
        played := [];
      } else {
        TopSongExists(rows);
        var song :| song in QueuedSongs(rows) && IsTopSong(rows, song);
        top := song;
        if PlayingSongs(rows) == {} {
          PromoteSinglePlaying(rows, song, now);
        }
        PromoteKeepsInvariant(rows, song, now);
        played := PromotedRows(rows, song, now);
        rows := Promote(rows, song, now);
      }
    }

    /** Moves every playing row to finalized with `updated_at = now` and
        returns those rows. The query at cockroach.go:196-199 has a stray
        `AND` before `RETURNING`, which the SQL parser rejects, so the code as
        written reports an error on every call; this is the update its comment
        and its test describe. */
    method FinalizeCurrentSong(now: Timestamp) returns (finalized: seq<BidRow>)
      requires Valid()
      modifies this
      ensures Valid()
      ensures rows == Finalize(old(rows), now)
      ensures finalized == FinalizedRows(old(rows), now)
      ensures PlayingSongs(rows) == {}
      ensures PlayingSongs(old(rows)) == {} ==> finalized == [] && rows == old(rows)
    {
      FinalizeIdempotent(rows, now, now);
      if PlayingSongs(rows) == {} {
        NothingPlayingNoChange(rows, now);
      }
      FinalizeKeepsInvariant(rows, now);
      finalized := FinalizedRows(rows, now);
      rows := Finalize(rows, now);
    }

    /** `TRUNCATE tbl_bid`: every row is gone, so every read is empty. */
    method ClearRows()
      modifies this
      ensures Valid()
      ensures rows == []
      ensures GetBids(rows) == []
      ensures GetBidsGroupBySongId(rows) == []
      ensures GetHighestBid(rows) == PostBidData(0, "")
    {
      rows := [];
    }
  }

  /** Posts the four bids of the ranking tests on an empty ledger. */
  method PostTestBids(db: Database, a1: Uuid, a2: Uuid, b1: Uuid, b2: Uuid, now: Timestamp)
    requires db.Valid() && db.rows == []
    requires a1 != a2 && a1 != b1 && a1 != b2 && a2 != b1 && a2 != b2 && b1 != b2
    modifies db
    ensures db.Valid()
    ensures db.rows == TestTable(a1, a2, b1, b2, now)
  {
    var id := db.PostBid(PostBidData(2, "song-a"), a1, now, now);
    id := db.PostBid(PostBidData(2, "song-a"), a2, now, now);
    id := db.PostBid(PostBidData(5, "song-b"), b1, now, now);
    id := db.PostBid(PostBidData(5, "song-b"), b2, now, now);
  }

  /** Posting any sequence of bids on an empty ledger and then listing it
      yields exactly those bids, all queued, with the given amounts, songs and
      ids (in some order). */
  method PostThenList(bids: seq<PostBidData>, ids: seq<Uuid>, now: Timestamp) returns (listed: seq<BidRow>)
    requires |ids| == |bids|
    requires forall i, j :: 0 <= i < j < |ids| ==> ids[i] != ids[j]
    ensures multiset(listed) ==
      multiset(seq(|bids|, i requires 0 <= i < |bids| =>
        BidRow(bids[i].bidAmount, bids[i].songId, ids[i], Queued, now, now)))
    ensures forall x :: x in listed ==> IsQueued(x)
  {
    var expected := seq(|bids|, i requires 0 <= i < |bids| =>
      BidRow(bids[i].bidAmount, bids[i].songId, ids[i], Queued, now, now));
    var db := new Database();
    var n := 0;
    while n < |bids|
      invariant 0 <= n <= |bids|
      invariant db.Valid()
      invariant db.rows == expected[..n]
    {
      assert ids[n] !in Ids(db.rows) by {
        forall r | r in db.rows ensures r.bidId != ids[n] {
          var k :| 0 <= k < n && db.rows[k] == r;
        }
      }
      var id := db.PostBid(bids[n], ids[n], now, now);
      assert expected[..n + 1] == expected[..n] + [expected[n]];
      n := n + 1;
    }
    assert expected[..n] == expected;
    listed := GetBids(db.rows);
    assert forall x :: x in listed ==> x in expected;
  }

  /** The grouping test: "song-b" with 10 first, then "song-a" with 4. */
  method GroupBySongIdTest(a1: Uuid, a2: Uuid, b1: Uuid, b2: Uuid, now: Timestamp)
    returns (results: seq<PostBidData>)
    requires a1 != a2 && a1 != b1 && a1 != b2 && a2 != b1 && a2 != b2 && b1 != b2
    ensures results == [PostBidData(10, "song-b"), PostBidData(4, "song-a")]
  {
    var db := new Database();
    PostTestBids(db, a1, a2, b1, b2, now);
    results := GetBidsGroupBySongId(db.rows);
    TestTableRanking(a1, a2, b1, b2, now, results);
  }

  /** The highest-bid test: "song-b" with twice its bid of 5. */
  method HighestBidTest(a1: Uuid, a2: Uuid, b1: Uuid, b2: Uuid, now: Timestamp)
    returns (bid: PostBidData)
    requires a1 != a2 && a1 != b1 && a1 != b2 && a2 != b1 && a2 != b2 && b1 != b2
    ensures bid == PostBidData(10, "song-b")
  {
    var db := new Database();
    PostTestBids(db, a1, a2, b1, b2, now);
    TestTableTotals(a1, a2, b1, b2, now);
    bid := GetHighestBid(db.rows);
  }

  /** The highest bid of an empty ledger is the zero value. */
  method HighestBidEmptyTest() returns (bid: PostBidData)
    ensures bid == PostBidData(0, "")
  {
    var db := new Database();
    bid := GetHighestBid(db.rows);
  }

  /** The play test: both "song-b" rows, and only they, become playing;
      the "song-a" rows stay queued. */
  method PlayNextSongTest(a1: Uuid, a2: Uuid, b1: Uuid, b2: Uuid, now: Timestamp, playAt: Timestamp)
    returns (played: seq<BidRow>, after: seq<BidRow>)
    requires a1 != a2 && a1 != b1 && a1 != b2 && a2 != b1 && a2 != b2 && b1 != b2
    ensures played == [BidRow(5, "song-b", b1, Playing, now, playAt), BidRow(5, "song-b", b2, Playing, now, playAt)]
    ensures after == [BidRow(2, "song-a", a1, Queued, now, now), BidRow(2, "song-a", a2, Queued, now, now),
                      BidRow(5, "song-b", b1, Playing, now, playAt), BidRow(5, "song-b", b2, Playing, now, playAt)]
  {
    var db := new Database();
    PostTestBids(db, a1, a2, b1, b2, now);
    ghost var top;
    QueuedSongsHas(db.rows);
    played, top := db.PlayNextSong(playAt);
    TestTablePlay(a1, a2, b1, b2, now, playAt, top);
    after := db.rows;
  }

  /** On the test table the only song with the maximal total is "song-b";
      playing it yields its two rows and leaves the "song-a" rows queued. */
  lemma TestTablePlay(a1: Uuid, a2: Uuid, b1: Uuid, b2: Uuid, now: Timestamp, playAt: Timestamp, top: string)
    requires IsTopSong(TestTable(a1, a2, b1, b2, now), top)
    ensures top == "song-b"
    ensures PromotedRows(TestTable(a1, a2, b1, b2, now), top, playAt) ==
      [BidRow(5, "song-b", b1, Playing, now, playAt), BidRow(5, "song-b", b2, Playing, now, playAt)]
    ensures Promote(TestTable(a1, a2, b1, b2, now), top, playAt) ==
      [BidRow(2, "song-a", a1, Queued, now, now), BidRow(2, "song-a", a2, Queued, now, now),
       BidRow(5, "song-b", b1, Playing, now, playAt), BidRow(5, "song-b", b2, Playing, now, playAt)]
  {
    var t := TestTable(a1, a2, b1, b2, now);
    TestTableTotals(a1, a2, b1, b2, now);
    assert top == "song-b";
    TestTablePromoted(t, top, playAt);
  }

  /** The rows playing yields when exactly the last two of four rows are
      queued rows of the chosen song. */
  lemma TestTablePromoted(t: seq<BidRow>, song: string, playAt: Timestamp)
    requires |t| == 4
    requires !ChosenForPlay(t[0], song) && !ChosenForPlay(t[1], song)
    requires ChosenForPlay(t[2], song) && ChosenForPlay(t[3], song)
    ensures PromotedRows(t, song, playAt) == [MarkPlaying(t[2], playAt), MarkPlaying(t[3], playAt)]
  {
    var t3 := t[3..];
    assert t3[1..] == [];
    var p3 := PromotedRows(t3, song, playAt);
    assert p3 == [MarkPlaying(t[3], playAt)];
    var t2 := t[2..];
    assert t2[1..] == t3;
    var p2 := PromotedRows(t2, song, playAt);
    assert p2 == [MarkPlaying(t[2], playAt)] + p3;
    var t1 := t[1..];
    assert t1[1..] == t2;
    assert PromotedRows(t1, song, playAt) == p2;
    assert PromotedRows(t, song, playAt) == p2;
  }

  /** Playing on an empty ledger returns no rows. */
  method PlayNextSongEmptyTest(now: Timestamp) returns (played: seq<BidRow>)
    ensures played == []
  {
    var db := new Database();
    ghost var top;
    played, top := db.PlayNextSong(now);
  }

  /** The finalize test: after the play, finalizing returns the two "song-b"
      rows, now finalized; finalizing again at once returns nothing. */
  method FinalizeTest(a1: Uuid, a2: Uuid, b1: Uuid, b2: Uuid, now: Timestamp, playAt: Timestamp,
                      doneAt: Timestamp, againAt: Timestamp)
    returns (finalized: seq<BidRow>, again: seq<BidRow>)
    requires a1 != a2 && a1 != b1 && a1 != b2 && a2 != b1 && a2 != b2 && b1 != b2
    ensures finalized == [BidRow(5, "song-b", b1, Finalized, now, doneAt), BidRow(5, "song-b", b2, Finalized, now, doneAt)]
    ensures again == []
  {
    var db := new Database();
    PostTestBids(db, a1, a2, b1, b2, now);
    ghost var top;
    var played;
    QueuedSongsHas(db.rows);
    played, top := db.PlayNextSong(playAt);
    TestTablePlay(a1, a2, b1, b2, now, playAt, top);
    var t := db.rows;
    assert t == [BidRow(2, "song-a", a1, Queued, now, now), BidRow(2, "song-a", a2, Queued, now, now),
                 BidRow(5, "song-b", b1, Playing, now, playAt), BidRow(5, "song-b", b2, Playing, now, playAt)];
    TestTableFinalize(t, doneAt);
    finalized := db.FinalizeCurrentSong(doneAt);
    again := db.FinalizeCurrentSong(againAt);
  }

  /** The rows finalizing yields when exactly the last two rows are playing. */
  lemma TestTableFinalize(t: seq<BidRow>, doneAt: Timestamp)
    requires |t| == 4
    requires !IsPlaying(t[0]) && !IsPlaying(t[1]) && IsPlaying(t[2]) && IsPlaying(t[3])
    ensures FinalizedRows(t, doneAt) == [MarkFinalized(t[2], doneAt), MarkFinalized(t[3], doneAt)]
  {
    var t3 := t[3..];
    assert t3[1..] == [];
    var f3 := FinalizedRows(t3, doneAt);
    assert f3 == [MarkFinalized(t[3], doneAt)];
    var t2 := t[2..];
    assert t2[1..] == t3;
    var f2 := FinalizedRows(t2, doneAt);
    assert f2 == [MarkFinalized(t[2], doneAt)] + f3;
    var t1 := t[1..];
    assert t1[1..] == t2;
    assert FinalizedRows(t1, doneAt) == f2;
    assert FinalizedRows(t, doneAt) == f2;
  }
}
