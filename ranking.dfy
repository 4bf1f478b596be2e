/** The read queries on the bid ledger: every row, the per-song sum of queued
    bids ranked by total, and the top entry of that ranking. Each is a pure
    function of the table's rows. */
module Ranking {
  import opened BidRows

  /** What one row adds to the queued total of `song`. */
  function Contribution(r: BidRow, song: string): int {
    if IsQueued(r) && r.songId == song then r.bidAmount else 0
  }

  /** `SUM(bid_amount) ... WHERE song_status = 0 ... GROUP BY song_id`, for one song. */
  function QueuedTotal(t: seq<BidRow>, song: string): int {
    if t == [] then 0 else Contribution(t[0], song) + QueuedTotal(t[1..], song)
  }

  /** The song ids that have at least one queued row: the groups of the query. */
  function QueuedSongs(t: seq<BidRow>): set<string> {
    set r | r in t && IsQueued(r) :: r.songId
  }

  /** Every queued row's song is one of the queued songs. */
  lemma QueuedSongsHas(t: seq<BidRow>)
    ensures forall i :: 0 <= i < |t| && IsQueued(t[i]) ==> t[i].songId in QueuedSongs(t)
  {
    forall i | 0 <= i < |t| && IsQueued(t[i]) ensures t[i].songId in QueuedSongs(t) {
      assert t[i] in t;
    }
  }

  /** A song whose queued total is maximal among all queued songs. */
  predicate IsTopSong(t: seq<BidRow>, song: string) {
    song in QueuedSongs(t) &&
    forall other :: other in QueuedSongs(t) ==> QueuedTotal(t, other) <= QueuedTotal(t, song)
  }

  predicate NonIncreasing(s: seq<PostBidData>) {
    forall i, j :: 0 <= i < j < |s| ==> s[i].bidAmount >= s[j].bidAmount
  }

  predicate DistinctSongs(s: seq<PostBidData>) {
    forall i, j :: 0 <= i < j < |s| ==> s[i].songId != s[j].songId
  }

  /** What the grouped query may return: one entry per queued song, each
      carrying that song's queued total, ordered by total descending. The
      order among equal totals is left open, as the database leaves it. */
  ghost predicate IsRanking(t: seq<BidRow>, r: seq<PostBidData>) {
    && NonIncreasing(r)
    && DistinctSongs(r)
    && (forall i :: 0 <= i < |r| ==>
          r[i].songId in QueuedSongs(t) && r[i].bidAmount == QueuedTotal(t, r[i].songId))
    && (forall song :: song in QueuedSongs(t) ==>
          exists i :: 0 <= i < |r| && r[i].songId == song)
  }

  /** The queued songs of a table, each once. */
  function SongOrder(t: seq<BidRow>): (r: seq<string>)
    ensures forall i, j :: 0 <= i < j < |r| ==> r[i] != r[j]
    ensures forall song :: song in r <==> song in QueuedSongs(t)
  {
    if t == [] then []
    else
      var rest := SongOrder(t[1..]);
      assert forall song :: song in QueuedSongs(t) <==>
        (IsQueued(t[0]) && song == t[0].songId) || song in QueuedSongs(t[1..]) by {
        assert t == [t[0]] + t[1..];
      }
      if IsQueued(t[0]) && t[0].songId !in rest then [t[0].songId] + rest else rest
  }

  /** Inserts an entry into a ranking, after every entry with a larger total. */
  function InsertByAmount(x: PostBidData, s: seq<PostBidData>): (r: seq<PostBidData>)
    ensures |r| == |s| + 1
    ensures forall e :: e in r <==> e == x || e in s
    ensures multiset(r) == multiset(s) + multiset{x}
  {
    if s == [] || s[0].bidAmount <= x.bidAmount then [x] + s
    else
      assert s == [s[0]] + s[1..];
      [s[0]] + InsertByAmount(x, s[1..])
  }

  /** Inserting into a list ordered by total descending keeps it ordered. */
  lemma {:induction false} InsertKeepsOrder(x: PostBidData, s: seq<PostBidData>)
    requires NonIncreasing(s)
    ensures NonIncreasing(InsertByAmount(x, s))
  {
    if s != [] && s[0].bidAmount > x.bidAmount {
      var rest := InsertByAmount(x, s[1..]);
      InsertKeepsOrder(x, s[1..]);
      forall k | 0 <= k < |rest| ensures rest[k].bidAmount <= s[0].bidAmount {
        assert rest[k] in rest;
        if rest[k] != x {
          var j :| 0 <= j < |s[1..]| && s[1..][j] == rest[k];
          assert s[j + 1] == rest[k];
        }
      }
      assert InsertByAmount(x, s) == [s[0]] + rest;
    }
  }

  /** Inserting an entry for a new song keeps the songs distinct. */
  lemma {:induction false} InsertKeepsDistinct(x: PostBidData, s: seq<PostBidData>)
    requires DistinctSongs(s)
    requires forall e :: e in s ==> e.songId != x.songId
    ensures DistinctSongs(InsertByAmount(x, s))
  {
    if s == [] || s[0].bidAmount <= x.bidAmount {
      var r := [x] + s;
      assert forall k :: 1 <= k < |r| ==> r[k] == s[k - 1];
      assert forall k :: 0 <= k < |s| ==> s[k] in s;
    } else {
      var rest := InsertByAmount(x, s[1..]);
      assert forall e :: e in s[1..] ==> e in s;
      InsertKeepsDistinct(x, s[1..]);
      forall k | 0 <= k < |rest| ensures rest[k].songId != s[0].songId {
        assert rest[k] in rest;
        if rest[k] != x {
          var j :| 0 <= j < |s[1..]| && s[1..][j] == rest[k];
          assert s[j + 1] == rest[k];
        } else {
          assert s[0] in s;
        }
      }
      assert InsertByAmount(x, s) == [s[0]] + rest;
    }
  }

  /** Orders entries by total, descending (an insertion sort). */
  function SortByAmount(s: seq<PostBidData>): (r: seq<PostBidData>)
    ensures |r| == |s|
    ensures NonIncreasing(r)
    ensures forall e :: e in r <==> e in s
    ensures multiset(r) == multiset(s)
    ensures DistinctSongs(s) ==> DistinctSongs(r)
  {
    if s == [] then []
    else
      var rest := SortByAmount(s[1..]);
      assert s == [s[0]] + s[1..];
      assert forall e :: e in s <==> e == s[0] || e in s[1..];
      InsertKeepsOrder(s[0], rest);
      assert DistinctSongs(s) ==> DistinctSongs(InsertByAmount(s[0], rest)) by {
        if DistinctSongs(s) {
          assert DistinctSongs(s[1..]);
          forall e | e in rest ensures e.songId != s[0].songId {
            var j :| 0 <= j < |s[1..]| && s[1..][j] == e;
            assert s[j + 1] == e;
          }
          InsertKeepsDistinct(s[0], rest);
        }
      }
      InsertByAmount(s[0], rest)
  }

  /** `SELECT * FROM tbl_bid`: every row, whatever its status. The query has
      no ORDER BY, so only the rows themselves are promised, not their order. */
  function GetBids(t: seq<BidRow>): (r: seq<BidRow>)
    ensures multiset(r) == multiset(t)
  {
    t
  }

  /** The (song, queued total) entry of each song in `songs`: every entry
      carries its song's total, every song has an entry, and distinct songs
      give distinct entries. */
  function SongTotals(t: seq<BidRow>, songs: seq<string>): (r: seq<PostBidData>)
    ensures |r| == |songs|
    ensures forall e :: e in r ==> e.songId in songs && e.bidAmount == QueuedTotal(t, e.songId)
    ensures forall song :: song in songs ==> exists e :: e in r && e.songId == song
    ensures (forall i, j :: 0 <= i < j < |songs| ==> songs[i] != songs[j]) ==> DistinctSongs(r)
  {
    var r := seq(|songs|, i requires 0 <= i < |songs| => PostBidData(QueuedTotal(t, songs[i]), songs[i]));
    assert forall song :: song in songs ==> exists e :: e in r && e.songId == song by {
      forall song | song in songs ensures exists e :: e in r && e.songId == song {
        var k :| 0 <= k < |songs| && songs[k] == song;
        assert r[k] in r;
      }
    }
    r
  }

  /** Sorting the totals of the distinct queued songs yields a ranking. */
  lemma SortedTotalsRank(t: seq<BidRow>)
    ensures IsRanking(t, SortByAmount(SongTotals(t, SongOrder(t))))
  {
    var songs := SongOrder(t);
    var totals := SongTotals(t, songs);
    var r := SortByAmount(totals);
    assert DistinctSongs(totals);
    forall i | 0 <= i < |r|
      ensures r[i].songId in QueuedSongs(t) && r[i].bidAmount == QueuedTotal(t, r[i].songId)
    {
      assert r[i] in r;
    }
    forall song | song in QueuedSongs(t)
      ensures exists i :: 0 <= i < |r| && r[i].songId == song
    {
      var e :| e in totals && e.songId == song;
      assert e in r;
      var i :| 0 <= i < |r| && r[i] == e;
    }
  }

  /** `SELECT SUM(bid_amount) AS bid, song_id FROM tbl_bid WHERE song_status = 0
      GROUP BY song_id ORDER BY bid DESC`. */
  function GetBidsGroupBySongId(t: seq<BidRow>): (r: seq<PostBidData>)
    ensures IsRanking(t, r)
    ensures r == [] <==> QueuedSongs(t) == {}
  {
    SortedTotalsRank(t);
    var r := SortByAmount(SongTotals(t, SongOrder(t)));
    assert r != [] ==> r[0].songId in QueuedSongs(t);
    assert QueuedSongs(t) != {} ==> r != [] by {
      if QueuedSongs(t) != {} {
        var song :| song in QueuedSongs(t);
      }
    }
    r
  }

  /** The first entry of a ranking is a song with the maximal queued total. */
  lemma {:induction false} RankingHeadIsTop(t: seq<BidRow>, r: seq<PostBidData>)
    requires IsRanking(t, r)
    requires r != []
    ensures IsTopSong(t, r[0].songId)
    ensures r[0].bidAmount == QueuedTotal(t, r[0].songId)
  {
    forall other | other in QueuedSongs(t)
      ensures QueuedTotal(t, other) <= QueuedTotal(t, r[0].songId)
    {
      var i :| 0 <= i < |r| && r[i].songId == other;
      assert i == 0 || r[0].bidAmount >= r[i].bidAmount;
    }
  }

  /** The same query with `LIMIT 1`, scanned into a zero-initialised
      `PostBidData`: the top entry, or `(0, "")` when nothing is queued. */
  function GetHighestBid(t: seq<BidRow>): (r: PostBidData)
    ensures QueuedSongs(t) == {} ==> r == PostBidData(0, "")
    ensures QueuedSongs(t) != {} ==>
      IsTopSong(t, r.songId) && r.bidAmount == QueuedTotal(t, r.songId)
  {
    var ranked := GetBidsGroupBySongId(t);
    if ranked == [] then PostBidData(0, "")
    else
      RankingHeadIsTop(t, ranked);
      ranked[0]
  }

  /** Whenever something is queued, some song has the maximal total. */
  lemma TopSongExists(t: seq<BidRow>)
    requires QueuedSongs(t) != {}
    ensures exists song :: IsTopSong(t, song)
  {
    assert IsTopSong(t, GetHighestBid(t).songId);
  }

  /** The song ids named by the entries of a ranking. */
  function SongIds(r: seq<PostBidData>): (ids: set<string>)
    ensures forall song :: song in ids <==> exists i :: 0 <= i < |r| && r[i].songId == song
  {
    if r == [] then {}
    else
      var rest := SongIds(r[1..]);
      assert forall i :: 1 <= i < |r| ==> r[i] == r[1..][i - 1];
      {r[0].songId} + rest
  }

  /** Entries with pairwise distinct songs name as many songs as there are entries. */
  lemma {:induction false} DistinctSongsCount(r: seq<PostBidData>)
    requires DistinctSongs(r)
    ensures |SongIds(r)| == |r|
  {
    if r != [] {
      var rest := r[1..];
      assert DistinctSongs(rest);
      DistinctSongsCount(rest);
      assert forall k :: 0 <= k < |rest| ==> rest[k] == r[k + 1];

    }
  }

  /** A ranking has exactly one entry per queued song. */
  lemma RankingLength(t: seq<BidRow>, r: seq<PostBidData>)
    requires IsRanking(t, r)
    ensures |r| == |QueuedSongs(t)|
  {
    DistinctSongsCount(r);
    assert SongIds(r) == QueuedSongs(t) by {
      forall song | song in SongIds(r) ensures song in QueuedSongs(t) {
        var i :| 0 <= i < |r| && r[i].songId == song;
      }
    }
  }

  /** Tables that agree row by row on what they contribute to a song have the
      same queued total for it. */
  lemma {:induction false} QueuedTotalPointwise(t: seq<BidRow>, u: seq<BidRow>, song: string)
    requires |t| == |u|
    requires forall i :: 0 <= i < |t| ==> Contribution(t[i], song) == Contribution(u[i], song)
    ensures QueuedTotal(t, song) == QueuedTotal(u, song)
  {
    if t != [] {
      QueuedTotalPointwise(t[1..], u[1..], song);
    }
  }

  /** A table in which no row is a queued bid for `song` gives it total zero. */
  lemma {:induction false} QueuedTotalNone(t: seq<BidRow>, song: string)
    requires forall i :: 0 <= i < |t| ==> !(IsQueued(t[i]) && t[i].songId == song)
    ensures QueuedTotal(t, song) == 0
  {
    if t != [] {
      QueuedTotalNone(t[1..], song);
    }
  }

  /** Appending a row adds its amount to its own song's total when it is
      queued, and leaves every other total as it was. */
  lemma {:induction false} QueuedTotalAppend(t: seq<BidRow>, row: BidRow, song: string)
    ensures QueuedTotal(t + [row], song) == QueuedTotal(t, song) + Contribution(row, song)
  {
    if t == [] {
      assert [row][1..] == [];
    } else {
      assert (t + [row])[1..] == t[1..] + [row];
      QueuedTotalAppend(t[1..], row, song);
    }
  }

  /** Appending a queued row adds its song to the queued songs. */
  lemma QueuedSongsAppend(t: seq<BidRow>, row: BidRow)
    ensures QueuedSongs(t + [row]) == QueuedSongs(t) + (if IsQueued(row) then {row.songId} else {})
  {
    assert forall r :: r in t + [row] <==> r in t || r == row;
  }

  /** The table of the ranking tests: two bids of 2 on "song-a" and two bids
      of 5 on "song-b", all queued. */
  function TestTable(a1: Uuid, a2: Uuid, b1: Uuid, b2: Uuid, now: Timestamp): seq<BidRow> {
    [BidRow(2, "song-a", a1, Queued, now, now), BidRow(2, "song-a", a2, Queued, now, now),
     BidRow(5, "song-b", b1, Queued, now, now), BidRow(5, "song-b", b2, Queued, now, now)]
  }

  /** The queued songs of the test table and their totals, 4 and 10. */
  lemma TestTableTotals(a1: Uuid, a2: Uuid, b1: Uuid, b2: Uuid, now: Timestamp)
    ensures QueuedSongs(TestTable(a1, a2, b1, b2, now)) == {"song-a", "song-b"}
    ensures QueuedTotal(TestTable(a1, a2, b1, b2, now), "song-a") == 4
    ensures QueuedTotal(TestTable(a1, a2, b1, b2, now), "song-b") == 10
  {
    var t := TestTable(a1, a2, b1, b2, now);
    assert t[0] in t && t[2] in t;
    assert t[3..][1..] == [];
    assert QueuedTotal(t[3..], "song-a") == 0 && QueuedTotal(t[3..], "song-b") == 5;
    assert t[2..][1..] == t[3..];
    assert QueuedTotal(t[2..], "song-a") == 0 && QueuedTotal(t[2..], "song-b") == 10;
    assert t[1..][1..] == t[2..];
    assert QueuedTotal(t[1..], "song-a") == 2 && QueuedTotal(t[1..], "song-b") == 10;
  }

  /** On the test table every permitted ranking is exactly
      [("song-b", 10), ("song-a", 4)]: the totals differ, so no tie is left
      for the database to order. */
  lemma TestTableRanking(a1: Uuid, a2: Uuid, b1: Uuid, b2: Uuid, now: Timestamp, r: seq<PostBidData>)
    requires IsRanking(TestTable(a1, a2, b1, b2, now), r)
    ensures r == [PostBidData(10, "song-b"), PostBidData(4, "song-a")]
  {
    var t := TestTable(a1, a2, b1, b2, now);
    TestTableTotals(a1, a2, b1, b2, now);
    var ia :| 0 <= ia < |r| && r[ia].songId == "song-a";
    var ib :| 0 <= ib < |r| && r[ib].songId == "song-b";
    RankingLength(t, r);
    assert ia != ib;
    assert |r| == 2;
    if ia < ib {
      assert false;
    }
  }
}
