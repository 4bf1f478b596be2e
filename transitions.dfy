/** The two batch updates of the bid ledger, as functions of the table:
    `UPDATE ... SET song_status = 1` on the queued rows of one song (the
    effect of PlayNextSong) and `UPDATE ... SET song_status = 2` on every
    playing row (the effect of FinalizeCurrentSong), each with the rows its
    `RETURNING` clause yields. */
module Transitions {
  import opened BidRows
  import opened Ranking

  /** The rows PlayNextSong's update selects once `song` has been ranked first. */
  predicate ChosenForPlay(r: BidRow, song: string) {
    IsQueued(r) && r.songId == song
  }

  /** A row after `SET (song_status, updated_at) = (1, now)`. */
  function MarkPlaying(r: BidRow, now: Timestamp): BidRow {
    r.(songStatus := Playing, updatedAt := now)
  }

  /** A row after `SET (song_status, updated_at) = (2, now)`. */
  function MarkFinalized(r: BidRow, now: Timestamp): BidRow {
    r.(songStatus := Finalized, updatedAt := now)
  }

  /** The sum of the amounts of some rows. */
  function SumAmounts(rows: seq<BidRow>): int {
    if rows == [] then 0 else rows[0].bidAmount + SumAmounts(rows[1..])
  }

  /** How many rows PlayNextSong's update selects once `song` is chosen. */
  function CountChosen(t: seq<BidRow>, song: string): nat {
    if t == [] then 0 else (if ChosenForPlay(t[0], song) then 1 else 0) + CountChosen(t[1..], song)
  }

  /** How many rows FinalizeCurrentSong's update selects. */
  function CountPlaying(t: seq<BidRow>): nat {
    if t == [] then 0 else (if IsPlaying(t[0]) then 1 else 0) + CountPlaying(t[1..])
  }

  /** The table after PlayNextSong has chosen `song`: the queued rows of that
      song are playing and stamped with `now`; every other row is untouched. */
  function Promote(t: seq<BidRow>, song: string, now: Timestamp): (u: seq<BidRow>)
    ensures |u| == |t|
    ensures forall i :: 0 <= i < |t| && ChosenForPlay(t[i], song) ==>
      SameBid(t[i], u[i]) && u[i].songStatus == Playing && u[i].updatedAt == now
    ensures forall i :: 0 <= i < |t| && !ChosenForPlay(t[i], song) ==> u[i] == t[i]
    ensures Step(t, u)
  {
    seq(|t|, i requires 0 <= i < |t| =>
      if ChosenForPlay(t[i], song) then MarkPlaying(t[i], now) else t[i])
  }

  /** The rows PlayNextSong's `RETURNING` clause yields: one per updated
      row, so each selected row appears as often as it occurs. `RETURNING`
      promises no order; listing them in table order is this model's choice. */
  function PromotedRows(t: seq<BidRow>, song: string, now: Timestamp): (played: seq<BidRow>)
    ensures forall x :: x in played <==>
      exists i :: 0 <= i < |t| && ChosenForPlay(t[i], song) && x == MarkPlaying(t[i], now)
    ensures forall x :: x in played ==> x.songId == song && x.songStatus == Playing && x.updatedAt == now
    ensures SumAmounts(played) == QueuedTotal(t, song)
    ensures |played| == CountChosen(t, song)
  {
    if t == [] then []
    else
      var rest := PromotedRows(t[1..], song, now);
      assert forall i :: 1 <= i < |t| ==> t[i] == t[1..][i - 1];
      if ChosenForPlay(t[0], song) then [MarkPlaying(t[0], now)] + rest else rest
  }

  /** The table after FinalizeCurrentSong: every playing row is finalized and
      stamped with `now`; every other row is untouched. */
  function Finalize(t: seq<BidRow>, now: Timestamp): (u: seq<BidRow>)
    ensures |u| == |t|
    ensures forall i :: 0 <= i < |t| && IsPlaying(t[i]) ==>
      SameBid(t[i], u[i]) && u[i].songStatus == Finalized && u[i].updatedAt == now
    ensures forall i :: 0 <= i < |t| && !IsPlaying(t[i]) ==> u[i] == t[i]
    ensures Step(t, u)
  {
    seq(|t|, i requires 0 <= i < |t| =>
      if IsPlaying(t[i]) then MarkFinalized(t[i], now) else t[i])
  }

  /** The rows FinalizeCurrentSong's `RETURNING` clause yields: one per
      updated row. `RETURNING` promises no order; listing them in table order
      is this model's choice. */
  function FinalizedRows(t: seq<BidRow>, now: Timestamp): (done: seq<BidRow>)
    ensures forall x :: x in done <==>
      exists i :: 0 <= i < |t| && IsPlaying(t[i]) && x == MarkFinalized(t[i], now)
    ensures forall x :: x in done ==> x.songStatus == Finalized && x.updatedAt == now
    ensures done == [] <==> PlayingSongs(t) == {}
    ensures |done| == CountPlaying(t)
  {
    if t == [] then []
    else
      var rest := FinalizedRows(t[1..], now);
      assert forall i :: 1 <= i < |t| ==> t[i] == t[1..][i - 1];
      PlayingSongsCons(t);
      if IsPlaying(t[0]) then [MarkFinalized(t[0], now)] + rest else rest
  }

  /** The playing songs of a table are those of its first row and its rest. */
  lemma PlayingSongsCons(t: seq<BidRow>)
    requires t != []
    ensures PlayingSongs(t) == (if IsPlaying(t[0]) then {t[0].songId} else {}) + PlayingSongs(t[1..])
  {
    assert t == [t[0]] + t[1..];
  }

  /** The play update keeps bid ids unique and statuses within 0..2. */
  lemma PromoteKeepsInvariant(t: seq<BidRow>, song: string, now: Timestamp)
    requires UniqueIds(t) && KnownStatuses(t)
    ensures UniqueIds(Promote(t, song, now)) && KnownStatuses(Promote(t, song, now))
  {
    var u := Promote(t, song, now);
    assert forall i :: 0 <= i < |t| ==> u[i].bidId == t[i].bidId;
  }

  /** The finalize update keeps bid ids unique and statuses within 0..2. */
  lemma FinalizeKeepsInvariant(t: seq<BidRow>, now: Timestamp)
    requires UniqueIds(t) && KnownStatuses(t)
    ensures UniqueIds(Finalize(t, now)) && KnownStatuses(Finalize(t, now))
  {
    var u := Finalize(t, now);
    assert forall i :: 0 <= i < |t| ==> u[i].bidId == t[i].bidId;
  }

  /** With nothing queued, PlayNextSong's update changes no row and returns none. */
  lemma NothingQueuedNoChange(t: seq<BidRow>, song: string, now: Timestamp)
    requires QueuedSongs(t) == {}
    ensures Promote(t, song, now) == t
    ensures PromotedRows(t, song, now) == []
  {
    QueuedSongsHas(t);
    assert forall i :: 0 <= i < |t| ==> !ChosenForPlay(t[i], song);
    var played := PromotedRows(t, song, now);
    assert forall k :: 0 <= k < |played| ==> played[k] in played;
  }

  /** After the update the chosen song has no queued rows left, so it leaves
      the ranking, while every other song keeps its queued total. */
  lemma PromoteLeavesRanking(t: seq<BidRow>, song: string, now: Timestamp, other: string)
    ensures QueuedTotal(Promote(t, song, now), song) == 0
    ensures other != song ==> QueuedTotal(Promote(t, song, now), other) == QueuedTotal(t, other)
    ensures QueuedSongs(Promote(t, song, now)) == QueuedSongs(t) - {song}
  {
    var u := Promote(t, song, now);
    QueuedTotalNone(u, song);
    if other != song {
      QueuedTotalPointwise(t, u, other);
    }
    forall s | s in QueuedSongs(t) - {song} ensures s in QueuedSongs(u) {
      var r :| r in t && IsQueued(r) && r.songId == s;
      var i :| 0 <= i < |t| && t[i] == r;
      assert u[i] in u;
    }
    forall s | s in QueuedSongs(u) ensures s in QueuedSongs(t) - {song} {
      var r :| r in u && IsQueued(r) && r.songId == s;
      var i :| 0 <= i < |u| && u[i] == r;
      assert t[i] in t;
    }
  }

  /** When no row was playing before, every playing row afterwards belongs to
      the chosen song: one song plays at a time. */
  lemma PromoteSinglePlaying(t: seq<BidRow>, song: string, now: Timestamp)
    requires PlayingSongs(t) == {}
    ensures PlayingSongs(Promote(t, song, now)) <= {song}
  {
    var u := Promote(t, song, now);
    forall s | s in PlayingSongs(u) ensures s == song {
      var r :| r in u && IsPlaying(r) && r.songId == s;
      var i :| 0 <= i < |u| && u[i] == r;
      assert t[i] in t;
    }
  }

  /** Finalizing leaves nothing playing; at once again it changes nothing and
      returns no row, whatever the new time. */
  lemma FinalizeIdempotent(t: seq<BidRow>, now: Timestamp, later: Timestamp)
    ensures PlayingSongs(Finalize(t, now)) == {}
    ensures Finalize(Finalize(t, now), later) == Finalize(t, now)
    ensures FinalizedRows(Finalize(t, now), later) == []
  {
    var u := Finalize(t, now);
    assert forall r :: r in u ==> !IsPlaying(r);
  }

  /** With nothing playing, FinalizeCurrentSong's update changes no row. */
  lemma NothingPlayingNoChange(t: seq<BidRow>, now: Timestamp)
    requires PlayingSongs(t) == {}
    ensures Finalize(t, now) == t
  {
    PlayingSongsHas(t);
  }

  /** Finalizing does not touch queued rows, so the ranking is unchanged. */
  lemma FinalizeKeepsRanking(t: seq<BidRow>, now: Timestamp, song: string)
    ensures QueuedTotal(Finalize(t, now), song) == QueuedTotal(t, song)
  {
    QueuedTotalPointwise(t, Finalize(t, now), song);
  }

  /** Status monotonicity over a real run of the ledger: a bid is posted,
      a song is played, and the playing rows are finalized. No row of the
      starting table loses its bid fields or goes down in status. */
  lemma PostPlayFinalizeNoRegress(t: seq<BidRow>, row: BidRow, song: string, playAt: Timestamp, doneAt: Timestamp)
    ensures NoRegress(t, Finalize(Promote(t + [row], song, playAt), doneAt))
  {
    var posted := t + [row];
    var played := Promote(posted, song, playAt);
    var done := Finalize(played, doneAt);
    assert Step(t, posted) by {
      assert forall i :: 0 <= i < |t| ==> posted[i] == t[i];
    }
    StepNoRegress(t, posted);
    StepNoRegress(posted, played);
    StepNoRegress(played, done);
    NoRegressTransitive(t, posted, played);
    NoRegressTransitive(t, played, done);
  }

  /** Without the finalize in between, two plays in a row leave two songs
      playing: "song-a" (total 5) is chosen first, then "song-b" (total 2). */
  lemma PlayTwiceTwoSongsPlaying(ida: Uuid, idb: Uuid, now: Timestamp)
    requires ida != idb
    ensures var t := [BidRow(5, "song-a", ida, Queued, now, now), BidRow(2, "song-b", idb, Queued, now, now)];
            var once := Promote(t, "song-a", now);
            IsTopSong(t, "song-a") && IsTopSong(once, "song-b") &&
            PlayingSongs(Promote(once, "song-b", now)) == {"song-a", "song-b"}
  {
    var t := [BidRow(5, "song-a", ida, Queued, now, now), BidRow(2, "song-b", idb, Queued, now, now)];
    var rest := t[1..];
    assert rest[1..] == [];
    assert QueuedTotal(rest, "song-a") == Contribution(t[1], "song-a") + QueuedTotal(rest[1..], "song-a") == 0;
    assert QueuedTotal(rest, "song-b") == Contribution(t[1], "song-b") + QueuedTotal(rest[1..], "song-b") == 2;
    assert QueuedSongs(t) == {"song-a", "song-b"} by {
      assert t[0] in t && t[1] in t;
    }
    assert QueuedTotal(t, "song-a") == 5 && QueuedTotal(t, "song-b") == 2;
    var once := Promote(t, "song-a", now);
    PromoteLeavesRanking(t, "song-a", now, "song-b");
    assert QueuedSongs(once) == {"song-b"};
    var twice := Promote(once, "song-b", now);
    assert twice[0] in twice && twice[1] in twice;
    assert PlayingSongs(twice) == {"song-a", "song-b"};
  }
}
