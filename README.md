# song-bid bid ledger, modelled in Dafny

song-bid is a crowd-funded jukebox. Listeners post bids of money on a song.
The ledger keeps each bid as a row of the `tbl_bid` table. A row is queued
(status 0), playing (status 1) or finalized (status 2). "Play next" sums the
queued bids per song and picks a song with the highest total. It then moves
every queued row of that song to playing. "Finalize" moves every playing row
to finalized. The music server, as written, never reads the ledger: its
polling loop plays only from `trackGenerator`, a counter that cycles through
ten fixed track URIs (its log line says it reads the bids database, and
`getNextSong` is never called).

This project models both parts:

- `bid_rows.dfy` (module `BidRows`): the row and post records, the status
  constants, and the relations for how a row may change. `Step` is one
  operation. `NoRegress` is any run of operations.
- `ranking.dfy` (module `Ranking`): the read queries as pure functions of the
  table. These are `GetBids`, `GetBidsGroupBySongId` (group-by-sum, ordered by
  total descending) and `GetHighestBid` (the same query with `LIMIT 1`).
  `IsRanking` says what any permitted answer of the grouped query looks like.
  The database leaves the order of tied totals open, and so does `IsRanking`.
- `transitions.dfy` (module `Transitions`): the two batch updates as functions
  of the table, and the rows their `RETURNING` clauses yield.
- `cockroach.dfy` (module `Cockroach`): the `Database` class. It holds the
  table as `rows: seq<BidRow>`. Its methods are `PostBid`, `PlayNextSong`,
  `FinalizeCurrentSong` and `ClearRows`. The module also has methods that
  state the package's test cases as contracts on a cleared ledger.
- `player.dfy` (module `Player`): `TrackGenerator`. The closure's captured
  counter becomes a field, and the closure call becomes `Next`.

`uuid.New()` and `time.Now()` are parameters. `PostBid` takes the new bid id
and requires that the id is not already in the table. It also takes two
timestamps, because the code reads the clock once for `created_at` and again
for `updated_at`. The other stamping operations take `now`. `PlayNextSong` picks its song with `:|` from all songs
whose total is maximal. This models the engine's free choice among ties. The
chosen song is exposed as a ghost out-parameter `top`.

`PostBid` checks nothing. It accepts zero or negative amounts and an empty
song id, because the code has no validation. `PlayNextSong` has no guard
against a song that is already playing. The one-song-at-a-time rule holds
only if each play is finalized before the next. `PromoteSinglePlaying` proves
the rule under that discipline. `PlayTwiceTwoSongsPlaying` shows two songs
playing when the discipline is broken.

The finalize query at cockroach/cockroach.go:196-199 has a stray `AND` right
before `RETURNING`. An SQL parser would reject it, so the Go function as
written would return an error on every call. The model follows the update that the
function's comment (cockroach/cockroach.go:195) and its test
(cockroach/cockroach_test.go:274-290) describe. The defect is also recorded
at `Database.FinalizeCurrentSong`.

## Model

| member | source | states |
|---|---|---|
| `BidRows.StepNoRegress` | cockroach/cockroach.go:172 | an operation that changes each row by at most one status step never lowers a status or edits amount, song, id or creation time |
| `BidRows.NoRegressTransitive` | cockroach/cockroach.go:197 | status monotonicity and immutability of the bid fields compose over any run of operations |
| `BidRows.TwoStepsBounded` | cockroach/cockroach.go:172-199 | over two operations a status rises by at most two, and rising by two means it passed through the middle status |
| `Ranking.SongOrder` | cockroach/cockroach.go:145 | lists each song that has a queued row exactly once and no other song |
| `Ranking.InsertByAmount` | cockroach/cockroach.go:145 | inserting an entry adds exactly that entry, once, and keeps all others with their multiplicities |
| `Ranking.InsertKeepsOrder` | cockroach/cockroach.go:145 | inserting into a list ordered by total descending keeps it ordered |
| `Ranking.InsertKeepsDistinct` | cockroach/cockroach.go:145 | inserting an entry for a song not yet listed keeps the songs distinct |
| `Ranking.SortByAmount` | cockroach/cockroach.go:145 | the result is ordered by total descending, is a permutation of the input (same multiset of entries), and keeps songs distinct |
| `Ranking.GetBids` | cockroach/cockroach.go:105-123 | returns every row of the table whatever its status, each as often as it occurs; the order is open because the query has no ORDER BY |
| `Ranking.SortedTotalsRank` | cockroach/cockroach.go:143-160 | sorting the per-song queued sums gives a permitted ranking |
| `Ranking.GetBidsGroupBySongId` | cockroach/cockroach.go:142-160 | one entry per song with a queued row, each carrying that song's sum of queued bids, ordered by total descending; empty exactly when nothing is queued |
| `Ranking.RankingHeadIsTop` | cockroach/cockroach.go:127 | the first entry of any permitted ranking is a song whose queued total is maximal, with that total |
| `Ranking.GetHighestBid` | cockroach/cockroach.go:125-140 | with queued rows, returns a song with maximal queued total and that total; with none, returns the zero value (0, "") |
| `Ranking.TopSongExists` | cockroach/cockroach.go:173 | whenever some row is queued, some song has the maximal total, so the LIMIT 1 subquery yields a row |
| `Ranking.DistinctSongsCount` | cockroach/cockroach.go:145 | entries with distinct songs name as many songs as there are entries |
| `Ranking.RankingLength` | cockroach/cockroach.go:145 | any permitted ranking has exactly as many entries as there are queued songs |
| `Ranking.QueuedTotalPointwise` | cockroach/cockroach.go:145 | tables that agree row by row on what counts toward a song's queued sum give it the same sum |
| `Ranking.QueuedTotalNone` | cockroach/cockroach.go:145 | a song with no queued row has queued sum zero |
| `Ranking.QueuedTotalAppend` | cockroach/cockroach.go:89-102 | posting a bid adds its amount to its own song's queued sum and leaves every other song's sum unchanged |
| `Ranking.QueuedSongsAppend` | cockroach/cockroach.go:89-102 | posting a bid adds its song to the queued songs |
| `Ranking.TestTableTotals` | cockroach/cockroach_test.go:89-94 | the test bids give "song-a" a queued sum of 4 and "song-b" a queued sum of 10 |
| `Ranking.TestTableRanking` | cockroach/cockroach_test.go:104-123 | on the test bids every permitted ranking is exactly [("song-b", 10), ("song-a", 4)] |
| `Transitions.Promote` | cockroach/cockroach.go:171-174 | the queued rows of the chosen song become playing with updated_at = now and keep amount, song, id and created_at; every other row is unchanged |
| `Transitions.PromotedRows` | cockroach/cockroach.go:171-191 | the returned rows are exactly the chosen song's queued rows as updated, all playing, stamped now and of that song, and their amounts add up to the song's queued total; there is one returned row per updated row |
| `Transitions.Finalize` | cockroach/cockroach.go:195-199 | playing rows become finalized with updated_at = now and keep their bid fields; queued and finalized rows are unchanged |
| `Transitions.FinalizedRows` | cockroach/cockroach.go:194-217 | the returned rows are exactly the playing rows as finalized and stamped now; empty exactly when nothing was playing; there is one returned row per updated row |
| `Transitions.PromoteKeepsInvariant` | cockroach/cockroach.go:172-174 | the play update keeps bid ids unique and every status within 0..2 |
| `Transitions.FinalizeKeepsInvariant` | cockroach/cockroach.go:197-199 | the finalize update keeps bid ids unique and every status within 0..2 |
| `Transitions.NothingQueuedNoChange` | cockroach/cockroach_test.go:231-238 | with no queued row the play update changes nothing and returns no row |
| `Transitions.PromoteLeavesRanking` | cockroach/cockroach.go:172-174 | after the play update the chosen song has queued sum zero and leaves the queued songs; every other song keeps its queued sum |
| `Transitions.PromoteSinglePlaying` | cockroach/cockroach.go:163-165 | if nothing was playing before, every playing row afterwards belongs to the chosen song |
| `Transitions.FinalizeIdempotent` | cockroach/cockroach.go:195 | after finalizing nothing is playing; finalizing again at once changes nothing and returns no row |
| `Transitions.NothingPlayingNoChange` | cockroach/cockroach.go:197-199 | with nothing playing the finalize update changes no row |
| `Transitions.FinalizeKeepsRanking` | cockroach/cockroach.go:197-199 | finalizing leaves every song's queued sum unchanged |
| `Transitions.PostPlayFinalizeNoRegress` | cockroach/cockroach.go:89-199 | after posting a bid, playing a song and finalizing, every row of the starting table keeps its bid fields and no status has gone down |
| `Transitions.PlayTwiceTwoSongsPlaying` | cockroach/cockroach.go:163-174 | two plays without a finalize in between, each choosing a maximal song, leave two different songs playing |
| `Cockroach.Database.constructor` | cockroach/cockroach.go:28-31 | a cleared table, the state the package tests start from, which meets the key and status invariant |
| `Cockroach.Database.PostBid` | cockroach/cockroach.go:89-102 | appends exactly one row with the given amount and song, status 0, the two clock readings as created_at and updated_at, and the fresh id, which it returns; existing rows are unchanged |
| `Cockroach.Database.PlayNextSong` | cockroach/cockroach.go:168-192 | chooses a song with maximal queued total, sets status 1 and updated_at = now on exactly its queued rows and returns them; no change and no rows when nothing is queued; one song playing if none was before |
| `Cockroach.Database.FinalizeCurrentSong` | cockroach/cockroach.go:194-217 | sets status 2 and updated_at = now on exactly the playing rows and returns them; nothing is playing afterwards; no change and no rows when nothing was playing |
| `Cockroach.Database.ClearRows` | cockroach/cockroach.go:219-227 | the table is empty, so listing, grouping and the highest bid all give empty or zero results |
| `Cockroach.PostTestBids` | cockroach/cockroach_test.go:89-102 | posting the four test bids on an empty ledger gives the test table |
| `Cockroach.PostThenList` | cockroach/cockroach_test.go:96-102 | posting any sequence of bids with distinct ids and then listing returns exactly those bids, all queued, with their amounts, songs and ids |
| `Cockroach.GroupBySongIdTest` | cockroach/cockroach_test.go:83-125 | grouping the test bids gives [("song-b", 10), ("song-a", 4)] |
| `Cockroach.HighestBidTest` | cockroach/cockroach_test.go:127-165 | the highest bid on the test bids is "song-b" with 10 |
| `Cockroach.HighestBidEmptyTest` | cockroach/cockroach_test.go:167-183 | the highest bid on an empty ledger is (0, "") |
| `Cockroach.PlayNextSongTest` | cockroach/cockroach_test.go:185-223 | playing the test bids returns exactly the two "song-b" rows at status 1 and leaves the "song-a" rows queued |
| `Cockroach.TestTablePlay` | cockroach/cockroach_test.go:206-221 | on the test bids the only maximal song is "song-b", and playing it updates and returns exactly its two rows |
| `Cockroach.TestTablePromoted` | cockroach/cockroach_test.go:206-221 | when exactly the last two of four rows are the chosen song's queued rows, playing returns those two rows, updated |
| `Cockroach.PlayNextSongEmptyTest` | cockroach/cockroach_test.go:225-240 | playing on an empty ledger returns no rows |
| `Cockroach.FinalizeTest` | cockroach/cockroach_test.go:249-292 | after playing the test bids, finalizing returns the two "song-b" rows at status 2; the model adds a second finalize, which the test does not make, and it returns nothing |
| `Cockroach.TestTableFinalize` | cockroach/cockroach_test.go:274-290 | when exactly the last two of four rows are playing, finalizing returns those two rows finalized |
| `Player.TrackAt` | cmd/music-server/player.go:158 | the track for any counter value is one of the listed URIs, so the index never leaves the list |
| `Player.TrackAtPeriodic` | cmd/music-server/player.go:144-158 | the list has ten tracks, counter values ten apart give the same track, and counter 0 gives the first URI |
| `Player.TrackGenerator.constructor` | cmd/music-server/player.go:156 | the captured counter starts at zero |
| `Player.TrackGenerator.Next` | cmd/music-server/player.go:157-161 | returns the track at the counter modulo the list length and raises the counter by exactly one |
| `Player.PlayOrder` | cmd/music-server/player.go:210-227 | the n-th call of a fresh generator returns the track at n, the first call returns the first URI, and calls ten apart return the same track |

## Left out

- Connection handling (`Connect`, `Close`) and the pgx / crdbpgx transaction machinery, including retries, are not modelled. These are database I/O and foreign library calls. Each ledger operation is one atomic step that succeeds.
- Query and scan errors are not modelled. The code stops the process on them with `log.Fatal` or returns them. No operation in the model fails.
- Concurrent callers and transaction isolation are not modelled. Operations run one after another on the table.
- `PostBidData.UnmarshalJSON` is not modelled. It is a thin wrapper over `encoding/json`.
- The clock and the UUID generator are not modelled. Both are parameters.
- `Cockroach.Database.constructor`: stands for a cleared table. `Connect` attaches to a persistent database and neither creates nor empties `tbl_bid`; the package tests see an empty table only because earlier tests clear it. Connecting to a table that already holds rows is not modelled.
- `Cockroach.Database.PostBid`: takes the two clock readings as separate parameters and promises nothing about how they relate; a real clock read twice gives the later reading second, which the model does not assume.
- The HTTP server, the HTTP clients, the music server's OAuth and token handling, `verifyToken`, `finalize`, `getNextSong` and the polling loop are not part of this model. They are I/O and concurrency around the ledger and the track generator.
- Amounts and sums are unbounded integers. Go's 64-bit `int` and the database's decimal `SUM` are not modelled.
- `Cockroach.Database.FinalizeCurrentSong`: models the intended update, not the query as written. The query as written fails to parse, so every call returns an error. It also returns the finalized rows in table order, although `RETURNING` promises no order; that order is one the database may choose, not one it guarantees.
- `Cockroach.Database.PlayNextSong`: returns the updated rows in table order. `RETURNING` promises no order, so this order is one the database may choose, not one it guarantees.
- `Player.TrackGenerator.Next`: the counter is a `nat`. Go's `int` counter would wrap to a negative value after 2^63 calls, and the index would then be out of range. That case is not modelled.
