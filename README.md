# musicelo, modelled in Dafny

musicelo ranks songs from pairwise "duel" judgments. It has four parts:

- A song store (songs, albums, album tracks, comparisons, parameters, an admin log). Each recorded duel appends a comparison row with before/after rating snapshots. Each song keeps win/loss/draw counters.
- The store answers ranking, top-N, recent-comparison and statistics queries.
- An administrator can scan for likely duplicates, preview and perform a merge (the merged song becomes an alias and its comparisons are redirected), and reclassify songs.
- An import pipeline in five steps builds the store:
  - fetch playlists;
  - classify and deduplicate tracks;
  - extract albums;
  - match the user's own playlists;
  - initialise the database with boosted starting ratings.

A Glicko-2 calculator supplies the rating updates. Security helpers validate YouTube ids, escape HTML and trim search queries.

The project models all of this in one module per source file:

| module | source |
|---|---|
| `Models` | record shapes, their defaults and keys, the in-memory `Database` class, `initialize_parameters` |
| `Operations` | the state-changing store operations |
| `Queries` | the read-only store queries |
| `Admin` | duplicate scan, merge preview and merge, reclassification, data-quality report |
| `Glicko` | the discrete parts of the rating calculator |
| `Security` | the input validators |
| `Fetch`, `Dedup`, `Albums`, `UserImport`, `InitDb` | pipeline scripts 01 to 05 |

`Text` and `Seqs` hold the Python and SQL built-ins the code relies on: `lower`, `strip`, `in` on strings, `split`, `join`, `int()`, `LIKE`, slicing, filtering and stable sorting. `Wrappers` holds `Option`.

Tables are sequences in row (rowid) order, and the `Database` class reassigns them. Ratings, deviations and volatilities are `real`. Clock readings are passed in by the caller: integers in the database tables, and ISO strings for the fetched records, one reading per playlist entry. Where the source changes state step by step, the model is a method with loop invariants. Each such method is proved equal to a function, and the function's properties are proved as lemmas.

## Model

| member | source | states |
|---|---|---|
| Models.NewSongDefaults | core/database/models.py:59-169 | A new song row is an original rated 1500.0 with RD 350.0, volatility 0.06 and zero games, wins, losses and draws; its language is korean and its category TWICE. |
| Models.FindSong | core/database/operations.py:119 | The index found is the first row with the id; none is found exactly when no row has it. |
| Models.FindSongByVideo | core/database/operations.py:78 | The index found is the first row with the video id; none is found exactly when no row has it. |
| Models.WithDefaults | core/database/models.py:505-508 | Inserting defaults keeps the existing rows as a prefix and leaves every default name present. |
| Models.WithDefaultsPresent | core/database/models.py:505-508 | When every default name is already present, nothing is inserted. |
| Models.InitializeParametersIdempotent | core/database/models.py:490-510 | Running `initialize_parameters` twice leaves the table it leaves after one run. |
| Models.InitializeParametersKeepsValues | core/database/models.py:505-508 | An existing parameter row keeps its place and value: defaults never overwrite. |
| Models.InsertDefaultStep | core/database/models.py:505-508 | A default is inserted exactly when its name is absent, and the names stay a key. |
| Models.FindParameter | core/database/models.py:506 | A row is found exactly when some row carries the name, and the row found carries it. |
| Models.Database.constructor | core/database/models.py:454-466 | A fresh database has empty tables whose keys are trivially valid. |
| Models.Database.InitializeParameters | core/database/models.py:483-510 | The parameter table becomes the old one with the six defaults inserted where absent; keys stay valid. |
| Models.Database.InsertMissing | core/database/models.py:505-508 | The insertion loop leaves exactly the table `WithDefaults` describes. |
| Operations.Rerated | core/database/operations.py:119-130 | Re-rating sets the new triple, the interval rating - 2 rd to rating + 2 rd and the comparison time, and leaves every other field alone. |
| Operations.ReratedInterval | core/database/operations.py:125-126 | The stored interval is centred on the rating, 4 rd wide, and holds the rating when rd is non-negative. |
| Operations.ReratedIdempotent | core/database/operations.py:119-130 | Re-rating twice with the same values equals re-rating once. |
| Operations.Tally | core/database/operations.py:150-157 | One more game; exactly one counter grows by one: wins iff outcome is 1.0, losses iff it is 0.0, draws otherwise; nothing else changes. |
| Operations.PartialOutcomesAreDraws | core/database/operations.py:150-157 | Outcomes 0.75, 0.5 and 0.25 each count as a draw. |
| Operations.TallyKeepsTallied | core/database/operations.py:150-157 | Games played stays the sum of wins, losses and draws. |
| Operations.SameKeysKeepValid | core/database/models.py:39-49 | Replacing a song by one with the same id and video id keeps the keys valid. |
| Operations.AddSong | core/database/operations.py:46-64 | The song is stored under the next id, unless its video id is already stored; then nothing changes. |
| Operations.UpdateSongRating | core/database/operations.py:101-132 | Exactly the song with the id is re-rated; an unknown id changes nothing; keys stay valid. |
| Operations.UpdateSongStats | core/database/operations.py:134-161 | Exactly the song with the id is tallied; an unknown id changes nothing; keys stay valid. |
| Operations.Winner | core/database/operations.py:250-255 | The winner is song A for outcome 1.0, song B for 0.0, and nobody for any other outcome. |
| Operations.RatingImpact | core/database/operations.py:294 | The impact is a non-negative distance, zero exactly when the rating did not move. |
| Operations.NewComparison | core/database/operations.py:266-296 | The row copies the four snapshots field for field, records the winner and expected outcome, is an upset iff (expected < 0.4 and outcome 1.0) or (expected > 0.6 and outcome 0.0), and starts not undone. |
| Operations.UpsetHasUnderdogWinner | core/database/operations.py:250-266 | An upset always has a winner, and the winner is the song expected to lose. |
| Operations.DrawIsNoUpset | core/database/operations.py:250-266 | An outcome strictly between 0 and 1 has no winner and is no upset. |
| Operations.RecordComparison | core/database/operations.py:216-304 | The comparison row is appended under the next id and keys stay valid; song ids are not checked. |
| Queries.SearchSongs | core/database/operations.py:163-210 | The result holds exactly the songs passing every supplied filter, each as often as stored. |
| Queries.SearchWithoutFilters | core/database/operations.py:188-208 | With no filter every song is returned, in table order. |
| Queries.SearchAllPass | core/database/operations.py:188-208 | When every song passes, the result is the table. |
| Queries.LowerKeepsNoWildcard | core/database/operations.py:191 | Lower-casing a query never creates a `LIKE` wildcard. |
| Queries.PlainQueryIsSubstring | core/database/operations.py:191 | A query without `%` or `_` matches exactly the names that contain it, ignoring ASCII case. |
| Queries.ColumnsListed | core/database/models.py:39-179 | Every column of the song record is in the column list, so every column's name is a known column name. |
| Queries.FindColumn | core/database/operations.py:371 | The column found carries the name; none is found exactly when no column does. |
| Queries.ParseSortField | core/database/operations.py:371 | The column selected carries the name, or the name is no column name and rating is selected. |
| Queries.ParseSortFieldChoice | core/database/operations.py:371 | Any column name selects its own column; any other name selects rating. |
| Queries.ParseRating | core/database/operations.py:383-386 | "rating" names the rating column. |
| Queries.KeyLeTotal | core/database/operations.py:371-375 | Any two sort keys are comparable. |
| Queries.KeyLeTransitive | core/database/operations.py:371-375 | Sort key order is transitive. |
| Queries.KeyLeIsPreorder | core/database/operations.py:371-375 | Sort keys are totally preordered. |
| Queries.RankOrderIsPreorder | core/database/operations.py:371-375 | Every ranking order, ascending or descending on any column, is a total preorder. |
| Queries.NullRanksFirst | core/database/operations.py:371-375 | A song whose column is NULL ranks before every non-NULL song ascending and after it descending. |
| Queries.GetRankings | core/database/operations.py:330-379 | The result is sorted on the named column, holds only songs passing every filter, and is a permutation of the passing songs. |
| Queries.UnknownSortFieldIsRating | core/database/operations.py:371 | A name that is no attribute of the song class ranks exactly as rating does. |
| Queries.GetTopSongs | core/database/operations.py:381-387 | The result is the first `limit` songs of the descending-rating ranking: at most `limit` long, ratings non-increasing, and each with at least `min_games` games when that is positive. |
| Queries.TopPrefix | core/database/operations.py:381-387 | A prefix of a descending, filtered ranking is itself descending and filtered. |
| Queries.RatingDescending | core/database/operations.py:375 | A ranking sorted in the descending-rating order has non-increasing ratings. |
| Queries.TopSongsOutrankTheRest | core/database/operations.py:381-387 | No ranked song left out of the top list has a higher rating than one in it. |
| Queries.GetComparisonCount | core/database/operations.py:318-324 | The count is the number of comparisons not undone. |
| Queries.LiveNewestFirst | core/database/operations.py:310-314 | Every comparison not undone, newest first, as a permutation of the live rows. |
| Queries.GetRecentComparisons | core/database/operations.py:306-316 | A prefix of the live comparisons newest first, of length min(limit, live count) (all of them for a negative limit), only live rows. |
| Queries.NewerFirstIsPreorder | core/database/operations.py:312 | Newest-first is a total preorder. |
| Queries.NewestFirstOrder | core/database/operations.py:312 | A list sorted newest first has non-increasing timestamps. |
| Queries.RecentAreNewest | core/database/operations.py:310-314 | A live comparison missing from the recent list is no newer than any listed one. |
| Queries.OriginalsAndVariants | core/database/operations.py:466-468 | Originals plus variants count every song, so total_variants = total_songs - total_originals. |
| Queries.MaxRating | core/database/operations.py:473 | `MAX(rating)` bounds every rating and is attained. |
| Queries.MinRating | core/database/operations.py:474 | `MIN(rating)` is below every rating and is attained. |
| Queries.SumBetween | core/database/operations.py:472 | A sum of n ratings lies between n times a lower and n times an upper bound. |
| Queries.CountLanguage | core/database/operations.py:477-480 | A language count never exceeds the number of songs. |
| Queries.LanguageBreakdown | core/database/operations.py:477-480 | The breakdown has a key exactly for each language present, holding its number of songs. |
| Queries.BreakdownStep | core/database/operations.py:477-480 | Counting one more song on top of the breakdown of the rest gives the breakdown of all. |
| Queries.CountLanguageAbsent | core/database/operations.py:477-480 | A language no song has counts zero. |
| Queries.AverageRating | core/database/operations.py:472 | `AVG(rating)` lies between the smallest and the largest rating. |
| Queries.MeanOfRatings | core/database/operations.py:472 | Ratings within bounds have their mean within the same bounds. |
| Queries.MeanBetween | core/database/operations.py:472 | A total between n times two bounds gives a mean between the bounds. |
| Queries.GetStatistics | core/database/operations.py:457-493 | Totals and live comparison count as defined; zeros for an empty table; otherwise the average is the sum over the count, min and max bound every rating and are attained, and min <= avg <= max; a language is a key exactly when some song has it, with its exact, positive count. |
| Queries.BreakdownPositive | core/database/operations.py:477-480 | Every language in the breakdown has at least one song. |
| Queries.CountLanguagePresent | core/database/operations.py:477-480 | A language some song has counts at least one. |
| Admin.PairScore | core/database/admin_operations.py:51-72 | 1.0 iff same artist and same lower-cased, stripped title; 0.95 iff same artist and titles that differ but agree without spaces and hyphens; otherwise no score. |
| Admin.PairScoreSymmetric | core/database/admin_operations.py:51-72 | The score does not depend on the order of the pair. |
| Admin.CandidatesWith | core/database/admin_operations.py:54-72 | Row i of the scan lists only pairs (i, j) with i < j. |
| Admin.CandidatesWithCorrect | core/database/admin_operations.py:54-72 | Row i lists every scoring j, each once, with its score, in increasing j. |
| Admin.CandidatesWithStep | core/database/admin_operations.py:54-72 | Extending row i by one j keeps it correct. |
| Admin.CandidateAppended | core/database/admin_operations.py:54-72 | Appending a scoring pair at the end of row i keeps the row correct. |
| Admin.CandidatesUpTo | core/database/admin_operations.py:51-72 | The rows below n list only pairs i < j with i < n. |
| Admin.CandidatesUpToCorrect | core/database/admin_operations.py:51-72 | The scan lists every scoring pair i < j exactly once, with its score, in listing order. |
| Admin.CandidatesStep | core/database/admin_operations.py:51-72 | One more row of the scan keeps it correct. |
| Admin.CandidatesJoin | core/database/admin_operations.py:51-72 | Row n - 1 after the rows before it keeps the scan correct. |
| Admin.PairsOf | core/database/admin_operations.py:63-72 | Each candidate names its two songs and its score. |
| Admin.PairsOfAppend | core/database/admin_operations.py:63-72 | Naming candidates distributes over concatenation. |
| Admin.ScanStep | core/database/admin_operations.py:54-72 | The inner loop reports pair (i, j) exactly when it scores. |
| Admin.ScanRows | core/database/admin_operations.py:51-72 | Each row of the scan starts where the rows before end. |
| Admin.PotentialDuplicates | core/database/admin_operations.py:32-77 | Every reported pair is two stored songs with the score they earn. |
| Admin.PotentialDuplicatesComplete | core/database/admin_operations.py:32-77 | Every scoring pair i < j is reported, with its score. |
| Admin.ScanPairs | core/database/admin_operations.py:51-72 | The nested loop reports exactly the scoring pairs, in listing order. |
| Admin.ScanRow | core/database/admin_operations.py:54-72 | The inner loop appends exactly row i's scoring pairs. |
| Admin.FindPotentialDuplicates | core/database/admin_operations.py:32-77 | The method returns exactly `PotentialDuplicates`. |
| Admin.CombinedRating | core/database/admin_operations.py:119-133 | Without games: mean rating, larger RD and volatility. With games: the games-weighted rating, smaller RD and mean volatility. |
| Admin.CombinedRatingBetween | core/database/admin_operations.py:119-133 | With non-negative game counts, the merged rating lies between the two ratings. |
| Admin.CountNaming | core/database/admin_operations.py:135-140 | The count is zero exactly when no comparison names the song on either side. |
| Admin.PreviewMerge | core/database/admin_operations.py:96-171 | Nothing when either song is missing. Otherwise the two songs, their combined rating, summed counters and the number of comparisons naming the second. |
| Admin.PreviewKeepsTallied | core/database/admin_operations.py:162-165 | Consistent counters stay consistent when merged. |
| Admin.Absorbed | core/database/admin_operations.py:198-208 | The kept song takes the preview's rating and counters, with interval rating +- 2 rd; nothing else changes. |
| Admin.Aliased | core/database/admin_operations.py:220-224 | The merged song becomes a non-original of type 'alias' pointing at the kept song; nothing else changes. |
| Admin.Redirected | core/database/admin_operations.py:211-217 | Each side naming the merged song now names the kept one; nothing else changes. |
| Admin.RedirectAll | core/database/admin_operations.py:211-217 | Every comparison is redirected, in place. |
| Admin.RedirectRemovesMerged | core/database/admin_operations.py:211-217 | After redirecting to a different song, no comparison names the merged song. |
| Admin.RedirectKeepsOthers | core/database/admin_operations.py:211-217 | A comparison not naming the merged song, undone or not, is unchanged. |
| Admin.RedirectKeepsValid | core/database/admin_operations.py:211-217 | Redirecting keeps comparison ids, so keys stay valid. |
| Admin.MergedSongs | core/database/admin_operations.py:198-224 | The song table keeps its length through a merge. |
| Admin.MergeDistinctEffects | core/database/admin_operations.py:198-224 | For two different songs: the kept one holds the summed counters and stays original or not as before, the other becomes its alias, and every other song is unchanged. |
| Admin.MergedSongsKeepValid | core/database/admin_operations.py:198-224 | A merge keeps song ids and video ids, so keys stay valid. |
| Admin.RedirectComparisons | core/database/admin_operations.py:211-217 | The comparison table becomes `RedirectAll` of the old one; songs and the log are untouched. |
| Admin.MergeSongs | core/database/admin_operations.py:173-256 | Returns false and changes nothing when either song is missing or the transaction fails. Otherwise it applies the merge, redirects the comparisons and logs one action. |
| Admin.ApplyMerge | core/database/admin_operations.py:198-243 | The merge's writes leave the merged song table, the redirected comparisons and one more log entry. |
| Admin.PlanMerge | core/database/admin_operations.py:198-224 | The two song updates keep keys valid and end at `MergedSongs`. |
| Admin.LogAction | core/database/admin_operations.py:228-241 | The log grows by exactly the entry. |
| Admin.StoreSongs | core/database/admin_operations.py:198-224 | The song table is replaced and nothing else. |
| Admin.SelfMergeAsWritten | core/database/admin_operations.py:185-222 | Merging a song into itself doubles its counters and makes it an alias of itself. |
| Admin.MergeDistinctSongs | core/database/admin_operations.py:173-256 | A merge with differing ids only: afterwards no comparison names the merged song, the kept song holds both songs' games, and the alias points at a different song. |
| Admin.Reclassified | core/database/admin_operations.py:268-281 | Exactly is_original, variant_type and original_song_id are replaced. |
| Admin.UpdateVariantClassification | core/database/admin_operations.py:258-310 | False with nothing changed for an unknown song or a failed transaction. Otherwise the three fields are replaced and one action logged. The target id is not checked. |
| Admin.UpdateSongLanguage | core/database/admin_operations.py:312-344 | False with nothing changed for an unknown song or a failed transaction. Otherwise only the language is replaced and one action logged. |
| Admin.CountWithoutAlbum | core/database/admin_operations.py:365-368 | At most the number of songs. |
| Admin.NoTracksNoAlbums | core/database/admin_operations.py:365-368 | Without album tracks, every song counts as having no album. |
| Admin.DataQualityReport | core/database/admin_operations.py:346-381 | The uncertainty (RD > 250 and games < 5), orphan-variant, no-album and duplicate counts, plus the first 20 duplicate pairs. |
| Glicko.NewCalculator | core/services/glicko2_service.py:70-83 | A calculator exists exactly for tau in [0.2, 1.5], and it keeps that tau. |
| Glicko.TauRangeEndpoints | core/services/glicko2_service.py:80-81 | 0.2, 1.5 and 0.5 are accepted; 0.19 and 1.51 are refused. |
| Glicko.ToGlicko2 | core/services/glicko2_service.py:85-101 | mu * 173.7178 + 1500 is the rating and phi * 173.7178 is the RD. |
| Glicko.FromGlicko2 | core/services/glicko2_service.py:103-116 | (rating - 1500) / 173.7178 is mu and rd / 173.7178 is phi. |
| Glicko.ScaleRoundTrip | core/services/glicko2_service.py:99-116 | To the Glicko-2 scale and back gives the original pair. |
| Glicko.ScaleRoundTripInverse | core/services/glicko2_service.py:99-116 | From the Glicko-2 scale and back gives the original pair. |
| Glicko.ScaleMonotone | core/services/glicko2_service.py:99-101 | The conversion keeps rating order, and 1500 maps to 0. |
| Glicko.UpdateWithoutGames | core/services/glicko2_service.py:281-287 | Rating and volatility are unchanged; the RD is unchanged without elapsed days, else the smaller of 350 and sqrt(rd^2 + 0.5 days): at most both, and equal to one of them. |
| Glicko.NoGamesNoDaysUnchanged | core/services/glicko2_service.py:281-287 | No opponents and no days: the triple is returned unchanged. |
| Glicko.InactivityRaisesRd | core/services/glicko2_service.py:282-283 | Inactivity never lowers an RD in [0, 350], keeps it at most 350, and leaves it unchanged only at 350. |
| Glicko.ZScore | core/services/glicko2_service.py:387-393 | z is 1.645, 1.96 or 2.576 for 0.90, 0.95 or 0.99, and 1.96 for any other level. |
| Glicko.ConfidenceInterval | core/services/glicko2_service.py:364-396 | The interval is centred on the rating with half-width z * rd. |
| Glicko.ConfidenceIntervalNested | core/services/glicko2_service.py:387-396 | A 99% interval contains the 95% one, which contains the 90% one. |
| Glicko.ConfidenceLabel | core/services/glicko2_service.py:398-420 | Very Confident iff rd < 100, Confident iff 100 <= rd < 200, Moderately Confident iff 200 <= rd < 300, Uncertain iff rd >= 300. |
| Glicko.ConfidenceLabelExamples | core/services/glicko2_service.py:409-411 | 50, 200 and 350 get the documented labels. |
| Glicko.ConfidenceLabelMonotone | core/services/glicko2_service.py:413-420 | A smaller RD never gets a less confident label. |
| Security.EscapeChar | core/utils/security.py:32-34 | The five special characters become entities starting with '&'; any other character is kept. |
| Security.Escape | core/utils/security.py:34 | The output has no raw `<`, `>` or quote; text without specials is unchanged. |
| Security.EscapeHtml | core/utils/security.py:22-35 | "" for a missing or empty text; otherwise no raw `<`, `>` or quote, and text without specials is returned unchanged. |
| Security.UnescapeChar | core/utils/security.py:34 | Unescaping an escaped character gives it back. |
| Security.EscapeRoundTrip | core/utils/security.py:34 | Escaping loses nothing: unescaping gives back the text. |
| Security.ValidateYoutubeVideoId | core/utils/security.py:19-52 | Valid iff eleven id characters, or eleven followed by one newline (the `$` quirk); a missing or empty id is invalid. |
| Security.ValidateExamples | core/utils/security.py:43-51 | The documented ids are accepted or refused as documented; a trailing newline passes and a trailing space does not. |
| Security.ValidIdIsSafe | core/utils/security.py:19 | A valid id holds no HTML special character, slash, question mark or space. |
| Security.SanitizeYoutubeVideoId | core/utils/security.py:54-72 | The stripped id when it validates, nothing otherwise. |
| Security.SanitizedIsPlainId | core/utils/security.py:61-71 | A sanitized id is exactly eleven id characters. |
| Security.SanitizeIdempotent | core/utils/security.py:61-71 | Sanitizing a sanitized id returns it unchanged. |
| Security.CreateSafeYoutubeEmbed | core/utils/security.py:74-111 | Nothing exactly when sanitizing fails. Otherwise an iframe element whose source names the sanitized id and the autoplay flag. |
| Security.EmbedAutoplayFlag | core/utils/security.py:99-104 | The source ends in autoplay=1 exactly when autoplay is requested, else autoplay=0. |
| Security.SanitizeSearchQuery | core/utils/security.py:113-137 | "" for a missing or empty query; otherwise the stripped query cut to its first `max_length` characters, or the whole of it when it fits; a negative `max_length` drops that many characters from the end, as Python's slice does. |
| Security.SearchQueryDefaultLimit | core/utils/security.py:113 | With the default limit the result has at most 200 characters. |
| Fetch.PartValue | scripts/01_fetch_ytm_playlists.py:64-67 | A part worth `int(part)`, or 0 when `int` refuses it. |
| Fetch.PartValues | scripts/01_fetch_ytm_playlists.py:63-67 | Every part's value, position for position. |
| Fetch.DurationSeconds | scripts/01_fetch_ytm_playlists.py:56-57 | A missing or empty duration is 0 seconds. |
| Fetch.ParseDuration | scripts/01_fetch_ytm_playlists.py:46-69 | The method computes `DurationSeconds`. |
| Fetch.SumParts | scripts/01_fetch_ytm_playlists.py:62-67 | The loop sums each part's value times 60 to the power of its position from the right. |
| Fetch.AppendPart | scripts/01_fetch_ytm_playlists.py:59-67 | A new rightmost part multiplies the weight of all the others by 60. |
| Fetch.ZeroKeepsWeights | scripts/01_fetch_ytm_playlists.py:63-67 | Zeroing one value removes exactly its weighted contribution. |
| Fetch.RefusedPartKeepsWeights | scripts/01_fetch_ytm_playlists.py:63-67 | A refused part contributes 0 and the other parts keep their weights. |
| Fetch.DurationExamples | scripts/01_fetch_ytm_playlists.py:46-69 | "3:45" is 225 seconds and "1:23:45" is 5025. |
| Fetch.GivenValues | scripts/01_fetch_ytm_playlists.py:99 | Only non-empty names are kept. |
| Fetch.GivenValuesEmpty | scripts/01_fetch_ytm_playlists.py:99 | Nothing is kept exactly when no name is given. |
| Fetch.ArtistNames | scripts/01_fetch_ytm_playlists.py:99 | The joined names are empty exactly when no artist has a name. |
| Fetch.ThumbnailUrl | scripts/01_fetch_ytm_playlists.py:106-107 | The last thumbnail's url, or "" when there are none. |
| Fetch.MakeTrack | scripts/01_fetch_ytm_playlists.py:113-139 | The record carries the id and position, the duration in seconds and 1000 times that in ms, both URLs as fixed prefixes followed by the id, and the playlist fields. |
| Fetch.FetchPlaylist | scripts/01_fetch_ytm_playlists.py:71-149 | No records when the request raised; otherwise the kept records, each stamped with the clock reading taken for its own entry. |
| Fetch.KeptPositions | scripts/01_fetch_ytm_playlists.py:90-137 | Each record is built from the entry at its 1-based position, which has a video id; positions strictly increase. |
| Fetch.KeptSnoc | scripts/01_fetch_ytm_playlists.py:90-141 | The record of one more entry keeps records tied to their entries and in order. |
| Fetch.EntriesGrow | scripts/01_fetch_ytm_playlists.py:90-141 | Records stay tied to their entries when one more entry follows. |
| Fetch.EntryAppended | scripts/01_fetch_ytm_playlists.py:137-141 | A record for the newest entry extends the records in order. |
| Fetch.KeptCount | scripts/01_fetch_ytm_playlists.py:90-95 | One record per entry with a video id. |
| Fetch.KeptStamps | scripts/01_fetch_ytm_playlists.py:138 | Each record's `fetched_at` is the clock reading of its own entry, not one reading shared by the playlist. |
| Fetch.EntriesStamped | scripts/01_fetch_ytm_playlists.py:113-139 | A record tied to its entry carries that entry's clock reading. |
| Dedup.FirstVariantMeans | scripts/02_deduplicate_and_classify.py:95-102 | A type is reported exactly when one of its patterns is found and no earlier type's is; none exactly when no pattern is found. |
| Dedup.FirstMatch | scripts/02_deduplicate_and_classify.py:97-102 | The nested loop returns the first match in table order. |
| Dedup.DetectVariantType | scripts/02_deduplicate_and_classify.py:85-102 | The first variant type, in table order, with a pattern found in the lower-cased title. |
| Dedup.DetectLanguage | scripts/02_deduplicate_and_classify.py:137-180 | One of four languages; instrumental iff the instrumental marker; a Japanese marker gives japanese unless instrumental; korean only without title markers. |
| Dedup.VersionTitleIgnoresAlbum | scripts/02_deduplicate_and_classify.py:164-177 | A title saying "ver" is classified without the album. |
| Dedup.NoAlbumNoMarkerIsKorean | scripts/02_deduplicate_and_classify.py:150-180 | Without an album or a title marker, the result is korean. |
| Dedup.UnmarkedTitleFollowsAlbum | scripts/02_deduplicate_and_classify.py:160-180 | Without markers or "ver": japanese iff a Japanese album name occurs in the album; english iff not that and the album is an English album name. |
| Dedup.EmptyAlbumMatchesNothing | scripts/02_deduplicate_and_classify.py:150-177 | The empty album is on neither album list. |
| Dedup.Classify | scripts/02_deduplicate_and_classify.py:197-209 | A track is original exactly when no variant type was detected; its language is one of the four. |
| Dedup.ClassifyAll | scripts/02_deduplicate_and_classify.py:197-209 | Every track is classified, position for position. |
| Dedup.KeyLeIsOrder | scripts/02_deduplicate_and_classify.py:212-216 | Group keys are totally ordered. |
| Dedup.GroupLeIsOrder | scripts/02_deduplicate_and_classify.py:218-221 | Originals first, then position, is a total preorder. |
| Dedup.DistinctKeys | scripts/02_deduplicate_and_classify.py:212 | Each key of the rows with artists once, and only keys of those rows: `groupby` skips keys holding NaN. |
| Dedup.GroupOrder | scripts/02_deduplicate_and_classify.py:212-216 | The groups are visited in sorted key order, each once. |
| Dedup.SortedGroup | scripts/02_deduplicate_and_classify.py:216-221 | A group holds exactly the rows with artists and its key, originals first, then by position. |
| Dedup.GroupRows | scripts/02_deduplicate_and_classify.py:223-255 | Each row of a group counts the group's size and links to the first row's video unless it has the same video. |
| Dedup.SingletonGroupUnlinked | scripts/02_deduplicate_and_classify.py:223-228 | A group of one row gets count 1 and no link. |
| Dedup.ReferenceIsFirst | scripts/02_deduplicate_and_classify.py:233-242 | In a sorted group the first row is the first original by position, or the first row when there is no original. |
| Dedup.DropDuplicates | scripts/02_deduplicate_and_classify.py:260 | Dropping duplicates never adds rows. |
| Dedup.DropDuplicatesCorrect | scripts/02_deduplicate_and_classify.py:260 | The kept rows have unique keys, every key survives, and each kept row is the first with its key. |
| Dedup.GroupNonEmpty | scripts/02_deduplicate_and_classify.py:216 | Every visited group has a row. |
| Dedup.LinkGroup | scripts/02_deduplicate_and_classify.py:223-255 | A sorted group's output rows are `GroupRows`. |
| Dedup.LinkRows | scripts/02_deduplicate_and_classify.py:245-255 | The loop over a group's rows builds `GroupRows`. |
| Dedup.GroupRowsStep | scripts/02_deduplicate_and_classify.py:245-255 | One more row of the group is appended with its link. |
| Dedup.GroupAll | scripts/02_deduplicate_and_classify.py:212-257 | The loop over groups appends each group's rows in key order. |
| Dedup.GroupAllStep | scripts/02_deduplicate_and_classify.py:216-255 | Each visited group is non-empty, and its rows follow the rows of the groups before it. |
| Dedup.GroupedFrom | scripts/02_deduplicate_and_classify.py:216-255 | Group g's rows come before those of later groups. |
| Dedup.GroupDuplicates | scripts/02_deduplicate_and_classify.py:182-262 | The output is the classified tracks with artists, grouped, linked and deduplicated by video id. |
| Dedup.Songs | scripts/02_deduplicate_and_classify.py:246 | The tracks of the output rows, in order. |
| Dedup.GroupRowsCountedAndLinked | scripts/02_deduplicate_and_classify.py:233-255 | A group's rows count its size and every link names a video of the rows. |
| Dedup.ConcatCountedAndLinked | scripts/02_deduplicate_and_classify.py:216-255 | Concatenating groups keeps counts and links right. |
| Dedup.GroupedCountedAndLinked | scripts/02_deduplicate_and_classify.py:216-255 | All grouped rows count their group and link only to present videos. |
| Dedup.DeduplicateCorrect | scripts/02_deduplicate_and_classify.py:236-260 | Output video ids are unique, each row is the first grouped row of its video, counts are group sizes, and every link names a video id in the output. |
| Dedup.DistinctOnce | scripts/02_deduplicate_and_classify.py:212 | A list without repetitions holds each element at most once. |
| Dedup.DistinctPermutation | scripts/02_deduplicate_and_classify.py:212 | A permutation of a list without repetitions has none. |
| Dedup.GroupedMultiset | scripts/02_deduplicate_and_classify.py:212-255 | The grouped rows hold each track with artists of the visited groups exactly as often as the input, and no other track. |
| Dedup.GroupedSongsStep | scripts/02_deduplicate_and_classify.py:216-255 | The first group's tracks come first. |
| Dedup.GroupingIsPermutation | scripts/02_deduplicate_and_classify.py:212-255 | The grouped rows are a permutation of the input tracks with artists: those are neither lost nor repeated, and tracks whose artists are NaN are dropped. |
| Dedup.NoArtistsDropped | scripts/02_deduplicate_and_classify.py:212-260 | A track whose artists are NaN is not in the output of `group_duplicates`. |
| Albums.FirstKeywordType | scripts/03_extract_album_info.py:35-37 | The type found has a keyword contained in the name. |
| Albums.ParseAlbumType | scripts/03_extract_album_info.py:28-43 | Always one of the five types; "single" for a missing or empty name. |
| Albums.SingleKeywordWins | scripts/03_extract_album_info.py:19-37 | A name with a single keyword is a single. |
| Albums.NoKeywordFallsBack | scripts/03_extract_album_info.py:39-43 | A name with no keyword gets studio when it mentions twice, formula or eyes wide open, else ep. |
| Albums.RepackageContainsEp | scripts/03_extract_album_info.py:21-22 | Every name containing "repackage" contains "ep". |
| Albums.RepackageReadsAsEp | scripts/03_extract_album_info.py:19-37 | As written, a name with "repackage" and no single keyword is typed ep. |
| Albums.RepackageAsWritten | scripts/03_extract_album_info.py:19-37 | The album named "repackage" is typed ep. |
| Albums.RepackageNotSingle | scripts/03_extract_album_info.py:20 | "repackage" holds no single keyword. |
| Albums.SecondMatches | scripts/03_extract_album_info.py:35-37 | When the first type fails and the second matches, the second is reported. |
| Albums.AlbumType | scripts/03_extract_album_info.py:28-43 | The corrected typing is always one of the five types, and "single" for a missing or empty name. |
| Albums.RepackageRecognised | scripts/03_extract_album_info.py:19-37 | Corrected: a name with "repackage" and no single keyword is a repackage. |
| Albums.CorrectionOnlyAffectsRepackages | scripts/03_extract_album_info.py:19-37 | The corrected and the original typing agree on every name without a repackage keyword. |
| Albums.SwapUnmatched | scripts/03_extract_album_info.py:35-37 | Moving a type whose keywords do not match ahead of its neighbour changes nothing. |
| Albums.DetectAlbumLanguage | scripts/03_extract_album_info.py:45-61 | Korean for a missing name. Japanese iff a Japanese marker occurs in the lower-cased name. English iff no marker occurs and the lower-cased name is one of the English names. Otherwise Korean. |
| Albums.AlbumOf | scripts/03_extract_album_info.py:101-106 | The record carries the name, the type `parse_album_type` gives it (as written, so a repackage is typed "ep"), the detected language and the first row's artists. |
| Albums.AlbumOfTypeCorrectUnlessRepackage | scripts/03_extract_album_info.py:101-106 | A record whose name has no "repackage" keyword carries the corrected type. |
| Albums.ExtractAlbums | scripts/03_extract_album_info.py:87-108 | The loop yields exactly `Extracted`: one record per non-empty album name, at its first row, in row order. |
| Albums.OnAlbumAppend | scripts/03_extract_album_info.py:91-99 | An appended row adds its own album and nothing else. |
| Albums.ExtractedNames | scripts/03_extract_album_info.py:91-108 | Each non-empty album name appears once, and no other name. |
| Albums.ExtractedStep | scripts/03_extract_album_info.py:91-108 | One more row keeps the names unique and adds a new non-empty name. |
| Albums.NamedSnoc | scripts/03_extract_album_info.py:99-108 | A record with a new name adds exactly that name and keeps names unique. |
| Albums.ExtractedFromFirstRows | scripts/03_extract_album_info.py:91-108 | Each record is built from the first row on its album. |
| Albums.FirstRowsStep | scripts/03_extract_album_info.py:91-108 | Records stay built from first rows when a row is appended. |
| Albums.ExtractedPrefix | scripts/03_extract_album_info.py:91-108 | Records come out in first-seen order: a prefix of the rows gives a prefix of the records. |
| UserImport.PlaylistTrack | scripts/04_import_user_playlists.py:116-136 | Like status defaults to INDIFFERENT; liked exactly when the status is LIKE; source is the playlist. |
| UserImport.LikedTrack | scripts/04_import_user_playlists.py:161-178 | Every liked-music record is liked, with status LIKE, from "Liked Music". |
| UserImport.BuildTracks | scripts/04_import_user_playlists.py:116-138 | The loop skips entries without a video id and builds the rest in order. |
| UserImport.GetPlaylistTracks | scripts/04_import_user_playlists.py:98-145 | No records when the request raised; otherwise the built playlist records. |
| UserImport.GetLikedMusic | scripts/04_import_user_playlists.py:147-187 | No records when the request raised; otherwise the built liked records. |
| UserImport.BuiltCount | scripts/04_import_user_playlists.py:117-119 | One record per entry with a video id. |
| UserImport.BuiltFromEntries | scripts/04_import_user_playlists.py:116-138 | Each record is built from an entry with a video id. |
| UserImport.PlaylistTracksLikedIffLike | scripts/04_import_user_playlists.py:122-135 | Playlist records: liked exactly when the status is LIKE, sourced from the playlist. |
| UserImport.LikedTracksAllLiked | scripts/04_import_user_playlists.py:175-177 | Liked-music records are all liked, from "Liked Music". |
| UserImport.SongOf | scripts/04_import_user_playlists.py:226-231 | The map entry copies the row; the canonical name defaults to the title. |
| UserImport.BuildVideoMap | scripts/04_import_user_playlists.py:223-231 | The loop builds exactly `VideoMap`. |
| UserImport.VideoMapLastWins | scripts/04_import_user_playlists.py:223-231 | A video id is a key iff some row carries it, and the entry is the last such row's. |
| UserImport.VideoMapKeys | scripts/04_import_user_playlists.py:223-231 | The keys are exactly the video ids the rows carry. |
| UserImport.VideoMapLast | scripts/04_import_user_playlists.py:223-231 | A key holds the entry of the last row carrying it. |
| UserImport.BoostLevel | scripts/04_import_user_playlists.py:245-250 | liked iff liked; to_listen iff not liked and from "TWICE - To Listen"; familiar otherwise. |
| UserImport.Add | scripts/04_import_user_playlists.py:262 | Each match lands in exactly one bucket. |
| UserImport.MatchToDatabase | scripts/04_import_user_playlists.py:189-277 | The buckets are those of matching in order. Matched counts the tracks whose video id is a key. Matched plus unmatched is the number of tracks. |
| UserImport.BucketsPartition | scripts/04_import_user_playlists.py:237-266 | Bucket sizes add up to the matched tracks, once per occurrence, and each bucket holds only its level. |
| UserImport.BucketSizes | scripts/04_import_user_playlists.py:237-266 | Bucket sizes add up to the matched tracks. |
| UserImport.BucketsLabelled | scripts/04_import_user_playlists.py:245-262 | Each bucket holds only records of its level. |
| UserImport.AddLabelled | scripts/04_import_user_playlists.py:262 | Adding a record keeps buckets labelled. |
| UserImport.PlaylistBoosts | scripts/04_import_user_playlists.py:245-250 | A playlist record's boost is liked for LIKE, else decided by its playlist. |
| UserImport.LikedMusicBoost | scripts/04_import_user_playlists.py:245-246 | Every liked-music record gets the liked boost. |
| UserImport.ImportAll | scripts/04_import_user_playlists.py:307-327 | Favourites, to-listen and liked records are matched in that order. |
| UserImport.BuiltOr | scripts/04_import_user_playlists.py:143-145 | A failed request contributes no records. |
| InitDb.DetermineInitialElo | scripts/05_init_database.py:71-80 | user_liked iff liked; else user_familiar iff familiar; else to_listen iff to-listen; else unknown. |
| InitDb.InitialEloIsHighestBoost | scripts/05_init_database.py:43-80 | The rating is the highest boost among the lists holding the song, and 1500 when none does. |
| InitDb.LoggedEloMisreportsPreferences | scripts/05_init_database.py:166-168 | As written, liked songs get 1600 and familiar ones 1550, but the summary logs 1500 for both. |
| InitDb.LoggedEloMatches | scripts/05_init_database.py:166-168 | Corrected: the logged rating is the rating every song with that tag got. |
| InitDb.DetectCategory | scripts/05_init_database.py:82-101 | Solo iff a member name occurs; else Subunit iff "misamo"; else Collaboration iff ',' or '&' or "feat"; else TWICE. |
| InitDb.LowerKeepsMark | scripts/05_init_database.py:97 | Lower-casing never makes or removes a punctuation mark. |
| InitDb.CategoryIgnoresCase | scripts/05_init_database.py:82-101 | The category does not depend on the artist name's case. |
| InitDb.SongFor | scripts/05_init_database.py:115-157 | The song has its initial rating, RD 350.0, volatility 0.06, liked and familiar flags from the lists, no link yet, the row's artists and their detected category. |
| InitDb.Created | scripts/05_init_database.py:114-160 | One song per row. |
| InitDb.CreatedAt | scripts/05_init_database.py:114-160 | Row k's song has id firstId + k. |
| InitDb.Counted | scripts/05_init_database.py:119 | Counting a tag adds one to it, keeps other tags and adds its key. |
| InitDb.TalliedCounts | scripts/05_init_database.py:119 | Each tag counts its elements; only tags of elements appear. |
| InitDb.DistributionCounts | scripts/05_init_database.py:119 | Each tag counts the rows with it; only the four tags appear. |
| InitDb.DistributionSums | scripts/05_init_database.py:119-160 | The distribution adds up to the number of songs created. |
| InitDb.CountFour | scripts/05_init_database.py:71-80 | Every row has exactly one of the four tags. |
| InitDb.CreatedValid | scripts/05_init_database.py:159-162 | Storing insertable rows under fresh ids keeps the song table valid. |
| InitDb.CreatedIds | scripts/05_init_database.py:159-162 | Fresh ids lie between the old and new counters and are distinct. |
| InitDb.NumberedAfter | scripts/05_init_database.py:159-162 | Songs numbered on from the counter keep ids positive, bounded and distinct. |
| InitDb.CreatedVideos | scripts/05_init_database.py:159-162 | Stored video ids stay unique. |
| InitDb.ArtistsPrefix | scripts/05_init_database.py:114-147 | The rows before the first row without artists all have artists; it covers every row exactly when all have artists. |
| InitDb.PrefixEndsAt | scripts/05_init_database.py:114-147 | A row without artists after rows that all have them is where the prefix ends. |
| InitDb.InsertSongs | scripts/05_init_database.py:103-168 | The songs are stored, numbered in file order, exactly when every row has artists (a NaN makes `detect_category` raise) and the rows are insertable; otherwise nothing is stored. When every row has artists, the distribution is returned. |
| InitDb.CommitSongs | scripts/05_init_database.py:162 | The pending songs are appended and the counter moves past them. |
| InitDb.AddSongs | scripts/05_init_database.py:114-160 | The loop creates the songs of the rows before the first row without artists, and raises exactly when there is such a row; without a raise it also yields the distribution. |
| InitDb.AddStepAdds | scripts/05_init_database.py:114-160 | A row with artists is counted and its song is added. |
| InitDb.AlbumTracksInFileOrder | scripts/05_init_database.py:204-211 | Each album's list holds its rows' video ids in file order. |
| InitDb.BuildAlbumTracks | scripts/05_init_database.py:204-211 | The loop builds exactly `AlbumTracks`. |
| InitDb.NumberedPositions | scripts/05_init_database.py:229-242 | Each link carries its video's 1-based position on disc 1; numbers increase; every found video gets its number. |
| InitDb.NumberedSnoc | scripts/05_init_database.py:229-242 | One more video adds a link numbered with its position exactly when it finds a song. |
| InitDb.NumberedLinks | scripts/05_init_database.py:229-242 | Every link carries its video's position. |
| InitDb.NumberedAlbum | scripts/05_init_database.py:236 | Every link belongs to its album. |
| InitDb.NumberedIncreasing | scripts/05_init_database.py:229-242 | Track numbers increase; a skipped video's number is not reused. |
| InitDb.NumberedCovers | scripts/05_init_database.py:229-242 | Every video that finds a song gets a link with its position. |
| InitDb.NumberTracks | scripts/05_init_database.py:229-242 | The loop builds exactly `Numbered`. |
| InitDb.NewAlbums | scripts/05_init_database.py:213-225 | One album per albums-file row. |
| InitDb.InsertAlbums | scripts/05_init_database.py:192-244 | Albums and tracks are stored exactly when names and track keys stay unique; otherwise nothing changes. |
| InitDb.AddAlbums | scripts/05_init_database.py:213-242 | The loop builds exactly the new albums and tracks. |
| InitDb.FreshAlbumsCommit | scripts/05_init_database.py:213-244 | Albums with fresh, distinct names always commit. |
| InitDb.NewAlbumsAt | scripts/05_init_database.py:213-225 | The k-th new album has id firstId + k and the k-th name. |
| InitDb.NewAlbumsValid | scripts/05_init_database.py:213-225 | Fresh names under fresh ids keep the album table valid. |
| InitDb.NewTracksIds | scripts/05_init_database.py:229-242 | The new tracks belong to the new albums. |
| InitDb.NewTracksKeys | scripts/05_init_database.py:229-242 | The new track keys are distinct. |
| InitDb.SeparatedKeys | scripts/05_init_database.py:229-242 | Tracks on either side of an album-id bound keep keys unique together. |
| InitDb.InsertAll | scripts/05_init_database.py:316-320 | After a successful run the song and album tables grew by the file sizes. |
| InitDb.InitializeSongs | scripts/05_init_database.py:103-190 | The songs are stored and then linked exactly when every row has artists and the rows are insertable; otherwise nothing is stored. |
| InitDb.TalliedStep | scripts/05_init_database.py:119 | One more element counts its tag. |
| InitDb.CreatedInitialValues | scripts/05_init_database.py:150-156 | Every created song starts at its initial rating, RD 350.0 and volatility 0.06, flagged liked and familiar as its lists say. |
| InitDb.FindByVideo | scripts/05_init_database.py:180-181 | The song found carries the video id. |
| InitDb.FindSame | scripts/05_init_database.py:180-181 | Tables that differ only in links answer video queries alike. |
| InitDb.LinkAllOnlyLinks | scripts/05_init_database.py:174-185 | The second pass changes only links, and each changed link points at an original some row named. |
| InitDb.LinkOneOnlyLinks | scripts/05_init_database.py:176-185 | One step changes at most one link, to the original its row names. |
| InitDb.LinksToSame | scripts/05_init_database.py:180-184 | A link read off one table is read off any table that differs only in links. |
| InitDb.LinkOneValid | scripts/05_init_database.py:183-184 | A linking step keeps the song table valid. |
| InitDb.LinkVariants | scripts/05_init_database.py:170-187 | The song table becomes `LinkAll` of the old one; keys stay valid. |
| InitDb.LinkRow | scripts/05_init_database.py:176-185 | One row's link is set when both songs are found. |
| Seqs.Sort | core/database/operations.py:371-375 | Stable sort: ordered by the relation and a permutation of the input. |
| Text.LikeSubstring | core/database/operations.py:191 | With a wildcard-free query, `LIKE '%q%'` is substring containment. |
| Text.SplitJoin | scripts/01_fetch_ytm_playlists.py:59 | Joining the pieces of a split with the separator gives back the string. |
| Text.ParseDecimal | scripts/01_fetch_ytm_playlists.py:65 | `int(str(n)) == n`. |
| Text.StripIdempotent | core/utils/security.py:65 | Stripping twice equals stripping once. |
| Text.LowerIdempotent | scripts/02_deduplicate_and_classify.py:95 | Lower-casing twice equals lower-casing once. |
| Text.Lower | scripts/02_deduplicate_and_classify.py:95 | Same length; each ASCII capital becomes its small letter and every other character is kept. |
| Text.StripIsTrimmedSlice | core/utils/security.py:65 | `strip()` gives a slice of the input that neither starts nor ends with white space. |
| Text.Split | scripts/01_fetch_ytm_playlists.py:59 | `split(':')` gives at least one piece and no piece holds the separator. |
| Text.ParseUnsigned | scripts/01_fetch_ytm_playlists.py:65 | `int()` reads a digit body as its decimal value. |

## Left out

- Network, file and database I/O are left out. The YouTube Music client, CSV files and SQLAlchemy sessions are not modelled. Fetched lists and table rows are parameters, and a request that raised is `None`.
- Commits, rollbacks and flushes are left out as mechanisms. A transaction that fails is modelled by a `fails` flag, or by the unique-constraint condition that would make the commit fail. The committed-or-not result is returned; the store's own rollback is not modelled.
- The clock is left out. `datetime.utcnow` values are parameters: integers where the database stores them, and `Fetch.FetchPlaylist` takes one `isoformat()` string per playlist entry, since the source reads the clock once for every record it builds.
- The Glicko-2 numeric core is left out because it is floating-point exp/log/sqrt root-finding. This covers `_g`, `_E`, `_v`, `_delta`, `_new_volatility`, the opponent path of `update_rating`, `win_probability` and `expected_rating_change`. `record_comparison` takes the expected outcome and the after-snapshots as inputs.
- Glicko.UpdateWithoutGames: the square root in the inactivity rule is supplied by the caller as a parameter whose square is the argument.
- Floating point is left out: ratings, RDs, volatilities and outcomes are exact reals, so rounding is not modelled (e.g. `round(avg, 1)` in `get_statistics`).
- Regular expressions are left out. The variant patterns of `detect_variant_type` and the title rewriting of `extract_canonical_name` are function parameters. The `detect_language` title regexes are written out as the substring and suffix tests they amount to.
- `SequenceMatcher` similarity is left out; the duplicate scan does not use it.
- `str.lower` is modelled for ASCII letters only; other characters are kept.
- Pandas `NaN` is modelled as `None`, and its truthiness only where the code relies on it (a missing video id is still listed under its album). An empty artists field reads back as NaN: `groupby` then drops the track, and the initialiser's `detect_category` raises on it.
- Dedup.GroupDuplicates: when no track has artists, the rows of the groups make an empty frame without a video id column, and the source's `drop_duplicates` raises on it; the model returns no rows.
- InitDb.AddSongs: when a row without artists raises, the source reports no distribution, and the model states nothing about the one it returns then. The same holds for `InitDb.InsertSongs`.
- InitDb.SongFor: the "TWICE" default of `row.get` for a file without an artists column is not modelled, because the songs file always has that column.
- `AdminAction` is imported from the models module, which defines no such class. The admin log is modelled as an append-only sequence of (action, song ids) entries.
- `get_songs_by_title_pattern` and `get_recent_actions` are outside the modelled operations.
- `insert_source_playlists` and the logging-only counters (`songs_created`, `variants_linked`, `tracks_linked`) are left out.
- InitDb.InsertAll: states validity and table growth only. It leaves out `initialize_parameters` (modelled as `Models.Database.InitializeParameters`) and `insert_source_playlists`. The song and album contents are stated by `InitDb.InitializeSongs` and `InitDb.InsertAlbums`.
- Seqs.Sort: stability (ties keep input order) is how the sort is defined, but no lemma states it.
- Queries.ParseSortField: the song record here has 26 of the song class's columns. For the other attributes (the release date, song type, featured artists, external ids, audio features, popularity, notes and timestamps, the relationships, `__tablename__` and `__repr__`) `getattr` finds the attribute and the database sorts by it, or raises. The model ranks by rating instead. `Queries.UnknownSortFieldIsRating` therefore only covers names that are no attribute at all (`Queries.IsSongAttribute` lists the attributes the class declares; the ones every mapped class inherits are not listed).
- Queries.GetRankings: a `sort_by` naming an unmodelled attribute (see `Queries.ParseSortField`) is ranked by rating, not by that attribute.
- Ties in `ORDER BY` have no order in SQLite; the rankings keep table order among equal keys, which is one of the orders the database may return.

## Findings

| source | as written | input that shows it | evidently intended | confidence | as-written member | corrected member |
|---|---|---|---|---|---|---|
| core/database/admin_operations.py:185-222 | `merge_songs` does not check that the two ids differ | `merge_songs(k, k)` for a stored song k: its counters double and it becomes an alias of itself | a song cannot be merged into itself | not executed | Admin.SelfMergeAsWritten | Admin.MergeDistinctSongs |
| scripts/03_extract_album_info.py:19-37 | the "ep" keyword is tried before "repackage", and "ep" occurs inside "repackage" | album name "repackage" is typed "ep" | a repackage album is typed "repackage" | not executed | Albums.RepackageAsWritten | Albums.RepackageRecognised |
| scripts/05_init_database.py:166-168 | the distribution summary looks up the source tag ("user_liked", "user_familiar") in the boost table keyed "liked", "familiar" | a liked song: given 1600, logged at 1500; a familiar song: given 1550, logged at 1500 | the summary logs the rating each tag's songs were given | not executed | InitDb.LoggedEloMisreportsPreferences | InitDb.LoggedEloMatches |
