# Golf statistics core, modelled in Dafny

This project models the core of a golf shot-tracking application: a
Svelte front end that measures distances walked with the device's GPS,
and an Express/Prisma back end that stores players and shots and
computes statistics.

- **Gps** (`gps.dfy`): the GPS manager as a class with the source's
  fields. It covers:
  - starting and stopping tracking;
  - per-shot tracking entries and the subscriber list;
  - position updates and errors;
  - resetting the origin;
  - the pure helpers: accuracy class, distance colour and distance text.
- **RoundStatistics**, **GlobalStatistics** and **PlayerStatistics**
  (`round_statistics.dfy`, `global_statistics.dfy`,
  `player_statistics.dfy`): the aggregation bodies of the statistics
  routes, taken over the fetched lists of shots and rounds.
  - The `forEach` passes that fill dictionaries are methods. Their loop
    invariant keeps every dictionary equal to the tallies of the shots
    seen so far.
  - The `filter`/`sort`/`slice` chains are functions.
  - `Collections` and `Tallies` hold the shared group-by, stable sort and
    counting definitions.
- **Shots** (`shots.dfy`): the shot routes, covering:
  - validation;
  - the stored record;
  - the membership and duplicate checks;
  - penalty-stroke numbering;
  - updates that clear the error;
  - not-found handling.

  The table is a `ShotStore` object holding a sequence.
- **Players** (`players.dfy`): player creation with a unique palette
  colour, the delete guard and the free-colour list. The table is a
  `PlayerStore` object.
- **Tables** (`tables.dfy`): lookup and deletion by id, shared by the
  shot and player tables.
- **ApiConfig** and **CacheBusting** (`api_config.dfy`,
  `cache_buster.dfy`): environment selection, URL joining and cache-busting
  query parameters.

Outside inputs are parameters of the modelled operations:
- the browser (geolocation answers, watch ids, the distance formula);
- the database (the fetched rows, fresh uuids);
- the build (`VITE_ENV`, `DEV`);
- the clock and randomness (the cache-buster version and timestamp).

## Model

| member | source | states |
|---|---|---|
| Gps.RoundHalfUp | frontend/src/lib/gps.js:143 | `Math.round`: the result is within one half of the input, halves go up, and it is non-negative for a non-negative input |
| Gps.Copy | frontend/src/lib/gps.js:78-82 | A shot's start copies the latitude, longitude and timestamp of the location and drops its accuracy |
| Gps.FromPosition | frontend/src/lib/gps.js:126-132 | A position update stores the reported latitude, longitude, timestamp and accuracy |
| Gps.ErrorMessage | frontend/src/lib/gps.js:170-187 | The three geolocation codes give their messages and any other code gives 'Unknown GPS error'. An error without a code matches the first `case` (undefined === undefined) and gives the permission message |
| Gps.AccuracyThresholds | frontend/src/lib/gps.js:257-273 | For a known accuracy, each status holds exactly when the accuracy lies in its band (≤5, ≤10, ≤20, beyond) |
| Gps.AccuracyUnknown | frontend/src/lib/gps.js:257-262 | The status is 'unknown' exactly when there is no location, no accuracy, or an accuracy of 0 (falsy) |
| Gps.AccuracyMonotone | frontend/src/lib/gps.js:263-273 | A smaller error radius never yields a worse status |
| Gps.DistanceColorCuts | frontend/src/lib/gps.js:287-292 | Each colour class holds exactly on its band of distances: below 50, 50 to 100, 100 to 200, 200 and beyond |
| Gps.FormatDistance | frontend/src/lib/gps.js:280-285 | For a whole number of metres below 1000 the text is its decimal digits followed by `m`; from 1000 on there is no text |
| Gps.FormatDistanceRoundTrip | frontend/src/lib/gps.js:280-285 | The metre text of a distance below 1000 ends in `m` and its digits read back to the distance |
| Gps.IndexOf | frontend/src/lib/gps.js:249-251 | `indexOf` gives -1 exactly when the value is absent, otherwise the first position holding it |
| Gps.RemoveFirstSpec | frontend/src/lib/gps.js:248-253 | Unsubscribing removes exactly one occurrence (multiset minus one) at the first position, keeps the rest in order, and does nothing for an absent callback |
| Gps.UnsubscribeTwice | frontend/src/lib/gps.js:248-253 | Calling the same unsubscribe twice equals calling it once when the callback was subscribed at most once |
| Gps.SubscribeUnsubscribe | frontend/src/lib/gps.js:240-253 | Subscribing a new callback and then unsubscribing it restores the list |
| Gps.Broadcast | frontend/src/lib/gps.js:150-156 | One call per subscriber, in subscription order, all with the same distance |
| Gps.GpsManager.constructor | frontend/src/lib/gps.js:4-11 | Everything is empty or off, and the session invariant holds |
| Gps.GpsManager.StartTracking | frontend/src/lib/gps.js:14-52 | Without geolocation, or when the first fix fails, only the error store changes and the result is false. Otherwise the first fix (without accuracy) becomes start and current location, the stores are reset, the watch is recorded, tracking is on and the result is true |
| Gps.GpsManager.StopTracking | frontend/src/lib/gps.js:55-69 | The watch is cleared and forgotten only when its id is truthy (a watch id of 0 is kept). The locations, subscribers and shot entries are emptied, the stores are reset, and the error and notifications are untouched |
| Gps.GpsManager.StartShotTracking | frontend/src/lib/gps.js:72-91 | Without a current location it returns false and changes nothing. Otherwise it returns true and maps the id to a copy of the current location at distance 0, overwriting any earlier entry |
| Gps.GpsManager.StopShotTracking | frontend/src/lib/gps.js:94-97 | Only the entry of the id is removed; nothing changes when it is absent |
| Gps.GpsManager.GetShotDistance | frontend/src/lib/gps.js:100-112 | 0 for an untracked id or no current location, otherwise the distance from the entry's start to the current location |
| Gps.GpsManager.GetCurrentDistance | frontend/src/lib/gps.js:206-216 | 0 without a start or a current location, otherwise the distance between them |
| Gps.GpsManager.NotifyAll | frontend/src/lib/gps.js:150-156 | The notification log grows by exactly one call per subscriber, in order; nothing else changes |
| Gps.GpsManager.HandlePositionUpdate | frontend/src/lib/gps.js:126-167 | The position, with its accuracy, becomes the current location. With a start location, the rounded distance from it is published and broadcast. Every shot entry's distance is recomputed from the new location. The session invariant is kept |
| Gps.GpsManager.RetrackAll | frontend/src/lib/gps.js:158-166 | After the loop over the entries, every entry has its distance recomputed and no key is added or lost |
| Gps.GpsManager.HandlePositionError | frontend/src/lib/gps.js:170-187 | Only the error store changes, to the message of the error |
| Gps.GpsManager.ResetDistance | frontend/src/lib/gps.js:219-237 | With a current location, a copy of it becomes the start, the published distance is 0 and every subscriber is told 0. Otherwise nothing changes |
| Gps.GpsManager.OnDistanceUpdate | frontend/src/lib/gps.js:240-254 | A non-function is refused with 'Callback must be a function' and nothing changes. A function is appended to the subscribers |
| Gps.GpsManager.Unsubscribe | frontend/src/lib/gps.js:248-253 | The subscriber list becomes the list with the first occurrence of the callback spliced out |
| Gps.GpsManager.GetAccuracyStatus | frontend/src/lib/gps.js:257-273 | The classification of the current location; 'unknown'/'gray' without one |
| Tallies.SuccessSplit | backend/src/routes/statistics.js:58-63 | Every shot counts as successful or failed, with a missing result among the failed |
| Tallies.SuccessFailBound | backend/src/routes/statistics.js:280-281 | Counts of 'success' and of 'fail' together never exceed the shot count |
| Tallies.CountsSnoc | backend/src/routes/statistics.js:56-69 | How each counter moves when one more shot is counted |
| Tallies.HoleCountsSnoc | backend/src/routes/statistics.js:70-73 | Counting a shot bumps its hole's entry, creating it at 1 |
| Tallies.HoleCountsSum | backend/src/routes/statistics.js:70-73 | The per-hole counts are keyed by the holes played and sum to the group size |
| Tallies.HoleCountsMeaning | backend/src/routes/statistics.js:70-73 | The counts have an entry for exactly the holes played, each holding the number of shots on that hole |
| Tallies.RoundDiv | backend/src/routes/statistics.js:108 | `Math.round(n / d)`: the integer nearest n/d, halves up |
| Tallies.Average | backend/src/routes/statistics.js:106-114 | 0 without shots, otherwise the rounded mean |
| Collections.FirstOccurrence | backend/src/routes/statistics.js:106-118 | The keys met, each once, in order of first appearance (`Object.values` order) |
| Collections.TalliedStep | backend/src/routes/statistics.js:39-103 | Counting one more item keeps every dictionary entry equal to the tally of its key's items |
| Collections.PartitionSum | backend/src/routes/statistics.js:131 | The groups of the distinct keys sum to the whole list |
| Collections.WhereSize | backend/src/routes/statistics.js:280-282 | `filter(...).length` is the number of positions whose element has the key |
| Collections.SortDesc | backend/src/routes/statistics.js:292 | Largest first, and a permutation of its input |
| Collections.SortDescStable | backend/src/routes/statistics.js:292 | The sort is stable: for every key, the elements with that key keep their input order |
| Collections.InsertDistinct | backend/src/routes/statistics.js:292 | Inserting an element not yet present into a list without repeats gives a list without repeats |
| Collections.SortDescDistinct | backend/src/routes/statistics.js:292 | Sorting a list without repeats gives a list without repeats |
| Collections.InsertWhere | backend/src/routes/statistics.js:292 | Inserting an element puts it ahead of every element that has its key |
| Collections.Take | backend/src/routes/statistics.js:293 | `slice(0, n)`: the first min(n, length) elements |
| Collections.TopIsLargest | backend/src/routes/statistics.js:292-293 | An element cut off by the slice is no larger than any element kept |
| RoundStatistics.CountPlayerShot | backend/src/routes/statistics.js:40-74 | The player dictionary stays equal to the tallies of the shots seen, after one more shot |
| RoundStatistics.AddPlayerShot | backend/src/routes/statistics.js:56-73 | A player's entry after one more shot is the tally of the group extended by that shot |
| RoundStatistics.CountClubShot | backend/src/routes/statistics.js:76-89 | The club dictionary stays equal to the tallies of the shots seen |
| RoundStatistics.CountLocationShot | backend/src/routes/statistics.js:91-102 | The location dictionary stays equal to the tallies of the shots seen |
| RoundStatistics.PlayerTallySnoc | backend/src/routes/statistics.js:58-73 | One more shot adds one to the total, to exactly one of successful/failed, to the penalties when it is one, its distance to the total distance, and bumps its hole |
| RoundStatistics.AddClubShot | backend/src/routes/statistics.js:85-89 | A club's entry after one more shot is the tally of its shots extended by that shot |
| RoundStatistics.AddLocationShot | backend/src/routes/statistics.js:99-102 | A location's entry after one more shot is the tally of its shots extended by that shot |
| RoundStatistics.AddSplitShot | backend/src/routes/statistics.js:183-186 | A per-player split after one more shot is the tally of that player's shots extended by it |
| RoundStatistics.CountSplitPlayer | backend/src/routes/statistics.js:173-186 | The per-player dictionary inside a club stays equal to the tallies of the club's shots seen |
| RoundStatistics.SplitsStep | backend/src/routes/statistics.js:156-187 | Replacing the entry of the shot's key keeps every other key's split dictionary as it was |
| Gps.GpsManager.Begin | frontend/src/lib/gps.js:23-47 | After the first fix: start and current location set, distance 0, tracking on, the new watch recorded |
| Gps.GpsManager.ClearWatch | frontend/src/lib/gps.js:56-59 | The watch is cleared and forgotten |
| Gps.GpsManager.Reset | frontend/src/lib/gps.js:61-68 | Tracking off, no locations, no callbacks or trackings, distance 0; the watch and error unchanged |
| RoundStatistics.ComputeRoundStats | backend/src/routes/statistics.js:8-142 | 404 'Round not found' for an unknown round. Otherwise the answer is the per-player, per-club and per-location tallies of the round's shots, in order of first appearance, with averages and totals |
| RoundStatistics.RoundStatsEntries | backend/src/routes/statistics.js:39-118 | The i-th player, club and location entry is the tally (with averages for players and clubs) of the shots of the i-th key met, one entry per distinct key |
| RoundStatistics.RoundPlayerOutcomes | backend/src/routes/statistics.js:58-63 | Each player's total is successes plus failures; no club or location has more successes than shots |
| RoundStatistics.RoundGroupsPartition | backend/src/routes/statistics.js:39-103 | The player, club and location totals each add up to the round's shot count |
| RoundStatistics.RoundHoleCounts | backend/src/routes/statistics.js:70-73 | A player's per-hole counts cover exactly the holes played and sum to that player's total |
| RoundStatistics.RoundAverages | backend/src/routes/statistics.js:106-114 | Every listed player and club has shots, and its average is the rounded mean distance |
| RoundStatistics.RoundTotals | backend/src/routes/statistics.js:131-134 | The success and fail totals never exceed the shot count |
| RoundStatistics.CountClubBreakdownShot | backend/src/routes/statistics.js:156-187 | The club counters and per-club player shares stay equal to the tallies of the shots seen |
| RoundStatistics.CountLocationBreakdownShot | backend/src/routes/statistics.js:215-244 | The location counters and per-location player shares stay equal to the tallies of the shots seen |
| RoundStatistics.ClubResultsMatch | backend/src/routes/statistics.js:189-198 | Reading the dictionaries filled by the club pass gives, per club in order of first appearance, its tally and the tallies of its players |
| RoundStatistics.LocationResultsMatch | backend/src/routes/statistics.js:246-254 | Reading the dictionaries filled by the location pass gives, per location in order of first appearance, its tally and the tallies of its players |
| RoundStatistics.ComputeClubBreakdowns | backend/src/routes/statistics.js:145-201 | The answer is, per club in order of first appearance, its counts, its average and its per-player shares |
| RoundStatistics.ComputeLocationBreakdowns | backend/src/routes/statistics.js:204-257 | The answer is, per location in order of first appearance, its counts and its per-player shares |
| RoundStatistics.ClubSplitsPartition | backend/src/routes/statistics.js:167-186 | Within a club, the players' shares add up to the club's total |
| RoundStatistics.LocationSplitsPartition | backend/src/routes/statistics.js:226-243 | Within a location, the players' shares add up to the location's total |
| GlobalStatistics.GlobalTotals | backend/src/routes/statistics.js:276-282 | Shots without a result count as neither successful nor failed, so the two totals never exceed the shot count |
| GlobalStatistics.GlobalStatsSpec | backend/src/routes/statistics.js:260-336 | The `/global` answer: `totalRounds` and `totalShots` are the list lengths; the successful, failed and penalty totals count the shots whose result is 'success', whose result is 'fail' and that are penalties; successful plus failed is at most the total; the three lists are `MostUsedClubs`, `BestPerformingClubs` and `RecentRounds` |
| GlobalStatistics.SuccessesCounted | backend/src/routes/statistics.js:280 | The success total is the number of positions whose result is 'success' |
| GlobalStatistics.FailuresCounted | backend/src/routes/statistics.js:281 | The failure total is the number of positions whose result is 'fail' |
| GlobalStatistics.PenaltiesCounted | backend/src/routes/statistics.js:282 | The penalty total is the number of positions holding a penalty shot |
| GlobalStatistics.TallyAllMember | backend/src/routes/statistics.js:285-289 | Every per-club entry is the tally of the shots of a club that was used |
| GlobalStatistics.MostUsedClubsSpec | backend/src/routes/statistics.js:285-293 | At most 5 entries, sorted by count non-increasing, each count equal to its club's shot count and positive, and no club listed twice |
| GlobalStatistics.MostUsedAreTop | backend/src/routes/statistics.js:285-293 | A club left out was used no more often than any club listed |
| GlobalStatistics.BestPerformingClubsSpec | backend/src/routes/statistics.js:296-316 | At most 5 entries, each with at least 5 shots and its club's exact counts, sorted by success rate (in tenths of a percent) |
| GlobalStatistics.BestPerformingAreTop | backend/src/routes/statistics.js:296-316 | An eligible club left out has a success rate no higher than any club listed |
| GlobalStatistics.RecentRoundsSpec | backend/src/routes/statistics.js:327-332 | The first min(5, n) rounds of the list, in order, each with its id, date, course and player count |
| PlayerStatistics.PlayerShots | backend/src/routes/statistics.js:358-373 | Exactly the player's shots that have a result and a positive distance |
| PlayerStatistics.AddClubShot | backend/src/routes/statistics.js:377-399 | A club's accumulator after one more shot is that of the group extended by the shot (counters, distance list, round set) |
| PlayerStatistics.CountClubShot | backend/src/routes/statistics.js:377-400 | The club dictionary stays equal to the accumulators of the shots seen |
| PlayerStatistics.MaxOf | backend/src/routes/statistics.js:405 | `Math.max` of a non-empty list is a member bounding every element; 0 for an empty list |
| PlayerStatistics.MinOf | backend/src/routes/statistics.js:406 | `Math.min` of a non-empty list is a member below every element; 0 for an empty list |
| PlayerStatistics.ComputePlayerStats | backend/src/routes/statistics.js:343-498 | 404 'Player not found' for an unknown player, otherwise club summaries, overall totals and recent rounds of the player's counted shots |
| PlayerStatistics.ClubSummarySpec | backend/src/routes/statistics.js:403-420 | For each summary, the club has shots. Its min and max are attained and bound all its distances. `roundsPlayed` counts the distinct rounds of its shots. Successes plus failures equal its total |
| PlayerStatistics.ClubSummariesSorted | backend/src/routes/statistics.js:421 | The summaries are sorted by shot count, largest first, and are a permutation of one summary per club |
| PlayerStatistics.OverallSpec | backend/src/routes/statistics.js:424-433 | Only 'fail' counts as failed; the average is the rounded mean; rounds played is between 1 and the shot count when there are shots, and 0 otherwise |
| PlayerStatistics.RoundSetSize | backend/src/routes/statistics.js:433 | The number of distinct rounds is at most the number of shots, and at least 1 when there are shots |
| PlayerStatistics.CountedDistancePositive | backend/src/routes/statistics.js:361 | Counted shots have positive distances, so the total is at least the shot count |
| PlayerStatistics.RecentPerformanceSpec | backend/src/routes/statistics.js:436-470 | The player's first min(10, n) rounds of the list, in order, each line with its round's id, date and course; fewer than 10 only when every round the player is in is listed. Each line counts only that round's shots by the player that have a result, with successes bounded by the total |
| Shots.Check | backend/src/routes/shots.js:42-53 | A check gives no message exactly when it passes |
| Shots.ValidateCreate | backend/src/routes/shots.js:42-58 | The request passes exactly when: the ids are UUIDs; the hole is 1..18; the shot number is ≥ 1; the club, distance and location are valid; and the optional target and result are in their lists when given. At most nine messages |
| Shots.Failing | backend/src/routes/shots.js:55-58 | The reported errors are empty exactly when every check passes, and a message is reported exactly when some check carrying it fails; one message per check at most |
| Shots.FailingMessage | backend/src/routes/shots.js:55-58 | A message no other check uses is reported exactly when its own check fails |
| Shots.ValidateCreateMessages | backend/src/routes/shots.js:43-51 | Each of the nine create messages is reported exactly when its own field rule fails |
| Shots.CreateMessage | backend/src/routes/shots.js:43-51 | The message of each create check is reported exactly when that check fails |
| Shots.ValidateUpdate | backend/src/routes/shots.js:141-154 | An update passes exactly when every supplied field is valid; each failure says 'Invalid value' |
| Shots.ValidatePenalty | backend/src/routes/shots.js:214-223 | A penalty request passes exactly when both ids are UUIDs and the hole is 1..18 |
| Shots.ShotData | backend/src/routes/shots.js:105-124 | The penalty flag defaults to false and the target is stored only when given. The result is stored when given, and the error only for a failed shot |
| Shots.Applied | backend/src/routes/shots.js:168-179 | Supplied validated fields replace stored ones and a 'success' result forces the error to null. The id and key are kept (the corrected update; see Findings) |
| Shots.AppliedIdempotent | backend/src/routes/shots.js:168-179 | Applying the same update twice equals applying it once, and an empty update changes nothing |
| Shots.Find | backend/src/routes/shots.js:160-166 | None exactly when no shot has the id, otherwise a position holding it |
| Shots.LastShotNumber | backend/src/routes/shots.js:242-249 | None exactly when the player has no shot on that hole, otherwise the highest of those shot numbers |
| Shots.NextShotNumber | backend/src/routes/shots.js:251 | Above every shot number of the hole, and either 1 or one more than an existing number |
| Tables.Without | backend/src/routes/shots.js:202-204 | A delete by id keeps exactly the records with another id, and never grows the table |
| Shots.CreateShot | backend/src/routes/shots.js:54-133 | The checks run in order (validation, player in round, duplicate key), each with its error. Success exactly when all pass and the id is new, and then the record is the request's shot data |
| Shots.CreatePenalty | backend/src/routes/shots.js:218-272 | Validation and then membership, each with its error. On success the stroke gets the next shot number, club 'Penalty', distance 0, result 'success' and the penalty flag |
| Shots.AppendKeepsWellFormed | backend/src/routes/shots.js:89-103 | Appending a shot with a new id and a new key keeps ids and keys unique |
| Shots.CreateKeepsWellFormed | backend/src/routes/shots.js:76-126 | Successful creates keep the (round, player, hole, shot number) key unique, ids unique and numbers in range |
| Shots.PenaltyKeepsWellFormed | backend/src/routes/shots.js:241-266 | A penalty stroke never collides with an existing key of its hole |
| Shots.PenaltiesNumberedInTurn | backend/src/routes/shots.js:241-251 | Two penalties in a row on the same hole get consecutive numbers |
| Shots.UpdateKeepsWellFormed | backend/src/routes/shots.js:168-179 | The corrected update, which keeps the id and key, keeps the table's integrity |
| Shots.AppliedAsWritten | backend/src/routes/shots.js:157-176 | The PUT as written: the validated fields as in `Applied`, with the id and key fields of the body stored unchecked; without them it is `Applied` |
| Shots.UpdateAsWrittenBreaksIntegrity | backend/src/routes/shots.js:141-176 | A body that passes the PUT's checks can store hole 19, or give a shot the key of another shot |
| Tables.WithoutRemovesOne | backend/src/routes/shots.js:202-204 | With unique ids, deleting an id the table has removes exactly one record |
| Shots.WithoutKeeps | backend/src/routes/shots.js:202-204 | Deleting keeps the table's integrity |
| Tables.WithoutAbsent | backend/src/routes/players.js:89-91 | Deleting an id no record has leaves the table as it is |
| Shots.ShotStore.constructor | backend/src/routes/shots.js:126-133 | The table starts empty and well formed |
| Shots.ShotStore.Create | backend/src/routes/shots.js:42-138 | The outcome is that of `CreateShot`. A created shot is appended; otherwise the table is unchanged |
| Shots.ShotStore.AddPenalty | backend/src/routes/shots.js:214-277 | The outcome is that of `CreatePenalty`. The stroke is appended; otherwise the table is unchanged |
| Shots.ShotStore.Update | backend/src/routes/shots.js:141-186 | 400 for invalid fields and 404 for an unknown id, both without change. Otherwise exactly the shot with the id is replaced by its updated record |
| Shots.ShotStore.Delete | backend/src/routes/shots.js:189-211 | 404 for an unknown id without change; otherwise exactly that shot is removed |
| Text.TrimSpec | backend/src/routes/players.js:29 | `trim()`: the result is the part of the input between its leading and trailing whitespace runs, and neither of its ends is whitespace |
| Players.ValidatePlayer | backend/src/routes/players.js:28-36 | Passes exactly when the trimmed name has 1 to 50 characters and the colour is in the palette; each failure has its message |
| Players.CreatePlayer | backend/src/routes/players.js:31-57 | Validation errors first, then 400 when the colour is taken. Success exactly when both pass and the id is new, and the stored name is the trimmed one |
| Players.CreateKeepsWellFormed | backend/src/routes/players.js:41-55 | Colours stay pairwise distinct and ids unique across creations |
| Players.CreateTakesColor | backend/src/routes/players.js:41-55 | A colour that a creation uses was free before and is no longer free after |
| Players.WithoutKeeps | backend/src/routes/players.js:89-91 | Deleting keeps colours distinct and ids unique |
| Players.AvailableColors | backend/src/routes/players.js:103-108 | A colour is listed exactly when it is in the palette and no player uses it |
| Players.FreeOfIsSubsequence | backend/src/routes/players.js:107-108 | The filter result lies in the palette at increasing positions and avoids the used colours. Together with the used colours it covers the palette |
| Players.AvailableColorsSpec | backend/src/routes/players.js:101-115 | The free colours are a subset of the palette, in palette order, disjoint from the used colours, and together with them cover the palette |
| Players.PlayerStore.constructor | backend/src/routes/players.js:49-55 | The table starts empty and well formed |
| Players.PlayerStore.Create | backend/src/routes/players.js:28-62 | The outcome is that of `CreatePlayer`. A created player is appended; otherwise the table is unchanged |
| Players.PlayerStore.Delete | backend/src/routes/players.js:65-98 | 404 for an unknown id and 400 for a player in any round, both without change. Otherwise exactly that player is removed |
| Players.PlayerStore.Available | backend/src/routes/players.js:101-115 | The free colours of the current table |
| ApiConfig.GetEnvironment | frontend/src/config/api.js:24-37 | A non-empty `VITE_ENV` wins, then development under the dev server, else production |
| ApiConfig.GetApiConfig | frontend/src/config/api.js:40-43 | The entry of the environment when the table has it, else production; always a table entry |
| ApiConfig.ConfigChoice | frontend/src/config/api.js:5-43 | Which entry each build gets: the three named environments their own entry, a dev build without `VITE_ENV` development, anything else production |
| ApiConfig.TrimBase | frontend/src/config/api.js:54 | A base ending in '/' loses exactly that character; otherwise it is unchanged |
| ApiConfig.AsPath | frontend/src/config/api.js:55 | The path always starts with '/': the endpoint itself if it does, otherwise '/' followed by it |
| ApiConfig.JoinUrlSpec | frontend/src/config/api.js:53-57 | The URL is the trimmed base followed by one '/' and the endpoint, with lengths adding up. Without a trailing slash on the base and with a leading slash on the endpoint it is plain concatenation |
| ApiConfig.LeadingSlashOptional | frontend/src/config/api.js:55-56 | An endpoint with or without its leading slash gives the same URL |
| ApiConfig.BuildApiUrl | frontend/src/config/api.js:46-57 | The URL is the configured base, untouched since no configured base ends in '/', followed by the endpoint with a leading '/' added if missing |
| ApiConfig.BuildApiUrlConcatenates | frontend/src/config/api.js:46-57 | No configured base ends in '/', so a slash-prefixed endpoint is appended to the base as is |
| CacheBusting.CacheBuster.GetCacheBuster | frontend/src/lib/cache-buster.js:16-18 | `v=`, the version, `&t=`, then decimal digits that read back to the timestamp |
| CacheBusting.CacheBuster.GetVersion | frontend/src/lib/cache-buster.js:27-29 | The version the helper was made with |
| CacheBusting.CacheBuster.BustCache | frontend/src/lib/cache-buster.js:21-24 | The URL is kept as a prefix, one separator and the parameter follow, and the result always has a query |
| CacheBusting.Separator | frontend/src/lib/cache-buster.js:22 | '&' exactly when the URL contains '?', otherwise '?' |
| CacheBusting.BustCacheSpec | frontend/src/lib/cache-buster.js:21-24 | The URL is a prefix of the result, followed by the separator and the parameter, and the result contains '?' |
| CacheBusting.BustTwice | frontend/src/lib/cache-buster.js:21-24 | Busting an already busted URL appends with '&' |
| CacheBusting.FirstAmp | frontend/src/lib/cache-buster.js:16-18 | -1 exactly when there is no '&', otherwise the first position of one |
| CacheBusting.ParseRoundTrip | frontend/src/lib/cache-buster.js:16-18 | For a version without '&', the version and timestamp read back from the parameter |
| CacheBusting.ParamInjective | frontend/src/lib/cache-buster.js:16-18 | Different versions or times (versions without '&') give different parameters |
| CacheBusting.VersionChange | frontend/src/lib/cache-buster.js:27-34 | `hasVersionChanged` is true exactly when the stored value differs from the current version |

## Left out

- `calculateDistance` (the haversine formula, floating-point
  trigonometry). It becomes the `distance` function a `Gps.GpsManager`
  is built with, and only its non-negativity is assumed.
- `navigator.geolocation`: `getCurrentPosition`, `watchPosition` and
  `clearWatch` are browser I/O.
  - `StartTracking` receives the geolocation support flag, the first fix
    (or its error) and the new watch id.
  - The watch callbacks are calls of `HandlePositionUpdate` and
    `HandlePositionError`.
  - Cleared watches are recorded in `clearedWatches`.
- Svelte store publishing becomes plain fields. `console` logging is
  dropped.
- Subscriber callbacks are identities. The calls made are logged in
  `notifications`. A callback throwing (the source catches and logs it)
  and a callback that unsubscribes during a broadcast are not modelled.
- Gps.FormatDistance: only whole metres are formatted. The source
  formats any number, so 12.5 gives "12.5m"; non-integral metre values
  (such as the unrounded shot distances) are outside the model. The
  kilometre branch (distance ≥ 1000) formats a float with `toFixed(1)`,
  which is not modelled either; the function answers `None` there.
- The front end's other modules are not part of this model:
  `frontend/src/lib/api.js` (a fetch wrapper),
  `frontend/src/stores/app.js` and `frontend/src/main.js`.
- The back end's other modules are not part of this model:
  `backend/src/routes/rounds.js` (CRUD) and `backend/src/index.js`
  (bootstrap, CORS, rate limiting).
- Prisma and Express are replaced by in-memory sequences and
  `Result` values.
  - The joined `player`/`round` objects in responses are not modelled.
  - Database failures (the 500 answers) are modelled only for an id
    that is already taken.
  - `uuidv4` ids are parameters.
  - Each store method runs atomically. Two concurrent creates passing the
    duplicate check together are not modelled.
- Fetched lists are taken in the order given. The `orderBy` of the
  queries (`createdAt`, `date`, `shotNumber`) is not re-checked:
  - `RoundStatistics.ComputeRoundStats` takes the round's shots in table
    order;
  - `PlayerStatistics.RecentPerformanceSpec` takes the player's first
    ten rounds of the list given, which the route fetches newest first.
- `Object.values` is modelled in insertion order. JavaScript lists
  integer-like keys first, so the two orders agree only when no key is
  integer-like. That holds for the data the routes accept (the 14 clubs,
  the 10 locations, `Penalty`/`penalty` and UUID player ids), but the
  statistics functions take any strings and do not assume it.
- Success rates are not rendered as `toFixed(1)` percentage strings.
  They are kept as (successful, total) pairs, and the best-clubs ranking
  uses `GlobalStatistics.SuccessTenths`: the exact rate rounded half-up
  to a tenth of a percent. Float rounding can differ at exact halves.
- express-validator internals are out of reach, so only the stated rules
  are encoded.
  - `isUUID` is modelled as the 8-4-4-4-12 hexadecimal shape.
  - Request fields arrive with the right types (numbers as integers,
    strings as strings). Non-string or non-integer inputs are excluded
    by the Dafny types.
- Shots.ShotStore.Update: the source forwards the whole request body to
  the database, including fields it does not validate (such as
  `holeNumber` or `shotNumber`). The store uses the corrected update,
  which carries only the validated fields; the as-written update is
  `Shots.AppliedAsWritten` (see Findings). Body fields outside the shot's
  columns (a Prisma error) are not modelled.
- Shots.Applied: keeps the id and key, which the source's PUT does not
  guarantee. A PUT can change `holeNumber`, `shotNumber`, `roundId`,
  `playerId` or `id`.
- Shots.UpdateKeepsWellFormed: the integrity it proves is that of the
  corrected update. The source's PUT can store a hole outside 1..18 or
  a repeated (round, player, hole, shot number) key, as
  `Shots.UpdateAsWrittenBreaksIntegrity` shows; whether the database
  schema would refuse a repeated key is not part of this model.
- Players.ValidatePlayer: every character counts towards a length.
  validator.js `isLength` counts code points but skips the variation
  selectors U+FE0E and U+FE0F; the model counts those too.
- ApiConfig.GetApiConfig: an environment name that is an inherited
  object property (such as `constructor`) would look up that property.
  The model consults only the three table entries. The configuration
  logging at module load is dropped.
- `generateVersion` reads the clock and `Math.random`. A
  `CacheBusting.CacheBuster` is built from a given version and timestamp.

## Findings

| source | as written | input that shows it | evidently intended | confidence | as-written member | corrected member |
|---|---|---|---|---|---|---|
| backend/src/routes/shots.js:141-176 | The PUT validates only club, distance, location, targetLocation, result, error and isPenalty, then stores the whole body | `PUT /api/shots/:id` with `{holeNumber: 19}`, or `{shotNumber: 1}` on the second shot of a hole | The create-time rules (hole 1..18, shot number ≥ 1, a unique (round, player, hole, shot number) key) keep holding after an update | not executed; medium, as the database schema is not part of this model | Shots.AppliedAsWritten, Shots.UpdateAsWrittenBreaksIntegrity | Shots.Applied, Shots.UpdateKeepsWellFormed |
