# Ranked mode: rating, matchmaking and match adjudication

This project models the server side of a typing game's head-to-head ranked mode:

- **Anti-cheat gate.** Two threshold checks on one player's result: speed above 300 wpm, and 100 % accuracy above 150 wpm.
- **Rating engine.** The logistic expected score and the Elo update rule. A per-match update of the player record, with the k-factor dropping from 32 to 16 once a player reaches ten games. Player provisioning at 1000. The inactivity decay sweep. The 26-band rank-tier table with its first-match lookup. The candidate query: up to 50 other players rated within 100 points.
- **Matchmaking queue.** An in-memory list of waiting players. Joining replaces the player's entry and appends a fresh one. Leaving splices at the index `findIndex` reports. Pairing is first-fit over the candidate query's answer.
- **Ranked request handlers.** Start a match: pair from the queue, or join it. Submit a result: validate, decide the outcome, update both players, store the match record, report the deltas. Project a stored match onto one player's history.

The Dafny modules follow the source's files:

| file | module | models |
|---|---|---|
| `anti_cheat.dfy` | `AntiCheat` | the result check |
| `tiers.dfy` | `Tiers` | the tier table and the tier lookup |
| `elo.dfy` | `Elo` | the rating rule, the player record rules and the player collection (`PlayerStore`) |
| `matchmaking.dfy` | `Matchmaking` | the queue (`MatchmakingQueue`) |
| `ranked.dfy` | `Ranked` | the handlers and the match collection (`MatchStore`) |

Conventions:

- Collections the source changes in place are class fields that the methods reassign. The player and match collections are `seq`s in the store's natural order, where `findOne` and `updateOne` act on the first match. The queue is a `seq` of entries.
- Each mutating method is proved against pure functions such as `Lookup`, `Provision`, `StatsUpdated`, `Without`, `Requeue`, `FirstPartner` and `Adjudicate`. The properties of those functions are proved as lemmas.
- `Math.pow(10, x)` is a parameter `pow10`. It is constrained by `Elo.Pow10Laws`: positive, `10^-x` is the reciprocal of `10^x`, and strictly increasing. From these laws the model proves that an expected score lies strictly between 0 and 1, and that the two players' expected scores sum to 1.
- The clock (`Date.now()`) and the generated ids (match id, word-list seed) are parameters of the methods that use them.
- Ratings, speeds and accuracies are `real`s. Counters, k-factors and timestamps are `int`s.

The code itself shows where it does not do what its authors meant. The model follows the code in these places:

- A draw adds a loss to both players: only a score of exactly 1 counts as a win. See `Ranked.AdjudicationEffects`.
- Decay can take a rating below zero. The comment on the filter at `backend/src/services/elo.service.ts:122` says the rating should not go below 0.
- Leaving the queue when absent removes the last entry.
- Non-positive speeds or accuracies are raised as a 400 (`backend/src/api/controllers/ranked.ts:64`) inside the handler's `try` block. The `catch` turns that into a 500 "Internal server error.", which is what `Ranked.SubmitRankedMatchResult` returns.
- Tier lookup leaves fractional ratings between two bands "Unranked". The fallback's comment at `backend/src/services/elo.service.ts:45` says this should not happen if the bands cover every rating.

## Model

| member | source | states |
|---|---|---|
| AntiCheat.ValidateRankedResult | backend/src/services/antiCheat.service.ts:1-23 | above 300 wpm is rejected; 100 % accuracy above 150 wpm is rejected; at most 150 wpm always passes; below 100 % accuracy, up to 300 wpm passes |
| AntiCheat.BoundariesAreStrict | backend/src/services/antiCheat.service.ts:3-14 | both thresholds are strict: 300 passes and 301 fails at any accuracy other than 100 %; 150 passes and 151 fails at 100 % |
| AntiCheat.IgnoresRawWpmAndDuration | backend/src/services/antiCheat.service.ts:1-23 | the verdict does not depend on raw speed or duration |
| AntiCheat.MonotoneInWpm | backend/src/services/antiCheat.service.ts:1-23 | a result that passes also passes at any lower speed with the same accuracy |
| Tiers.RankTiers | backend/src/services/elo.service.ts:10-37 | the 26 bands in lookup order, with the names and inclusive bounds of the source table; `RankTiersGapless` proves their shape |
| Tiers.FirstBand | backend/src/services/elo.service.ts:39-46 | the index found is the first band whose inclusive range holds the rating; none is found exactly when no band holds it |
| Tiers.GetRankTier | backend/src/services/elo.service.ts:39-46 | the name of the first band holding the rating, else "Unranked"; `UnrankedExactly` proves exactly when "Unranked" comes back, `IntegerRatingsRanked` and `TierExamples` which tier other ratings get |
| Tiers.RankTiersGapless | backend/src/services/elo.service.ts:10-37 | the table has 26 bands starting at 0; each bounded band ends one below the next band's start; only the last band is unbounded; no band is named "Unranked" |
| Tiers.UnrankedExactly | backend/src/services/elo.service.ts:39-46 | the lookup answers "Unranked" if and only if the rating is negative or lies strictly between a band's top and the next integer |
| Tiers.IntegerRatingsRanked | backend/src/services/elo.service.ts:10-46 | every non-negative integer rating lies in exactly one band and gets a real tier |
| Tiers.TierExamples | backend/src/services/elo.service.ts:10-46 | 1000 is "Silver IV"; 2900 and above is "Master"; 499.5 and negative ratings are "Unranked" |
| Tiers.GetRankTierContinuous | backend/src/services/elo.service.ts:39-46 | corrected lookup: a tier other than "Unranked" exactly for non-negative ratings; the same tier as the lookup wherever the lookup finds a band (so on every integer rating); a rating in the gap after a band gets that band |
| Elo.ExpectedScore | backend/src/services/elo.service.ts:77-78 | the logistic expected score `1 / (1 + 10^((opponent - rating) / 400))`; `ExpectedScoreBounds`, `ExpectedScoresSumToOne` and `ExpectedScoreOrdering` prove it lies in (0, 1), is complementary between the two players, and favours the higher rating |
| Elo.ExpectedScoreBounds | backend/src/services/elo.service.ts:77-78 | an expected score lies strictly between 0 and 1 |
| Elo.ExpectedScoresSumToOne | backend/src/services/elo.service.ts:77-78 | the two players' expected scores sum to 1 |
| Elo.ExpectedScoreOrdering | backend/src/services/elo.service.ts:77-78 | equal ratings expect 0.5; the higher-rated player expects more than 0.5 |
| Elo.CalculateEloChange | backend/src/services/elo.service.ts:69-84 | with a positive k-factor, a win raises and a loss lowers each rating; equal k-factors and scores summing to 1 conserve total rating; equal ratings move by exactly k/2 |
| Elo.Rerated | backend/src/services/elo.service.ts:80-81 | one side's new rating; `RatingMoves`, `TotalConserved` and `EvenMatch` prove its direction, conservation of the total and the ±k/2 move between equal ratings |
| Elo.RatingMoves | backend/src/services/elo.service.ts:80-81 | with a positive k-factor, one side's update raises the rating on a win and lowers it on a loss |
| Elo.TotalConserved | backend/src/services/elo.service.ts:77-81 | one k-factor and scores summing to 1 leave the sum of the two new ratings equal to the sum of the old ones |
| Elo.EvenMatch | backend/src/services/elo.service.ts:77-81 | between equal ratings a win gains exactly k/2 and a loss costs exactly k/2 |
| Elo.NewRankedPlayer | backend/src/services/elo.service.ts:53-63 | the record created for a first-time player; `NewRankedPlayerDefaults` proves every field's default |
| Elo.NewRankedPlayerDefaults | backend/src/services/elo.service.ts:48-67 | a new player has rating 1000, tier "Silver IV", timestamp 0, no games, wins or losses, and k-factor 32 |
| Elo.StatsUpdated | backend/src/services/elo.service.ts:86-113 | after one match: the new rating, the tier derived from it and the match timestamp; one more game; one more win, or else one more loss; k-factor 16 once games reach 10, otherwise unchanged |
| Elo.UpdatesKeepInvariants | backend/src/services/elo.service.ts:95-110 | over any run of matches: games grow by the number of matches; wins plus losses equal games if they did before; k-factor 16 is never left and is reached at 10 games |
| Elo.Decayed | backend/src/services/elo.service.ts:115-128 | an inactive player with a positive rating loses exactly 10; every other record is unchanged; the tier field is not recomputed |
| Elo.DecayCutoff | backend/src/services/elo.service.ts:117 | the inactivity cut-off, two weeks before `now`; `DecayExamples` proves the window is 1 209 600 000 ms |
| Elo.DecayExamples | backend/src/services/elo.service.ts:115-128 | the window is 1 209 600 000 ms; an inactive rating strictly between 0 and 10 ends up negative |
| Elo.DecayedFloored | backend/src/services/elo.service.ts:115-128 | corrected decay: only the rating can change; a non-negative rating stays non-negative and drops by at most 10; a rating of 0 or below is untouched; an inactive rating strictly between 0 and 10 becomes 0; otherwise it agrees with the code |
| Elo.Locate | backend/src/services/elo.service.ts:48-67 | the index found is the first document with the uid; none is found exactly when no document has it |
| Elo.Lookup | backend/src/services/elo.service.ts:48-67 | what `getOrCreateRankedPlayer` returns: the first stored record with the uid, else a new default record; `ProvisionFacts` proves it is then the record stored for the uid |
| Elo.Provision | backend/src/services/elo.service.ts:48-67 | the collection after `getOrCreateRankedPlayer`: unchanged when the uid is present, else with a default record appended; `ProvisionFacts` and `ProvisionKeepsUidsUnique` prove presence, idempotence, at most one insert and kept uniqueness |
| Elo.ProvisionFacts | backend/src/services/elo.service.ts:48-67 | after provisioning the uid is present with the reported record; provisioning twice equals once; other uids are unaffected; at most one document is added |
| Elo.ProvisionKeepsUidsUnique | backend/src/services/elo.service.ts:48-67 | provisioning keeps uids unique and keeps every existing document in place |
| Elo.ReplaceRecord | backend/src/services/elo.service.ts:112 | the `updateOne`: the first record with the uid is replaced, nothing if there is none; `ReplaceRecordFacts` proves only that uid's record changes |
| Elo.ReplaceRecordFacts | backend/src/services/elo.service.ts:112 | replacing a present uid's record changes what that uid finds and nothing else, and keeps the length and the uid order |
| Elo.Qualifying | backend/src/services/elo.service.ts:130-140 | a player is selected exactly when it has another uid and is rated within 100 inclusive |
| Elo.QualifyingSingle | backend/src/services/elo.service.ts:130-140 | one player is kept exactly when it qualifies, and dropped otherwise |
| Elo.QualifyingAppend | backend/src/services/elo.service.ts:130-140 | the selection of a concatenation is the concatenation of the selections, so the selection keeps collection order |
| Elo.FindMatchmakingCandidates | backend/src/services/elo.service.ts:130-140 | at most 50 results, each another player rated within 100; a prefix of the qualifying players; fewer than 50 means every qualifying player |
| Elo.PlayerStore.GetOrCreateRankedPlayer | backend/src/services/elo.service.ts:48-67 | returns the stored record, or appends and returns a default record when the uid is absent |
| Elo.PlayerStore.UpdatePlayerEloAndStats | backend/src/services/elo.service.ts:86-113 | the uid's record becomes the per-match update of the record fetched (or created); every other uid's record is unchanged; uids stay unique |
| Elo.PlayerStore.ApplyEloDecay | backend/src/services/elo.service.ts:115-128 | each record becomes its decayed form against a cut-off two weeks before `now` |
| Matchmaking.FindIndex | backend/src/services/matchmaking.service.ts:18 | the first index holding the uid, or -1 exactly when the uid is absent |
| Matchmaking.Without | backend/src/services/matchmaking.service.ts:17-21 | keeps exactly the entries with another uid |
| Matchmaking.SpliceOne | backend/src/services/matchmaking.service.ts:37 | `splice(start, 1)` with JavaScript's negative and out-of-range starts; `SpliceFound` and `SpliceAbsent` prove what it removes at a found index and at -1 |
| Matchmaking.SpliceFound | backend/src/services/matchmaking.service.ts:37 | with unique uids, splicing at the found index removes exactly that player's entry and keeps the rest in order |
| Matchmaking.SpliceAbsent | backend/src/services/matchmaking.service.ts:37 | for an absent uid, splicing at -1 drops the last entry, if there is one |
| Matchmaking.LeaveAbsentDropsAnotherPlayer | backend/src/services/matchmaking.service.ts:37 | "bob" leaving the queue that holds only "alice" empties it |
| Matchmaking.LeaveIfQueued | backend/src/services/matchmaking.service.ts:35-41 | corrected leave: removes exactly the player's entry whether or not one exists; uids stay unique |
| Matchmaking.Requeue | backend/src/services/matchmaking.service.ts:17-23 | join's remove-then-push step; `RequeueFacts` proves the player ends with one entry, last, and the others keep their order |
| Matchmaking.RequeueFacts | backend/src/services/matchmaking.service.ts:17-23 | after joining, the player's only entry is the new one and it is last; other entries keep their order; uids stay unique |
| Matchmaking.FirstPartner | backend/src/services/matchmaking.service.ts:51-53 | the index found is the first candidate that is another player with a queue entry; none is found exactly when no candidate qualifies |
| Matchmaking.ScanCandidates | backend/src/services/matchmaking.service.ts:51-69 | the loop returns the first pairable candidate, or none |
| Matchmaking.CandidatesFor | backend/src/services/matchmaking.service.ts:47-49 | the candidate query run with the provisioned player's stored rating; `CandidatesAfterProvision` proves provisioning again does not change it |
| Matchmaking.CandidatesAfterProvision | backend/src/services/matchmaking.service.ts:47-49 | the second provisioning inside the pairing step does not change the candidates |
| Matchmaking.RemovePair | backend/src/services/matchmaking.service.ts:56-58 | removing both paired players leaves two fewer entries, keeps the others, and keeps uids unique |
| Matchmaking.LonePlayerNotPaired | backend/src/services/matchmaking.service.ts:52 | a player alone in the queue is never paired |
| Matchmaking.QueuedNeighbourFound | backend/src/services/matchmaking.service.ts:49-53 | when fewer than 50 candidates are returned, any queued player rated within 100 leads to a pairing |
| Matchmaking.MatchmakingQueue.LeaveMatchmakingQueue | backend/src/services/matchmaking.service.ts:35-41 | a queued player's entry is removed (length drops by one); for an absent player the last entry is removed |
| Matchmaking.MatchmakingQueue.FindMatch | backend/src/services/matchmaking.service.ts:43-70 | an unqueued player gets no match and nothing changes; otherwise the player is provisioned; on the first pairable candidate both entries are removed and the match id returned, else the queue is unchanged |
| Matchmaking.MatchmakingQueue.JoinMatchmakingQueue | backend/src/services/matchmaking.service.ts:14-33 | the player is provisioned and requeued with the stored rating and `now`; then either paired (both removed, match id returned) or left waiting with "Waiting for opponent" |
| Matchmaking.MatchmakingQueue.GetMatchmakingQueueStatus | backend/src/services/matchmaking.service.ts:72-74 | returns the queue as it stands |
| Ranked.DetermineOutcome | backend/src/api/controllers/ranked.ts:75-102 | scores sum to 1; higher wpm wins; on equal wpm higher accuracy wins; otherwise a "draw"/"draw" with 0.5 each |
| Ranked.OutcomeSwap | backend/src/api/controllers/ranked.ts:75-102 | swapping the two sides swaps the scores and keeps winner and loser |
| Ranked.Adjudicate | backend/src/api/controllers/ranked.ts:53-145 | the rating change is the Elo rule applied to the fetched ratings, k-factors and outcome scores; the record holds the match id, seed, timestamp, both uids, both results, the fetched ratings as initial and the new ratings as final, and the outcome's winner and loser; it is valid exactly when both results pass the anti-cheat check; the response always succeeds; its deltas equal final minus initial in the record; its winner is the record's winner |
| Ranked.AdjudicationEffects | backend/src/api/controllers/ranked.ts:76-116 | with positive k-factors the winner gains and the loser loses; a draw records a loss and no win for both players |
| Ranked.Perspective | backend/src/api/controllers/ranked.ts:194-204 | the side is player 1's exactly when the uid is player 1, otherwise player 2's; the change is final minus initial; the outcome is "win" exactly when the uid is the winner, "loss" exactly when the uid is the loser and not the winner, and "draw" exactly when the uid is neither |
| Ranked.HistoryMatchesSubmission | backend/src/api/controllers/ranked.ts:118-204 | for two distinct players, neither with the uid "draw", each one's history entry names the other as opponent, reports the response's delta, and says win, loss or draw exactly for a score of 1, 0 or 0.5 |
| Ranked.MatchStore.InsertOne | backend/src/api/controllers/ranked.ts:136 | appends the record to the collection |
| Ranked.SubmitRankedMatchResult | backend/src/api/controllers/ranked.ts:44-150 | a missing field gives the 400 message and a non-positive result gives the 500 message, neither changing any state; otherwise both players are fetched in order and updated by their scores, the adjudicated record is appended, the adjudicated response returned, and no other player changes; the player collection has the length and uid order of provisioning both uids in turn |
| Ranked.PlayMatch | backend/src/api/controllers/ranked.ts:67-116 | both players are fetched or created in order, the match is adjudicated on the fetched records, and each record becomes its per-match update; nobody else changes; the collection has the length and uid order of provisioning both uids |
| Ranked.StartRankedMatch | backend/src/api/controllers/ranked.ts:16-42 | a missing uid gives the 400 message with no change; otherwise the player is provisioned; a queued player with a partner gets the match and the seed; anyone else joins the queue with the join's effect |
| Ranked.GetPlayerRankedStats | backend/src/api/controllers/ranked.ts:176-210 | the player is provisioned; the profile is reported with the tier recomputed from the rating; each given match is projected from the player's side |

## Left out

- HTTP plumbing is not modelled: requests, status codes and the response message texts beyond the error messages. Handlers return result datatypes.
- The `catch` blocks that turn a store failure into a 500 are not modelled. The store never fails in the model.
- The word list sent with a found match is not modelled. Its generator is a placeholder returning a fixed list.
- `Math.pow` is a parameter constrained by `Elo.Pow10Laws`, not computed. IEEE-754 rounding, NaN and infinities are not modelled. Ratings are exact reals.
- Store object ids are not modelled. Neither are the `new ObjectId()` match id and seed: they are parameters.
- The history query is not modelled: its filter by either uid, its newest-first sort and its limit of 20. `Ranked.GetPlayerRankedStats` takes the fetched matches as a parameter.
- The leaderboard handler is not modelled: it is a sort-and-limit over the player collection plus a tier lookup.
- The `joinRankedMatchmakingQueue` and `leaveRankedMatchmakingQueue` handlers (`backend/src/api/controllers/ranked.ts:212-244`) are not modelled separately. Each checks for a uid and then calls the queue operation that is modelled. `getMatchmakingQueue` (lines 246-254) takes no uid and returns the queue status, which `Matchmaking.MatchmakingQueue.GetMatchmakingQueueStatus` models.
- Match ids are assumed non-empty (`requires matchId != ""` on `FindMatch`, `JoinMatchmakingQueue` and `StartRankedMatch`). The source tests a found match id for truthiness; a generated `ObjectId` string is 24 hex digits, so it is never empty.
- Matchmaking.MatchmakingQueue.GetMatchmakingQueueStatus: returns a copy of the entries. The source returns the live array, and that aliasing is not modelled.
- Interleaving of concurrent requests at `await` points is not modelled. Every handler runs to completion alone. One consequence the model therefore does not show: `findMatch` checks the player's entry (`backend/src/services/matchmaking.service.ts:44`), then awaits the store (lines 47 and 49) before leaving the queue for it at line 57. If another player's join pairs and removes this player in between, the leave's `splice` at line 37 receives -1 and drops whoever is last in the queue.
- Logging is not modelled.
- The candidate query assumes the store answers an unsorted `find` in natural order. No sort is specified, so a real store may return a different 50.
- Elo.PlayerStore operations assume one document per uid (`Valid`). The source has no unique index on uid.

## Findings

| source | as written | input that shows it | evidently intended | confidence | as-written member | corrected member |
|---|---|---|---|---|---|---|
| backend/src/services/elo.service.ts:39-46 | bands are inclusive integer ranges, so a fractional rating between two bands matches none and is "Unranked" | rating 499.5, which any non-integer Elo update can produce | every non-negative rating has a tier, as the fallback's own comment says | high (not executed) | Tiers.UnrankedExactly | Tiers.GetRankTierContinuous |
| backend/src/services/matchmaking.service.ts:37 | `splice(findIndex(uid), 1)` with index -1 removes the last entry | "bob" leaves a queue holding only "alice"; "alice" is removed | leaving when absent changes nothing | high (not executed) | Matchmaking.LeaveAbsentDropsAnotherPlayer | Matchmaking.LeaveIfQueued |
| backend/src/services/elo.service.ts:115-128 | the filter `elo > 0` followed by subtracting 10 takes ratings in (0, 10) below zero | an inactive player rated 5 ends at -5 | decay never takes a rating below 0, as the filter's comment says | high (not executed) | Elo.DecayExamples | Elo.DecayedFloored |

The handlers and stores model the code as written. The corrected members above state the intended behaviour beside it. When each request runs alone, the queue's own pairing never hits the second finding, because it only removes players who are queued. Under interleaving it can (see "## Left out").
