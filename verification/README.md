# The tournament engine, modelled and proved in Dafny

This project models the part of the tournament API that decides who plays whom and who
goes through: the draw generators, the rules for a legal tennis score, the transaction
that saves or corrects a score and pushes its consequences through the draw, the group
standings, the bracket read model, the hand-made fixtures, the court schedule and the
sign-in rate limiter.

Code that changes rows or slices step by step is a class or a method with loops
(`MatchStore.Store`, `Schedule.Repository`, `Fixtures.Store`, `RateLimit.Limiter`, the
generators), each proved equal to a function of its inputs or its old state. The laws are
lemmas about those functions, for every input and every run of requests.

| file | models |
|---|---|
| `Bracket.dfy`, `Powers.dfy` | `single_elim.go`, `group_knockout.go`, `manual.go`: wiring of the binary bracket, `validatePairs` |
| `Seeding.dfy` | `single_elim.go`: seed order, placing of entries, byes |
| `RoundRobin.dfy` | `round_robin.go`: the circle method on a ring rotated in place |
| `GroupSetup.dfy` | `manual_setup.go`: `SetGroups` checks, `advancerSlots`, `groupKnockoutFromAssignment` |
| `Scoring.dfy`, `Tennis.dfy` | `scoring.go`, and an independent definition of playing a match out |
| `Tables.dfy`, `GroupTotals.dfy` | the event's tables and `standingsForGroup` |
| `Progression.dfy`, `Coherence.dfy` | `SaveScore`, `SubmitScore`, `SetStatus`, the placement rebuild and the resolver, and what every run keeps |
| `Requests.dfy` | what each request answers, records and leaves alone, with every status written out |
| `Persist.dfy`, `MatchStore.dfy` | `persistWithGroups` in three passes; the same operations as a mutable store |
| `Provenance.dfy`, `SingleElimination.dfy`, `GroupKnockout.dfy` | where the players of a match come from, over whole runs of a stored event |
| `Liveness.dfy` | which slots can still be filled, which matches won, which groups completed, and by which requests |
| `ReadModel.dfy` | `GetBracket` and `knockoutRounds`: rounds recovered from next references |
| `Fixtures.dfy` | `manual_setup.go`: adding, generating and deleting round-robin fixtures |
| `Schedule.dfy` | `schedule/repository.go`: slot writes, conflicts, stamps |
| `RateLimit.dfy` | `ratelimit.go`: the sliding window |
| `Seqs.dfy`, `Wrappers.dfy` | sequences and options |

## What the proofs show about the code

- The comment at `internal/match/repository.go:271-275` is right: on coherent tables one
  level of rebuild equals recomputing every slot of the event, and `SaveScore` refuses
  exactly when that would change a slot of a started match.
- The comment at `internal/match/repository.go:372-373` speaks of a bye that advances by
  itself; no code does that. In every reachable state a bye match has no winner and the
  slot it feeds is open, until a score of that very match is accepted
  (`SingleElimination.ByesNeverAdvance`), and a slot gets a player in some run exactly when
  not all leaves below it are byes (`SingleElimination.SlotFilledIff`).
- A match can be scored while one of its sides is still open. While the match that feeds it
  has a player, that side can be filled exactly as long as the match itself has no accepted
  score (`Liveness.OpenSideIff`); afterwards its feeder can never be given a winner. Every
  bracket of two pairs or more can get there in two requests
  (`SingleElimination.OpenSideIsLost`).
- In the same way a group can be completed exactly as long as no match that takes one of its
  places has an accepted score (`Liveness.CompletedIff`). In every event of two groups or
  more some requests shut out the second group for good (`GroupKnockout.GroupCanBeLost`).
- Whether a match can still be won, and in a bracket by whom, is characterised for every
  reachable state (`Liveness.WonIff`, `SingleElimination.ChampionIff`); before the first
  score every team of the list can become champion, and nobody else
  (`SingleElimination.AnyTeamCanWin`).
- `advancerSlots` tests how many teams one group advances but enters the runner-up of the
  next group. The requested places are entered exactly when all groups advance more than
  one team or none does (`GroupSetup.TopPlacesIffUniform`).
- Replacing the match of a schedule slot clears the stamp of the old match without looking
  for other slots that hold it; deleting a slot looks, but may keep a stamp that no slot
  has (`Schedule.SwapLosesStampIff`, `Schedule.DeleteLeavesStaleIff`; `Schedule.SwapLosesStamp`
  and `Schedule.DeleteLeavesStale` are runs from an empty schedule in which it happens).
- Taking back a result does not look at the schedule. It keeps players apart exactly when
  nothing was booked against the match's slots while it was decided
  (`Schedule.StepKeepsOrderIff`, `Schedule.ReopenBooksTwice`).
- A result taken back after a rematch was added leaves the pair with two open fixtures
  (`Fixtures.RematchThenReopen`).
- After a denial, waiting exactly as long as `RetryAfter` says ends in another denial,
  because denied attempts are recorded too (`RateLimit.RetryDeniedAgain`).

## Model

| member | source | states |
|---|---|---|
| Powers.NextPowerOfTwo | internal/draw/single_elim.go:170-176 | returns the power of two p with p >= n and p < 2n (1 for n <= 1) |
| Powers.PowerAtLeastUnique | internal/draw/single_elim.go:170-176 | there is only one such power of two |
| Powers.Log2 | internal/draw/single_elim.go:178-184 | returns the integer logarithm |
| Powers.LgBounds | internal/draw/single_elim.go:178-184 | 2^lg(u) <= u < 2 * 2^lg(u) for every positive u |
| Bracket.WireFedRounds | internal/draw/single_elim.go:85-112 | from any first round of 2^k matches, the appended and patched slice is the closed-form bracket: match i has heap number 2f-1-i and feeds its half |
| Bracket.BuildKnockoutFromSlots | internal/draw/group_knockout.go:127-162 | pads the feeds with byes to a power of two and wires the same closed form |
| Bracket.GenerateFromPairs | internal/draw/manual.go:23-57 | drops empty pairs, pads with bye matches to a power of two and wires; nothing for no pairs |
| Bracket.ValidatePairs | internal/draw/service.go:113-142 | accepts exactly the lists with no half-filled pair, no team twice and no stranger, and returns the non-empty pairs |
| Bracket.WiredIsPerfectTree | internal/draw/single_elim.go:85-112 | 2f-1 matches, one final, every edge goes forward one round, every slot above round 1 has exactly one feeder |
| Bracket.WiredRounds | internal/draw/single_elim.go:85-112 | round r is one contiguous block of f / 2^(r-1) matches numbered from 0 |
| Bracket.BothBuildersWireAlike | internal/draw/group_knockout.go:127-162 | both builders give perfect trees, and on equal sizes the same rounds, positions and edges |
| Seeding.SeedPositions | internal/draw/single_elim.go:157-168 | the doubling loop returns the recursive seed order of the needed size |
| Seeding.SeedOrderPermutes | internal/draw/single_elim.go:154-168 | the seed order is a permutation of 1..2^k |
| Seeding.OneTopSeedPerBlock | internal/draw/single_elim.go:154-168 | every aligned block of 2^j slots holds exactly one of the top 2^(k-j) seeds, at its start |
| Seeding.FirstRoundSeedsSum | internal/draw/single_elim.go:154-168 | the two seeds of a first-round match sum to size + 1 |
| Seeding.PlaceEntries | internal/draw/single_elim.go:125-152 | seeded entries at their seed's slot, the others in order in the free slots, byes last |
| Seeding.EntriesPlacedOnce | internal/draw/single_elim.go:125-152 | with distinct seeds that fit, every entry is placed exactly once and size - n slots are byes |
| Seeding.GenerateSingleElimination | internal/draw/single_elim.go:55-79 | the draw is the wired bracket over the placed entries; nothing below two entries |
| Seeding.ByesFaceTopSeeds | internal/draw/single_elim.go:55-79 | with seeds 1..n exactly the top size - n seeds meet a bye, and no match is bye against bye |
| Seeding.SeedSlot | internal/draw/single_elim.go:125-152 | a slot of round 1 holds the entry with that slot's seed, or else an unseeded entry or a bye |
| Seeding.UnseededInOrder | internal/draw/single_elim.go:125-152 | unseeded entries stand in the order they came in |
| Seeding.FacingBlocksSum | internal/draw/single_elim.go:154-168 | in every round the best seeds of two facing blocks sum to one more than the number of blocks |
| RoundRobin.GenerateRoundRobin | internal/draw/round_robin.go:11-62 | the rotated ring yields exactly the closed-form schedule, every fixture in order with its round and number |
| RoundRobin.Rotate | internal/draw/round_robin.go:51-57 | shifting the ring in place gives the ring of the next round |
| RoundRobin.EveryPairMeetsOnce | internal/draw/round_robin.go:11-62 | every two of n entries meet in exactly one fixture, for every n |
| RoundRobin.FixturePairsTwo | internal/draw/round_robin.go:32-49 | a fixture pairs two different real entries in one of the rounds |
| RoundRobin.OncePerRound | internal/draw/round_robin.go:32-49 | two fixtures of one round share no entry |
| RoundRobin.FixtureIs | internal/draw/round_robin.go:11-62 | fixture k is number k mod n/2 of round k div n/2 and pairs two facing positions of the ring, which moves on one place a round |
| RoundRobin.FixtureCount | internal/draw/round_robin.go:11-62 | n(n-1)/2 fixtures in all |
| Scoring.ValidateScore | internal/match/scoring.go:135-251 | the sorting, numbering, counting and refusing steps return exactly the verdict, with every violation in order |
| Scoring.CountSets | internal/match/scoring.go:189-222 | the loop over sets: sets won, where the match was decided, violations so far |
| Scoring.SortedVerdictUnique | internal/match/scoring.go:174-185 | any sorted copy gives the same verdict: ties between equal set numbers do not matter |
| Scoring.OrderIrrelevant | internal/match/scoring.go:174-251 | the verdict does not depend on the order in which sets are submitted |
| Scoring.SidesSymmetric | internal/match/scoring.go:135-343 | swapping the sides swaps the winner and changes nothing else |
| Scoring.AcceptedShape | internal/match/scoring.go:135-251 | what progression relies on: a winner exactly when the status counts, and sets for a score in progress |
| Scoring.AcceptedResult | internal/match/scoring.go:135-251 | a walkover or retirement is accepted for the named side 1 or 2 as its winner, a match played out for one of the sides, a score in progress or a cancellation for nobody, each with its own status |
| Scoring.WalkoverIff | internal/match/scoring.go:158-171 | a walkover is accepted if and only if a side is named and there are no sets |
| Scoring.SetRules | internal/match/scoring.go:253-343 | for each rule about one set, exactly the sets that break it |
| Scoring.ViolationsListed | internal/match/scoring.go:189-222 | the report of a submission names every set's violation, and no other |
| Scoring.EarlyRefusals | internal/match/scoring.go:135-172 | what is refused before any set is looked at, and with which violations |
| Scoring.NumberingRefusals | internal/match/scoring.go:174-187 | the first set out of number, or too many sets, is refused as such |
| Tennis.NormalScoresAreTranscripts | internal/match/scoring.go:135-343 | for odd best-of, a normal completion is accepted if and only if the ordered sets are the score of a match that can be played out and ends with its last set |
| Tennis.TranscriptWinner | internal/match/scoring.go:224-251 | the returned winner is the winner of that match |
| Tennis.PrefixIsIncomplete | internal/match/scoring.go:174-251 | every non-empty strict prefix of an accepted normal score is accepted as incomplete |
| Tennis.PartialScoresAre | internal/match/scoring.go:135-343 | for odd best-of, a score in progress, a retirement or a cancellation is accepted if and only if the winner is named as it asks and the sets are the score of a playable match up to some point, the last set complete or in progress |
| Tennis.UndecidedRefused | internal/match/scoring.go:228-234 | complete sets that decide nothing are refused as a match played out, as unfinished |
| Tennis.DecidedRefused | internal/match/scoring.go:244-248 | sets that decide the match are refused as a score in progress, as decided |
| Tennis.LegalSetAccepted | internal/match/scoring.go:255-343 | every set that can be played is accepted as complete, won by the side that won it |
| Tennis.AcceptedSetPlayable | internal/match/scoring.go:255-343 | every set accepted as complete can be played to that score |
| Tables.RankedIsOrdered | internal/draw/service.go:925-972 | the table is a strictly ordered permutation of its rows |
| Tables.OrderIsUnique | internal/draw/service.go:925-972 | a strict order leaves one possible table |
| Tables.StandingsPermuteTeams | internal/draw/service.go:925-972 | the standings list each of the group's teams once, in strict order of wins, games difference, name |
| Tables.StandingsOrder | internal/draw/service.go:955-957 | an earlier team has more wins, or as many and a better games difference, or that too and a smaller name |
| GroupTotals.StandingsBalance | internal/draw/service.go:925-972 | in every reachable state wins, losses and counted matches of a group are equal in number, and games for equal games against |
| GroupTotals.PlayedIsWonPlusLost | internal/draw/service.go:925-972 | in every reachable state each line has played = won + lost |
| GroupTotals.StandingsCount | internal/draw/service.go:925-957 | each line counts the team's own matches of the group with a counted result, those it won, the games of its side and those of the other |
| Persist.NoSlotLeftEmpty | internal/draw/service.go:261-275 | after pass 3 no slot is left empty |
| Persist.StoredRow | internal/draw/service.go:244-275 | a stored slot has its fixed team, its bye, its placement, or names its one feeder |
| Persist.StoredMatch | internal/draw/service.go:216-243 | a stored match is a bye exactly when one of its slots is a bye, otherwise pending, without winner or sets, with its group and the slot it feeds |
| Persist.KnownGroupsIff | internal/draw/service.go:156-215 | storing succeeds exactly when every place named by a slot is of a group that the draw's matches reach |
| Persist.FreshDrawIsCoherent | internal/draw/service.go:216-278 | a freshly stored draw satisfies the invariant of all runs |
| MatchStore.Store.PersistWithGroups | internal/draw/service.go:156-278 | all or nothing: the new tables are the stored draw, or the old ones when a slot names an unknown group |
| MatchStore.Store.RebuildWinnerFeeds | internal/match/repository.go:330-392 | changes exactly the consumers of the match that differ, or none and returns those that are locked |
| MatchStore.Store.RebuildGroupPlacements | internal/draw/service.go:837-923 | the same for the slots naming places of a group: its standings if it is complete, nil otherwise |
| MatchStore.Store.SaveScoreTx | internal/match/repository.go:276-437 | the whole transaction, with every refusal leaving the tables as they were; the two counts of the audit entry are the fed slots and the placement slots whose team changed |
| MatchStore.Store.ResolveGroupsTx | internal/draw/service.go:628-709 | the lock-free resolver fills every placement slot whose place exists, and returns how many there are |
| MatchStore.Store.MaybeResolve | internal/draw/service.go:587-626 | resolves, and says so, exactly when a group match was scored and every group match is over |
| MatchStore.Store.ParticipantForSlot | internal/match/service.go:193-200 | the participant in the slot, if any |
| MatchStore.Store.SubmitScoreRequest | internal/match/service.go:92-155 | validate, name the winner, save, then resolve groups if the match is over |
| MatchStore.Store.SetStatusRequest | internal/match/service.go:159-190 | refused on a match that is over, otherwise only the status changes |
| Coherence.SaveScoreIsSettle | internal/match/repository.go:263-437 | on coherent tables SaveScore equals recomputing every slot, and is refused, changing nothing, exactly when a slot of a started match would change |
| Coherence.SameResultSucceeds | internal/match/repository.go:330-414 | a re-score that keeps the winner and the group's order always succeeds |
| Coherence.SweepSettles | internal/match/repository.go:271-275 | recomputing twice is recomputing once: nothing is stale further down |
| Coherence.SettleIsCoherent | internal/match/repository.go:276-437 | the tables after an accepted score are coherent again |
| Coherence.ResolverIsIdle | internal/draw/service.go:592-709 | on coherent tables the lock-free resolver changes no slot |
| Coherence.SubmitIsSettle | internal/match/service.go:92-155 | a submitted score either leaves the tables alone or is the full recomputation |
| Coherence.StepKeepsCoherence | internal/match/service.go:92-190 | each request keeps coherence, and no started match loses or changes a player |
| Coherence.RunKeepsCoherence | internal/match/service.go:92-190 | so does every run: slot = feeder's winner or group place, a winner only on counted results and always one of the two players |
| Requests.StartedKeepsPlayers | internal/match/repository.go:367-380 | no request changes a slot of a match that is live or over, or has sets |
| Requests.ScoreOutcome | internal/match/service.go:92-155 | when a submitted score is unknown, invalid, short of a player or locked: locked if and only if a consumer of the match or a place of its group must change in a match that is live or over, or has sets; a refusal changes nothing |
| Requests.ScoreRecorded | internal/match/repository.go:304-328 | what an accepted score records: its sets, the status of the completion, the team on the named side for a walkover or retirement, nobody for a score in progress or a cancellation; no other match changes |
| Requests.PlayedMatchRecorded | internal/match/service.go:108-147 | a match played out records the team on the side that wins it when it is played |
| Requests.StatusOutcome | internal/match/service.go:159-190 | scheduled or live exactly for a match that is pending, scheduled or live, with nothing else changed; refused for one that is over and for a bye |
| Requests.SlotsHold | internal/match/repository.go:330-414 | in every coherent state a slot holds its feeder's winner, or the team in its place once the group is over, and a match has a winner, one of its players, exactly after a counted result |
| Requests.ResolverFills | internal/draw/service.go:628-709 | resolving puts the team standing in each existing place into its slots and changes nothing else |
| Requests.ResolverRuns | internal/draw/service.go:587-626 | it runs exactly after a result of a group match once every group match is over |
| Coherence.EnteredPlayersForGood | internal/match/repository.go:367-380 | once a score was accepted for a match its two slots never change again |
| Coherence.FeederOfEnteredIsFixed | internal/match/repository.go:367-380 | so the winners of its feeders are fixed, even a missing one; when an open side can still be filled is Liveness.OpenSideIff |
| Liveness.OpenSideIff | internal/match/repository.go:367-380 | an open side whose feeding match has a player can be filled by some requests if and only if its match has no accepted score |
| Liveness.FilledIff | internal/match/repository.go:330-392 | in every coherent state some requests bring a player, or a given team, into a slot if and only if it is there or can come up through matches without a score and groups whose places are free |
| Liveness.WonIff | internal/match/repository.go:330-414 | some requests give a knockout match a winner, or a given one, if and only if it has it, or the team can come to it and the match its winner goes to has no score |
| Liveness.CompletedIff | internal/draw/service.go:837-923 | some requests complete a group if and only if it is complete or no match with a score takes one of its places |
| Liveness.GroupIsLost | internal/draw/service.go:837-923 | scoring a match that waits for a place of an open group ends every way to complete that group |
| Liveness.WinnerOnlyBySubmit | internal/match/service.go:92-190 | a winner comes or goes only with an accepted score of that match, and is there exactly when the status counts |
| Provenance.SlotFromLeaf | internal/draw/service.go:244-275 | a team in a slot stands on a leaf below that slot |
| Provenance.SidesDisjoint | internal/draw/service.go:244-275 | no team stands below both sides of a match |
| Provenance.NeverAgainstItself | internal/match/repository.go:276-437 | a match never has the same team on both sides |
| Provenance.WinnersWonTheirWay | internal/match/repository.go:276-437 | the winner of a match won every match on its way up from a leaf |
| Provenance.RunKeepsDraw | internal/match/repository.go:276-487 | no run changes sources, groups, next references or fixed slots |
| SingleElimination.BuiltBracket | internal/draw/service.go:49-111 | validated pairs give a stored bracket that is coherent, feeds each slot once and has distinct teams on its leaves |
| SingleElimination.BuiltByes | internal/draw/manual.go:38-53 | the byes of a built bracket are exactly the matches that pad round 1 |
| SingleElimination.BracketRunsTrue | internal/draw/service.go:49-111 | so is every state reached from it by any requests |
| SingleElimination.BracketPlayers | internal/draw/service.go:113-142 | in every such state no match has one team twice, and winners won an unbroken chain of matches |
| SingleElimination.BracketSlotsFromBelow | internal/draw/service.go:113-142 | in every such state a team in a slot comes from a round-1 leaf of that slot's subtree |
| SingleElimination.ByesNeverAdvance | internal/match/repository.go:367-380 | in every such state a bye match has no winner and the slot it feeds is open; a winner comes only with an accepted score of that match |
| SingleElimination.SlotFilledIff | internal/draw/manual.go:23-57 | a slot of a built bracket gets a player in some run if and only if not all leaves below it are byes |
| SingleElimination.SlotReachedIff | internal/draw/service.go:244-275 | and a given team in some run if and only if it stands on a leaf below the slot |
| SingleElimination.OpenSideIsLost | internal/match/repository.go:367-380 | in every bracket of two pairs or more two walkovers leave a scored match whose other side no later request fills |
| SingleElimination.ChampionIff | internal/match/repository.go:276-437 | after any requests, a team can still become champion if and only if it stands in the final or can come to it through matches without a score |
| SingleElimination.AnyTeamCanWin | internal/draw/service.go:49-111 | before the first score exactly the teams of the list can become champion |
| ReadModel.Hops | internal/draw/service.go:462-485 | the memoised recursion returns the real path length to the final and ends |
| ReadModel.GetBracket | internal/draw/service.go:462-520 | one round for each distance from the final, with all its matches in order |
| ReadModel.ReadsBackAsGenerated | internal/draw/service.go:462-520 | build, store, any requests, read: every match comes back in its round and order, and a round of 1, 2, 4 or n matches is named Final, Semifinal, Quarterfinal or "Round of 2n" |
| ReadModel.KnockoutRounds | internal/draw/service.go:976-1076 | the same for the knockout stage alone, with no round at all while it has no match |
| ReadModel.KnockoutReadsBack | internal/draw/service.go:976-1076 | after any requests the knockout of an event with groups is read back in its rounds and order, without the group stage |
| GroupSetup.CheckGroups | internal/draw/manual_setup.go:399-431 | accepts exactly groups of two or more teams, each valid and in one group, advancing one to all of them, two or more overall |
| GroupSetup.LegalGroupsIff | internal/draw/manual_setup.go:399-431 | accepted groups spelled out on the groups themselves: sizes, advance counts, teams of the event, no team in two places |
| GroupSetup.AdvancerSlots | internal/draw/manual_setup.go:499-530 | the loop writes the closed-form list of entries |
| GroupSetup.AdvancersSound | internal/draw/manual_setup.go:499-530 | as many entries as teams advance, no place twice, every place within its group |
| GroupSetup.TopPlacesIffUniform | internal/draw/manual_setup.go:513-529 | the entries are the first places of each group if and only if all groups advance more than one team or none does |
| GroupSetup.UnevenAdvanceMisplaces | internal/draw/manual_setup.go:513-529 | two legal groups advancing two and one: the wrong runner-up is entered, so the entries are not the top places |
| GroupSetup.GroupKnockoutFromAssignment | internal/draw/manual_setup.go:455-492 | group fixtures followed by the knockout, renumbered behind them |
| GroupKnockout.GroupDrawOk | internal/draw/manual_setup.go:455-530 | every slot of the draw has exactly one source and storing it succeeds |
| GroupKnockout.GroupKnockoutRunsTrue | internal/draw/service.go:837-923 | every state reached from the stored event is coherent, with distinct teams on the knockout's leaves |
| GroupKnockout.GroupKnockoutPlayers | internal/match/repository.go:276-437 | in every such state no match has one team twice, and winners won an unbroken chain of matches |
| GroupKnockout.EntriesDiffer | internal/draw/manual_setup.go:499-530 | no team is entered twice in the knockout's first round |
| GroupKnockout.EntriesFollowTheirGroup | internal/draw/service.go:837-923 | an entry is open until its group is complete and then holds the team placed there |
| GroupKnockout.KnockoutWonIff | internal/match/repository.go:276-437 | after any requests, a knockout match can still be won if and only if it is won, or a player can come to it and its winner's next match has no score |
| GroupKnockout.GroupCanBeLost | internal/draw/service.go:837-923 | in every event of two groups or more some requests leave the second group, which could be completed at first, impossible to complete |
| Fixtures.ClassifyDuplicate | internal/draw/manual_setup.go:71-95 | an open fixture blocks for good, else the newest played one blocks unless a rematch is allowed |
| Fixtures.Store.AddManualMatch | internal/draw/manual_setup.go:160-242 | appends one pending fixture with the next number, or changes nothing |
| Fixtures.Store.GenerateRoundRobinFixtures | internal/draw/manual_setup.go:248-351 | the nested loops create what the specification creates, with the two counts |
| Fixtures.Store.DeleteManualMatch | internal/draw/manual_setup.go:356-382 | removes a pending fixture only |
| Fixtures.AddedExactlyWhenFree | internal/draw/manual_setup.go:160-195 | when a fixture is added: different members, no open fixture in either order, none played unless a rematch is allowed |
| Fixtures.AddOutcome | internal/draw/manual_setup.go:71-195 | which requests are bad, duplicates (of which fixture, and whether a rematch is possible) or created, and exactly what is appended |
| Fixtures.CreatedNumber | internal/draw/manual_setup.go:196-242 | a new fixture's number is one more than the highest |
| Fixtures.DeleteOutcome | internal/draw/manual_setup.go:356-382 | the fixture with the id goes if and only if it is pending; the others stay, in order |
| Fixtures.GenerateEffect | internal/draw/manual_setup.go:248-351 | generation keeps every row and appends pending fixtures, numbered on, only for pairs without one that stands; afterwards each pair has one |
| Fixtures.RematchOfNewest | internal/draw/manual_setup.go:97-124 | a rematch is recorded against the pair's highest-numbered standing fixture |
| Fixtures.GenerateCompletes | internal/draw/manual_setup.go:244-351 | afterwards every pair has a fixture that stands, and created + existing = n(n-1)/2 |
| Fixtures.GenerateTwice | internal/draw/manual_setup.go:244-247 | generating again creates nothing and changes nothing |
| Fixtures.RunKeepsTidy | internal/draw/manual_setup.go:126-135 | on every run without reopening, one open fixture a pair at most, and distinct numbers |
| Fixtures.ReopenTidyIff | internal/draw/manual_setup.go:71-95 | reopening keeps that exactly when the pair has no other open fixture |
| Fixtures.RematchThenReopen | internal/draw/manual_setup.go:71-95 | played, rematch added, first result reopened: two open fixtures |
| Schedule.Repository.ValidateSlotWrite | internal/schedule/repository.go:277-334 | the slots that clash on the court, over a player, or short of rest, as sets and as the reported lists, each slot once and by start time; and whether that refuses the write |
| Schedule.Repository.WriteSlot | internal/schedule/repository.go:349-452 | create or update with stamps, or a refusal that changes nothing and reports its conflicts in order |
| Schedule.Repository.DeleteSlot | internal/schedule/repository.go:480-529 | removes the slot and unstamps its match unless another slot holds it |
| Schedule.OverlapMeaning | internal/schedule/repository.go:272-283 | half-open ranges overlap exactly when they share an instant |
| Schedule.HardMeansCollision | internal/schedule/repository.go:277-334 | a write is refused outright exactly when at some instant its court is taken or a player is in another undecided match |
| Schedule.SavedIff | internal/schedule/repository.go:277-428 | a write is saved if and only if the slot to update and its references exist, the range is not empty, at no instant its court is taken or a player in another match that is not over, and, unless waived, each such player has half an hour of rest |
| Schedule.ConflictsAre | internal/schedule/repository.go:277-328 | which slots a conflict names: on the court, of a player at a common instant, or of a player with less than half an hour between |
| Schedule.RefusedWhy | internal/schedule/repository.go:349-404 | why a write is refused, in the order of the checks; a refusal changes nothing |
| Schedule.WriteEffect | internal/schedule/repository.go:385-428 | what a saved write leaves: slots, stamps, and pending or scheduled as status |
| Schedule.DeleteEffect | internal/schedule/repository.go:480-529 | what a deletion leaves |
| Schedule.RunKeepsOrder | internal/schedule/repository.go:349-529 | every run in which each result taken back still fits keeps the slots of a court apart and players unshared |
| Schedule.StepKeepsOrderIff | internal/schedule/repository.go:296-327 | one step keeps that if and only if it does not take back a result whose match clashes with slots written since |
| Schedule.ReopenBooksTwice | internal/schedule/repository.go:296-327 | played, its player booked elsewhere at that time, result taken back: the player is booked twice |
| Schedule.NoDoubleBooking | internal/schedule/repository.go:277-334 | from an empty schedule, on such runs: no court or player twice at any instant, and thirty minutes of rest unless the later written slot waived it |
| Schedule.RunKeepsStamps | internal/schedule/repository.go:410-428 | a stamped match is always in some slot |
| Schedule.SwapLosesStampIff | internal/schedule/repository.go:410-419 | every scheduled match stays stamped exactly when the match swapped out is in no other slot |
| Schedule.SwapLosesStamp | internal/schedule/repository.go:410-419 | from an empty schedule: a match put into two slots and swapped out of the first is scheduled but not stamped |
| Schedule.DeleteKeepsStamped | internal/schedule/repository.go:501-510 | deleting a slot never unstamps a match that is still scheduled |
| Schedule.WriteKeepsStampsTrue | internal/schedule/repository.go:410-428 | after a write every stamp repeats the start and court of a slot |
| Schedule.DeleteLeavesStaleIff | internal/schedule/repository.go:501-510 | exactly when deleting leaves a stamp that no slot has |
| Schedule.DeleteLeavesStale | internal/schedule/repository.go:501-510 | from an empty schedule: a match put into two slots keeps the stamp of the second when that slot is deleted |
| RateLimit.KeepRecent | internal/auth/ratelimit.go:61-66 | filtering a slice within its own storage keeps the recent stamps in order |
| RateLimit.Limiter.Allow | internal/auth/ratelimit.go:47-70 | sweep, drop, filter, answer and record |
| RateLimit.Limiter.SweepLocked | internal/auth/ratelimit.go:98-105 | drops exactly the buckets that are empty or older than an hour |
| RateLimit.Limiter.Reset | internal/auth/ratelimit.go:90-94 | forgets one key |
| RateLimit.Limiter.RetryAfter | internal/auth/ratelimit.go:74-86 | time until the oldest stamp leaves the window |
| RateLimit.RunKeepsGood | internal/auth/ratelimit.go:47-105 | on every run each recorded answer counts the full history, and at most one key more than the bound is held |
| RateLimit.RunsAreGood | internal/auth/ratelimit.go:38-105 | so does every run from a new limiter |
| RateLimit.AnswerCountsHistory | internal/auth/ratelimit.go:47-70 | the next answer equals counting every attempt since the last reset or drop |
| RateLimit.AllowedIff | internal/auth/ratelimit.go:47-70 | in every state that runs reach an attempt is let through if and only if fewer attempts than the limit are on record within the window |
| RateLimit.AttemptRecorded | internal/auth/ratelimit.go:42-70 | every attempt is recorded with its answer, denied ones too |
| RateLimit.SweptIs | internal/auth/ratelimit.go:96-105 | a sweep keeps exactly the keys with a stamp of the last hour |
| RateLimit.RoomIs | internal/auth/ratelimit.go:50-58 | over the bound old keys are swept, and if that is not enough all are dropped |
| RateLimit.RetryMeans | internal/auth/ratelimit.go:72-86 | the advised wait ends when the oldest stamp is a window old |
| RateLimit.AtMostLimit | internal/auth/ratelimit.go:42-46 | no window of time lets through more attempts than the limit |
| RateLimit.RetryEnoughIff | internal/auth/ratelimit.go:72-86 | waiting as told is enough exactly when fewer stamps than the limit are newer than the oldest |
| RateLimit.RetryDeniedAgain | internal/auth/ratelimit.go:72-86 | after a denial with attempts at different instants it is never enough |

## Left out

- Concurrency: requests are serialised, as advisory locks and row locks are there to ensure; races caught by database constraints are not part of this model.
- Row ids: the model uses row positions and counters; in a stored draw the match number is the position plus one.
- Timestamps, audit entries, labels and display names, except the name as the last tie-break of the standings.
- Integer widths: games, points and numbers are unbounded; the database's SMALLINT limits are not modelled.
- Authorisation, publication checks, format checks and the parsing of the scoring configuration.
- Manual `ResolveGroups` on incomplete groups, renaming and deleting participants: they change slots outside the locked path.
- `GenerateGroupKnockout` with its snake distribution, `sortBySeed`, `knockoutSeedLabels` and `buildKnockoutFromLabels`: the repository itself says they are unreachable.
- Bracket.WireRound: the round loop is written in both builders of the repository and once here.
- Tennis.NormalScoresAreTranscripts: for odd best-of only, and so is Tennis.PartialScoresAre; with an even number the code asks for more than half of the sets, which no tennis match is. Of a set in progress the code only checks the numbers: a deciding tie-break may show any points, and a 7-6 may lack its tie-break.
- Tables.StandingsPermuteTeams: display names are taken as distinct; with equal names the database may order a full tie either way.
- MatchStore.Store.Remaining: only whether any match of the group remains, which is all the caller asks.
- Schedule.NoDoubleBooking: the players of a match are fixed; a knockout match that gets its players after it was scheduled is not checked again by the code. Runs that take back a result against later bookings are excluded, exactly as far as Schedule.StepKeepsOrderIff says they fail.
- Liveness.WonIff: for a given team only where no slot waits for a group place; which team a group can still place where is not characterised. The same holds for Liveness.FilledIff.
- Fixtures.RunKeepsTidy: participants are fixed while fixtures are made, and no fixture has an empty side.
- RateLimit.AtMostLimit: each key keeps one limit and one window of at most an hour, and the clock does not go back, as in the two uses of the limiter.
- HTTP handlers, server-sent events, mail, sessions, one-time codes, and slugs.
