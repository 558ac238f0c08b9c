# LoLOdds core in Dafny

This is a model of the two working parts of LoLOdds, a small web application that shows live League of Legends games together with betting-style odds for each team.

- **The game odds service** (`src/services/game_odds_service.py`) works in three steps:
  1. For every stored game it groups the participants by team label and sums four counters per team: ranked wins, ranked losses, wins on the current champion, losses on the current champion.
  2. It turns each team's counters into a win percentage, then turns the two percentages into a "chance" per team.
  3. It divides the two chances by their greatest common divisor and prints them as `"a : b"`, blue team first.

  A game with fewer than two team labels gets the default `"1 : 1"`.
- **The participant task** (`src/api_daemon/tasks/process_participant_task.py`) works in three steps:
  1. It fetches a participant by name and builds a fresh summoner object.
  2. It saves the summoner:
     - a new summoner is inserted;
     - a stored summoner whose profile is strictly newer is refreshed, and the stored win/loss totals are carried over;
     - otherwise nothing is saved.
  3. When the ranked statistics are newer than the stored ones, it stamps the summoner with their date. It then walks the champion blocks: block 0 sets the aggregate totals, and every other block goes to the per-champion task.

The project has three modules:

- `Odds` (`odds.dfy`) holds the pure arithmetic of the odds service:
  - the percentage, rounded half away from zero as the source language's `round` does for non-negative values;
  - Euclid's gcd;
  - the reduced ratio;
  - the decimal text.
- `GameOdds` (`game_odds.dfy`) holds the per-game aggregation loop and the loop over all games. Both are `method`s with loop invariants, and both are proved equal to a reference definition (`GameEntryOf`). That definition filters the participants by team and sums over each team's roster.
- `ParticipantTask` (`participant_task.dfy`) models the task's objects as classes:
  - `Summoner` is a class because its fields are updated in place after the object may already sit in a game's list;
  - `Game` holds the game's summoner list;
  - `Session` holds the objects added to the database session;
  - `ProcessParticipantTask` holds the task itself.

  Each task method's new state is tied to pure functions (`SaveActionOf`, `AfterSave`, `ApplyBlocks`, `Runs`, `Reconcile`), and the task's promises are lemmas about those functions.

Some behaviour of the code as written, which the model keeps:

- Odds can have a zero side. A team with no wins against a team with no losses gets `"0 : 1"` (`Odds.NoWinsAgainstNoLosses`). So one side of the ratio can be 0.
- When a stored summoner's profile is not newer, the fetched summoner is neither appended to the game nor added to the session. A stats update that is still due then changes only that unsaved object, and the per-champion tasks are still started for it (`ParticipantTask.StaleProfileIsNotSaved`).
- A refresh whose stats are not due (failed, or not newer than the stored date) appends the fetched summoner with its stats date still 0. Only the totals are carried over from the stored summoner. The summoner appended to the game therefore carries stats date 0, below the stored one, and compared with that object the same stats payload is due again (`ParticipantTask.RefreshLeavesStatsDateZero`).
- `update` does nothing: its database calls are commented out. `ProcessParticipantTask.Update` is therefore an empty method.

## Model

| member | source | states |
|---|---|---|
| Odds.Percentage | src/services/game_odds_service.py:96-101 | the percentage is at most 100, and no wins and no losses give the default 50 |
| Odds.PercentageRounds | src/services/game_odds_service.py:101 | with any data, the result is 100·i1/(i1+i2) rounded to the nearest integer, a half rounded up |
| Odds.PercentageIs | src/services/game_odds_service.py:101 | any integer that is that rounded value is the result, so the rounding is fully determined |
| Odds.RoundsToUnique | src/services/game_odds_service.py:101 | at most one integer is the rounded value of a given fraction |
| Odds.PercentageMonotonic | src/services/game_odds_service.py:96-101 | more wins against the same losses never lower the percentage, including across the 50 default |
| Odds.PercentagePairSum | src/services/game_odds_service.py:87-88 | the percentage of x against y plus that of y against x is 100 or 101 |
| Odds.PercentageOfEqualPair | src/services/game_odds_service.py:87-88 | a percentage compared with itself gives 50 |
| Odds.Gcd | src/services/game_odds_service.py:90 | Euclid's gcd is 0 exactly when both numbers are 0; `GcdDividesBoth`, `GcdGreatest` and `GcdCommutes` pin it down as the greatest common divisor |
| Odds.GcdDividesBoth | src/services/game_odds_service.py:90 | the gcd is 0 exactly when both numbers are 0, and otherwise divides both |
| Odds.GcdGreatest | src/services/game_odds_service.py:90 | every common divisor divides the gcd |
| Odds.GcdCommutes | src/services/game_odds_service.py:90 | the gcd does not depend on argument order |
| Odds.ReducedPairIsCoprime | src/services/game_odds_service.py:90-94 | dividing two numbers (not both 0) by their gcd divides exactly and leaves a pair with gcd 1 |
| Odds.Chance | src/services/game_odds_service.py:87-88 | a team's chance (its win percentage taken against the other's) is at most 100; `ChancesNotBothZero` and `PercentagePairSum` relate the two chances |
| Odds.ReducedOdds | src/services/game_odds_service.py:83-94 | each printed term is at most its chance; `ReducedOddsInLowestTerms` shows both terms times the gcd give back the chances and share no factor |
| Odds.CalculateGameOdds | src/services/game_odds_service.py:83-94 | teams with equal win percentages get the text "1 : 1"; `OddsTextShowsRatio`, `ReducedOddsInLowestTerms` and `ShowIsInjective` pin the text down as the reduced ratio printed |
| Odds.ChancesNotBothZero | src/services/game_odds_service.py:87-92 | the two chances are never both 0, so the zero-gcd guard never fires |
| Odds.ReducedOddsInLowestTerms | src/services/game_odds_service.py:83-94 | the printed numbers times the positive gcd give back the two chances, and they share no factor |
| Odds.ReducedOddsSwap | src/services/game_odds_service.py:83-94 | swapping blue and purple swaps the two sides of the ratio |
| Odds.EqualPercentagesAreEven | src/services/game_odds_service.py:84-94 | teams with equal win percentages get the ratio 1 : 1 |
| Odds.Decimal | src/services/game_odds_service.py:94 | a printed number is a non-empty string of digits, with no leading zero unless the number is 0 |
| Odds.Show | src/services/game_odds_service.py:94 | the text is blue's numeral, " : ", then purple's numeral; `ShowIsInjective` shows no two ratios share a text |
| Odds.DecimalRoundTrip | src/services/game_odds_service.py:94 | reading the printed digits back gives the number |
| Odds.ShowIsInjective | src/services/game_odds_service.py:94 | different ratios are printed as different "a : b" texts |
| Odds.DefaultOddsIsEven | src/services/game_odds_service.py:6 | the default odds text is the ratio 1 : 1 printed |
| Odds.ThreeToOne | src/services/game_odds_service.py:83-94 | 30 wins/10 losses against 10/30 give percentages 75 and 25 and chances 75 and 25; the chances have gcd 25, so the ratio is 3 : 1 and the text "3 : 1" |
| Odds.NoWinsAgainstNoLosses | src/services/game_odds_service.py:83-94 | a team with no wins against a team with no losses gets 0 : 1, a ratio with a zero side |
| GameOdds.OddsForGame | src/services/game_odds_service.py:33-71 | the loop's result equals the reference entry: each team's rows in order, default odds with fewer than two labels, otherwise blue against purple totals |
| GameOdds.GamesWithOdds | src/services/game_odds_service.py:31-77 | one entry per game, in the given order, each equal to the reference entry |
| GameOdds.TotalsAccumulateOne | src/services/game_odds_service.py:38-41 | after adding a participant, each team's counters are the sums over its roster |
| GameOdds.RowsAccumulateOne | src/services/game_odds_service.py:44-50 | after appending a participant's row, each team's rows are its roster's rows in order |
| GameOdds.AccumulatedEntry | src/services/game_odds_service.py:53-67 | the odds computed from the accumulated maps (a missing team counting as zeros) are those of the reference entry |
| GameOdds.LookupIsTeamTotals | src/services/game_odds_service.py:34 | reading a missing team from the counters gives zeros, which equal that team's empty sum |
| GameOdds.Card | src/services/game_odds_service.py:44-50 | a row's two win rates are at most 100, and each is the default 50 when its record has no games |
| GameOdds.RosterAppend | src/services/game_odds_service.py:44-50 | appending a participant extends only its own team's roster |
| GameOdds.SumAppend | src/services/game_odds_service.py:38-41 | adding a participant adds its four counters |
| GameOdds.LabelsAppend | src/services/game_odds_service.py:38-41 | adding a participant adds its team label to the labels present |
| GameOdds.RosterMembers | src/services/game_odds_service.py:44-50 | a team's roster holds exactly the participants with that label |
| GameOdds.LabelHasRoster | src/services/game_odds_service.py:33-50 | a label is present exactly when its roster is non-empty |
| GameOdds.AbsentTeamHasNoTotals | src/services/game_odds_service.py:60-67 | a team without participants has zero totals |
| GameOdds.EntryListsEveryParticipant | src/services/game_odds_service.py:44-50 | every participant's row appears under its own team's label |
| GameOdds.EntryTeamsArePresentLabels | src/services/game_odds_service.py:44-50 | a label is a key of the teams map exactly when some participant has it, and its list is then non-empty |
| GameOdds.OneTeamGetsDefaultOdds | src/services/game_odds_service.py:52-55 | when all participants share one label (or there are none), both odds are "1 : 1" |
| GameOdds.NoStatsGivesEvenOdds | src/services/game_odds_service.py:52-67 | when no participant has any recorded session, both odds are "1 : 1" however the teams split |
| GameOdds.TwoTeamOddsInLowestTerms | src/services/game_odds_service.py:56-67 | with two or more labels, the overall odds and the champion odds are each the blue and purple chances in lowest terms, blue first: both terms times the gcd give back the two chances, and they share no factor |
| GameOdds.TeamTotalsIgnoreOrder | src/services/game_odds_service.py:35-41 | a team's totals depend only on which participants the game holds, not on their order |
| GameOdds.LabelsIgnoreOrder | src/services/game_odds_service.py:35-41 | the labels present do not depend on the participants' order |
| GameOdds.OddsIgnoreParticipantOrder | src/services/game_odds_service.py:35-67 | two games with the same participants in any order get the same odds and champion odds |
| GameOdds.OneAgainstOneOdds | src/services/game_odds_service.py:56-67 | a blue participant against a purple one: the odds compare their own records, blue first |
| GameOdds.ThreeToOneGame | src/services/game_odds_service.py:56-67 | a 30-10 blue participant against a 10-30 purple one, neither with champion games, gets "3 : 1" and champion odds "1 : 1" |
| ParticipantTask.ProcessParticipantTask.Run | src/api_daemon/tasks/process_participant_task.py:24-60 | a failed summoner fetch changes nothing; otherwise a new summoner is created and its state, the game list, the session and the started champion tasks are as `Reconcile` gives; the stored summoner is unchanged |
| ParticipantTask.ProcessParticipantTask.ProcessRankedStats | src/api_daemon/tasks/process_participant_task.py:66-78 | stats are applied only when fetched and due (no stored summoner, or a strictly newer modify date); otherwise nothing changes |
| ParticipantTask.ProcessParticipantTask.UpdateRankedStats | src/api_daemon/tasks/process_participant_task.py:83-98 | the summoner is stamped with the date and then has the blocks applied in order; one champion task is started per non-aggregate block |
| ParticipantTask.ProcessParticipantTask.Save | src/api_daemon/tasks/process_participant_task.py:100-103 | the summoner is appended to the game's list and added to the session |
| ParticipantTask.ProcessParticipantTask.UpdateFromExistingSummoner | src/api_daemon/tasks/process_participant_task.py:110-114 | the stored totals are copied onto the fetched summoner, which is appended to the game; nothing else changes |
| ParticipantTask.ProcessParticipantTask.SaveOrUpdate | src/api_daemon/tasks/process_participant_task.py:119-125 | insert when nothing is stored; refresh (totals carried, appended, not added to the session) when the profile is strictly newer; otherwise no change |
| ParticipantTask.ProcessParticipantTask.Update | src/api_daemon/tasks/process_participant_task.py:105-108 | changes nothing: the merge and commit are commented out |
| ParticipantTask.ProcessParticipantTask.constructor | src/api_daemon/tasks/process_participant_task.py:15-19 | the task keeps its participant name, team, champion and game, and has started no champion task |
| ParticipantTask.Summoner.constructor | src/api_daemon/tasks/process_participant_task.py:52-54 | a summoner object holds exactly the given field values |
| ParticipantTask.FreshRecord | src/api_daemon/tasks/process_participant_task.py:50-54 | the fetched summoner starts with stats date 0 and totals 0, with the payload's id and revision date |
| ParticipantTask.NoAggregateKeepsTotals | src/api_daemon/tasks/process_participant_task.py:88-95 | without a block of id 0 the summoner is unchanged |
| ParticipantTask.LastAggregateWins | src/api_daemon/tasks/process_participant_task.py:88-92 | the last block of id 0 decides both totals |
| ParticipantTask.OnlyTotalsChange | src/api_daemon/tasks/process_participant_task.py:88-95 | applying the blocks changes nothing but the two totals |
| ParticipantTask.AggregateOverwrites | src/api_daemon/tasks/process_participant_task.py:88-92 | once a block of id 0 has been applied, earlier totals no longer matter |
| ParticipantTask.ApplyBlocksIdempotent | src/api_daemon/tasks/process_participant_task.py:88-95 | applying the same blocks twice equals applying them once |
| ParticipantTask.RunsAreNonAggregateBlocks | src/api_daemon/tasks/process_participant_task.py:88-95 | a champion task is started for a block exactly when it is in the payload and its id is not 0 |
| ParticipantTask.RunsAreForTheSummoner | src/api_daemon/tasks/process_participant_task.py:94-95 | every champion task is for the summoner being updated, and there are at most as many as blocks |
| ParticipantTask.NewSummonerIsInserted | src/api_daemon/tasks/process_participant_task.py:119-121 | a summoner not stored yet is appended and added once; fetched stats are always applied and stamp the modify date |
| ParticipantTask.NewerProfileCarriesTotals | src/api_daemon/tasks/process_participant_task.py:110-125 | a strictly newer profile is appended but not added again, and without a stats update keeps the stored totals |
| ParticipantTask.StaleProfileIsNotSaved | src/api_daemon/tasks/process_participant_task.py:119-125 | a profile that is not newer is neither appended to the game nor added to the session; stats that are still due update only the fetched summoner and still start one per-champion task per non-aggregate block |
| ParticipantTask.StaleStatsChangeNothing | src/api_daemon/tasks/process_participant_task.py:68-78 | a failed stats fetch, or a modify date not newer than the stored one, starts no champion task and changes no stats |
| ParticipantTask.RefreshLeavesStatsDateZero | src/api_daemon/tasks/process_participant_task.py:50-78 | a refresh whose stats are not due appends the summoner with stats date 0, below the stored date; compared with that appended object the same payload is due again |
| ParticipantTask.StatsUpdateStampsModifyDate | src/api_daemon/tasks/process_participant_task.py:83-85 | an update stamps the payload's modify date and changes nothing but that date and the totals |
| ParticipantTask.ReplayIsStale | src/api_daemon/tasks/process_participant_task.py:76-78 | replaying a stats payload against the summoner it produced is no longer due: no update and no champion task |

## Left out

- Odds.Percentage: the source divides in binary floating point before `round`. The model rounds the exact fraction. At an exact half whose float is slightly low, such as 29 against 171 (14.5 as a fraction), the source may print one less than the model.
- Odds.CalculateGameOdds: the source's percentages are floats, and its gcd and division run on floats before `%i` prints them. Every value involved is a whole number, so the model uses integer gcd and division.
- Win and loss counts are `nat`: the stored columns are never negative, and a negative count would need the source's float division, which the model does not capture.
- `Games.query.order_by(...)` and `DB.session.commit()` in `getGamesWithOdds` are database I/O. The games come in as a sequence already in display order.
- `getTeamName` (`src/utils` is not part of this model) is the parameter `teamName`. A summoner's display name and level (the `summoner` relationship) come from the parameter `profile`.
- The summoner-by-name and ranked-stats web calls are `Fetch` inputs:
  - the unwrapping of the payload's single key (process_participant_task.py:46) is dropped;
  - the `int(...)` conversions are dropped.
- `getChampionImageUrl`/`CHAMPION_BY_ID` and `getProfileIconUrl` are network and URL helpers. They are the inputs `championImageUrl` and `iconUrl`.
- `getCurrentSummoner` (a database query that returns None on `OperationalError`) is the input `current`, which is null when nothing is stored or the query failed.
- `ProcessSummonerChampionTask` is not part of this model. Starting it is recorded as a `ChampionRun` in `championRuns`.
- `DB.session.add` is modelled as the `Session.added` list. Object identity within the database session and flushing are not modelled.
- `src/domain/summoners.py` is not part of this model. The summoner's field order is read from the constructor call at process_participant_task.py:52-54 and from the fields the task uses.
- `print` logging is left out.
- The champion image lookup happens only after a successful summoner fetch. As an input, the model cannot show that it is skipped on failure.
