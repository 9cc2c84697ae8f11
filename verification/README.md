# League of Bets — the points ledger and match validation

League of Bets is a browser client for a virtual esports-betting site: users
sign in, receive 100 points, wager them on the outcome of matches and follow
their bet history and statistics. The only logic with invariants sits in two
services that talk to a PocketBase document store:

- the **bet service** (`src/services/betService.js`): placing a bet (argument
  checks, session, funds check, bet creation, debit), settling a bet (status,
  result, credit), the eligibility check shown before betting, the payout
  rounding, the bet listings and the statistics;
- the **match service** (`src/services/matchService.js`): listing, reading,
  creating, updating and deleting match records, with the required-field and
  status validation.

The store becomes in-memory collections. `MatchService.MatchStore` holds the
`matches` map; `BetService.Ledger` holds the `users` map and the `bets`
sequence (in creation order, a bet's id is its position) and reads the match
store. The logged-in user, read from a global auth store in the code, is an
explicit `session: Option<UserId>` argument. Where the code returns a
`{ success, error }` record, the model returns a `Success` or a
`Failure(reason)`. There are three exceptions. `MatchStore.GetAllMatches`
returns the listing itself, because the store is in memory and cannot fail.
`Ledger.CanUserBet` returns an `Eligibility` (`Allowed` or `Refused(reason)`),
which mirrors the code's `{ canBet, reason }`. `Ledger.SignUp` stands for the
account creation done at sign-in and returns nothing.

Modules:

- `wrappers.dfy` — `Option` and `Result`.
- `match_service.dfy` — `MatchService`: match records, the early-exit scan
  over required fields, the newest-first listing and the `MatchStore` class.
- `bet_logic.dfy` — `BetLogic`: bet and user records, the payout rounding,
  the store's filtered bet lists and the statistics.
- `bet_service.dfy` — `BetService`: the `Ledger` class, the ghost journal of
  stakes and payouts and the conservation invariant.

The ledger keeps, as part of its invariant `Valid()`, **conservation of
points**. Every user's balance equals 100, minus the stakes debited to them,
plus the payouts credited to them. The balance is never negative. `totalBets`
counts the stakes and `wonBets` counts the payouts. Every method of the
ledger preserves `Valid()`, so the equation holds after any sequence of
calls, successful or not.

The rules page (src/pages/Rules.jsx:135-143) says a bet on a match can be
increased later but cannot switch to the other team. The bet service has no
operation that increases a bet, and `placeBet` does not compare the team with
earlier bets. The service also lacks three properties: it does not keep
placement to at most one pending bet per user and match, settlement is not
idempotent, and the debit is not atomic with the creation of the bet. The
model follows the code in all of this:

- `PlaceBet` does not look for an existing pending bet or at the match status.
- `PlaceBet` does not check that `teamBet` is one of the match's teams.
- `PlaceBet` creates the bet first and debits the user in a second write.
  The `debitFails` argument stands for that second write failing. The bet then
  exists and no points are debited.
- `UpdateBetResult` does not check that the bet is pending. Settling a bet as
  `won` twice credits it twice; the client method
  `BetService.SettlingTwiceCreditsTwice` shows this.
- A stake whose payout rounds to 0 is refused as a missing argument, since
  `placeBet` treats `potentialWin == 0` as absent. The client method
  `BetService.TinyPayoutIsRefused` shows this.

## Model

| member | source | states |
|---|---|---|
| `BetLogic.CalculatePotentialWin` | src/services/betService.js:94-99 | 0 when the stake or the odds are zero or negative; otherwise the integer within 1/2 of stake × odds (`Math.round`, halves up); never negative |
| `BetLogic.Selected` | src/services/betService.js:58-62 | the store's filtered bet list holds exactly the bets the filter accepts, and no more entries than there are bets |
| `BetLogic.SelectedNewestFirst` | src/services/betService.js:60 | a store kept in creation order yields filtered lists sorted newest first (`sort: '-created'`) |
| `BetLogic.StatusCountsAddUp` | src/services/betService.js:142-145 | when every status is pending, won or lost, the won, lost and pending counts add up to the number of bets |
| `BetLogic.PositiveStakesTotal` | src/services/betService.js:147 | with positive stakes the total staked is at least the number of bets, so it is 0 only without bets |
| `BetLogic.NonNegativeResultsTotal` | src/services/betService.js:148 | with non-negative results the total won is non-negative |
| `BetLogic.Aggregate` | src/services/betService.js:142-163 | totalBets is the number of bets; won, lost and pending never exceed it and add up to it when no other status occurs; winRate is 0 without bets and in [0, 100]; roi is 0 when nothing was staked and at least -100 when results are not negative; totalAmountBet is 0 exactly when there are no bets if stakes are positive |
| `BetService.ApplyMovement` | src/services/betService.js:39-42 | debiting a covered stake (points − amount, totalBets + 1) or crediting a positive payout (points + result, wonBets + 1) and recording it keeps every balance equal to 100 − stakes + payouts and non-negative |
| `BetService.AddAccount` | src/services/authService.js:31-36 | a new account with 100 points and no bets keeps the ledger conserved |
| `BetService.Ledger.SignUp` | src/services/authService.js:29-37 | a new user gets 100 points, 0 totalBets and 0 wonBets; a known user and all bets are left unchanged |
| `BetService.PlaceBetRefusal` | src/services/betService.js:7-27 | the checks run in this order: a missing argument (potentialWin 0 included), then an amount ≤ 0, then no session, then an unknown user, then points < amount; it passes exactly when none of these holds |
| `BetService.SettlementRefusal` | src/services/betService.js:174-181 | a missing bet id or status is refused first, then a status other than won/lost; then an unknown bet; it passes exactly when the id names a stored bet and the status is won or lost |
| `BetService.Ledger.PlaceBet` | src/services/betService.js:5-49 | when a check of `PlaceBetRefusal` fails, that failure is returned with users and bets unchanged; otherwise exactly one pending bet with result 0 is appended; then either the debit fails with users unchanged, or only that user changes, by −amount points and +1 totalBets, and the stake is the one movement added to the journal; conservation is kept |
| `BetService.Ledger.UpdateBetResult` | src/services/betService.js:172-203 | when a check of `SettlementRefusal` fails, that failure is returned with the store unchanged; otherwise only that bet changes, to the new status and result (missing → 0), whatever its old status; a won bet with result > 0 credits its owner by result and +1 wonBets, with the payout as the one movement added to the journal, and nothing else changes; an unknown owner fails after the bet was written; conservation is kept |
| `BetService.Ledger.CanUserBet` | src/services/betService.js:101-127 | refused without a session, then when the match cannot be read, then when it is finished, then when a pending bet of the user on it exists; allowed exactly when none of these holds |
| `BetService.Ledger.GetUserBets` | src/services/betService.js:51-69 | fails exactly without a session; otherwise exactly the session's bets, newest first |
| `BetService.Ledger.GetBetsByMatch` | src/services/betService.js:71-92 | fails without a session, then on a missing match id; otherwise exactly the session's bets on that match, newest first |
| `BetService.Ledger.GetUserBetStats` | src/services/betService.js:129-170 | fails without a session or with an unknown user; otherwise the result is `Aggregate` over exactly the session's bets and the user's points, so `Aggregate`'s guarantees hold for it (winRate in [0, 100], roi 0 without stakes, the totals as sums); totalBets counts the session's bets, won + lost + pending == totalBets, totalAmountBet is 0 exactly when there are no bets, and currentPoints is the user's non-negative balance |
| `MatchService.FirstMissingField` | src/services/matchService.js:33-38 | reports the first of team1, team2, date, status, coteTeam1, coteTeam2 that is falsy, all fields before it being present; nothing exactly when all are present |
| `MatchService.InsertByDateSorts` | src/services/matchService.js:7-9 | inserting a match into a newest-first list keeps it newest first and adds exactly that match |
| `MatchService.MatchStore.GetAllMatches` | src/services/matchService.js:5-15 | lists every stored match once with its id, sorted by date, newest first |
| `MatchService.MatchStore.GetMatchById` | src/services/matchService.js:17-29 | a missing id fails as invalid, an unknown id as not found; otherwise the stored match |
| `MatchService.MatchStore.CreateMatch` | src/services/matchService.js:31-51 | fails naming the first missing (falsy) field in the order team1, team2, date, status, coteTeam1, coteTeam2, else fails on a status outside upcoming/live/finished, both with the store unchanged; otherwise adds exactly the given record under the new id and changes no other match |
| `MatchService.MatchStore.UpdateMatch` | src/services/matchService.js:53-72 | a missing id fails; a supplied non-empty status outside upcoming/live/finished fails; an unknown id fails; all with the store unchanged; otherwise only that match changes, to the record with the supplied fields replaced |
| `MatchService.MatchStore.DeleteMatch` | src/services/matchService.js:74-86 | a missing or unknown id fails with the store unchanged; otherwise exactly that match is removed |

## Left out

- The PocketBase transport is not modelled: network calls, filter strings, `console.error` and the catch-all turning any thrown error into `{ success: false }`. A store failure is modelled in one place only: the debit that follows bet creation in `placeBet` (`debitFails`). Lookups of missing records are modelled as failures.
- Concurrency is not modelled. The read-then-write updates of a balance in `placeBet` and `updateBetResult` can lose updates when two requests interleave. The model is sequential.
- Floating point is not modelled. Odds and the statistics are exact reals. `Math.round` is `Floor(x + 1/2)`. The `toFixed(1)` / `parseFloat` display rounding of `winRate` and `roi` is left out, so `Aggregate` gives the unrounded values.
- Stakes and balances are integers. The bet form parses the stake with `parseFloat`, so the code would accept a fractional stake. The model does not.
- A JavaScript argument that is absent is modelled by its falsy value: `""` for text, `0` for numbers and dates, `0.0` for odds. `Option` is used where the code tells the cases apart: the session, the bet id and the result of `updateBetResult`, and the fields of an update patch.
- A session whose user id is the empty string is not modelled. A session is either absent or names a user.
- Record ids are simplified. PocketBase generates text ids. Here a bet id is the bet's position in creation order, and `CreateMatch` takes the new match id as an argument, which must be fresh and non-empty.
- Match dates are integer timestamps, which order the same way as the store's date strings. The order of two matches with the same date is not specified.
- `getUserBets` asks the store to expand each bet's match (`expand: 'match'`). The model returns only the bet records.
- `GetUserBetStats` builds the won list by filtering the user's bets. The code fetches it with a second store query, which gives the same bets.
- `MatchStore.GetAllMatches`: the failure result of `getAllMatches` (`{ success: false, error }` when the store query throws) is not modelled, since the in-memory store cannot fail. The model returns the listing directly.
- Store-side validation of records (the collection schema) is not part of this model. `UpdateMatch` writes whatever fields the patch supplies, including an empty status.
- `CanUserBet`: a failure of the pending-bets query is not modelled, only a failure to read the match. Both lead to the same refusal in the code.
- `increaseBet` is called by the bet form but is not defined in the bet service, so there is no such operation to model.
- Left out as rendering, sign-in flow or styling: the React pages and components, the OAuth flow and its listeners, and `tailwind.config.js`. Only the initial account (100 points, 0 `totalBets`, 0 `wonBets`) is taken from the sign-in code.
- Twitch watch-time points and automatic payout are marked as not yet implemented in the rules page, so they are not modelled.
