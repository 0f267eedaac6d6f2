# pocketpro ledger and session tracker in Dafny

This project models the two stateful components of pocketpro, a web app for
home poker games:

- **The game ledger** (`src/components/GameLedger.tsx`). A list of players,
  each with the buy-ins they paid, a current stake (`totalBuyIn`), an active
  flag and an optional cash-out. The handlers add a player, record a buy-in,
  remove a player, toggle a player in or out of play, and cash a player out.
  A cash-out reduces every other player's stake in proportion to its share
  of the pot. The pot (`totalMoneyInPlay`) and the active and inactive views
  are recomputed from the list.
- **The session tracker** (`src/components/IncomeTracker.tsx`). A list of
  logged sessions, newest first, each with hours, profit and notes. A
  validated form adds sessions and a confirmed delete removes them. Totals
  and an hourly rate are derived from the list.

Files:

- `wrappers.dfy`: `Option`.
- `text.dfy`: JavaScript's `String.prototype.trim`, which both components use
  on user input.
- `ledger.dfy`: module `GameLedger`.
- `income.dfy`: module `IncomeTracker`.

Each component becomes a class whose one field is the list the React state
holds (`Ledger.players`, `SessionTracker.sessions`). Each handler is a method
that replaces the list with a pure function of the old list and its inputs:
`AfterAddPlayer`, `AfterBuyIn`, `Removed`, `AfterToggle`, `AfterCashout`,
`AfterSubmit` and `AfterDelete`. The properties are proved about those
functions.

Modelling choices:

- Money and hours are exact `real`s.
- A `parseFloat` result is an `Option<real>`, with `None` standing for NaN.
- The clock-derived ids (`Date.now().toString()`), the submission date and
  the answer to the `confirm` dialog are parameters.

Ids are not assumed distinct, because nothing in the code makes them so.
Every handler acts on all players or sessions carrying the id, as the
source's `map` and `filter` do.

The model follows the code where the design documentation says otherwise:

- `addPlayer` has no duplicate-name check (`GameLedger.tsx:23-36`), though
  the documentation describes one.
- `addBuyIn` does not check that the player is still active
  (`GameLedger.tsx:40-43`).
- The documentation says a proportional cash-out lowers the pot by exactly
  the amount. In the code it does not always. The denominator
  `totalBuyIns` is the whole pot, including the casher's own stake C, and
  that stake is not reduced (`GameLedger.tsx:98-122`). With pot P and
  amount a, the new pot is `C + (1 - a/P) * (P - C)`. That lies between
  `P - a` and `P`, and equals `P - a` exactly when C is 0
  (`CashoutPot`, `CashoutPotBounds`). In the worked example, Alice
  (100) and Bob (50) are at the table and Alice cashes out 120. The pot
  goes from 150 to 110, not 30 (`CashoutExample`).

The ledger invariant `LedgerOk` holds that:

- every stake is the sum of its buy-ins;
- no buy-in is negative;
- a recorded cash-out is positive.

Every handler keeps this invariant. The session tracker keeps
`AllHoursPositive`, which is what its form validation enforces.

## Model

| member | source | states |
|---|---|---|
| Text.TrimStart | src/components/GameLedger.tsx:24 | the result is a suffix of the input, only whitespace was dropped, and it does not start with whitespace |
| Text.TrimEnd | src/components/GameLedger.tsx:24 | the result is a prefix of the input, only whitespace was dropped, and it does not end with whitespace |
| Text.Trim | src/components/GameLedger.tsx:24-28 | `trim()`: the result is the slice of the input with only whitespace on both sides, does not start or end with whitespace, and is empty exactly when the input is all whitespace |
| Text.TrimIdempotent | src/components/IncomeTracker.tsx:70 | trimming a trimmed string changes nothing |
| GameLedger.Sum | src/components/GameLedger.tsx:48 | definition: `reduce((sum, b) => sum + b, 0)` folded from the left |
| GameLedger.SumAppend | src/components/GameLedger.tsx:48 | the buy-in sum (`reduce` from 0) splits over a concatenation |
| GameLedger.SumNonNegative | src/components/GameLedger.tsx:48 | a sum of non-negative buy-ins is non-negative |
| GameLedger.Scaled | src/components/GameLedger.tsx:120 | `buyIns.map(b => b * k)` keeps the length and multiplies each entry by k |
| GameLedger.SumScaled | src/components/GameLedger.tsx:116-120 | scaling every buy-in by k scales their sum by k |
| GameLedger.Pot | src/components/GameLedger.tsx:129 | definition: `totalMoneyInPlay`, the sum of all stakes, active or not |
| GameLedger.CountId | src/components/GameLedger.tsx:43 | definition: how many players carry the id |
| GameLedger.StakeOf | src/components/GameLedger.tsx:98-101 | definition: the combined stake of the players carrying the id |
| GameLedger.HasPlayer | src/components/GameLedger.tsx:94-95 | definition: `find` by id succeeds |
| GameLedger.PotAppend | src/components/GameLedger.tsx:129 | the pot splits over a concatenation of player lists |
| GameLedger.CountIdUnique | src/components/GameLedger.tsx:94 | with distinct ids, an id is carried by exactly one player if `find` succeeds and by none otherwise |
| GameLedger.StakeNonNegative | src/components/GameLedger.tsx:5-12 | a well-formed player has a non-negative stake |
| GameLedger.PotNonNegative | src/components/GameLedger.tsx:129 | the pot of a well-formed ledger is never negative |
| GameLedger.PotShift | src/components/GameLedger.tsx:129 | changing the stake of each player carrying an id by d changes the pot by d for each such player |
| GameLedger.AfterAddPlayer | src/components/GameLedger.tsx:23-36 | a name that trims to nothing changes nothing; otherwise exactly one player is appended, with the trimmed, non-blank name, no buy-ins, stake 0, active and not cashed out |
| GameLedger.AddPlayerKeepsPot | src/components/GameLedger.tsx:23-36 | adding a player leaves the pot as it was and keeps the invariant |
| GameLedger.BuyInAccepted | src/components/GameLedger.tsx:39-40 | definition: a player is selected and the amount is a positive number |
| GameLedger.WithBuyIn | src/components/GameLedger.tsx:44-49 | definition: the amount appended and the stake recomputed as the sum |
| GameLedger.AfterBuyIn | src/components/GameLedger.tsx:38-56 | a rejected amount, an empty selection or an unknown id change nothing; players under other ids are untouched; each player under the id, active or not, gets the amount appended and a stake equal to its old buy-in sum plus the amount, with everything else kept |
| GameLedger.BuyInStakes | src/components/GameLedger.tsx:42-52 | on a well-formed ledger, an accepted buy-in grows each stake under the id by the amount and leaves every other stake alone |
| GameLedger.BuyInPot | src/components/GameLedger.tsx:42-52 | an accepted buy-in grows the pot by the amount once per player carrying the id |
| GameLedger.BuyInPotUnique | src/components/GameLedger.tsx:42-52 | with distinct ids and the player present, the pot grows by exactly the amount |
| GameLedger.BuyInKeepsInvariant | src/components/GameLedger.tsx:38-56 | a buy-in keeps the ledger invariant |
| GameLedger.Removed | src/components/GameLedger.tsx:58-60 | the filter drops exactly as many players as carry the id |
| GameLedger.RemovedMembers | src/components/GameLedger.tsx:58-60 | a player is kept if and only if it was in the list and carries another id |
| GameLedger.RemovedAbsent | src/components/GameLedger.tsx:58-60 | removing an id nobody carries changes nothing |
| GameLedger.RemovedPot | src/components/GameLedger.tsx:58-60 | the pot loses exactly the removed players' stakes |
| GameLedger.RemovedKeepsInvariant | src/components/GameLedger.tsx:58-60 | removal keeps the ledger invariant |
| GameLedger.RemovedAppend | src/components/GameLedger.tsx:58-60 | the filter works piecewise over a concatenation, so the kept players keep their order |
| GameLedger.Toggled | src/components/GameLedger.tsx:65 | definition: `isActive` flipped |
| GameLedger.AfterToggle | src/components/GameLedger.tsx:62-68 | same length; each player's `isActive` flips if and only if it carries the id, and every other field is kept |
| GameLedger.ToggleSpec | src/components/GameLedger.tsx:62-68 | toggling twice restores the list; toggling keeps the pot and the invariant |
| GameLedger.ActivePlayers | src/components/GameLedger.tsx:130 | definition: the `filter` on `isActive` |
| GameLedger.InactivePlayers | src/components/GameLedger.tsx:131 | definition: the `filter` on `!isActive` |
| GameLedger.ActiveMembers | src/components/GameLedger.tsx:130 | a player is in the active view if and only if it is in the list and active |
| GameLedger.InactiveMembers | src/components/GameLedger.tsx:131 | a player is in the inactive view if and only if it is in the list and not active |
| GameLedger.ActiveInactivePartition | src/components/GameLedger.tsx:130-131 | the two views together hold each player as often as the list does |
| GameLedger.ActiveInactiveCount | src/components/GameLedger.tsx:130-131 | the two views' lengths add up to the list's length |
| GameLedger.CashoutOutcome | src/components/GameLedger.tsx:84-95 | definition: success, or one of the three rejections (the invalid-amount alert, the not-enough-in-the-pot alert, the silent return) |
| GameLedger.CashoutVerdict | src/components/GameLedger.tsx:82-95 | the checks in the source's order, each pinned by an if-and-only-if: a NaN, zero or negative amount is InvalidAmount; otherwise an amount above the pot is NotEnoughInPot, reporting the pot; otherwise an id nobody carries is UnknownPlayer; otherwise the cash-out goes ahead |
| GameLedger.SettlePlayer | src/components/GameLedger.tsx:100-124 | definition: the `map` callback, with `proportion`, `reduction`, `Math.max(0, ...)` and `scaleFactor` as written |
| GameLedger.Settled | src/components/GameLedger.tsx:100-124 | the settled list has the same length as the old one (SettledAt gives each position) |
| GameLedger.SettledAt | src/components/GameLedger.tsx:100-124 | each position of the settled list is that player settled on its own |
| GameLedger.AfterCashout | src/components/GameLedger.tsx:81-127 | same length; a rejected cash-out changes nothing; an accepted one settles every player against the whole pot |
| GameLedger.KeptFraction | src/components/GameLedger.tsx:111-116 | the fraction of its stake a non-cashing player keeps is in [0, 1) and, applied to the pot, leaves the pot minus the amount |
| GameLedger.ReductionFactor | src/components/GameLedger.tsx:111-116 | with 0 < amount <= pot, the `max(0, ...)` never bites: the new stake is the old one times the kept fraction, between 0 and the old stake, and `scaleFactor` is the kept fraction |
| GameLedger.CashoutCasher | src/components/GameLedger.tsx:101-108 | each player carrying the id ends inactive with the amount as its cash-out; its buy-ins and stake are kept |
| GameLedger.SettleOther | src/components/GameLedger.tsx:109-123 | a player with another id and no stake is untouched; one with a stake keeps stake times the kept fraction, between 0 and the old stake, has its buy-ins scaled by the same fraction, still adds up to its stake, and keeps every other field |
| GameLedger.CashoutOthers | src/components/GameLedger.tsx:109-123 | SettleOther for the players of an accepted cash-out, with the kept fraction of amount over the whole pot |
| GameLedger.SettledStake | src/components/GameLedger.tsx:100-123 | a settled player's stake is kept under the cashing id and multiplied by the kept fraction otherwise |
| GameLedger.PotScaledExcept | src/components/GameLedger.tsx:129 | keeping the stakes under an id and multiplying all the others by k turns a pot P with stake C under the id into C + k(P - C) |
| GameLedger.SettledStakes | src/components/GameLedger.tsx:100-124 | a settlement keeps the cashing players' stakes and multiplies every other stake by the kept fraction |
| GameLedger.PotSettled | src/components/GameLedger.tsx:98-129 | the pot after settling is C + k(P - C), with C the cashing stake and k the kept fraction |
| GameLedger.StakeOfBounds | src/components/GameLedger.tsx:98 | with non-negative stakes, the stake under one id lies between 0 and the pot |
| GameLedger.StakesNonNegative | src/components/GameLedger.tsx:5-12 | a well-formed ledger has no negative stake |
| GameLedger.KeptPotBounds | src/components/GameLedger.tsx:109-122 | a pot C + k(P - C) with the kept fraction k lies between P - a and P, and equals P - a exactly when C is 0 |
| GameLedger.CashoutPot | src/components/GameLedger.tsx:98-129 | a successful cash-out of a from pot P leaves pot C + (1 - a/P)(P - C), with C the casher's own stake |
| GameLedger.CashoutPotBounds | src/components/GameLedger.tsx:98-129 | a successful cash-out never lowers the pot by more than the amount and never raises it; it lowers it by exactly the amount if and only if the casher had no stake |
| GameLedger.ScaledPlayerOk | src/components/GameLedger.tsx:116-120 | scaling a well-formed player's buy-ins by a non-negative factor, with the stake set to their new sum, keeps it well formed |
| GameLedger.SettleKeepsPlayerOk | src/components/GameLedger.tsx:100-124 | settling one player keeps it well formed |
| GameLedger.CashoutKeepsInvariant | src/components/GameLedger.tsx:81-127 | a cash-out, accepted or not, keeps the ledger invariant |
| GameLedger.CashoutExample | src/components/GameLedger.tsx:81-129 | Alice (100) and Bob (50), Alice cashes out 120: Alice is out with cash-out 120 and stake 100, Bob's buy-ins become [10] and his stake 10, and the pot is 110 |
| GameLedger.Ledger.constructor | src/components/GameLedger.tsx:15 | the ledger starts empty and well formed |
| GameLedger.Ledger.AddPlayer | src/components/GameLedger.tsx:23-36 | the new list is AfterAddPlayer of the old one; the pot is unchanged and the invariant kept |
| GameLedger.Ledger.AddBuyIn | src/components/GameLedger.tsx:38-56 | the new list is AfterBuyIn of the old one, with the invariant kept |
| GameLedger.Ledger.RemovePlayer | src/components/GameLedger.tsx:58-60 | the new list is Removed of the old one; the pot drops by the removed stakes and the invariant is kept |
| GameLedger.Ledger.TogglePlayerStatus | src/components/GameLedger.tsx:62-68 | the new list is AfterToggle of the old one; the pot is unchanged and the invariant kept |
| GameLedger.Ledger.HandleCashout | src/components/GameLedger.tsx:81-129 | reports CashoutVerdict's outcome; the new list is AfterCashout of the old one; a rejection leaves the list unchanged; after a success the pot has dropped by at most the amount and has not grown; the invariant is kept |
| IncomeTracker.TotalSessions | src/components/IncomeTracker.tsx:49 | definition: `sessions.length` |
| IncomeTracker.TotalHours | src/components/IncomeTracker.tsx:50 | definition: the hours `reduce` folded from the left |
| IncomeTracker.TotalProfit | src/components/IncomeTracker.tsx:51 | definition: the profit `reduce` folded from the left |
| IncomeTracker.HourlyRate | src/components/IncomeTracker.tsx:52 | 0 when no positive hours are logged; otherwise the rate that turns the total hours into the total profit |
| IncomeTracker.TotalsAppend | src/components/IncomeTracker.tsx:50-51 | total hours and total profit split over a concatenation |
| IncomeTracker.TotalsPrepend | src/components/IncomeTracker.tsx:49-51 | a session put in front adds one to the count and its hours and profit to the totals |
| IncomeTracker.HoursPositiveTotal | src/components/IncomeTracker.tsx:50 | with positive hours everywhere, total hours are non-negative and positive if and only if the list is non-empty |
| IncomeTracker.RateOfValidSessions | src/components/IncomeTracker.tsx:52 | a non-empty list of validated sessions has positive hours and a rate of total profit over total hours |
| IncomeTracker.SubmissionAccepted | src/components/IncomeTracker.tsx:57-63 | definition: hours and profit are numbers and hours are positive |
| IncomeTracker.NotesField | src/components/IncomeTracker.tsx:70 | notes are absent if and only if only whitespace was typed; otherwise they are the trimmed, non-empty text, with no whitespace at either end |
| IncomeTracker.AfterSubmit | src/components/IncomeTracker.tsx:54-76 | a rejected form (NaN hours or profit, or hours <= 0) changes nothing; an accepted one puts the new session, with the trimmed notes, in front of the unchanged old list |
| IncomeTracker.SubmitStats | src/components/IncomeTracker.tsx:49-76 | an accepted submission adds one session, its hours and its profit to the statistics; a rejected one leaves all three as they were |
| IncomeTracker.SubmitKeepsHoursPositive | src/components/IncomeTracker.tsx:60-73 | submitting keeps every session's hours positive |
| IncomeTracker.CountSessionId | src/components/IncomeTracker.tsx:80 | definition: how many sessions carry the id |
| IncomeTracker.WithoutSession | src/components/IncomeTracker.tsx:80 | the filter drops exactly as many sessions as carry the id |
| IncomeTracker.WithoutSessionMembers | src/components/IncomeTracker.tsx:80 | a session is kept if and only if it was in the list and carries another id |
| IncomeTracker.WithoutSessionAppend | src/components/IncomeTracker.tsx:80 | the filter works piecewise, so the kept sessions keep their order |
| IncomeTracker.WithoutSessionAbsent | src/components/IncomeTracker.tsx:80 | deleting an id no session carries changes nothing |
| IncomeTracker.WithoutSessionKeepsHoursPositive | src/components/IncomeTracker.tsx:80 | deleting keeps every session's hours positive |
| IncomeTracker.WithoutSessionHours | src/components/IncomeTracker.tsx:50-80 | deleting from a validated list never raises the total hours |
| IncomeTracker.AfterDelete | src/components/IncomeTracker.tsx:78-82 | without confirmation nothing changes; with it, a session stays if and only if it was there and carries another id, so none with the id is left |
| IncomeTracker.StatsExample | src/components/IncomeTracker.tsx:49-52 | sessions of 3 hours winning 90 and 2 hours losing 40 give 2 sessions, 5 hours, profit 50 and a rate of 10 |
| IncomeTracker.SessionTracker.constructor | src/components/IncomeTracker.tsx:16 | the tracker starts empty, with the invariant |
| IncomeTracker.SessionTracker.HandleSubmit | src/components/IncomeTracker.tsx:54-76 | reports whether the form was accepted; the new list is AfterSubmit of the old one and is unchanged on rejection; hours stay positive |
| IncomeTracker.SessionTracker.DeleteSession | src/components/IncomeTracker.tsx:78-82 | the new list is AfterDelete of the old one; hours stay positive |

## Left out

- Persistence is not modelled: loading from Supabase or localStorage, and
  the saves on every change (`IncomeTracker.tsx:24-46`). These are storage
  services outside the components' logic.
- Rendering, modal state (`openCashoutModal`, `closeCashoutModal`,
  `GameLedger.tsx:70-79`), form field state and resets, alerts and toasts
  are not modelled. They are UI and do not affect the lists. Where the
  source alerts, the model returns a rejection (`CashoutOutcome`, the
  `accepted` result).
- IEEE floating point is not modelled: rounding, `Infinity`, and the
  strings `parseFloat` accepts. Money and hours are exact reals. A finite
  parse is `Some`, and NaN is `None`.
- `Date.now()`, `new Date().toISOString()` and `confirm(...)` are
  parameters. They are the clock and a user dialog.
- Currency and date formatting (`IncomeTracker.tsx:84-89`) are
  presentation and are not modelled.
- GameLedger.Ledger.AddBuyIn: its contract does not restate the pot
  growth. BuyInPot and BuyInPotUnique carry that property about the same
  AfterBuyIn list.
- GameLedger.CashoutPot and GameLedger.CashoutPotBounds: these are stated
  for a settlement against the whole pot with a positive amount no larger
  than the pot. That is exactly the accepted branch, which
  AfterCashout's contract ties to CashoutVerdict.
