# boat-bank: a verified model of the wager pipeline

boat-bank is a social betting site for Japanese boat racing (kyotei). Users
fill a marksheet, unroll it into combinations, put formations in a cart and
publish the cart as a prediction. Other users spend points to unlock a
prediction. When a race result arrives, either from the result feed or typed
in by an administrator, every unsettled prediction on that race is settled
against the race's refund table, and per-user statistics and a ranking are
computed from the settled predictions.

This project models that core in Dafny:

- `BetLogic` (bet_logic.dfy) and `BetLogicProperties` (bet_logic_props.dfy)
  cover `unrollCombinations`. The nested loops that push onto `result` and
  insert into the `seen` set are written as methods. They are proved equal
  to `Unrolled`, a function defined by recursion over the slots. The
  properties of the five bet types are proved about `Unrolled`.
- `BetStore` (bet_store.dfy) models the marksheet and cart store as a class
  `Store` with the fields `activeBetType`, `selections` and `cart`. Each
  action reassigns them. The invariant `Valid` says the slots are sorted and
  no formation in the cart is empty.
- `Evaluate` (evaluate.dfy) covers settlement: `evaluatePrediction` and
  `evaluateRaceBatch` over the in-memory `Database` of `Schema`
  (schema.dfy).
- `BoatraceApi` (boatrace_api.dfy) covers the venue table, the schedule
  sync, extraction of the first three places, and the mapping from feed
  payouts to refund entries.
- `Admin` (admin.dfy) covers the manual and demo refund tables and the four
  administrator entry points.
- `Transaction` (transaction.dfy) covers `unlockPrediction`, which moves
  points from buyer to author all-or-nothing and writes two ledger rows.
- `Stats` (stats.dfy) and `Ranking` (ranking.dfy) cover `getUserStats` and
  the aggregation, the five-prediction threshold and the two descending
  rankings of the ranking page.
- `Publish`, `Auth`, `Social` and `Notifications` (prediction.dfy,
  auth.dfy, social.dfy, notification.dfy) cover the small guarded store
  operations.
- `Text`, `Sorting` and `Wrappers` hold the JavaScript string, join, pad and
  sort helpers these modules need.

Unordered bets never win against a feed result, and the model states this
as the code is written. Trio (3PL) and quinella (2PL) combinations get ids
joined with `'='` (src/lib/bet-logic.ts:60, src/lib/bet-logic.ts:86). The
feed adapter rewrites every `'='` in trio and quinella payouts to `'-'`
(src/lib/boatrace-api.ts:111, src/lib/boatrace-api.ts:123). So a trio or
quinella formation never matches a feed-sourced refund entry, and it earns
nothing (`BoatraceApi.PlaceBetsNeverHitFeed`). The manual and demo tables
have no trio or quinella entries at all (`Admin.ManualPlaceBetsNeverHit`).

Where the written requirements and the code differ, the model follows the
code:

- `parseJsonSafely` (src/lib/utils.ts:8-18) returns `[]` for an unparseable
  string instead of throwing. For every payload the app itself writes, an
  array of formations, the `catch` branches of evaluate, stats and the
  ranking page therefore never run. An unparseable payload acts as an
  empty formation list: it is settled with no hit and refund 0, and it
  still counts as a prediction.
- Both deadline guards are strict (`deadlineAt < now`). Unlocking or
  publishing at exactly the deadline is allowed.
- `triggerDemoEvaluation` asks only for a signed-in user, not for an
  administrator (src/actions/admin.ts:74).
- `triggerApiEvaluation` saves the result under the feed's race date. It
  then evaluates the race under today's date. When no result is stored under
  today's date, the batch throws "Race result not found" and the action
  reports failure. The result it just saved stays written, and nothing is
  settled.

## Model

| member | source | states |
|---|---|---|
| BetLogic.UnrollCombinations | src/lib/bet-logic.ts:27-104 | the nested loops with their `continue`s and the `seen` set return exactly `Unrolled(betType, selections)` |
| BetLogic.UnrollTriples | src/lib/bet-logic.ts:32-67 | the 3TR loop builds the ordered combinations of the visited triples; the 3PL loop builds their deduplicated canonical forms, with `seen` equal to the ids pushed so far |
| BetLogic.UnrollPairs | src/lib/bet-logic.ts:68-92 | the same for the 2TR and 2PL loops over pairs |
| BetLogic.ScanSecond | src/lib/bet-logic.ts:34-35 | one second-slot boat: skipped when it equals f, otherwise the third-slot loop visits exactly its triples, and the result and `seen` stay consistent |
| BetLogic.Singles | src/lib/bet-logic.ts:93-100 | WIN visits each first-slot boat once, in order, as `[f]` |
| BetLogic.Ordered | src/lib/bet-logic.ts:39-44 | ordered combinations keep the tuple order, one combination per tuple, ids joined with `'-'` |
| BetLogicProperties.TriplesMembers | src/lib/bet-logic.ts:33-37 | a tuple is visited iff it is `[f,s,t]` with f, s, t from the three slots and pairwise different |
| BetLogicProperties.PairsMembers | src/lib/bet-logic.ts:69-71 | a pair is visited iff it is `[f,s]` from the first two slots with f ≠ s |
| BetLogicProperties.TrifectaCombinations | src/lib/bet-logic.ts:32-47 | a combination is in the 3TR result iff its numbers are such a triple, its id is `"f-s-t"` and its stake is 0 |
| BetLogicProperties.ExactaCombinations | src/lib/bet-logic.ts:68-79 | a combination is in the 2TR result iff its numbers are such a pair, its id is `"f-s"` and its stake is 0; the third slot does not matter |
| BetLogicProperties.WinCombinations | src/lib/bet-logic.ts:93-100 | the WIN result has one entry per first-slot boat, with id `String(f)`, numbers `[f]`, stake 0 |
| BetLogicProperties.TrioCombinations | src/lib/bet-logic.ts:48-67 | every 3PL combination is ascending, joined with `'='`, with stake 0; ids and number lists are pairwise distinct; each is a permutation of a selectable triple, and every selectable triple appears sorted |
| BetLogicProperties.QuinellaCombinations | src/lib/bet-logic.ts:80-92 | the same for 2PL and selectable pairs |
| BetLogicProperties.UnorderedMembers | src/lib/bet-logic.ts:59-64 | a combination survives the `seen` test iff it is the canonical form of some visited tuple |
| BetLogicProperties.UnorderedDistinctIds | src/lib/bet-logic.ts:61-62 | no two unordered combinations share an id |
| BetLogicProperties.CanonicalOfPermutation | src/lib/bet-logic.ts:59-60 | two tuples that are permutations of each other have the same canonical combination |
| BetLogicProperties.CanonicalIdDetermines | src/lib/bet-logic.ts:59-60 | equal `'='` ids mean equal canonical combinations, so the `seen` test on ids is a test on number sets |
| BetLogicProperties.AllStakesZero | src/lib/bet-logic.ts:43 | every generated combination has amount 0, for every bet type |
| BetLogicProperties.EmptySlotGivesNothing | src/lib/bet-logic.ts:27-104 | an empty slot the bet type uses gives an empty result |
| BetLogicProperties.TrifectaCount | src/lib/bet-logic.ts:33-46 | with pairwise-disjoint slots, 3TR yields exactly len(first) · len(second) · len(third) combinations |
| BetLogicProperties.TrifectaOfTwoBoats | src/lib/bet-logic.ts:32-47 | first = second = third = [1,2] yields no 3TR combination |
| BetLogicProperties.QuinellaExample | src/lib/bet-logic.ts:80-92 | first = [1,2], second = [2,3] yields exactly `1=2`, `1=3`, `2=3` |
| BetLogicProperties.QuinellaDeduplicates | src/lib/bet-logic.ts:80-92 | first = second = [1,2] yields only `1=2`: the pair `[2,1]` is dropped as already seen |
| Text.NumberString | src/lib/bet-logic.ts:96 | `String(n)` is non-empty; for n < 0 it is `'-'` followed by `String(-n)`, otherwise the decimal digits of n |
| Text.NumberStringChars | src/lib/bet-logic.ts:96 | `String(n)` is made of digits and `'-'`, and starts with a digit iff n ≥ 0 |
| Text.NumberStringInjective | src/lib/bet-logic.ts:96 | different numbers print differently |
| Text.JoinThree | src/lib/bet-logic.ts:41 | `[a,b,c].join(sep)` is `String(a) sep String(b) sep String(c)` |
| Text.JoinOfSeparatorFree | src/lib/bet-logic.ts:60 | a separator that is neither digit nor `'-'` occurs in a join iff at least two numbers are joined |
| Text.JoinNumbersInjective | src/lib/bet-logic.ts:86 | joining with such a separator is injective, so an id determines its numbers |
| Text.ReplaceAll | src/lib/boatrace-api.ts:111 | `replace(/x/g, y)` keeps the length and replaces exactly the occurrences of x |
| Text.ReplaceAllEffect | src/lib/boatrace-api.ts:105 | after replacing x by a different y no x is left, and replacing `'-'` by `'-'` is the identity |
| Text.Utf16Length | src/actions/auth.ts:15 | `s.length` counts UTF-16 code units: between the number of characters and twice it |
| Text.Utf16LengthOfBmp | src/actions/auth.ts:15 | without characters above U+FFFF it equals the number of characters |
| Text.Utf16LengthOfAstral | src/actions/auth.ts:15 | each character above U+FFFF counts twice |
| Text.Utf16LengthExample | src/actions/auth.ts:15 | three emoji are three characters but six units |
| Text.PadStart | src/lib/boatrace-api.ts:25 | `padStart(width, fill)` leaves a long string alone and otherwise prefixes exactly the missing fill characters |
| Sorting.SortNumbers | src/lib/bet-logic.ts:59 | `sort((a, b) => a - b)` returns an ascending permutation of its input |
| Sorting.SortedUnique | src/lib/bet-logic.ts:85 | two ascending permutations of the same numbers are equal |
| BetStore.Store.constructor | src/store/bet-store.ts:35-37 | the store starts on 3TR with empty slots and an empty cart |
| BetStore.Store.SetBetType | src/store/bet-store.ts:39-41 | sets the bet type, clears all three slots and keeps the cart |
| BetStore.Store.ToggleSelection | src/store/bet-store.ts:43-57 | replaces the one slot by its toggle and keeps the rest of the store |
| BetStore.Toggled | src/store/bet-store.ts:45-48 | the boat's membership flips, other boats keep theirs, a sorted slot stays sorted and an added boat is inserted exactly once |
| BetStore.ToggleTwice | src/store/bet-store.ts:43-57 | toggling a boat twice restores a sorted slot that held it at most once |
| BetStore.Store.ToggleAll | src/store/bet-store.ts:59-75 | replaces the one slot by the toggle-all result and keeps the rest of the store |
| BetStore.TargetBoats | src/store/bet-store.ts:61-62 | the targets are exactly the boats 1..6 not excluded, in ascending order |
| BetStore.ToggleAllSlot | src/store/bet-store.ts:63-71 | the slot becomes `[]` iff every target is already selected, and otherwise exactly the targets |
| BetStore.WithSlot | src/store/bet-store.ts:50-54 | `{...selections, [position]: v}` sets that slot to v and leaves the other two unchanged |
| BetStore.Store.ClearSelections | src/store/bet-store.ts:77-79 | clears all three slots and keeps the bet type and the cart |
| BetStore.Store.AddFormationToCart | src/store/bet-store.ts:83-108 | an empty unrolling changes nothing; otherwise one new formation is appended and the slots are cleared |
| BetStore.NewFormation | src/store/bet-store.ts:89-101 | the new formation keeps the bet type and marksheet, has one combination per unrolled one with its id and numbers, every stake equal to the default, `totalExpectedAmount` the default and `isIndividualAmount` false |
| BetStore.Store.UpdateCartItemAmount | src/store/bet-store.ts:110-120 | the cart becomes `UpdateItem` of the old cart; the invariant is kept |
| BetStore.UpdateItemEffect | src/store/bet-store.ts:112-118 | the cart length and every other formation are unchanged; in the named formation only the named combination's stake changes, and `isIndividualAmount` becomes true |
| BetStore.Store.UpdateCartFormationAmount | src/store/bet-store.ts:122-130 | the cart becomes `UpdateFormation` of the old cart; the invariant is kept |
| BetStore.UpdateFormationEffect | src/store/bet-store.ts:124-128 | every stake of the named formation becomes the amount, as does `totalExpectedAmount`, and `isIndividualAmount` becomes false; other formations are unchanged |
| BetStore.UpdatesKeepNoEmptyFormation | src/store/bet-store.ts:110-130 | stake edits never empty a formation |
| BetStore.Store.RemoveCombinationFromCart | src/store/bet-store.ts:132-142 | the cart becomes `RemoveCombination` of the old cart; the invariant is kept |
| BetStore.RemoveCombinationEffect | src/store/bet-store.ts:134-138 | no formation is left empty, the named formation no longer holds the combination, and every other non-empty formation stays |
| BetStore.WithoutCombination | src/store/bet-store.ts:136 | the filter keeps exactly the combinations with a different id |
| BetStore.Store.RemoveFormationFromCart | src/store/bet-store.ts:144-148 | the cart becomes `RemoveFormation` of the old cart; the invariant is kept |
| BetStore.RemoveFormationEffect | src/store/bet-store.ts:146 | exactly the formations with another id remain, in their original relative order |
| BetStore.RemoveFormationKeepsNoEmptyFormation | src/store/bet-store.ts:144-148 | removing a formation keeps every remaining formation non-empty |
| BetStore.Store.ClearCart | src/store/bet-store.ts:150 | empties the cart and keeps the marksheet |
| BetStore.Without | src/store/bet-store.ts:47 | `filter(n => n !== boat)` keeps exactly the other boats and keeps a slot sorted |
| BetStore.WithoutMultiset | src/store/bet-store.ts:47 | the filter removes every copy of the boat and nothing else |
| BetStore.FilterKeepsOrder | src/store/bet-store.ts:146 | `Array.filter` keeps the surviving elements in their original order |
| Schema.Formations | src/lib/utils.ts:8-18 | a parsed payload yields its formations and an unparseable one yields `[]` |
| Evaluate.CodesDistinct | src/lib/bet-logic.ts:3 | the five bet types have five different codes |
| Evaluate.FirstRefund | src/lib/evaluate.ts:48 | `refundsList.find` returns an entry of the formation's type, or nothing iff there is none |
| Evaluate.FirstRefundIsFirst | src/lib/evaluate.ts:48 | the entry found is the first of that type |
| Evaluate.FirstRefundIgnoresLater | src/lib/evaluate.ts:111 | entries after the first of a type are never consulted |
| Evaluate.Payout | src/lib/evaluate.ts:57 | the payout is the floor of amount · stake / 100 |
| Evaluate.MatchFormations | src/lib/evaluate.ts:43-61 | the matching loops compute `isHit = IsHit(...)` and `totalRefundAmount = RefundTotal(...)` |
| Evaluate.MatchCombinations | src/lib/evaluate.ts:52-60 | the inner loop sets `isHit` iff some combination id equals the entry's numbers and adds the payouts of the matches |
| Evaluate.MatchFormation | src/lib/evaluate.ts:46-60 | one formation sets `isHit` iff it already was or the formation hits, and adds exactly the formation's refund |
| Evaluate.NoHitNoRefund | src/lib/evaluate.ts:46-61 | a prediction without a hit has refund 0 |
| Evaluate.NoEntryNoContribution | src/lib/evaluate.ts:48-50 | a formation whose type has no refund entry neither hits nor contributes |
| Evaluate.RefundNonNegative | src/lib/evaluate.ts:57-58 | non-negative refund amounts and stakes give a non-negative refund |
| Evaluate.RefundAdditive | src/lib/evaluate.ts:46-61 | the refund of two formation lists together is the sum of their refunds |
| Evaluate.SettlementExample | src/lib/evaluate.ts:57 | a `1-2-3` trifecta paying 1540 per 100 returns 1540 on a 100 stake and 3850 on a 250 stake |
| Evaluate.Settled | src/lib/evaluate.ts:64-71 | the settled row is checked and carries the computed hit and refund; every other field is unchanged |
| Evaluate.EvaluatePrediction | src/lib/evaluate.ts:82-133 | the method does what `EvaluateSpec` says and changes no other table |
| Evaluate.EvaluateGuards | src/lib/evaluate.ts:83-91 | null is returned iff the prediction is missing, already checked, or its race has no result, and then nothing is written |
| Evaluate.EvaluateWritesOneRow | src/lib/evaluate.ts:123-132 | a successful evaluation rewrites only that row, settled with the race's refund table, and returns what it wrote |
| Evaluate.EvaluateIdempotent | src/lib/evaluate.ts:83-86 | evaluating the same prediction again returns null and changes nothing |
| Evaluate.EvaluateRaceBatch | src/lib/evaluate.ts:14-77 | a missing result fails with nothing written; otherwise exactly the unchecked predictions of the race are settled and counted |
| Evaluate.SettleAll | src/lib/evaluate.ts:33-74 | the loop over the selected rows settles each of them once, whatever the order, and counts them |
| Evaluate.SettleRow | src/lib/evaluate.ts:43-71 | one row is replaced by its settlement against the refund table and no other row changes |
| Evaluate.BatchTouchesOnlyTheRace | src/lib/evaluate.ts:21-23 | the batch settles each unchecked prediction of the race and leaves every other row as it was |
| Evaluate.BatchIdempotent | src/lib/evaluate.ts:21-23 | after a batch no unchecked prediction of the race is left |
| BoatraceApi.StadiumId | src/lib/boatrace-api.ts:25 | `toString().padStart(2, '0')` has at least two characters |
| BoatraceApi.VenueById | src/lib/boatrace-api.ts:26 | `VENUES.find` by id returns a venue with that id, or nothing iff none has it |
| BoatraceApi.VenueByName | src/lib/boatrace-api.ts:75 | `VENUES.find` by name returns a venue with that name, or nothing iff none has it |
| BoatraceApi.VenueIds | src/lib/constants/venues.ts:6-31 | the i-th venue's id is `i + 1` padded to two digits |
| BoatraceApi.VenueOfKnown | src/lib/boatrace-api.ts:25-28 | stadium numbers 1..24 map to their venues |
| BoatraceApi.VenueOfUnknown | src/lib/boatrace-api.ts:28 | any other stadium number has no venue and is skipped |
| BoatraceApi.VenueOfExamples | src/lib/constants/venues.ts:7-30 | stadium 1 is 桐生 and stadium 24 is 大村 |
| BoatraceApi.StadiumNumbers | src/lib/boatrace-api.ts:78 | `parseInt(venue.id, 10)` of the i-th venue is i + 1 |
| BoatraceApi.SyncTodaySchedule | src/lib/boatrace-api.ts:7-62 | a fetch failure or an empty program list changes nothing; otherwise each known program is upserted and the count of known programs is reported |
| BoatraceApi.SchedulesEffect | src/lib/boatrace-api.ts:23-55 | afterwards the schedule holds the old keys plus exactly the keys of known programs, and other entries are unchanged |
| BoatraceApi.UnknownStadiumSkipped | src/lib/boatrace-api.ts:28 | a program at an unknown stadium is neither stored nor counted |
| BoatraceApi.KnownCountBound | src/lib/boatrace-api.ts:54 | `syncedCount` never exceeds the number of programs |
| BoatraceApi.ExtractPlaces | src/lib/boatrace-api.ts:88-95 | first, second and third are the boat numbers of the first boats with place numbers 1, 2 and 3, and the fetch fails iff one of them is missing or 0 |
| BoatraceApi.BoatInPlaceIsFirst | src/lib/boatrace-api.ts:89-91 | `boats.find` returns the boat number of the first boat with that place |
| BoatraceApi.Entries | src/lib/boatrace-api.ts:103-125 | each feed payout becomes one entry of the bet type with its combination rewritten and its payout as amount |
| BoatraceApi.MapPayouts | src/lib/boatrace-api.ts:97-130 | the `forEach` pushes build exactly `Refunds(payouts)` |
| BoatraceApi.RefundsLayout | src/lib/boatrace-api.ts:103-130 | all trifecta, trio, exacta and quinella payouts are recorded in that order, then only the first win payout; 3TR and 2TR numbers are copied unchanged and amounts are the payouts |
| BoatraceApi.PlaceEntriesHaveNoEquals | src/lib/boatrace-api.ts:111 | a 3PL or 2PL entry from the feed contains no `'='` |
| BoatraceApi.GeneratedPlaceIdsHaveSeparator | src/lib/bet-logic.ts:60 | every generated 3PL or 2PL id contains `'='` |
| BoatraceApi.PlaceBetsNeverHitFeed | src/lib/boatrace-api.ts:123 | a 3PL or 2PL formation with `'='` ids never hits a feed-built refund table and earns 0 |
| BoatraceApi.FindResult | src/lib/boatrace-api.ts:79 | `results.find` returns a record for that stadium and race, or nothing iff there is none |
| BoatraceApi.FetchAndSaveRaceResult | src/lib/boatrace-api.ts:64-162 | returns the outcome `FetchSpec` gives and upserts the result only when it is saved |
| BoatraceApi.FetchSavesRequestedRace | src/lib/boatrace-api.ts:75-155 | a saved result belongs to the requested venue and race, carries the feed record's date and places, and holds the mapped refunds |
| Admin.ManualRefunds | src/actions/admin.ts:27-31 | the manual table has exactly three entries, 3TR, 2TR and WIN, with the typed payouts, and no 3PL or 2PL entry |
| Admin.ManualNumbersAreGeneratedIds | src/actions/admin.ts:28-30 | the manual numbers are the ids `unrollCombinations` gives the winning order under 3TR, 2TR and WIN |
| Admin.ManualTrifectaHits | src/actions/admin.ts:28 | a 3TR formation whose marksheet allows the winning order hits the manual table |
| Admin.ManualExactaHits | src/actions/admin.ts:29 | a 2TR formation whose marksheet allows the first two places hits the manual table |
| Admin.ManualWinHits | src/actions/admin.ts:30 | a WIN formation holding the winner hits the manual table |
| Admin.TableHit | src/actions/admin.ts:27-31 | in a table ordered 3TR, 2TR, WIN each entry is the first of its type, so a combination carrying its numbers hits |
| Admin.ManualPlaceBetsNeverHit | src/actions/admin.ts:27-31 | 3PL and 2PL formations never hit the manual table and earn 0 |
| Admin.OrDefault | src/actions/admin.ts:76-79 | `parseInt(x)` falling back to d yields d for a missing or zero input and the number otherwise |
| Admin.DemoRefunds | src/actions/admin.ts:81-85 | the demo table pays the payout on 3TR, floor(payout / 3) on 2TR and 300 on WIN |
| Admin.DemoDefaultTable | src/actions/admin.ts:76-85 | with no inputs the demo table is `1-2-3` 1540, `1-2` 513, `1` 300 |
| Admin.TriggerBatchEvaluation | src/actions/admin.ts:63-70 | only an administrator gets past the guard |
| Admin.SaveAndEvaluate | src/actions/admin.ts:33-58 | upserts the result and then settles exactly the unchecked predictions of that race |
| Admin.SubmitManualResult | src/actions/admin.ts:9-61 | a non-administrator is refused with nothing written; otherwise the manual table is saved under the given date, or the current one, and that race is settled; the batch result is not returned |
| Admin.TriggerDemoEvaluation | src/actions/admin.ts:72-119 | an anonymous caller is refused; otherwise the demo table is saved under today and that race is settled, and the batch result is returned |
| Admin.TriggerSyncSchedule | src/actions/admin.ts:121-132 | a non-administrator is refused with nothing written; otherwise the schedule sync runs |
| Admin.TriggerApiEvaluation | src/actions/admin.ts:134-163 | a non-administrator is refused; a failed fetch returns its error with nothing written or evaluated; otherwise the result is saved, and if a result is stored under today's key that race is settled and success is reported, else failure is reported with no prediction changed |
| Transaction.Unlock | src/actions/transaction.ts:7-111 | the method does what `UnlockSpec` says to balances, ledger and notifications |
| Transaction.UnlockZeroSum | src/actions/transaction.ts:62-71 | the sum of all balances is preserved |
| Transaction.UnlockKeepsBalancesNonNegative | src/actions/transaction.ts:55-71 | non-negative balances stay non-negative |
| Transaction.UnlockWritesTwoRows | src/actions/transaction.ts:59-101 | any change happens only after every guard passed: buyer −price, author +price, other users unchanged, one BUY(−price) and one SELL(+price) row appended, summing to 0, and one SALE notification |
| Transaction.UnlockNoChangeCases | src/actions/transaction.ts:32-44 | every non-success outcome changes nothing; price 0, the author buying, or an earlier BUY row succeed without a change |
| Transaction.UnlockDeadline | src/actions/transaction.ts:28-30 | the deadline failure happens iff the deadline is strictly before now |
| Transaction.UnlockInsufficient | src/actions/transaction.ts:55-57 | past the other guards, "Insufficient points" happens iff the balance is below the price |
| Transaction.UnlockIdempotent | src/actions/transaction.ts:38-44 | after a successful unlock a repeated unlock succeeds and changes nothing |
| Stats.GetUserStats | src/lib/stats.ts:13-58 | totalPredictions counts all authored predictions; investment sums all their stakes; refund and hits count only settled ones; the rate is as `RecoveryRate` |
| Stats.AuthoredBy | src/lib/stats.ts:14-22 | the query keeps exactly the user's predictions |
| Stats.Investment | src/lib/stats.ts:31-39 | an unparseable payload invests nothing |
| Stats.RecoveryRate | src/lib/stats.ts:49 | 0 without investment, otherwise refund · 100 / investment |
| Stats.HitsWithinChecked | src/lib/stats.ts:42-45 | hitCount ≤ settled predictions ≤ totalPredictions |
| Stats.InvestmentIgnoresSettlement | src/lib/stats.ts:30-36 | settling predictions does not change the investment |
| Stats.UnsettledAddsOnlyInvestment | src/lib/stats.ts:41-45 | an unsettled prediction adds its stakes and nothing to refund or hits |
| Stats.FormationStakesNonNegative | src/lib/stats.ts:33-35 | non-negative stakes give a non-negative investment |
| Stats.UniformStakes | src/lib/stats.ts:34 | a formation with one stake everywhere invests that stake times its size |
| Ranking.CheckedRows | src/app/ranking/page.tsx:26-29 | the query keeps exactly the settled predictions |
| Ranking.AggregateStats | src/app/ranking/page.tsx:32-54 | the loop over predictions builds exactly `Aggregate` |
| Ranking.CountPrediction | src/app/ranking/page.tsx:35-53 | one iteration creates zeroed counters for a new author and then adds the prediction to that author's counters as `Count` says |
| Ranking.AggregateIsPerUser | src/app/ranking/page.tsx:34-54 | a user has counters iff they authored a counted prediction; the counters are that user's count, hits, refund and investment, and hits ≤ count |
| Ranking.UnparseableStillCounts | src/app/ranking/page.tsx:40-53 | an unparseable payload still adds to count, hits and refund but adds 0 investment |
| Ranking.RankUsers | src/app/ranking/page.tsx:57-73 | the loop over users builds exactly `Ranked` |
| Ranking.RankedMembers | src/app/ranking/page.tsx:59-72 | a user is ranked iff their counters reach the five-prediction threshold, with the entry built from those counters |
| Ranking.DisplayName | src/app/ranking/page.tsx:67 | an empty or missing name shows as "Unknown" |
| Ranking.HitRate | src/app/ranking/page.tsx:63 | hitRate · count = 100 · hits, and it lies in [0, 100] when hits ≤ count |
| Ranking.SortByScore | src/app/ranking/page.tsx:76-77 | the sorted copy is a permutation in non-increasing order of the metric |
| Ranking.RankingPage | src/app/ranking/page.tsx:19-77 | rankedUsers is the unsorted threshold list; both rankings are non-increasing permutations of it |
| Ranking.RankedUsersBounds | src/app/ranking/page.tsx:59-63 | a ranked user has at least five settled predictions, exactly their count, and a hit rate in [0, 100] |
| Publish.NewPrediction | src/actions/prediction.ts:37-50 | the row stores the cart, the session user as author and the race; it is private only when asked, and starts unsettled |
| Publish.PublishPrediction | src/actions/prediction.ts:8-54 | the method does what `PublishSpec` says |
| Publish.PublishGuards | src/actions/prediction.ts:19-32 | publishing succeeds iff signed in, the cart is non-empty and the deadline is not before now; a refusal inserts nothing |
| Publish.PublishInsertsOneRow | src/actions/prediction.ts:35-49 | success inserts exactly one new row, keeps the others, and stores the cart and author; `isPrivate` defaults to false |
| Auth.RegisterUser | src/actions/auth.ts:6-41 | the method does what `RegisterSpec` says |
| Auth.RegisterGuards | src/actions/auth.ts:11-26 | registration succeeds iff all fields are given, the password is at least 6 UTF-16 code units long (`password.length`) and the e-mail is new; a refusal creates nothing |
| Auth.EmojiPasswordLongEnough | src/actions/auth.ts:15 | a password of three emoji counts as six units and passes the length check |
| Auth.RegisterCreatesOneUser | src/actions/auth.ts:29-38 | success adds exactly one user with 1000 points, the e-mail and the hash, keeps the others and keeps e-mails unique |
| Social.ToggleFollow | src/actions/social.ts:7-49 | the method does what `ToggleSpec` says |
| Social.ToggleFlipsOnePair | src/actions/social.ts:8-48 | anonymous or self-follow changes nothing; otherwise exactly the one pair flips and `isFollowing` is its new membership |
| Social.ToggleTwiceRestores | src/actions/social.ts:14-41 | toggling twice restores the relation |
| Notifications.MarkNotificationsAsRead | src/actions/notification.ts:7-22 | anonymous calls change nothing; otherwise the table becomes `MarkRead` of it |
| Notifications.MarkReadEffect | src/actions/notification.ts:11-19 | the length is kept, the user's notifications are read afterwards and other users' are unchanged |
| Notifications.MarkReadIdempotent | src/actions/notification.ts:11-19 | a second call changes nothing |

## Left out

- Network and database I/O: `fetch`, Prisma queries and upserts, `auth()`, `revalidatePath` and `redirect`. The feed is an `Option` parameter (`None` is a failed fetch), the database is the in-memory `Schema.Database`, and the session is a parameter.
- Concurrency: the check-then-insert on the BUY row, and on `resultChecked`, can race between requests. The model runs one request at a time, and `prisma.$transaction` is one all-or-nothing step.
- JSON: stored payloads are already parsed, or `Unparseable`. `JSON.stringify`/`JSON.parse` are not modelled.
- Payloads that parse to something other than an array of formations (`"null"`, `"{}"`, a formation without `combinations`) are left out. In stats and the ranking page their `reduce` throws and the `catch` adds no investment. In the batch, the formation loop throws outside any `try` and aborts the batch after the earlier rows were already updated. `Payload` has no value for such a payload.
- Evaluate.Payout: computed as the integer floor(amount · stake / 100). The source's double-precision `Math.floor((amount / 100) * stake)` can differ from it by rounding.
- Stats.RecoveryRate and Ranking.HitRate: computed in exact reals, not doubles.
- Dates and clocks: dates, deadlines and "now" are integer parameters. Time zones, `new Date(...)` parsing and the `race_closed_at` string handling are left out.
- Random ids and hashing are left out. `Math.random` formation ids and database-assigned ids are `freshId` parameters, required fresh where the database would assign them. The bcrypt hash is the `hash` parameter.
- `parseInt` on form fields is left out. Numbers arrive as `int`, or as `Option<int>` where a field may be absent. NaN is modelled only through `Admin.OrDefault`, as an absent value.
- Auth.RegisterUser: the new user's role default is assumed to be a member, since the user schema is not part of this model.
- Text.PadStart: the width is compared against the number of characters, not UTF-16 units. It is only applied to `String(n)`, which is ASCII, so the two agree there.
- Thrown errors and `{success: false, error}` results are outcome constructors, not exception messages. The error texts are left out.
- Transaction.Unlock: the text of the sale notification message is left out. Only its recipient, type and unread flag are modelled.
- Publish.PublishPrediction: does not validate the price, just as the source does not. A negative price is stored as given.
- `Array.sort` stability is left out. `Ranking.SortByScore` promises only a non-increasing permutation, which is all both rankings need.
- Rendering, the components that compute `excludeNumbers`, the cron and sync route handlers, `syncOfficialGradeAndDay` and the scraping scripts are left out. These files are not part of this model.
