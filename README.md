# Front Office Draft: budget-capped selection and build score

A Dafny model of the core of the Front Office Draft activity. The player
picks hires and tools from a fixed catalog of ten options under a $10M budget
and then evaluates the build. The model covers four parts:

- the catalog and configuration constants of `js/data.js` (module `Catalog`);
- the score formula of `calculateScores` and the verdict of `evaluateBuild`,
  as functions of the selected ids (module `Scoring`):
  `finalScore = totalAwa * cultureMult + riskPenalty + scalabilityBonus`;
- the selection state machine of `toggleOption` and `clearAllSelections` as
  functions over a value `Draft(selected, totalCost)`, with its invariant and
  the lemmas about it (module `Selection`);
- the global `state` object as a class whose methods update it in place and
  are proved against those functions (module `App`, class `DraftState`).

Money is kept in whole tenths of a million: every catalog cost has one
decimal place, so the budget limit 10.0 is 100 and every budget comparison
is exact. Scores are Dafny `real`s, which are exact rationals. The rounding of
JavaScript doubles is not modelled. The program's double `totalCost` drifts
away from the exact sum after additions as well as deselections. After a
deselection the drift can change what the program does on inputs a player can
reach. The properties of `Selection` hold for exact money only (see
"## Left out").

The invariant `Selection.Consistent` says four things: no id is selected
twice, every id is in the catalog, the running total equals the sum of the
selected costs, and the total is within the budget. It holds in every state
reached from the empty page by toggles and clears. It is also the object
invariant `App.DraftState.Valid`.

## Model

| member | source | states |
|---|---|---|
| `Catalog.Find` | js/app.js:134 | `OPTIONS.find` by id returns the first entry of the list with that id (no earlier entry has it), or nothing when no entry has it |
| `Catalog.Lookup` | js/app.js:134 | the entry an id of the catalog names (`OPTIONS[id - 1]`, equal to what `find` returns by `FindById`) carries that id |
| `Catalog.IdsAreOneToTen` | js/data.js:6-117 | the catalog has ten entries whose ids are 1..10 in order, so ids are pairwise distinct |
| `Catalog.FindById` | js/app.js:134 | `find` succeeds exactly on ids 1..10 and then returns the entry `Lookup` names, which carries that id |
| `Catalog.LookupOfEntry` | js/data.js:6-117 | looking up the id of any catalog entry returns that entry |
| `Catalog.EntryBounds` | js/data.js:11-115 | every cost is positive (at most 3.0), every risk is between -0.15 and 0, every culture value is between 1.0 and 1.25, every scalability value is between 0.1 and 0.2, and every awa value is between 0.2 and 1.8 |
| `Catalog.CategoryById` | js/data.js:16-115 | ids 6, 7 and 8 are tools; ids 1-5, 9 and 10 are hires |
| `Scoring.Total` | js/app.js:252-269 | the `reduce` sum of one attribute over the entries of the selected ids, added left to right from 0; bounded by `TotalBounds`, order-free by `TotalPermutation` |
| `Scoring.CultureMult` | js/app.js:260-263 | the culture sum divided by the number of selected entries, or 1.0 when none is selected; bounded by `CultureMultBounds` |
| `Scoring.CalculateScores` | js/app.js:251-276 | the five fields of `state.scores`: the awa, risk and scalability sums, the culture mean, and finalScore = totalAwa * cultureMult + riskPenalty + scalabilityBonus |
| `Scoring.Evaluate` | js/app.js:231-246 | nothing-selected for an empty list; otherwise the scores and success exactly when finalScore >= 5.0 |
| `Scoring.TotalBounds` | js/app.js:257-269 | each `reduce` sum over n selected entries lies between n times the catalog minimum and n times the catalog maximum of that attribute (awa 0.2-1.8, culture 1.0-1.25, risk -0.15-0, scalability 0.1-0.2) |
| `Scoring.CultureMultBounds` | js/app.js:260-263 | the culture multiplier (a mean, or 1.0 when the selection is empty) lies between 1.0 and 1.25 |
| `Scoring.ScoreTermBounds` | js/app.js:251-276 | riskPenalty is at most 0 (the "already negative" comment), scalabilityBonus and totalAwa are at least 0, cultureMult is at least 1.0, and the empty selection scores 0 with multiplier 1.0 |
| `Scoring.ScoreAtLeastSum` | js/app.js:271-275 | finalScore is at least totalAwa + riskPenalty + scalabilityBonus, because the multiplier only scales awa up |
| `Scoring.ScoreAtMost` | js/app.js:271-275 | finalScore is at most 2.45 per selected entry (1.8 * 1.25 + 0 + 0.2) |
| `Scoring.AtLeastThreeToPass` | js/app.js:241 | a build that reaches SUCCESS_THRESHOLD has at least three entries |
| `Scoring.TotalRemoveAt` | js/app.js:257 | removing one id from a sum subtracts exactly that entry's attribute |
| `Scoring.TotalPermutation` | js/app.js:252-269 | each sum is the same for any reordering of the selected ids |
| `Scoring.CultureMultPermutation` | js/app.js:260-263 | the culture multiplier is the same for any reordering of the selected ids |
| `Scoring.ScoresOrderIndependent` | js/app.js:251-276 | the scores and the `evaluateBuild` verdict do not depend on the order of `selectedOptions` |
| `Scoring.PassingBuild` | js/app.js:231-246 | ids 1, 2, 5 and 9 score 4.7 * 1.1375 - 0.15 + 0.7 = 5.89625 and pass |
| `Scoring.NearMissBuild` | js/app.js:231-246 | ids 1, 2 and 6 score 14.9 / 3, below 5.0, and fail |
| `Selection.Toggle` | js/app.js:133-150 | toggling deselects exactly when the id is selected, and a budget warning leaves the state unchanged |
| `Selection.Remove` | js/app.js:139 | `filter(id => id !== x)` keeps exactly the elements other than x and never lengthens the list |
| `Selection.WouldExceedBudget` | js/app.js:96-97 | a card is disabled when its option is not selected and adding its cost would go strictly above the limit; tied to the toggle by `CardFlagMatchesToggle` |
| `Selection.Clear` | js/app.js:216-221 | an empty selection or a declined confirmation leaves the state alone; a confirmed clear empties the list and zeroes the total |
| `Selection.RemoveAt` | js/app.js:139 | on a list without duplicates, `filter(id => id !== x)` cuts out exactly the position of x and keeps the others in order |
| `Selection.NoDuplicatesRemoveAt` | js/app.js:139 | the filtered list has no duplicates and no longer contains the removed id |
| `Selection.CostRemoveAt` | js/app.js:140 | removing an id from the selection lowers the sum of costs by exactly its cost |
| `Selection.CostPermutation` | js/app.js:149 | the sum of costs is the same for any order of selection |
| `Selection.SelectAppends` | js/app.js:147-149 | adding an unselected id keeps the list free of duplicates and raises the cost sum by exactly its cost |
| `Selection.DeselectRemovesExactly` | js/app.js:137-140 | deselecting always succeeds: it removes exactly that id, keeps the order of the rest, and lowers the total by its cost |
| `Selection.SelectWithinBudget` | js/app.js:142-149 | an addition is refused exactly when the new total is strictly above the limit; an accepted one stays within the limit, and one that lands exactly on 10.0 is accepted |
| `Selection.ToggleKeepsConsistent` | js/app.js:133-150 | every toggle of a catalog id keeps the invariant |
| `Selection.ClearKeepsConsistent` | js/app.js:216-225 | clearing is a no-op on an empty selection or without confirmation and yields the empty state with confirmation; the invariant is kept |
| `Selection.SelectThenDeselect` | js/app.js:137-149 | selecting an unselected id and toggling it again restores the list and the total exactly |
| `Selection.CardFlagMatchesToggle` | js/app.js:97 | a card's `wouldExceedBudget` flag is true exactly when `toggleOption` on that option takes the budget-warning branch of line 143 |
| `Selection.RunKeepsConsistent` | js/app.js:133-225 | any sequence of toggles and clears from a consistent state ends in a consistent state |
| `Selection.ReachableIsConsistent` | js/app.js:6-16 | every state reached from the empty initial state keeps the invariant |
| `Scoring.ThresholdBuild` | js/app.js:241 | ids 1, 3, 6, 7 and 9 score exactly 4.0 * 1.15 - 0.3 + 0.7 = 5.0 and pass, because the comparison is `>=` |
| `Selection.PrefixCost` | js/data.js:11-110 | the running sums of the catalog costs in catalog order are 3.0, 5.5, ..., 18.9 |
| `Selection.CannotSelectEverything` | js/data.js:123 | the ten costs sum to 18.9, above BUDGET_LIMIT, so no reachable state holds the whole catalog |
| `Selection.ExactLimitRun` | js/app.js:142-149 | the toggles of ids 1, 4, 5, 7 and 10 from the empty state are all accepted and end at exactly 10.0 |
| `Selection.ExactLimitScenario` | js/app.js:143 | at exactly 10.0 with ids 1, 4, 5, 7 and 10 selected, toggling id 9 (cost 0.9) is refused and changes nothing |
| `App.DraftState.constructor` | js/app.js:6-16 | the initial state has nothing selected, total 0 and all scores 0, and satisfies the invariant |
| `App.DraftState.ToggleOption` | js/app.js:133-154 | the in-place toggle produces exactly `Selection.Toggle`'s state and outcome and keeps the invariant; a refusal changes nothing and matches the card flag |
| `App.DraftState.ClearAllSelections` | js/app.js:216-226 | the in-place clear produces exactly `Selection.Clear`'s state and keeps the invariant |
| `App.DraftState.CalculateScores` | js/app.js:251-276 | `state.scores` becomes the scores of the current selection |
| `App.DraftState.EvaluateBuild` | js/app.js:231-246 | on an empty selection it reports that and leaves the scores alone; otherwise it recomputes the scores and reports success iff finalScore >= 5.0 |

## Left out

- DOM rendering and display are not modelled: the card and list HTML, `renderOptions`, `updateSelectedList`, `displayScores`, and the colour bands and `toFixed` formatting of `updateBudgetDisplay`. They only present the state.
- Option names and descriptions are display text and are not modelled. `CLAIM_CODE` is only displayed in the success modal and is not modelled either.
- Persistence is I/O and is not modelled: `saveState`, `loadSavedState` and `clearSavedState` use localStorage and JSON. `loadSavedState` restores `totalCost` without re-checking it (js/app.js:377-378), so the invariant is proved only for states reached from the empty state by toggles and clears.
- Browser side effects are not modelled: `alert`, `confirm`, clipboard, modals, `setTimeout` animations, event wiring and the intro overlay. `confirm` is a boolean parameter, and each `alert` is a returned outcome (`BudgetWarning`, `NothingSelected`).
- IEEE-754 rounding is not modelled. Costs are exact integers in tenths and scores are exact reals, so the float drift of `totalCost += / -=` is absent.
- Selection.Consistent: the part "the total equals the sum of the selected costs" holds for exact money only. In the program, toggling ids 3, 1, 1 computes 1.2 + 3.0 - 3.0 in doubles (js/app.js:149, js/app.js:140) and leaves `totalCost` at 1.2000000000000002 instead of 1.2. Additions alone drift too: toggles 6, 9 compute 2.3 + 0.9 and leave 3.1999999999999997 instead of 3.2.
- Selection.SelectThenDeselect: "restores the total exactly" holds for exact money only. With id 3 selected, selecting and deselecting id 1 leaves the double `totalCost` at 1.2000000000000002, not 1.2.
- Selection.SelectWithinBudget: "a total landing exactly on 10.0 is accepted" holds for exact money only. After toggles 1, 2, 3, 9, 4, 9 the double `totalCost` is 8.200000000000001, so toggling id 7 compares 10.000000000000002 > 10.0 at js/app.js:143 and the program shows the budget warning, while `Selection.Toggle` accepts it. Additions alone never cause a refusal at the limit (every order of a subset costing exactly 10.0 ends at or below 10.0), though they too move `totalCost` off the exact sum (toggles 1, 6, 7, 3, 10 end at 9.999999999999998).
- Toggling an id that is not in the catalog is excluded by `requires InCatalog(optionId)`. In the source, `option.cost` then throws on `undefined`.
- App.DraftState.EvaluateBuild: requires the whole invariant `Valid()` where the source only needs every selected id to be in the catalog. Every reachable state satisfies the invariant.
- App.DraftState.CalculateScores: requires `Valid()` for the same reason.
