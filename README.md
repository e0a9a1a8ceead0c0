# Finding the light gold bar in two weighings

This project models the automated test of a browser puzzle: nine gold bars
look alike, one is lighter than the other eight, and a balance with a left and
a right board of nine inputs each reports `>`, `<` or `=` when its weigh
button is clicked. The test splits the bars round-robin into three sets of
three, weighs set 1 against set 2, resets the boards, weighs the first two
bars of the selected set against each other and picks the light bar. It keeps
a counter, `lastWeighingsAmount`, so that each click of the weigh button
waits for exactly one new entry in the page's list of weighings.

Three modules:

- `Balance` (`balance.dfy`) is the page, seen as an oracle. Bar `i` is the
  bar at position `i` in the page's row of bars. The page has hidden weights,
  two boards of nine inputs held in arrays, a list of weighings and a result
  readout. The readout compares the left-pan sum with the right-pan sum: `>`
  means the left pan is heavier, `<` that it is lighter, `=` that the pans
  balance. Reset clears both boards and leaves the list of weighings alone.
- `Strategy` (`strategy.dfy`) holds the round-robin split. Its spec is
  `Column` and `DivideGoldBarsIntoSets` is the loop that builds it. The module
  also holds the two decisions on the readout symbol and the whole procedure
  as functions of the weights (`FirstWeighing`, `Candidates`,
  `SecondWeighing`, `Pick`), with the lemmas that it finds the light bar.
- `FetchAutomation` (`automation.dfy`) is the test class. It holds the
  `lastWeighingsAmount` field, the two click-and-wait steps, `CompareGoldBars`,
  the test case `FetchMinimalBarWeighing` and `Teardown`. `RunTestCase` is one
  run of the fixture: load a fresh page, run the test, tear down.

Under this oracle the test returns the light bar after exactly two
weighings, wherever that bar sits. A page without nine bars fails before any
input is filled or any weighing is done. `FirstDecision` rejects an unknown
readout after the first weighing. `SecondDecision` has no error case: every
readout other than `>` or `<` gives the third bar of the set.

`LightBarSevenExample` numbers bars by position, `0..8`.

## Model

| member | source | states |
|---|---|---|
| `Strategy.DivideGoldBarsIntoSets` | FetchTestingAutomation.cs:169-186 | each of the three caller lists ends as its old contents followed by the bars at positions `0, 3, 6, …`, `1, 4, 7, …` and `2, 5, 8, …` respectively, in input order |
| `Strategy.ColumnLength` | FetchTestingAutomation.cs:171-184 | set `r` receives one bar for each position below the input length that is congruent to `r` modulo 3 |
| `Strategy.ColumnAt` | FetchTestingAutomation.cs:171-184 | the `j`-th bar of set `r` is the input bar at position `3 * j + r`, so input order is kept within each set |
| `Strategy.PartitionOfNine` | FetchTestingAutomation.cs:169-186 | for nine bars, set 1 is positions 0, 3, 6, set 2 is 1, 4, 7 and set 3 is 2, 5, 8: three bars each |
| `Strategy.PartitionCovers` | FetchTestingAutomation.cs:169-186 | the three sets together hold exactly the input bars, each as often as in the input |
| `Strategy.PartitionDisjoint` | FetchTestingAutomation.cs:169-186 | when the input bars are distinct, no bar lands in two different sets |
| `Strategy.FirstDecision` | FetchTestingAutomation.cs:115-134 | a set is chosen if and only if the readout is `>`, `<` or `=`, and the chosen set is one of the three; any other readout is an error |
| `Strategy.SecondDecision` | FetchTestingAutomation.cs:233-244 | the chosen position is one of the three, and it is the third exactly when the readout is neither `>` nor `<`, including unknown readouts, with no error |
| `Strategy.Candidates` | FetchTestingAutomation.cs:115-127 | the set the first readout selects always holds three bars |
| `Strategy.FirstWeighingLocates` | FetchTestingAutomation.cs:98-127 | with one strictly light bar, weighing set 1 against set 2 selects set `light % 3`, which is the bars `light % 3`, `light % 3 + 3`, `light % 3 + 6` |
| `Strategy.SecondWeighingLocates` | FetchTestingAutomation.cs:229-244 | in any set of three distinct bars that holds the light bar, weighing bar 0 against bar 1 picks the light bar |
| `Strategy.PickFindsLight` | FetchTestingAutomation.cs:110-134 | the procedure's pick is the light bar, wherever it sits among the nine |
| `Strategy.LightBarSevenExample` | FetchTestingAutomation.cs:98-134 | with bar 7 light, the first readout is `>`, set 2 (bars 1, 4, 7) is selected, the second readout is `=` and bar 7 is picked |
| `Balance.FillWeight` | FetchTestingAutomation.cs:98-107 | a pan with bars typed into its first inputs weighs what those bars weigh together |
| `Balance.Readout` | FetchTestingAutomation.cs:115-127 | `>` exactly when the left pan is heavier, `<` exactly when it is lighter, `=` exactly when they balance |
| `Balance.Page.ClickWeigh` | FetchTestingAutomation.cs:195 | the page appends one weighing of the boards as they are loaded, shows its result and leaves the boards loaded |
| `Balance.Page.ClickReset` | FetchTestingAutomation.cs:210 | both boards are empty afterwards |
| `FetchAutomation.FetchTestingAutomation.ClickAndWaitUntilWeighingHasFinished` | FetchTestingAutomation.cs:192-202 | exactly one weighing is added; the wait succeeds if and only if the page then lists `lastWeighingsAmount + 1` weighings, and then the counter rises by exactly 1 and the new weighing's result is returned; otherwise it times out and the counter stays put |
| `FetchAutomation.FetchTestingAutomation.ClickAndWaitUntilResettingBoardsHaveFinished` | FetchTestingAutomation.cs:207-214 | both boards are empty when the wait ends |
| `FetchAutomation.FetchTestingAutomation.CompareGoldBars` | FetchTestingAutomation.cs:223-245 | the board is reset and then holds only bar 0 of the set in left input 0 and bar 1 in right input 0; one weighing is added; the result is the set's bar that `SecondDecision` names for that weighing's readout, or a timeout when the counter was out of step |
| `FetchAutomation.FetchTestingAutomation.FillBoard` | FetchTestingAutomation.cs:98-107 | an empty board ends with the set's bars in its first inputs, in order, and the other inputs empty |
| `FetchAutomation.FetchTestingAutomation.FetchMinimalBarWeighing` | FetchTestingAutomation.cs:66-134 | without nine bars it fails with the bar count, adding no weighing and leaving the board empty; with nine it adds exactly the two weighings `FirstWeighing` and `SecondWeighing`, raises the counter by exactly 2, ends with the second weighing's board and returns `Pick`, the bar `SecondDecision` names within the set `FirstDecision` names; with one strictly light bar it returns that bar |
| `FetchAutomation.FetchTestingAutomation.Teardown` | FetchTestingAutomation.cs:54-60 | the boards are reset and `lastWeighingsAmount` is 0 |
| `FetchAutomation.RunTestCase` | FetchTestingAutomation.cs:47-66 | on a freshly loaded page, a run fails with the bar count unless there are nine bars; otherwise it returns `Pick`, which is the light bar whenever exactly one bar is strictly lighter than the rest |

## Left out

- The polling of `DefaultWait`, with its 10 s timeout and 100 ms interval, is left out. The page model applies a click at once, so each wait is one check of its condition after the click.
- `FetchAutomation.FetchTestingAutomation.ClickAndWaitUntilResettingBoardsHaveFinished`: the modelled page clears its boards at once, so this wait cannot time out and the model has no reset-timeout failure.
- Typing into an input appends text. The model writes the bar into the input instead. The test only types into inputs that are empty: on a freshly loaded page, or after a reset, because the modelled page clears its boards as the reset button is clicked.
- `FetchAutomation.FetchTestingAutomation.ClickAndWaitUntilResettingBoardsHaveFinished`: the test's reset wait reads the text of the first left input, which an input element never has, so that wait observes nothing. The model's boards are empty after the wait because the page clears them on the click, not because the wait checked them.
- A bar's label is its position in the page's row of bars. Bar texts, element lookup, locators and clicks on page elements are all abstracted into the page model.
- The end of the test case is left out: clicking the chosen bar, reading and accepting the alert, asserting the alert text is not null, re-reading the weighings list and logging. These only report on the page; they do not change the choice of bar.
- `FetchAutomation.FetchTestingAutomation.FillBoard`: the two identical filling loops of the test case are modelled as one method called once for each board.
- `lastWeighingsAmount` is a 32-bit integer in the test class. The model uses an unbounded integer, because a test does at most two weighings.
- Browser start-up and shutdown, window sizing, implicit-wait settings, the locator constants and the test runner's attributes are left out. They are I/O and configuration with no logic.
