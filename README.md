# AI Study Coach — a Dafny model of the dashboard's bookkeeping

AI Study Coach is a React study dashboard. A focus timer reports finished
sessions, and each one earns XP and coins and is folded into today's
statistics. A ten-question knowledge quiz, drawn from a bank of forty,
rewards 50 XP and 25 coins per correct answer. A shop sidebar sells themes,
avatars and music tracks and lets the user equip one item per category. An
insights panel reads today's statistics through fixed threshold ladders.

This project models the page's state and its four handlers, the quiz state
machine, the shop's item list, and the insights panel's classifiers and
formatting. It proves what these promise:

- the level always follows lifetime XP;
- the running average focus score stays within the range of the session
  scores that fed it;
- the shop keeps exactly one equipped, owned item per category and never
  charges twice for an item;
- a completed quiz reports the number of correctly answered questions;
- equipping a theme picks the light/dark scheme that matches the
  background it sets;
- the insights are four, in a fixed order, and only three are shown;
- rendering a duration loses only the seconds past the last whole minute.

Files, one module each:

- `basics.dfy` (`Basics`): an option type, `Math.round` on a non-negative
  quotient, and decimal rendering of naturals.
- `shop.dfy` (`Shop`): the catalogue, the inventory invariant and the
  `ShopSidebar` class over an array of items.
- `ledger.dfy` (`Ledger`): the page's pure record updates (credit, debit,
  the session fold, theme mapping) and the page invariant over any run of
  handler calls.
- `quiz.dfy` (`Quiz`): the question bank, question sampling, and the
  `QuizSession` class.
- `insights.dfy` (`Insights`): the four insight ladders, score colour and
  badge, time formatting and the daily-goal percentage.
- `dashboard.dfy` (`DashboardPage`): the `Dashboard` class with its
  handlers, and the wiring from the shop and the quiz to the page.

The quiz's submit and the timer callback it schedules are two separate
steps. `Submit` records and scores the answer and schedules a settle timer.
`Settle` runs the oldest pending timer's callback, which either advances to
the next question or completes the quiz. `SubmitAndSettle` is the two
together, taken as one step. Keeping them apart is what exposes the finding
below.

## Model

| member | source | states |
|---|---|---|
| `Basics.RoundHalfUp` | src/pages/Dashboard.tsx:104 | the result is the integer nearest to `num/den`, halves rounded up, as `Math.round` does for non-negative values |
| `Basics.RoundBetween` | src/pages/Dashboard.tsx:104 | a quotient lying between two integers rounds to a value between them |
| `Basics.NatToString` | src/components/FocusInsights.tsx:21-23 | `${n}` renders as a non-empty run of decimal digits with no leading zero: a rendering that starts with `0` is the single digit `0`, and only for zero |
| `Basics.CanonicalDigitsUnique` | src/components/FocusInsights.tsx:21-23 | every numeral without a leading zero is the rendering of the number it reads as, so each number has exactly one such rendering |
| `Basics.ParseNatToString` | src/components/FocusInsights.tsx:21-23 | reading the rendered digits back gives `n` |
| `Shop.Catalogue` | src/components/ShopSidebar.tsx:30-48 | the twelve catalogue items, four per category, satisfy the inventory invariant (unique ids, equipped implies owned, exactly one equipped per category) |
| `Shop.MarkOwnedKeepsInventory` | src/components/ShopSidebar.tsx:61-63 | the purchase rewrite sets `owned` exactly on the bought id and changes no other field of any item (id, name, price, category, equipped); it leaves every category's equipped set unchanged and keeps the invariant |
| `Shop.EquipOnlyKeepsInventory` | src/components/ShopSidebar.tsx:76-81 | the equip rewrite leaves the equipped item as the only equipped one of its category; it changes no field but `equipped`, leaves items of other categories whole, and keeps the invariant |
| `Shop.ItemsOfCategory` | src/components/ShopSidebar.tsx:116-118 | the filter is no longer than the list it filters |
| `Shop.ItemsOfCategoryMembers` | src/components/ShopSidebar.tsx:116-118 | an item is in the filtered list exactly when it is in the list and has the category |
| `Shop.ItemsOfCategoryAppend` | src/components/ShopSidebar.tsx:116-118 | filtering distributes over concatenation |
| `Shop.CategoriesPartition` | src/components/ShopSidebar.tsx:116-118 | the three category filters together have exactly as many items as the list |
| `Shop.FirstEquipped` | src/components/ShopSidebar.tsx:120 | `find` returns the first equipped item of the category in list order (no earlier item matches), and nothing only when there is none |
| `Shop.FirstEquippedFound` | src/components/ShopSidebar.tsx:120 | on a valid inventory `find` always succeeds, and the item it finds is the only equipped one of its category |
| `Shop.ModeForTheme` | src/components/ShopSidebar.tsx:86-102 | the colour scheme is dark exactly for the forest and ocean themes, light otherwise, including unknown ids |
| `Shop.ShopSidebar.constructor` | src/components/ShopSidebar.tsx:51 | the list starts as the catalogue and is valid |
| `Shop.ShopSidebar.Purchase` | src/components/ShopSidebar.tsx:59-72 | for an item of the list: buys exactly when the balance covers the price and the item is not owned; the list becomes the purchase rewrite, otherwise it is unchanged; a bought or already owned item is owned in the list afterwards; the invariant is kept |
| `Shop.ShopSidebar.Equip` | src/components/ShopSidebar.tsx:74-114 | equips exactly when the item is owned; the list becomes the equip rewrite; for a theme, returns the colour scheme chosen for it; the invariant is kept |
| `Shop.ShopSidebar.GetItemsByCategory` | src/components/ShopSidebar.tsx:116-118 | returns exactly the listed items of that category |
| `Shop.ShopSidebar.EquippedMusic` | src/components/ShopSidebar.tsx:120 | returns the equipped music track, and a valid shop always has one |
| `Ledger.FocusScore` | src/pages/Dashboard.tsx:84 | 100 less 10 per distraction, a multiple of 10 in [0, 100], 0 exactly from ten distractions |
| `Ledger.LevelFor` | src/pages/Dashboard.tsx:92 | level `L` is reached with lifetime XP in [1000(L-1), 1000L) |
| `Ledger.Credit` | src/pages/Dashboard.tsx:87-93 | a reward adds the XP to both XP counters and the coins to the balance, sets the level from the new lifetime XP, and leaves name, streak and avatar alone |
| `Ledger.Debit` | src/pages/Dashboard.tsx:134-141 | the price is deducted exactly when the balance covers it; nothing but the balance changes |
| `Ledger.CreditKeepsLedger` | src/pages/Dashboard.tsx:119-126 | a reward keeps `xp == totalXP` with the level from lifetime XP, and never lowers the level |
| `Ledger.RunningAverage` | src/pages/Dashboard.tsx:102-104 | the first session's average is its own score; later ones are the rounded weighted mean, always between the old average and the new score |
| `Ledger.FoldSession` | src/pages/Dashboard.tsx:96-116 | one more session, its time and XP added, the longest session updated to the maximum, the average updated by the running mean |
| `Ledger.FoldKeepsStats` | src/pages/Dashboard.tsx:96-116 | folding a session keeps the average a percentage and the longest session within the total |
| `Ledger.FoldAllAverageInRange` | src/pages/Dashboard.tsx:102-104 | after any run of sessions the average lies within the range of the scores that fed it |
| `Ledger.ThemeName` | src/pages/Dashboard.tsx:152-158 | the four theme ids map to the name after `theme-`; every other id the shop can send (an avatar or music id) maps to cosmic |
| `Ledger.ThemeAndModeAgree` | src/pages/Dashboard.tsx:150-158 | the page background is forest or ocean exactly when the sidebar chooses the dark scheme |
| `Ledger.EquipOnPage` | src/pages/Dashboard.tsx:143-159 | an avatar replaces the user's avatar, a theme the background, and music changes nothing; statistics never change |
| `Ledger.StepKeepsPage` | src/pages/Dashboard.tsx:77-159 | every handler keeps the page invariant and never lowers lifetime XP or level |
| `Ledger.ReplayKeepsPage` | src/pages/Dashboard.tsx:77-159 | from a valid page, any sequence of handler calls keeps the invariant and never lowers lifetime XP or level |
| `Ledger.InitialPageValid` | src/pages/Dashboard.tsx:20-43 | the initial user, statistics and cosmic background satisfy the page invariant |
| `Ledger.FoldExamples` | src/pages/Dashboard.tsx:96-116 | worked examples: a first 1800 s session scoring 80; scores 100 then 50 averaging 75; two distractions scoring 80 |
| `Quiz.SampleQuestions` | src/components/QuizModal.tsx:21-264 | the bank has forty questions with ids 1 to 40 in order, four options each and a correct answer among them |
| `Quiz.GetRandomQuestions` | src/components/QuizModal.tsx:276-279 | returns ten questions of the bank with no id twice, for any order the shuffle produces |
| `Quiz.RecordAnswer` | src/components/QuizModal.tsx:301-307 | recording an answer in an empty slot adds one to the correct count exactly when it is the right answer |
| `Quiz.ScoreBound` | src/components/QuizModal.tsx:273 | the correct count over ten slots is at most ten |
| `Quiz.QuizSession.constructor` | src/components/QuizModal.tsx:267-273 | the initial quiz has no questions, question 0, no selection, score 0, ten empty answer slots and no pending timer |
| `Quiz.QuizSession.Load` | src/components/QuizModal.tsx:285-289 | questions are drawn only when there are none; nothing else changes |
| `Quiz.QuizSession.SelectAnswer` | src/components/QuizModal.tsx:291-295 | the selection changes only while the current question is unanswered |
| `Quiz.QuizSession.Submit` | src/components/QuizModal.tsx:297-308 | with a selection and a question, and not yet answered: records the answer in the current slot, adds one to the score exactly for the right answer and schedules a settle timer carrying the index and final score; otherwise nothing changes; the quiz invariant is kept |
| `Quiz.QuizSession.Settle` | src/components/QuizModal.tsx:309-322 | the oldest timer fires: before the last question it advances with the selection cleared; on the last it shows the result and reports the captured score with 50 XP and 25 coins per point |
| `Quiz.QuizSession.SubmitAndSettle` | src/components/QuizModal.tsx:297-322 | as one step: with nothing to submit, no field changes; a submitted answer is recorded and, before the last question, the quiz advances with the selection cleared; the quiz completes exactly on submitting the last question, and then it reports the number of correctly answered questions (at most ten) with 50 XP and 25 coins each |
| `Quiz.QuizSession.Close` | src/components/QuizModal.tsx:325-338 | closing restarts with ten fresh questions and all fields reset, and no settle timer remains |
| `Quiz.QuizSession.CloseAsWritten` | src/components/QuizModal.tsx:325-338 | closing resets every field and draws fresh questions, but a pending settle timer is kept |
| `Quiz.PlayFirstNine` | src/components/QuizModal.tsx:291-322 | answering the first nine questions correctly reaches the last question with a score of nine |
| `Quiz.PerfectQuiz` | src/components/QuizModal.tsx:316-320 | ten correct answers report a score of 10 with 500 XP and 250 coins |
| `Quiz.CancelAfterLastAnswerAsWritten` | src/components/QuizModal.tsx:309-338 | cancelling right after the last submit still reports the full reward |
| `Quiz.CancelAfterLastAnswer` | src/components/QuizModal.tsx:309-338 | with the timer cancelled on close, the same sequence reports nothing |
| `Insights.Divide` | src/components/FocusInsights.tsx:41-42 | a quotient is NaN exactly for 0/0, infinite for a positive number over 0, and otherwise exactly the fraction `num/den` |
| `Insights.SessionCountTier` | src/components/FocusInsights.tsx:45-69 | the top rung is five or more sessions, the bottom fewer than three |
| `Insights.SessionLengthTier` | src/components/FocusInsights.tsx:72-96 | the top rung is an average of at least 1800 s, the bottom below 900 s, with NaN failing both tests |
| `Insights.FocusTier` | src/components/FocusInsights.tsx:99-123 | the top rung is a score of 90 or more, the bottom below 70 |
| `Insights.StudyTimeTier` | src/components/FocusInsights.tsx:126-150 | the top rung is three hours or more, the bottom under one hour |
| `Insights.Kind` | src/components/FocusInsights.tsx:45-150 | top rungs are successes and bottom rungs warnings; the middle rung is informational except for the session count, where it warns |
| `Insights.TitlesDistinct` | src/components/FocusInsights.tsx:45-150 | the twelve titles are pairwise different, so a title identifies its ladder and rung |
| `Insights.AIInsights` | src/components/FocusInsights.tsx:39-153 | there are always exactly four insights |
| `Insights.GenerateAIInsights` | src/components/FocusInsights.tsx:39-153 | the pushes through the four ladders produce the session-count, session-length, focus and total-time insights, in that order |
| `Insights.CountAndTimeThresholds` | src/components/FocusInsights.tsx:45-150 | on the session-count ladder, the insight succeeds exactly from five sessions and reads "Good Progress" exactly for three or four; on the total-time ladder, it succeeds exactly from 10800 s (three hours) and warns exactly below 3600 s (one hour) |
| `Insights.DisplayedInsights` | src/components/FocusInsights.tsx:223 | the panel shows the first three insights, so no total-time title is ever shown |
| `Insights.TiersMonotone` | src/components/FocusInsights.tsx:45-150 | more sessions, more time or a higher score never lands on a lower rung |
| `Insights.EmptyDayInsights` | src/components/FocusInsights.tsx:41-150 | with no sessions yet, all four insights are the bottom-rung warnings, since NaN fails both length tests |
| `Insights.NoSessionsMeansShortSessions` | src/components/FocusInsights.tsx:72-96 | for statistics the page can hold, zero sessions always gives "Short Sessions" |
| `Insights.InfiniteAverageReadsOptimal` | src/components/FocusInsights.tsx:72-79 | a positive total over zero sessions would read as optimal session length |
| `Insights.SessionLengthThresholds` | src/components/FocusInsights.tsx:72-96 | with sessions recorded, the length insight succeeds exactly when the total reaches 1800 s per session and warns exactly below 900 s per session |
| `Insights.ScoreColor` | src/components/FocusInsights.tsx:26-30 | success, accent and warning colours exactly for the focus ladder's top, middle and bottom rungs |
| `Insights.ScoreBadgeVariant` | src/components/FocusInsights.tsx:32-36 | default, secondary and outline badges exactly for the focus ladder's top, middle and bottom rungs |
| `Insights.ColourBadgeInsightAgree` | src/components/FocusInsights.tsx:26-36 | the score colour, the badge and the focus insight always agree |
| `Insights.FormatTime` | src/components/FocusInsights.tsx:17-24 | the text ends in `m`, and has an hours part exactly from 3600 s |
| `Insights.FormatTimeRoundTrip` | src/components/FocusInsights.tsx:17-24 | reading the text back, with each part required to be a numeral without a leading zero, gives the parts `(s / 3600, (s % 3600) / 60)`, minutes below 60, which together are the duration truncated to whole minutes; with `Basics.CanonicalDigitsUnique` this pins each part's digits, so 300 s shows "5m" and never "05m" |
| `Insights.GoalPercent` | src/components/FocusInsights.tsx:211 | the goal percentage is at most 100, exactly 100 from 3582 s, and below that the nearest whole percent of an hour |
| `Insights.GoalPercentMonotone` | src/components/FocusInsights.tsx:211 | more focus time never shows a smaller percentage |
| `DashboardPage.Dashboard.constructor` | src/pages/Dashboard.tsx:20-43 | the page starts as the initial user, empty statistics and the cosmic background, and is valid |
| `DashboardPage.Dashboard.HandleSessionComplete` | src/pages/Dashboard.tsx:77-117 | the user is credited with the session's XP and coins, the session is folded in with its focus score, and the page invariant is kept |
| `DashboardPage.Dashboard.HandleQuizComplete` | src/pages/Dashboard.tsx:119-132 | the user is credited with the quiz's XP and coins, statistics and theme are unchanged, and the invariant is kept |
| `DashboardPage.Dashboard.HandlePurchase` | src/pages/Dashboard.tsx:134-141 | the price is deducted exactly when the balance covers it, nothing else changes, and the invariant is kept |
| `DashboardPage.Dashboard.HandleEquip` | src/pages/Dashboard.tsx:143-160 | an avatar sets the avatar, a theme the mapped background, and music nothing; the invariant is kept |
| `DashboardPage.BuyFromShop` | src/pages/Dashboard.tsx:291-295 | a purchase of a listed item charges exactly the price, exactly when affordable and not already owned, and leaves the item owned in the list; both invariants are kept |
| `DashboardPage.BuyTwice` | src/components/ShopSidebar.tsx:59-65 | buying the same listed item twice charges at most once: the second attempt is always refused |
| `DashboardPage.EquipFromShop` | src/pages/Dashboard.tsx:291-295 | equipping an owned item updates the shop and the page; a theme's colour scheme is dark exactly when the background is forest or ocean |
| `DashboardPage.SettleQuiz` | src/pages/Dashboard.tsx:313-317 | the oldest settle timer fires: a reward is reported exactly when it was scheduled on the last question, carrying its captured final score with 50 XP and 25 coins per point, and is credited to the page; otherwise the quiz advances or stays, and the page is unchanged; the quiz's new state is given in full |
| `DashboardPage.PerfectQuizOnFreshPage` | src/pages/Dashboard.tsx:119-126 | a perfect quiz on a fresh page leaves 500 XP, 2250 coins and level 1 |

## Left out

- Audio playback in the shop is left out: `initAudioContext`, `generateTone`, `playMusic` and `toggleMute` are Web Audio calls with floating-point frequencies and gains.
- The body-class rewriting and the `changeTheme` call are left out. `Equip` returns the colour scheme it would pass on.
- The light/dark scheme itself is not part of the page state. Its starting value comes from the theme hook, and the header button flips it without touching the background. After that flip the scheme and the background can disagree; the model only shows that equipping a theme picks the matching scheme.
- Ledger.ThemeName: looks ids up in a map, so any id outside the four themes gives cosmic. The source indexes a plain object, and an id naming an inherited member such as "constructor" would not fall back to cosmic; the shop only ever sends catalogue ids, none of which is such a name.
- All notifications (toasts) and their text are left out, including the quiz toast's "/5" for a ten-question quiz. So are the `console.log` call, `getBackgroundImage`, and all rendering and styling.
- Insight descriptions and tips are left out; an insight is modelled by its kind and title. This leaves out the `Math.round(avg / 60)` minutes shown in them.
- The quiz progress percentage and the goal progress bar's value are left out. Both are display-only floating-point values.
- Time is left out. The 1.5 s settle delay and the page's one-second loading timer are not modelled; a settle timer is modelled only by the order in which it fires.
- The quiz modal's `open` flag is left out. `Load` is the effect run while the modal is open, and `onOpenChange(false)` on close is not modelled.
- `Math.random` becomes an arbitrary choice. The shuffle may yield any order of the bank, and how uniform it is is not modelled. The random motivational quote is left out.
- Quiz.QuizSession.Submit: the handler itself has no "already answered" guard; the submit button is disabled while answered, and the model treats such a submit as doing nothing.
- Quiz.QuizSession.SelectAnswer: following the handler, any option index can be selected, with no range check. An out-of-range choice is scored as wrong.
- Insights.GoalPercent: computed with exact rational rounding. The JavaScript expression rounds the double `total / 3600 * 100`, which can fall just below an exact half and then round down instead of up. At 522 s, for example, the double is 14.499999999999998, shown as 14, while the exact 14.5 rounds to 15.
- Insights.SessionLengthTier: compares the exact average against the thresholds. The double quotient could only differ with more than about 10^12 sessions in a day.
- All numbers are unbounded naturals. JavaScript doubles lose integer precision above 2^53, and that is not modelled.
- React's batching of state updates is not modelled. Each handler runs to completion before the next one, and the balance the sidebar checks is the page's current balance.
- Team handlers (`handleCreateTeam`, `handleJoinTeam`) and the leaderboard, teams and create-team modals are not part of this model. Neither is the theme hook, which wraps an external library.
- The shop items' `image` field is not modelled.

## Findings

| source | as written | input that shows it | evidently intended | confidence | as-written member | corrected member |
|---|---|---|---|---|---|---|
| src/components/QuizModal.tsx:309-338 | `handleClose` resets the quiz but never cancels the settle timer scheduled by the last submit. When that timer fires it still advances the new quiz or, after the last question, shows a result and calls `onComplete` with the old score | answer all ten questions correctly and press Cancel Quiz within 1.5 s of submitting the last one: the page is still credited 500 XP and 250 coins | a cancelled quiz reports nothing; the timer is cleared on close | not executed; follows from the handlers as written | `Quiz.CancelAfterLastAnswerAsWritten` | `Quiz.CancelAfterLastAnswer` |
