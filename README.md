# ClearCup caffeine goal tracker — a Dafny model

ClearCup is a browser app for cutting down on caffeine. The user picks one of two goals:

- **quit**: no caffeine at all;
- **reduction**: at most a daily limit in mg.

The user logs drinks through the day and closes each day with "I met my goal today". The logic behind this lives in the class `CaffeineGoalTracker` in `index.js`. It keeps thirteen fields:

- goal: type and daily limit;
- streak and day counters: streak, total days, successful days, zero-caffeine days, longest streak;
- unlocked achievements;
- the day's log: today's intake, today's items, and the last logged date;
- the lifetime intake total.

Every change is written to a single browser storage slot, which is read back at start-up.

## The model has two layers

- **Specification layer.** One pure function per operation over a `State` value (module `Tracker`), plus the lemmas that say what each operation promises.
- **Implementation layer.** The class `App.CaffeineGoalTracker` has the same thirteen fields, and its methods update them step by step, as the JavaScript does. Each method is proved to move `Snapshot()` (its fields as a `State`) exactly as the matching `Tracker` function says. Each method also keeps `Valid()`, the invariant `Tracker.Inv`.

The storage slot is the field `storage: Option<Blob>`. `saveData` overwrites it, and `resetData` clears it.

## Modules

- `wrappers.dfy`: `Option` and `Result`.
- `text.dfy`: `String.prototype.trim`, which strips ECMAScript whitespace and line terminators from both ends.
- `goal.dfy`: the goal test `isWithinGoal`, and the default limit and change detection used by `saveGoalSettings`.
- `achievements.dfy`:
  - the six-entry threshold table;
  - `NewlyUnlocked`, the ids that the unlock loop of `checkAchievements` appends.
- `custom_entry.dfy`: the input guard of `addCustomCaffeine`.
- `tracker.dfy`: the state, its invariant, and one function per operation, with the lemmas about them.
- `storage.dfy`:
  - the stored record (`Blob`, one optional field per state field);
  - `saveData` as `Save`;
  - `loadData`'s per-field fallback (`|| 0`, `|| []`, `|| null`, `|| 'quit'`) as `Restore`;
  - the new-day reset as `Rollover`.
- `app.dfy`: the class with its methods.
- `scenarios.dfy`: worked days, stated for every calendar day.

## Inputs that become parameters

- **The wall clock.** `new Date().toDateString()` is the parameter `today: Date`, a non-empty string.
- **Form input.** The value `parseInt` reads from the goal and custom-entry forms is `Option<int>`, with `None` for `NaN`. The chosen goal type is a `GoalType`.

## Where the model follows the code

- `addCaffeine` checks the goal after every drink. Each over-goal drink sets the streak to 0 and adds one to `totalDays`, even on a day that is already logged (`Tracker.AddCaffeineRecountsLoggedDay`).
- `removeCaffeineItem` reads the item without a bounds check, so the index must be in range. This is the method's precondition.
- Removing a drink does not give back a streak that the drink reset (`Tracker.RemoveUndoesAddCaffeine`).
- `addCustomCaffeine` rejects an amount of 0, because `!caffeine` is true for 0, although its message says 0-1000 mg. Accepted amounts are therefore 1..1000.
- The new-day reset of today's intake happens only when stored data is loaded.

## Model

| member | source | states |
|---|---|---|
| Text.TrimStart | index.js:458 | the result is the suffix of the input left after a blank prefix, and does not start with whitespace |
| Text.TrimEnd | index.js:458 | the result is the prefix of the input left before a blank suffix, and does not end with whitespace |
| Text.Trim | index.js:458 | the trimmed name is the slice of the raw name between a blank prefix and a blank suffix; it is empty exactly when the raw name is all whitespace, and otherwise starts and ends with a non-blank |
| Goal.WithinGoalIsUnderLimit | index.js:415-421 | when a quit goal carries limit 0 and intake is non-negative, both goal types mean "intake at most the daily limit" |
| Goal.NewDailyLimit | index.js:328 | the stored limit is 0 exactly for a quit goal; for a reduction goal it is the entered non-zero number, and otherwise 100 |
| Goal.GoalChangedIffSettingsDiffer | index.js:331-332 | the "goal updated" test holds exactly when the (type, limit) pair changes, given a quit goal always has limit 0 |
| Achievements.TableIsWellFormed | index.js:38-45 | the achievement table has distinct ids and strictly ascending day thresholds |
| Achievements.NewlyUnlocked | index.js:646-651 | the unlock loop appends at most one id per table entry, never an id already held, and only ids of entries the streak has reached |
| Achievements.NewlyUnlockedCovers | index.js:646-651 | after the loop, every entry whose threshold the streak has reached is held |
| Achievements.NewlyUnlockedNoneWhenCovered | index.js:647 | the loop appends nothing when every reached entry is already held |
| Achievements.NewlyUnlockedNoDuplicates | index.js:647-649 | with distinct table ids, the loop adds no duplicate to a duplicate-free list |
| Achievements.NewlyUnlockedBefore | index.js:647 | an entry's id is never among those pushed by the entries before it, so the `includes` test sees only the ids held at the start |
| Achievements.NewlyUnlockedStep | index.js:646-650 | one loop step, whose `includes` looks at the list grown so far, pushes entry i exactly when the streak has reached it and its id is not in that list; for distinct ids, "not in the grown list" is the same as "not held at the start" |
| Achievements.NewlyUnlockedInTableOrder | index.js:646-650 | the `forEach` appends in table order: of two appended ids, the earlier one belongs to the earlier table entry |
| CustomEntry.ValidateCustomEntry | index.js:457-469 | a blank name is rejected first; an entry is accepted exactly when the name is not blank and the amount is a number in 1..1000; an accepted entry carries the trimmed name and that amount |
| Tracker.SumNonNegative | index.js:479-480 | a list of non-negative amounts sums to a non-negative total |
| Tracker.SumAppend | index.js:479-480 | pushing an item adds exactly its amount to the list's sum, matching the `+=` on today's intake |
| Tracker.SumRemove | index.js:510-513 | removing one item takes exactly its amount off the list's sum |
| Tracker.CheckAchievementsUnlocksReached | index.js:646-651 | afterwards every reached threshold is held, the old list is a prefix of the new one, and nothing else changes |
| Tracker.CheckAchievementsIdempotent | index.js:646-651 | a second check with the same streak changes nothing |
| Tracker.CheckAchievementsInThresholdOrder | index.js:646-650 | ids unlocked by one check are appended in ascending order of their day thresholds |
| Tracker.CheckAchievementsPreservesInv | index.js:646-651 | the check keeps the invariant, including the duplicate-free achievement list |
| Tracker.MarkGoalSuccessAlreadyLogged | index.js:371-374 | on a day already logged the outcome is AlreadyLogged and the state is unchanged |
| Tracker.MarkGoalSuccessGoalNotMet | index.js:377-380 | when today's intake breaks the goal, the outcome is GoalExceeded and the state is unchanged |
| Tracker.MarkGoalSuccessSucceedsIff | index.js:371-380 | under the invariant, the day closes as a success exactly when it is not logged yet and intake is at most the limit |
| Tracker.MarkGoalSuccessEffect | index.js:382-400 | on success: streak, totalDays and goalSuccessDays rise by 1; zeroCaffeineDays rises exactly when intake was 0; both dates become today; today's intake and items are cleared; longestStreak becomes the larger of the old value and the new streak; goal and lifetime total stay; achievements only grow; every reached threshold is held; the outcome carries the new streak |
| Tracker.MarkGoalSuccessIdempotent | index.js:371-374 | a second call on the same day changes nothing and does not succeed |
| Tracker.MarkGoalSuccessPreservesInv | index.js:382-400 | the invariant survives a call |
| Tracker.AddCaffeineEffect | index.js:479-488 | the amount joins today's intake and the lifetime total, the item is appended last, and the last logged date becomes today; over the goal, the streak becomes 0, totalDays rises by 1 and the day is logged; within the goal, those three stay; every other field stays |
| Tracker.AddCaffeineRecountsLoggedDay | index.js:485-488 | over-goal intake on a day already logged still counts the day again |
| Tracker.AddCaffeinePreservesInv | index.js:479-488 | a non-negative amount keeps the invariant, including intake == sum of the items |
| Tracker.RemoveCaffeineItemEffect | index.js:510-513 | exactly item i goes, the others keep their order, its amount leaves both totals, and nothing else changes |
| Tracker.RemoveCaffeineItemPreservesInv | index.js:510-513 | removal keeps the invariant |
| Tracker.RemoveUndoesAddCaffeine | index.js:479-513 | removing the item just added restores today's intake, the list and the lifetime total, but not a reset streak or the counted day |
| Tracker.SaveGoalSettingsEffect | index.js:328-335 | only the goal changes; quit carries limit 0; the invariant is kept; the announcement fires exactly when the settings differ |
| Tracker.SaveGoalSettingsTwice | index.js:331-335 | saving the same settings again announces no change |
| Tracker.DefaultsSatisfyInv | index.js:5-21 | the constructor's defaults satisfy the invariant |
| Tracker.RolloverPreservesInv | index.js:180-183 | the new-day reset keeps the invariant |
| Tracker.AchievementsOnlyGrow | index.js:646-651 | closing a day, adding or removing a drink, changing the goal and checking achievements never drop an achievement or reorder the held ones |
| Storage.NumberOrZero | index.js:165-176 | a stored number loads as itself, including 0, and a missing one as 0 |
| Storage.DateOrNull | index.js:172-175 | a stored date loads as itself unless it is missing or the empty string, which load as null |
| Storage.LoadEmptyBlobGivesDefaults | index.js:160-176 | a record with every field missing loads as the constructor's defaults |
| Storage.RestoreIsFieldwise | index.js:164-176 | each of the thirteen fields falls back on its own: a missing stored field (or an empty date string) changes only that loaded field, to its default |
| Storage.LoadSaveRoundTrip | index.js:160-204 | a state saved and loaded on the same day as its last logged drink comes back field for field |
| Storage.LoadSaveOnNewDay | index.js:178-183 | loaded on another day, only today's intake and items are cleared; the streak and lastUpdateDate stay as loaded |
| Storage.LoadPreservesInv | index.js:160-184 | a record whose fields satisfy the invariant loads into a state that does |
| Storage.LoadOfSavedStateKeepsInv | index.js:160-204 | whatever the tracker saves loads again with the invariant intact |
| App.CaffeineGoalTracker.constructor | index.js:3-48 | the state is the defaults, or the loaded record, followed by an achievement check; the slot then holds the saved state; the invariant holds when the stored record satisfies it |
| App.CaffeineGoalTracker.LoadData | index.js:160-184 | with an empty slot nothing changes; otherwise the state becomes the loaded record, rolled over to today |
| App.CaffeineGoalTracker.RestoreFields | index.js:164-176 | the fields become the record's values with their fallbacks |
| App.CaffeineGoalTracker.RestoreGoalSettings | index.js:164-165 | goal type and limit become the record's values with their fallbacks; nothing else changes |
| App.CaffeineGoalTracker.RestoreTrackingData | index.js:166-172 | the five counters, the achievements and lastUpdateDate become the record's values with their fallbacks; nothing else changes |
| App.CaffeineGoalTracker.RestoreDailyTracking | index.js:173-176 | today's intake and items, the last logged date and the lifetime total become the record's values with their fallbacks |
| App.CaffeineGoalTracker.SaveData | index.js:187-204 | the slot holds the record of every current field |
| App.CaffeineGoalTracker.SaveGoalSettings | index.js:326-346 | the goal is set as `Tracker.SaveGoalSettings` says, the change flag is `GoalChangedBy`, the state is saved, and the invariant is kept |
| App.CaffeineGoalTracker.MarkGoalSuccess | index.js:368-402 | the outcome and the new state are those of `Tracker.MarkGoalSuccess`; a success is saved; the invariant is kept |
| App.CaffeineGoalTracker.CountSuccessfulDay | index.js:382-389 | streak, totalDays and goalSuccessDays rise by 1, and zeroCaffeineDays rises when intake is 0 |
| App.CaffeineGoalTracker.StartNextDay | index.js:391-396 | the day is logged as today, and today's intake and items are cleared |
| App.CaffeineGoalTracker.AddCustomCaffeine | index.js:457-472 | a rejected entry changes nothing; an accepted one is added as `Tracker.AddCaffeine` says under its trimmed name; the invariant is kept |
| App.CaffeineGoalTracker.AddCaffeine | index.js:475-504 | the new state is `Tracker.AddCaffeine` of the old one and is saved; a non-negative amount keeps the invariant |
| App.CaffeineGoalTracker.LogItem | index.js:479-482 | the drink joins today's list and both totals, and the last logged date becomes today |
| App.CaffeineGoalTracker.BreakStreak | index.js:485-488 | the streak becomes 0, totalDays rises by 1, and the day is logged |
| App.CaffeineGoalTracker.RemoveCaffeineItem | index.js:509-515 | for an index in range, the new state is `Tracker.RemoveCaffeineItem` of the old one and is saved; the invariant is kept |
| App.CaffeineGoalTracker.CheckAchievements | index.js:645-661 | the loop over the table leaves the state at `Tracker.CheckAchievements` of the old one, which is then saved; the invariant is kept |
| App.CaffeineGoalTracker.ResetData | index.js:702-717 | the state is exactly the constructor's defaults, the slot is empty, and the invariant holds |
| Scenarios.FirstQuitDay | index.js:382-400 | a fresh tracker with a quit goal closes its first day with streak 1, one counted, successful and zero-caffeine day, and only "first-day" unlocked |
| Scenarios.ReductionDayMet | index.js:377-396 | 50 mg against a 100 mg reduction goal still closes the day as a success with streak 1 and clears the day's log |
| Scenarios.ReductionDayMissed | index.js:485-488 | 150 mg against a 100 mg goal ends the day at once: streak 0, one counted day, logged today; marking it afterwards is refused and changes nothing |
| Scenarios.SeventhDayUnlocksOneWeek | index.js:646-651 | the seventh successful day in a row unlocks "one-week" |
| Scenarios.ZeroCaffeineDrink | index.js:479-480 | a 0 mg drink is listed but leaves today's intake unchanged |

## Left out

- Rendering and UI: the DOM, event binding, modals, `showMessage`, the `confirm` dialog of `confirmReset`, and keyboard shortcuts. They are presentation and change no tracker state. A method's outcome value stands for the message it would show.
- Animations, particles, emojis and the celebration effect. They depend on timers and `Math.random`.
- `unlockAchievement`. It only schedules a message and an effect on a timer.
- Progress percentages, averages and success rates. These are floating point with `Math.round`.
- `updateDailyTip`, which is cosmetic.
- `init`'s calls to the display updates.
- `selectCaffeineProduct`: only its call to `addCaffeine` with the product's amount is modelled, as `AddCaffeine` with that amount. The product catalogue comes from the page's markup, which is not part of this model.
- `localStorage` and the JSON text format. The stored record is a value with one optional field per state field. A `JSON.parse` failure on a corrupted slot is not modelled.
- Stored values the JavaScript would also accept but that do not fit the field's type are not modelled:
  - a goal type other than 'quit' or 'reduction';
  - a non-integer number;
  - a list where a number is expected.
- The wall clock, `Date` and `toDateString`. The date is a parameter.
- `parseInt` and reading form fields. Their result is a parameter of type `Option<int>`.
- `App.CaffeineGoalTracker.AddCaffeine`: keeps the invariant only for non-negative amounts. Amounts from the product list and the custom form are never negative, but the method itself accepts any integer.
- `App.CaffeineGoalTracker.constructor`: ensures the invariant only when the stored record satisfies it. `loadData` trusts the stored values and does not check them.
- JavaScript numbers are unbounded integers here. No counter comes near 2^53.
