/**
 * The tracker's state as a value, and one function per state-changing
 * operation of `CaffeineGoalTracker`. The class in module App is proved to
 * follow these functions; the lemmas here state what the operations promise.
 */
module Tracker {
  import opened Wrappers
  import opened Goal
  import opened Achievements

  /** A `toDateString()` value, such as "Thu Oct 15 2026"; never empty. */
  type Date = d: string | d != "" witness "Thu Oct 15 2026"

  /** One logged drink: `{ name, amount }`, amount in mg. */
  datatype Item = Item(name: string, amount: int)

  datatype State = State(
    goalType: GoalType,
    dailyLimit: int,
    streak: int,
    totalDays: int,
    goalSuccessDays: int,
    zeroCaffeineDays: int,
    longestStreak: int,
    achievements: seq<AchievementId>,
    lastUpdateDate: Option<Date>,
    todayCaffeine: int,
    todayCaffeineItems: seq<Item>,
    lastCaffeineDate: Option<Date>,
    totalCaffeineConsumed: int)

  /** The constructor's field values, which `resetData` restores. */
  function Defaults(): State {
    State(Quit, 0, 0, 0, 0, 0, 0, [], None, 0, [], None, 0)
  }

  function Sum(items: seq<Item>): int {
    if items == [] then 0 else Sum(items[..|items| - 1]) + items[|items| - 1].amount
  }

  predicate AmountsNonNegative(items: seq<Item>) {
    forall k :: 0 <= k < |items| ==> items[k].amount >= 0
  }

  /** The invariant every operation keeps. */
  predicate Inv(s: State) {
    && 0 <= s.streak <= s.longestStreak
    && 0 <= s.zeroCaffeineDays <= s.goalSuccessDays <= s.totalDays
    && (s.goalType == Quit ==> s.dailyLimit == 0)
    && AmountsNonNegative(s.todayCaffeineItems)
    && s.todayCaffeine == Sum(s.todayCaffeineItems)
    && s.todayCaffeine <= s.totalCaffeineConsumed
    && NoDuplicates(s.achievements)
  }

  predicate IsWithinGoal(s: State) {
    WithinGoal(s.goalType, s.dailyLimit, s.todayCaffeine)
  }

  // ---------------------------------------------------------------- checkAchievements

  function CheckAchievements(s: State): State {
    s.(achievements := s.achievements + NewlyUnlocked(Table, s.streak, s.achievements))
  }

  // ---------------------------------------------------------------- markGoalSuccess

  /** Which of its three messages `markGoalSuccess` shows. */
  datatype MarkOutcome = AlreadyLogged | GoalExceeded | Success(streak: int)

  function MarkOutcomeOf(s: State, today: Date): MarkOutcome {
    if s.lastUpdateDate == Some(today) then AlreadyLogged
    else if !IsWithinGoal(s) then GoalExceeded
    else Success(s.streak + 1)
  }

  /** The counter updates of a successful day, before the achievements are checked. */
  function CloseDay(s: State, today: Date): State {
    var streak := s.streak + 1;
    s.(
      streak := streak,
      totalDays := s.totalDays + 1,
      goalSuccessDays := s.goalSuccessDays + 1,
      zeroCaffeineDays := if s.todayCaffeine == 0 then s.zeroCaffeineDays + 1 else s.zeroCaffeineDays,
      lastUpdateDate := Some(today),
      todayCaffeine := 0,
      todayCaffeineItems := [],
      lastCaffeineDate := Some(today),
      longestStreak := if streak > s.longestStreak then streak else s.longestStreak)
  }

  function MarkGoalSuccess(s: State, today: Date): State {
    if MarkOutcomeOf(s, today).Success? then CheckAchievements(CloseDay(s, today)) else s
  }

  // ---------------------------------------------------------------- addCaffeine / removeCaffeineItem

  /** `addCaffeine`'s first half: the drink joins today's list and both totals. */
  function LogItem(s: State, today: Date, name: string, amount: int): State {
    s.(
      todayCaffeine := s.todayCaffeine + amount,
      todayCaffeineItems := s.todayCaffeineItems + [Item(name, amount)],
      lastCaffeineDate := Some(today),
      totalCaffeineConsumed := s.totalCaffeineConsumed + amount)
  }

  function AddCaffeine(s: State, today: Date, name: string, amount: int): State {
    var logged := LogItem(s, today, name, amount);
    if !IsWithinGoal(logged) then
      logged.(streak := 0, totalDays := logged.totalDays + 1, lastUpdateDate := Some(today))
    else
      logged
  }

  function RemoveCaffeineItem(s: State, index: nat): State
    requires index < |s.todayCaffeineItems|
  {
    var item := s.todayCaffeineItems[index];
    s.(
      todayCaffeine := s.todayCaffeine - item.amount,
      totalCaffeineConsumed := s.totalCaffeineConsumed - item.amount,
      todayCaffeineItems := s.todayCaffeineItems[..index] + s.todayCaffeineItems[index + 1..])
  }

  // ---------------------------------------------------------------- saveGoalSettings

  function SaveGoalSettings(s: State, newType: GoalType, parsedLimit: Option<int>): State {
    s.(goalType := newType, dailyLimit := NewDailyLimit(newType, parsedLimit))
  }

  predicate GoalChangedBy(s: State, newType: GoalType, parsedLimit: Option<int>) {
    GoalChanged(s.goalType, s.dailyLimit, newType, NewDailyLimit(newType, parsedLimit))
  }

  // ---------------------------------------------------------------- loadData's new-day reset

  /** Today's intake is dropped when it was last recorded on another day. */
  function Rollover(s: State, today: Date): State {
    if s.lastCaffeineDate != Some(today) then s.(todayCaffeine := 0, todayCaffeineItems := []) else s
  }

  // ================================================================ lemmas: sums

  lemma {:induction false} SumNonNegative(items: seq<Item>)
    requires AmountsNonNegative(items)
    ensures Sum(items) >= 0
  {
    if items != [] {
      SumNonNegative(items[..|items| - 1]);
    }
  }

  /** Appending an item adds exactly its amount to the sum. */
  lemma SumAppend(items: seq<Item>, x: Item)
    ensures Sum(items + [x]) == Sum(items) + x.amount
  {
    assert (items + [x])[..|items|] == items;
  }

  /** Removing one item takes exactly its amount off the sum. */
  lemma {:induction false} SumRemove(items: seq<Item>, index: nat)
    requires index < |items|
    ensures Sum(items[..index] + items[index + 1..]) == Sum(items) - items[index].amount
  {
    var n := |items| - 1;
    if index == n {
      assert items[..index] + items[index + 1..] == items[..n];
    } else {
      var init := items[..n];
      var r := items[..index] + items[index + 1..];
      assert r[..|r| - 1] == init[..index] + init[index + 1..];
      assert r[|r| - 1] == items[n];
      SumRemove(init, index);
    }
  }

  // ================================================================ lemmas: checkAchievements

  /** Afterwards every table entry the streak has reached is held, and nothing held was lost. */
  lemma CheckAchievementsUnlocksReached(s: State)
    ensures s.achievements <= CheckAchievements(s).achievements
    ensures forall k :: 0 <= k < |Table| && s.streak >= Table[k].days ==>
      Table[k].id in CheckAchievements(s).achievements
    ensures CheckAchievements(s) == s.(achievements := CheckAchievements(s).achievements)
  {
    forall k | 0 <= k < |Table| && s.streak >= Table[k].days
      ensures Table[k].id in CheckAchievements(s).achievements
    {
      NewlyUnlockedCovers(Table, s.streak, s.achievements, k);
    }
  }

  /** A second check with the same streak unlocks nothing. */
  lemma CheckAchievementsIdempotent(s: State)
    ensures CheckAchievements(CheckAchievements(s)) == CheckAchievements(s)
  {
    var t := CheckAchievements(s);
    CheckAchievementsUnlocksReached(s);
    NewlyUnlockedNoneWhenCovered(Table, t.streak, t.achievements);
    assert t.achievements + [] == t.achievements;
  }

  /** Ids unlocked by one check are appended in ascending order of their day thresholds. */
  lemma CheckAchievementsInThresholdOrder(s: State, a: nat, b: nat, ka: nat, kb: nat)
    requires a < b < |NewlyUnlocked(Table, s.streak, s.achievements)| && ka < |Table| && kb < |Table|
    requires Table[ka].id == NewlyUnlocked(Table, s.streak, s.achievements)[a]
    requires Table[kb].id == NewlyUnlocked(Table, s.streak, s.achievements)[b]
    ensures Table[ka].days < Table[kb].days
  {
    TableIsWellFormed();
    NewlyUnlockedInTableOrder(Table, s.streak, s.achievements, a, b, ka, kb);
  }

  lemma CheckAchievementsPreservesInv(s: State)
    requires Inv(s)
    ensures Inv(CheckAchievements(s))
  {
    TableIsWellFormed();
    NewlyUnlockedNoDuplicates(Table, s.streak, s.achievements);
  }

  // ================================================================ lemmas: markGoalSuccess

  /** A second call on the same day is refused and changes nothing. */
  lemma MarkGoalSuccessAlreadyLogged(s: State, today: Date)
    requires s.lastUpdateDate == Some(today)
    ensures MarkOutcomeOf(s, today) == AlreadyLogged
    ensures MarkGoalSuccess(s, today) == s
  {
  }

  /** While today's intake breaks the goal the call is refused and changes nothing. */
  lemma MarkGoalSuccessGoalNotMet(s: State, today: Date)
    requires s.lastUpdateDate != Some(today)
    requires s.goalType == Quit ==> s.todayCaffeine != 0
    requires s.goalType == Reduction ==> s.todayCaffeine > s.dailyLimit
    ensures MarkOutcomeOf(s, today) == GoalExceeded
    ensures MarkGoalSuccess(s, today) == s
  {
  }

  /** Under the invariant, the day closes as a success exactly when it is open and intake is within the limit. */
  lemma MarkGoalSuccessSucceedsIff(s: State, today: Date)
    requires Inv(s)
    ensures MarkOutcomeOf(s, today).Success? <==>
      s.lastUpdateDate != Some(today) && s.todayCaffeine <= s.dailyLimit
  {
    SumNonNegative(s.todayCaffeineItems);
    WithinGoalIsUnderLimit(s.goalType, s.dailyLimit, s.todayCaffeine);
  }

  /** What a successful close of the day changes. */
  lemma MarkGoalSuccessEffect(s: State, today: Date)
    requires MarkOutcomeOf(s, today).Success?
    ensures var t := MarkGoalSuccess(s, today);
      && MarkOutcomeOf(s, today) == Success(t.streak)
      && t.streak == s.streak + 1
      && t.totalDays == s.totalDays + 1
      && t.goalSuccessDays == s.goalSuccessDays + 1
      && (s.todayCaffeine == 0 ==> t.zeroCaffeineDays == s.zeroCaffeineDays + 1)
      && (s.todayCaffeine != 0 ==> t.zeroCaffeineDays == s.zeroCaffeineDays)
      && t.lastUpdateDate == Some(today) && t.lastCaffeineDate == Some(today)
      && t.todayCaffeine == 0 && t.todayCaffeineItems == []
      && t.longestStreak >= s.longestStreak && t.longestStreak >= t.streak
      && (t.longestStreak == s.longestStreak || t.longestStreak == t.streak)
      && t.goalType == s.goalType && t.dailyLimit == s.dailyLimit
      && t.totalCaffeineConsumed == s.totalCaffeineConsumed
      && s.achievements <= t.achievements
      && forall k :: 0 <= k < |Table| && t.streak >= Table[k].days ==> Table[k].id in t.achievements
  {
    var closed := CloseDay(s, today);
    CheckAchievementsUnlocksReached(closed);
  }

  /** Calling it again on the same day changes nothing, whatever the first call did. */
  lemma MarkGoalSuccessIdempotent(s: State, today: Date)
    ensures var t := MarkGoalSuccess(s, today);
      && MarkGoalSuccess(t, today) == t
      && !MarkOutcomeOf(t, today).Success?
  {
  }

  lemma MarkGoalSuccessPreservesInv(s: State, today: Date)
    requires Inv(s)
    ensures Inv(MarkGoalSuccess(s, today))
  {
    if MarkOutcomeOf(s, today).Success? {
      SumNonNegative(s.todayCaffeineItems);
      var closed := CloseDay(s, today);
      assert Inv(closed);
      CheckAchievementsPreservesInv(closed);
    }
  }

  // ================================================================ lemmas: addCaffeine / removeCaffeineItem

  /** Intake is logged at the end of today's list; going over the goal ends the streak and logs the day. */
  lemma AddCaffeineEffect(s: State, today: Date, name: string, amount: int)
    ensures var t := AddCaffeine(s, today, name, amount);
      && t.todayCaffeine == s.todayCaffeine + amount
      && t.totalCaffeineConsumed == s.totalCaffeineConsumed + amount
      && t.todayCaffeineItems == s.todayCaffeineItems + [Item(name, amount)]
      && t.lastCaffeineDate == Some(today)
      && (!IsWithinGoal(t) ==>
            t.streak == 0 && t.totalDays == s.totalDays + 1 && t.lastUpdateDate == Some(today))
      && (IsWithinGoal(t) ==>
            t.streak == s.streak && t.totalDays == s.totalDays && t.lastUpdateDate == s.lastUpdateDate)
      && t.goalType == s.goalType && t.dailyLimit == s.dailyLimit
      && t.goalSuccessDays == s.goalSuccessDays && t.zeroCaffeineDays == s.zeroCaffeineDays
      && t.longestStreak == s.longestStreak && t.achievements == s.achievements
  {
  }

  /**
   * Over-goal intake is not gated by the once-per-day rule: on a day that is
   * already logged, it resets the streak and counts the day once more.
   */
  lemma AddCaffeineRecountsLoggedDay(s: State, today: Date, name: string, amount: int)
    requires s.lastUpdateDate == Some(today)
    requires !IsWithinGoal(AddCaffeine(s, today, name, amount))
    ensures AddCaffeine(s, today, name, amount).totalDays == s.totalDays + 1
    ensures AddCaffeine(s, today, name, amount).streak == 0
  {
  }

  lemma AddCaffeinePreservesInv(s: State, today: Date, name: string, amount: int)
    requires Inv(s) && amount >= 0
    ensures Inv(AddCaffeine(s, today, name, amount))
  {
    var logged := LogItem(s, today, name, amount);
    SumAppend(s.todayCaffeineItems, Item(name, amount));
    assert AmountsNonNegative(logged.todayCaffeineItems);
    assert logged.todayCaffeine == Sum(logged.todayCaffeineItems);
    assert Inv(logged);
  }

  /** Exactly item `index` goes, the others keep their order, and its amount leaves both totals. */
  lemma RemoveCaffeineItemEffect(s: State, index: nat)
    requires index < |s.todayCaffeineItems|
    ensures var t := RemoveCaffeineItem(s, index);
      && |t.todayCaffeineItems| == |s.todayCaffeineItems| - 1
      && (forall k :: 0 <= k < index ==> t.todayCaffeineItems[k] == s.todayCaffeineItems[k])
      && (forall k :: index <= k < |t.todayCaffeineItems| ==> t.todayCaffeineItems[k] == s.todayCaffeineItems[k + 1])
      && t.todayCaffeine == s.todayCaffeine - s.todayCaffeineItems[index].amount
      && t.totalCaffeineConsumed == s.totalCaffeineConsumed - s.todayCaffeineItems[index].amount
      && t == s.(todayCaffeine := t.todayCaffeine, todayCaffeineItems := t.todayCaffeineItems,
                 totalCaffeineConsumed := t.totalCaffeineConsumed)
  {
  }

  lemma RemoveCaffeineItemPreservesInv(s: State, index: nat)
    requires Inv(s) && index < |s.todayCaffeineItems|
    ensures Inv(RemoveCaffeineItem(s, index))
  {
    SumRemove(s.todayCaffeineItems, index);
  }

  /**
   * Removing the item just added restores today's intake, the list and the
   * lifetime total, but not a streak the addition reset.
   */
  lemma RemoveUndoesAddCaffeine(s: State, today: Date, name: string, amount: int)
    ensures var t := AddCaffeine(s, today, name, amount);
      var u := RemoveCaffeineItem(t, |s.todayCaffeineItems|);
      && u.todayCaffeine == s.todayCaffeine
      && u.todayCaffeineItems == s.todayCaffeineItems
      && u.totalCaffeineConsumed == s.totalCaffeineConsumed
      && u.streak == t.streak && u.totalDays == t.totalDays
  {
    var t := AddCaffeine(s, today, name, amount);
    assert t.todayCaffeineItems[..|s.todayCaffeineItems|] == s.todayCaffeineItems;
  }

  // ================================================================ lemmas: saveGoalSettings

  /** Only the goal changes; the quit goal carries limit 0; the streak and every counter stay. */
  lemma SaveGoalSettingsEffect(s: State, newType: GoalType, parsedLimit: Option<int>)
    ensures var t := SaveGoalSettings(s, newType, parsedLimit);
      && t.goalType == newType
      && (newType == Quit <==> t.dailyLimit == 0)
      && t == s.(goalType := t.goalType, dailyLimit := t.dailyLimit)
      && (Inv(s) ==> Inv(t))
      && (Inv(s) ==> (GoalChangedBy(s, newType, parsedLimit) <==>
                        (s.goalType, s.dailyLimit) != (t.goalType, t.dailyLimit)))
  {
    if Inv(s) {
      GoalChangedIffSettingsDiffer(s.goalType, s.dailyLimit, newType, parsedLimit);
    }
  }

  /** Saving the same settings twice announces no change the second time. */
  lemma SaveGoalSettingsTwice(s: State, newType: GoalType, parsedLimit: Option<int>)
    ensures !GoalChangedBy(SaveGoalSettings(s, newType, parsedLimit), newType, parsedLimit)
  {
  }

  // ================================================================ lemmas: defaults and rollover

  lemma DefaultsSatisfyInv()
    ensures Inv(Defaults())
  {
  }

  lemma RolloverPreservesInv(s: State, today: Date)
    requires Inv(s)
    ensures Inv(Rollover(s, today))
  {
    SumNonNegative(s.todayCaffeineItems);
  }

  // ================================================================ achievements only grow

  /** No operation but a reset or a load ever drops or reorders an unlocked achievement. */
  lemma AchievementsOnlyGrow(s: State, today: Date, name: string, amount: int, index: nat,
                             newType: GoalType, parsedLimit: Option<int>)
    ensures s.achievements <= MarkGoalSuccess(s, today).achievements
    ensures s.achievements <= AddCaffeine(s, today, name, amount).achievements
    ensures index < |s.todayCaffeineItems| ==> s.achievements <= RemoveCaffeineItem(s, index).achievements
    ensures s.achievements <= SaveGoalSettings(s, newType, parsedLimit).achievements
    ensures s.achievements <= CheckAchievements(s).achievements
  {
  }
}
