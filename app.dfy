/**
 * `CaffeineGoalTracker` as an object whose methods update its fields step by
 * step, as index.js does. Each method is proved to take the state to the
 * matching function of module Tracker, and `storage` stands for the
 * persistence slot that `saveData` overwrites after each change.
 */
module App {
  import opened Wrappers
  import opened Goal
  import opened Achievements
  import opened CustomEntry
  import opened Tracker
  import opened Storage

  class CaffeineGoalTracker {
    var goalType: GoalType
    var dailyLimit: int
    var streak: int
    var totalDays: int
    var goalSuccessDays: int
    var zeroCaffeineDays: int
    var longestStreak: int
    var achievements: seq<AchievementId>
    var lastUpdateDate: Option<Date>
    var todayCaffeine: int
    var todayCaffeineItems: seq<Item>
    var lastCaffeineDate: Option<Date>
    var totalCaffeineConsumed: int

    /** The record under the storage key, `None` when nothing is stored. */
    var storage: Option<Blob>

    function Snapshot(): State
      reads this
    {
      State(goalType, dailyLimit, streak, totalDays, goalSuccessDays, zeroCaffeineDays,
            longestStreak, achievements, lastUpdateDate, todayCaffeine, todayCaffeineItems,
            lastCaffeineDate, totalCaffeineConsumed)
    }

    predicate Valid()
      reads this
    {
      Inv(Snapshot())
    }

    /** Field defaults, then `init`'s state part: `loadData` and `checkAchievements`. */
    constructor (stored: Option<Blob>, today: Date)
      ensures Snapshot() == Tracker.CheckAchievements(if stored.Some? then Load(stored.value, today) else Defaults())
      ensures storage == Some(Save(Snapshot()))
      ensures stored.None? || Inv(Restore(stored.value)) ==> Valid()
    {
      goalType := Quit;
      dailyLimit := 0;
      streak := 0;
      totalDays := 0;
      goalSuccessDays := 0;
      zeroCaffeineDays := 0;
      longestStreak := 0;
      achievements := [];
      lastUpdateDate := None;
      todayCaffeine := 0;
      todayCaffeineItems := [];
      lastCaffeineDate := None;
      totalCaffeineConsumed := 0;
      storage := stored;
      new;
      DefaultsSatisfyInv();
      LoadData(today);
      if stored.Some? && Inv(Restore(stored.value)) {
        LoadPreservesInv(stored.value, today);
      }
      CheckAchievements();
    }

    /** `loadData`: nothing happens when the slot is empty. */
    method LoadData(today: Date)
      modifies this
      ensures storage == old(storage)
      ensures Snapshot() == if old(storage).Some? then Load(old(storage).value, today) else old(Snapshot())
    {
      if storage.Some? {
        RestoreFields(storage.value);

        // a log last written on another day does not carry over
        if lastCaffeineDate != Some(today) {
          todayCaffeine := 0;
          todayCaffeineItems := [];
        }
      }
    }

    /** `loadData`'s field-by-field defaulting of a stored record, in the constructor's three groups. */
    method RestoreFields(data: Blob)
      modifies this
      ensures Snapshot() == Restore(data)
      ensures storage == old(storage)
    {
      RestoreGoalSettings(data);
      RestoreTrackingData(data);
      RestoreDailyTracking(data);
    }

    method RestoreGoalSettings(data: Blob)
      modifies this`goalType, this`dailyLimit
      ensures Snapshot() == old(Snapshot()).(goalType := Restore(data).goalType, dailyLimit := Restore(data).dailyLimit)
    {
      goalType := GoalTypeOrQuit(data.goalType);
      dailyLimit := NumberOrZero(data.dailyLimit);
    }

    method RestoreTrackingData(data: Blob)
      modifies this`streak, this`totalDays, this`goalSuccessDays, this`zeroCaffeineDays, this`longestStreak, this`achievements, this`lastUpdateDate
      ensures var r := Restore(data);
        Snapshot() == old(Snapshot()).(
          streak := r.streak, totalDays := r.totalDays, goalSuccessDays := r.goalSuccessDays,
          zeroCaffeineDays := r.zeroCaffeineDays, longestStreak := r.longestStreak,
          achievements := r.achievements, lastUpdateDate := r.lastUpdateDate)
    {
      streak := NumberOrZero(data.streak);
      totalDays := NumberOrZero(data.totalDays);
      goalSuccessDays := NumberOrZero(data.goalSuccessDays);
      zeroCaffeineDays := NumberOrZero(data.zeroCaffeineDays);
      longestStreak := NumberOrZero(data.longestStreak);
      achievements := ListOrEmpty(data.achievements);
      lastUpdateDate := DateOrNull(data.lastUpdateDate);
    }

    method RestoreDailyTracking(data: Blob)
      modifies this`todayCaffeine, this`todayCaffeineItems, this`lastCaffeineDate, this`totalCaffeineConsumed
      ensures Snapshot() == old(Snapshot()).(
        todayCaffeine := Restore(data).todayCaffeine, todayCaffeineItems := Restore(data).todayCaffeineItems,
        lastCaffeineDate := Restore(data).lastCaffeineDate,
        totalCaffeineConsumed := Restore(data).totalCaffeineConsumed)
    {
      todayCaffeine := NumberOrZero(data.todayCaffeine);
      todayCaffeineItems := ListOrEmpty(data.todayCaffeineItems);
      lastCaffeineDate := DateOrNull(data.lastCaffeineDate);
      totalCaffeineConsumed := NumberOrZero(data.totalCaffeineConsumed);
    }

    method SaveData()
      modifies this`storage
      ensures storage == Some(Save(Snapshot()))
    {
      storage := Some(Blob(Some(goalType), Some(dailyLimit), Some(streak), Some(totalDays),
                           Some(goalSuccessDays), Some(zeroCaffeineDays), Some(longestStreak),
                           Some(achievements), lastUpdateDate, Some(todayCaffeine),
                           Some(todayCaffeineItems), lastCaffeineDate, Some(totalCaffeineConsumed)));
    }

    /** `saveGoalSettings`; `goalChanged` decides whether the change is announced. */
    method SaveGoalSettings(newType: GoalType, parsedLimit: Option<int>) returns (goalChanged: bool)
      modifies this`goalType, this`dailyLimit, this`storage
      ensures goalChanged == GoalChangedBy(old(Snapshot()), newType, parsedLimit)
      ensures Snapshot() == Tracker.SaveGoalSettings(old(Snapshot()), newType, parsedLimit)
      ensures storage == Some(Save(Snapshot()))
      ensures old(Valid()) ==> Valid()
    {
      var newDailyLimit := NewDailyLimit(newType, parsedLimit);
      goalChanged := GoalChanged(goalType, dailyLimit, newType, newDailyLimit);
      goalType := newType;
      dailyLimit := newDailyLimit;
      SaveData();
      SaveGoalSettingsEffect(old(Snapshot()), newType, parsedLimit);
    }

    /** `markGoalSuccess`; the outcome is which of its messages is shown. */
    method MarkGoalSuccess(today: Date) returns (outcome: MarkOutcome)
      modifies this
      ensures outcome == MarkOutcomeOf(old(Snapshot()), today)
      ensures Snapshot() == Tracker.MarkGoalSuccess(old(Snapshot()), today)
      ensures storage == if outcome.Success? then Some(Save(Snapshot())) else old(storage)
      ensures old(Valid()) ==> Valid()
    {
      if lastUpdateDate == Some(today) {
        return AlreadyLogged;
      }
      if !WithinGoal(goalType, dailyLimit, todayCaffeine) {
        return GoalExceeded;
      }

      ghost var s0 := Snapshot();
      CountSuccessfulDay();
      StartNextDay(today);
      if streak > longestStreak {
        longestStreak := streak;
      }
      ghost var closed := Snapshot();
      assert closed == CloseDay(s0, today);
      SaveData();
      CheckAchievements();
      assert Snapshot() == Tracker.CheckAchievements(closed);
      outcome := Success(streak);
      if old(Valid()) {
        MarkGoalSuccessPreservesInv(s0, today);
      }
    }

    /** `markGoalSuccess`'s counter updates once the day qualifies. */
    method CountSuccessfulDay()
      modifies this`streak, this`totalDays, this`goalSuccessDays, this`zeroCaffeineDays
      ensures Snapshot() == old(Snapshot()).(
        streak := old(streak) + 1,
        totalDays := old(totalDays) + 1,
        goalSuccessDays := old(goalSuccessDays) + 1,
        zeroCaffeineDays := if old(todayCaffeine) == 0 then old(zeroCaffeineDays) + 1 else old(zeroCaffeineDays))
    {
      streak := streak + 1;
      totalDays := totalDays + 1;
      goalSuccessDays := goalSuccessDays + 1;
      if todayCaffeine == 0 {
        zeroCaffeineDays := zeroCaffeineDays + 1;
      }
    }

    /** `markGoalSuccess`'s reset of the daily tracking for the next day. */
    method StartNextDay(today: Date)
      modifies this`lastUpdateDate, this`todayCaffeine, this`todayCaffeineItems, this`lastCaffeineDate
      ensures Snapshot() == old(Snapshot()).(
        lastUpdateDate := Some(today),
        todayCaffeine := 0,
        todayCaffeineItems := [],
        lastCaffeineDate := Some(today))
    {
      lastUpdateDate := Some(today);
      todayCaffeine := 0;
      todayCaffeineItems := [];
      lastCaffeineDate := Some(today);
    }

    /** `addCustomCaffeine`: a rejected entry changes nothing; an accepted one is added under its trimmed name. */
    method AddCustomCaffeine(rawName: string, parsedAmount: Option<int>, today: Date)
      returns (r: Result<Entry, Rejection>)
      modifies this
      ensures r == ValidateCustomEntry(rawName, parsedAmount)
      ensures r.Err? ==> Snapshot() == old(Snapshot()) && storage == old(storage)
      ensures r.Ok? ==> Snapshot() == Tracker.AddCaffeine(old(Snapshot()), today, r.value.name, r.value.amount)
      ensures r.Ok? ==> storage == Some(Save(Snapshot()))
      ensures old(Valid()) ==> Valid()
    {
      r := ValidateCustomEntry(rawName, parsedAmount);
      if r.Ok? {
        AddCaffeine(r.value.amount, r.value.name, today);
      }
    }

    /** `addCaffeine`. */
    method AddCaffeine(amount: int, name: string, today: Date)
      modifies this`todayCaffeine, this`todayCaffeineItems, this`lastCaffeineDate, this`totalCaffeineConsumed, this`streak, this`totalDays, this`lastUpdateDate, this`storage
      ensures Snapshot() == Tracker.AddCaffeine(old(Snapshot()), today, name, amount)
      ensures storage == Some(Save(Snapshot()))
      ensures old(Valid()) && amount >= 0 ==> Valid()
    {
      ghost var s0 := Snapshot();
      LogItem(amount, name, today);
      if !WithinGoal(goalType, dailyLimit, todayCaffeine) {
        BreakStreak(today);
      }

      SaveData();
      if old(Valid()) && amount >= 0 {
        AddCaffeinePreservesInv(s0, today, name, amount);
      }
    }

    /** The drink joins today's list and both totals. */
    method LogItem(amount: int, name: string, today: Date)
      modifies this`todayCaffeine, this`todayCaffeineItems, this`lastCaffeineDate, this`totalCaffeineConsumed
      ensures Snapshot() == Tracker.LogItem(old(Snapshot()), today, name, amount)
    {
      todayCaffeine := todayCaffeine + amount;
      todayCaffeineItems := todayCaffeineItems + [Item(name, amount)];
      lastCaffeineDate := Some(today);
      totalCaffeineConsumed := totalCaffeineConsumed + amount;
    }

    /** Over-goal intake: the streak ends and the day is logged as a failure. */
    method BreakStreak(today: Date)
      modifies this`streak, this`totalDays, this`lastUpdateDate
      ensures Snapshot() == old(Snapshot()).(streak := 0, totalDays := old(totalDays) + 1, lastUpdateDate := Some(today))
    {
      streak := 0;
      totalDays := totalDays + 1;
      lastUpdateDate := Some(today);
    }

    /** `removeCaffeineItem`; the list is indexed unchecked, so the index must be in range. */
    method RemoveCaffeineItem(index: nat)
      requires index < |todayCaffeineItems|
      modifies this`todayCaffeine, this`totalCaffeineConsumed, this`todayCaffeineItems, this`storage
      ensures Snapshot() == Tracker.RemoveCaffeineItem(old(Snapshot()), index)
      ensures storage == Some(Save(Snapshot()))
      ensures old(Valid()) ==> Valid()
    {
      var item := todayCaffeineItems[index];
      todayCaffeine := todayCaffeine - item.amount;
      totalCaffeineConsumed := totalCaffeineConsumed - item.amount;
      todayCaffeineItems := todayCaffeineItems[..index] + todayCaffeineItems[index + 1..];

      SaveData();
      if old(Valid()) {
        RemoveCaffeineItemPreservesInv(old(Snapshot()), index);
      }
    }

    /** `checkAchievements`: appends, in table order, every entry the streak has reached and that is not held. */
    method CheckAchievements()
      modifies this`achievements, this`storage
      ensures Snapshot() == Tracker.CheckAchievements(old(Snapshot()))
      ensures storage == Some(Save(Snapshot()))
      ensures old(Valid()) ==> Valid()
    {
      TableIsWellFormed();
      ghost var held := achievements;
      var i := 0;
      while i < |Table|
        invariant 0 <= i <= |Table|
        invariant achievements == held + NewlyUnlocked(Table[..i], streak, held)
      {
        var config := Table[i];
        NewlyUnlockedStep(Table, i, streak, held);
        if streak >= config.days && config.id !in achievements {
          achievements := achievements + [config.id];
        }
        i := i + 1;
      }
      assert Table[..|Table|] == Table;

      SaveData();
      if old(Valid()) {
        CheckAchievementsPreservesInv(old(Snapshot()));
      }
    }

    /** `resetData`: the defaults, and the stored record removed. */
    method ResetData()
      modifies this
      ensures Snapshot() == Defaults()
      ensures storage == None
      ensures Valid()
    {
      goalType := Quit;
      dailyLimit := 0;
      streak := 0;
      totalDays := 0;
      goalSuccessDays := 0;
      zeroCaffeineDays := 0;
      longestStreak := 0;
      achievements := [];
      lastUpdateDate := None;
      todayCaffeine := 0;
      todayCaffeineItems := [];
      lastCaffeineDate := None;
      totalCaffeineConsumed := 0;
      storage := None;
      DefaultsSatisfyInv();
    }
  }
}
