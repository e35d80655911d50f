/**
 * Worked days of the tracker, each stated for any calendar day: a fresh
 * tracker on a quit goal, a reduction goal met and missed, the seventh
 * successful day in a row, and a zero-caffeine drink.
 */
module Scenarios {
  import opened Wrappers
  import opened Goal
  import opened Achievements
  import opened Tracker

  /** A fresh tracker with a quit goal closes its first day with a zero-caffeine success. */
  lemma FirstQuitDay(today: Date)
    ensures MarkOutcomeOf(Defaults(), today) == Success(1)
    ensures var t := MarkGoalSuccess(Defaults(), today);
      && t.streak == 1 && t.longestStreak == 1
      && t.totalDays == 1 && t.goalSuccessDays == 1 && t.zeroCaffeineDays == 1
      && t.achievements == ["first-day"]
      && t.lastUpdateDate == Some(today)
  {
    assert NewlyUnlocked(Table, 1, []) == ["first-day"] by {
      assert Table[..0] == [];
      NewlyUnlockedPrefix(Table, 0, 1, []);
      NewlyUnlockedPrefix(Table, 1, 1, []);
      NewlyUnlockedPrefix(Table, 2, 1, []);
      NewlyUnlockedPrefix(Table, 3, 1, []);
      NewlyUnlockedPrefix(Table, 4, 1, []);
      NewlyUnlockedPrefix(Table, 5, 1, []);
      assert Table[..6] == Table;
    }
  }

  /** Under a 100 mg reduction goal, 50 mg of tea still lets the day succeed, and the day's list is cleared. */
  lemma ReductionDayMet(today: Date)
    ensures var s := AddCaffeine(SaveGoalSettings(Defaults(), Reduction, Some(100)), today, "Tea", 50);
      && MarkOutcomeOf(s, today) == Success(1)
      && MarkGoalSuccess(s, today).streak == 1
      && MarkGoalSuccess(s, today).todayCaffeine == 0
      && MarkGoalSuccess(s, today).todayCaffeineItems == []
  {
    var s := AddCaffeine(SaveGoalSettings(Defaults(), Reduction, Some(100)), today, "Tea", 50);
    CheckAchievementsUnlocksReached(CloseDay(s, today));
  }

  /** 150 mg against a 100 mg goal logs the day as a failure at once, so marking it afterwards changes nothing. */
  lemma ReductionDayMissed(today: Date)
    ensures var s := AddCaffeine(SaveGoalSettings(Defaults(), Reduction, Some(100)), today, "Coffee", 150);
      && s.streak == 0 && s.totalDays == 1 && s.lastUpdateDate == Some(today)
      && MarkOutcomeOf(s, today) == AlreadyLogged
      && MarkGoalSuccess(s, today) == s
  {
  }

  /** A seventh successful day in a row unlocks the one-week achievement. */
  lemma SeventhDayUnlocksOneWeek(s: State, today: Date)
    requires s.streak == 6 && s.lastUpdateDate != Some(today) && IsWithinGoal(s)
    requires "one-week" !in s.achievements
    ensures MarkOutcomeOf(s, today) == Success(7)
    ensures MarkGoalSuccess(s, today).streak == 7
    ensures "one-week" in MarkGoalSuccess(s, today).achievements
  {
    CheckAchievementsUnlocksReached(CloseDay(s, today));
    assert Table[2].id == "one-week" && Table[2].days == 7;
  }

  /** A zero-caffeine drink is still listed but adds nothing to the day's total. */
  lemma ZeroCaffeineDrink(s: State, today: Date, name: string)
    ensures AddCaffeine(s, today, name, 0).todayCaffeine == s.todayCaffeine
    ensures AddCaffeine(s, today, name, 0).todayCaffeineItems == s.todayCaffeineItems + [Item(name, 0)]
  {
  }
}
