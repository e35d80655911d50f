/**
 * The persisted record under the storage key, and the per-field defaulting
 * `loadData` applies to it. `None` stands for a field that is absent or null.
 */
module Storage {
  import opened Wrappers
  import opened Goal
  import opened Achievements
  import opened Tracker

  datatype Blob = Blob(
    goalType: Option<GoalType>,
    dailyLimit: Option<int>,
    streak: Option<int>,
    totalDays: Option<int>,
    goalSuccessDays: Option<int>,
    zeroCaffeineDays: Option<int>,
    longestStreak: Option<int>,
    achievements: Option<seq<AchievementId>>,
    lastUpdateDate: Option<string>,
    todayCaffeine: Option<int>,
    todayCaffeineItems: Option<seq<Item>>,
    lastCaffeineDate: Option<string>,
    totalCaffeineConsumed: Option<int>)

  /** `saveData`: every field is written; a date that is not set is written as null. */
  function Save(s: State): Blob {
    Blob(Some(s.goalType), Some(s.dailyLimit), Some(s.streak), Some(s.totalDays),
         Some(s.goalSuccessDays), Some(s.zeroCaffeineDays), Some(s.longestStreak),
         Some(s.achievements), s.lastUpdateDate, Some(s.todayCaffeine),
         Some(s.todayCaffeineItems), s.lastCaffeineDate, Some(s.totalCaffeineConsumed))
  }

  /** `v || 0` on a number: 0 is falsy, so it falls back to the default 0 as well. */
  function NumberOrZero(v: Option<int>): (r: int)
    ensures v.Some? ==> r == v.value
    ensures v.None? ==> r == 0
  {
    if v.Some? && v.value != 0 then v.value else 0
  }

  /** `v || null` on a date string: the empty string is falsy. */
  function DateOrNull(v: Option<string>): (r: Option<Date>)
    ensures r.Some? <==> v.Some? && v.value != ""
    ensures r.Some? ==> r.value == v.value
  {
    if v.Some? && v.value != "" then Some(v.value) else None
  }

  function GoalTypeOrQuit(v: Option<GoalType>): GoalType {
    if v.Some? then v.value else Quit
  }

  /** An array is truthy even when empty, so `v || []` only replaces a missing list. */
  function ListOrEmpty<T>(v: Option<seq<T>>): seq<T> {
    if v.Some? then v.value else []
  }

  /** `loadData`'s field-by-field defaulting, before the new-day check. */
  function Restore(b: Blob): State {
    State(GoalTypeOrQuit(b.goalType), NumberOrZero(b.dailyLimit), NumberOrZero(b.streak),
          NumberOrZero(b.totalDays), NumberOrZero(b.goalSuccessDays), NumberOrZero(b.zeroCaffeineDays),
          NumberOrZero(b.longestStreak), ListOrEmpty(b.achievements), DateOrNull(b.lastUpdateDate),
          NumberOrZero(b.todayCaffeine), ListOrEmpty(b.todayCaffeineItems), DateOrNull(b.lastCaffeineDate),
          NumberOrZero(b.totalCaffeineConsumed))
  }

  /** `loadData` on a stored record. */
  function Load(b: Blob, today: Date): State {
    Rollover(Restore(b), today)
  }

  /** A record with every field missing. */
  const EmptyBlob := Blob(None, None, None, None, None, None, None, None, None, None, None, None, None)

  /** A record with every field missing loads as the defaults. */
  lemma LoadEmptyBlobGivesDefaults(today: Date)
    ensures Load(EmptyBlob, today) == Defaults()
  {
  }

  /**
   * Fields fall back one at a time: damaging one stored field changes only
   * that field of the loaded state.
   */
  lemma RestoreIsFieldwise(b: Blob)
    ensures Restore(b.(streak := None)) == Restore(b).(streak := 0)
    ensures Restore(b.(goalType := None)) == Restore(b).(goalType := Quit)
    ensures Restore(b.(achievements := None)) == Restore(b).(achievements := [])
    ensures Restore(b.(lastUpdateDate := Some(""))) == Restore(b).(lastUpdateDate := None)
    ensures Restore(b.(lastUpdateDate := None)) == Restore(b).(lastUpdateDate := None)
    ensures Restore(b.(dailyLimit := None)) == Restore(b).(dailyLimit := 0)
    ensures Restore(b.(totalDays := None)) == Restore(b).(totalDays := 0)
    ensures Restore(b.(goalSuccessDays := None)) == Restore(b).(goalSuccessDays := 0)
    ensures Restore(b.(zeroCaffeineDays := None)) == Restore(b).(zeroCaffeineDays := 0)
    ensures Restore(b.(longestStreak := None)) == Restore(b).(longestStreak := 0)
    ensures Restore(b.(todayCaffeine := None)) == Restore(b).(todayCaffeine := 0)
    ensures Restore(b.(todayCaffeineItems := None)) == Restore(b).(todayCaffeineItems := [])
    ensures Restore(b.(lastCaffeineDate := None)) == Restore(b).(lastCaffeineDate := None)
    ensures Restore(b.(lastCaffeineDate := Some(""))) == Restore(b).(lastCaffeineDate := None)
    ensures Restore(b.(totalCaffeineConsumed := None)) == Restore(b).(totalCaffeineConsumed := 0)
  {
  }

  /** What was saved on the day it is loaded again comes back field for field. */
  lemma LoadSaveRoundTrip(s: State, today: Date)
    requires s.lastCaffeineDate == Some(today)
    ensures Load(Save(s), today) == s
  {
  }

  /** Loaded on a later day, only today's intake and items are dropped; the streak and lastUpdateDate stay. */
  lemma LoadSaveOnNewDay(s: State, today: Date)
    requires s.lastCaffeineDate != Some(today)
    ensures Load(Save(s), today) == s.(todayCaffeine := 0, todayCaffeineItems := [])
  {
  }

  /** A record whose restored fields satisfy the invariant loads into a state that does. */
  lemma LoadPreservesInv(b: Blob, today: Date)
    requires Inv(Restore(b))
    ensures Inv(Load(b, today))
  {
    RolloverPreservesInv(Restore(b), today);
  }

  /** Whatever the tracker saves, it can load again with the invariant intact. */
  lemma LoadOfSavedStateKeepsInv(s: State, today: Date)
    requires Inv(s)
    ensures Inv(Load(Save(s), today))
  {
    assert Restore(Save(s)) == s;
    LoadPreservesInv(Save(s), today);
  }
}
