/** The goal policy: which daily intake counts as staying on track, and how a new goal is set. */
module Goal {
  import opened Wrappers

  datatype GoalType = Quit | Reduction

  /** The limit a reduction goal falls back to when the entered limit is missing, not a number or 0. */
  const DefaultReductionLimit := 100

  /** `isWithinGoal`: a quit goal allows no caffeine at all, a reduction goal up to the limit. */
  predicate WithinGoal(goalType: GoalType, dailyLimit: int, intake: int) {
    if goalType == Quit then intake == 0 else intake <= dailyLimit
  }

  /**
   * Once a quit goal carries the limit 0 and intake is never negative, both
   * policies are the same test: intake at most the daily limit.
   */
  lemma WithinGoalIsUnderLimit(goalType: GoalType, dailyLimit: int, intake: int)
    requires goalType == Quit ==> dailyLimit == 0
    requires intake >= 0
    ensures WithinGoal(goalType, dailyLimit, intake) <==> intake <= dailyLimit
  {
  }

  /**
   * The limit `saveGoalSettings` stores: 0 exactly for a quit goal; for a
   * reduction goal the user's non-zero number, and otherwise the default.
   */
  function NewDailyLimit(newType: GoalType, parsedLimit: Option<int>): (r: int)
    ensures r == 0 <==> newType == Quit
    ensures newType == Reduction ==> r == DefaultReductionLimit || parsedLimit == Some(r)
    ensures newType == Reduction && parsedLimit.Some? && parsedLimit.value != 0 ==> r == parsedLimit.value
  {
    if newType == Quit then 0
    else if parsedLimit.None? || parsedLimit.value == 0 then DefaultReductionLimit
    else parsedLimit.value
  }

  /** Whether a new goal differs enough from the old one to be announced. */
  predicate GoalChanged(oldType: GoalType, oldLimit: int, newType: GoalType, newLimit: int) {
    oldType != newType || (newType == Reduction && oldLimit != newLimit)
  }

  /**
   * When a quit goal always carries the limit 0, a goal counts as changed
   * exactly when the (type, limit) pair differs.
   */
  lemma GoalChangedIffSettingsDiffer(oldType: GoalType, oldLimit: int, newType: GoalType, parsedLimit: Option<int>)
    requires oldType == Quit ==> oldLimit == 0
    ensures var newLimit := NewDailyLimit(newType, parsedLimit);
      GoalChanged(oldType, oldLimit, newType, newLimit) <==> (oldType, oldLimit) != (newType, newLimit)
  {
  }
}
