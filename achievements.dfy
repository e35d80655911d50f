/** The milestone table and the rule that unlocks its entries from the current streak. */
module Achievements {

  type AchievementId = string

  datatype Achievement = Achievement(id: AchievementId, days: int, title: string)

  /** `achievementConfig`: fixed, in ascending order of days. */
  const Table: seq<Achievement> := [
    Achievement("first-day", 1, "First Step"),
    Achievement("three-days", 3, "Building Momentum"),
    Achievement("one-week", 7, "Week Warrior"),
    Achievement("two-weeks", 14, "Fortnight Fighter"),
    Achievement("one-month", 30, "Monthly Master"),
    Achievement("three-months", 90, "Quarterly Champion")
  ]

  predicate NoDuplicates<T(==)>(s: seq<T>) {
    forall j, k :: 0 <= j < k < |s| ==> s[j] != s[k]
  }

  predicate DistinctIds(table: seq<Achievement>) {
    forall j, k :: 0 <= j < k < |table| ==> table[j].id != table[k].id
  }

  lemma TableIsWellFormed()
    ensures DistinctIds(Table)
    ensures forall j, k :: 0 <= j < k < |Table| ==> Table[j].days < Table[k].days
  {
  }

  /**
   * The ids the unlock loop appends, in table order, to `held`: the entries
   * whose day count the streak has reached and that are not already held.
   */
  function NewlyUnlocked(table: seq<Achievement>, streak: int, held: seq<AchievementId>): (r: seq<AchievementId>)
    ensures |r| <= |table|
    ensures forall id :: id in r ==> id !in held
    ensures forall id :: id in r ==>
      exists k :: 0 <= k < |table| && table[k].id == id && streak >= table[k].days
  {
    if table == [] then []
    else
      var c := table[|table| - 1];
      var rest := NewlyUnlocked(table[..|table| - 1], streak, held);
      if streak >= c.days && c.id !in held then rest + [c.id] else rest
  }

  /** Afterwards every entry the streak has reached is held. */
  lemma {:induction false} NewlyUnlockedCovers(table: seq<Achievement>, streak: int, held: seq<AchievementId>, k: nat)
    requires k < |table| && streak >= table[k].days
    ensures table[k].id in held + NewlyUnlocked(table, streak, held)
  {
    var n := |table| - 1;
    if k < n {
      assert table[..n][k] == table[k];
      NewlyUnlockedCovers(table[..n], streak, held, k);
    }
  }

  /** Nothing is unlocked once every reached entry is already held. */
  lemma {:induction false} NewlyUnlockedNoneWhenCovered(table: seq<Achievement>, streak: int, held: seq<AchievementId>)
    requires forall k :: 0 <= k < |table| && streak >= table[k].days ==> table[k].id in held
    ensures NewlyUnlocked(table, streak, held) == []
  {
    if table != [] {
      var n := |table| - 1;
      assert forall k :: 0 <= k < n ==> table[..n][k] == table[k];
      NewlyUnlockedNoneWhenCovered(table[..n], streak, held);
    }
  }

  /** With distinct table ids, appending the unlocked ids creates no duplicate. */
  lemma {:induction false} NewlyUnlockedNoDuplicates(table: seq<Achievement>, streak: int, held: seq<AchievementId>)
    requires DistinctIds(table) && NoDuplicates(held)
    ensures NoDuplicates(held + NewlyUnlocked(table, streak, held))
  {
    if table != [] {
      var n := |table| - 1;
      var c := table[n];
      var rest := NewlyUnlocked(table[..n], streak, held);
      NewlyUnlockedNoDuplicates(table[..n], streak, held);
      if streak >= c.days && c.id !in held {
        assert c.id !in rest by {
          forall id | id in rest ensures id != c.id {
            var k :| 0 <= k < n && table[..n][k].id == id && streak >= table[..n][k].days;
            assert table[..n][k] == table[k];
          }
        }
        assert held + (rest + [c.id]) == (held + rest) + [c.id];
      }
    }
  }

  /** With distinct ids, an entry's id is never among those unlocked by the entries before it. */
  lemma NewlyUnlockedBefore(table: seq<Achievement>, i: nat, streak: int, held: seq<AchievementId>)
    requires DistinctIds(table) && i < |table|
    ensures table[i].id !in NewlyUnlocked(table[..i], streak, held)
  {
    forall id | id in NewlyUnlocked(table[..i], streak, held) ensures id != table[i].id {
      var k :| 0 <= k < i && table[..i][k].id == id && streak >= table[..i][k].days;
      assert table[..i][k] == table[k];
    }
  }

  /** Unfolds `NewlyUnlocked` once at a prefix boundary. */
  lemma NewlyUnlockedPrefix(table: seq<Achievement>, i: nat, streak: int, held: seq<AchievementId>)
    requires i < |table|
    ensures NewlyUnlocked(table[..i + 1], streak, held) ==
      var rest := NewlyUnlocked(table[..i], streak, held);
      if streak >= table[i].days && table[i].id !in held then rest + [table[i].id] else rest
  {
    assert table[..i + 1][..i] == table[..i];
  }

  /**
   * One step of the unlock loop, whose `includes` looks at the list as grown
   * so far: entry i is pushed exactly when the streak has reached it and its
   * id is not yet in that list, which for distinct ids is the same as not
   * held at the start.
   */
  lemma NewlyUnlockedStep(table: seq<Achievement>, i: nat, streak: int, held: seq<AchievementId>)
    requires DistinctIds(table) && i < |table|
    ensures table[i].id !in held + NewlyUnlocked(table[..i], streak, held) <==> table[i].id !in held
    ensures var grown := held + NewlyUnlocked(table[..i], streak, held);
      held + NewlyUnlocked(table[..i + 1], streak, held) ==
        if streak >= table[i].days && table[i].id !in grown then grown + [table[i].id] else grown
  {
    NewlyUnlockedBefore(table, i, streak, held);
    NewlyUnlockedPrefix(table, i, streak, held);
    var rest := NewlyUnlocked(table[..i], streak, held);
    assert held + (rest + [table[i].id]) == (held + rest) + [table[i].id];
  }

  /**
   * The ids are appended in table order: of two appended ids, the earlier
   * one belongs to the earlier table entry.
   */
  lemma {:induction false} NewlyUnlockedInTableOrder(table: seq<Achievement>, streak: int, held: seq<AchievementId>,
                                                     a: nat, b: nat, ka: nat, kb: nat)
    requires DistinctIds(table)
    requires a < b < |NewlyUnlocked(table, streak, held)| && ka < |table| && kb < |table|
    requires table[ka].id == NewlyUnlocked(table, streak, held)[a]
    requires table[kb].id == NewlyUnlocked(table, streak, held)[b]
    ensures ka < kb
  {
    var n := |table| - 1;
    var init := table[..n];
    var rest := NewlyUnlocked(init, streak, held);
    var r := NewlyUnlocked(table, streak, held);
    assert r[a] == rest[a] && rest[a] in rest;
    var ja :| 0 <= ja < n && init[ja].id == rest[a] && streak >= init[ja].days;
    assert init[ja] == table[ja];
    if b < |rest| {
      assert r[b] == rest[b] && rest[b] in rest;
      var jb :| 0 <= jb < n && init[jb].id == rest[b] && streak >= init[jb].days;
      assert init[jb] == table[jb];
      NewlyUnlockedInTableOrder(init, streak, held, a, b, ja, jb);
    } else {
      assert r[b] == table[n].id;
    }
  }
}
