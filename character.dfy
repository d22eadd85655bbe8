/**
 * The player character: level, experience, hit points and the equipment it
 * has unlocked, updated in place as in `class Character` of game.js.
 */
module Characters {
  import opened EquipmentTable

  /** Leveling stops at this level; the experience beyond it is kept. */
  const LevelCap := 10
  const FullHP := 100

  function Max(a: int, b: int): int { if a < b then b else a }
  function Min(a: int, b: int): int { if a < b then a else b }

  /** The experience needed to leave `level` (the getter expToNextLevel). */
  function Threshold(level: int): int { level * 100 }

  /** Experience consumed by leveling from `from` up to `to`: the thresholds of levels from .. to - 1. */
  function CostBetween(from: int, to: int): int
    decreases to - from
  {
    if to <= from then 0 else CostBetween(from, to - 1) + Threshold(to - 1)
  }

  lemma {:induction false} CostBetweenSplit(a: int, m: int, b: int)
    decreases b - m
    requires a <= m <= b
    ensures CostBetween(a, m) + CostBetween(m, b) == CostBetween(a, b)
  {
    if m < b {
      CostBetweenSplit(a, m, b - 1);
    }
  }

  /** Leveling from `from` up to `to` costs 50 * (to * (to - 1) - from * (from - 1)) experience. */
  lemma {:induction false} CostBetweenClosedForm(from: int, to: int)
    decreases to - from
    requires from <= to
    ensures CostBetween(from, to) == 50 * (to * (to - 1) - from * (from - 1))
  {
    if from < to {
      CostBetweenClosedForm(from, to - 1);
      assert to * (to - 1) == (to - 1) * (to - 2) + 2 * (to - 1);
    }
  }

  /**
   * The (level, exp) pair at which the level-up loop of addExp stops, started
   * at `level0` with `total` experience (the old exp plus the amount added):
   * the level only rises and not past the cap, the loop condition no longer
   * holds, every point of experience is either kept or spent on a threshold,
   * and experience never drops below zero.
   */
  ghost predicate Settled(level0: int, total: int, level: int, exp: int)
  {
    && level0 <= level <= Max(level0, LevelCap)
    && (level < LevelCap ==> exp < Threshold(level))
    && exp + CostBetween(level0, level) == total
    && (total >= 0 ==> exp >= 0)
  }

  lemma {:induction false} CostAtLeastFirstThreshold(a: int, b: int)
    decreases b - a
    requires 0 <= a < b
    ensures CostBetween(a, b) >= Threshold(a)
  {
    if a + 1 < b {
      CostAtLeastFirstThreshold(a, b - 1);
    }
  }

  /** The stopping point of the level-up loop is determined by where it starts and the experience it is given. */
  lemma SettledUnique(level0: int, total: int, l1: int, e1: int, l2: int, e2: int)
    requires 1 <= level0 && 0 <= total
    requires Settled(level0, total, l1, e1) && Settled(level0, total, l2, e2)
    ensures l1 == l2 && e1 == e2
  {
    if l1 < l2 {
      CostBetweenSplit(level0, l1, l2);
      CostAtLeastFirstThreshold(l1, l2);
    } else if l2 < l1 {
      CostBetweenSplit(level0, l2, l1);
      CostAtLeastFirstThreshold(l2, l1);
    }
  }

  /**
   * Gaining experience in two calls leaves the same state as gaining the sum
   * in one: settling `total` and then `gain` more is settling `total + gain`.
   */
  lemma SettledCompose(level0: int, total: int, level1: int, exp1: int, gain: int, level2: int, exp2: int)
    requires 0 <= total && 0 <= gain
    requires Settled(level0, total, level1, exp1)
    requires Settled(level1, exp1 + gain, level2, exp2)
    ensures Settled(level0, total + gain, level2, exp2)
  {
    CostBetweenSplit(level0, level1, level2);
  }

  /** A level-1 character with 100 experience in all reaches level 2 with nothing left over. */
  lemma FirstLevelUp(level: int, exp: int)
    requires Settled(1, 100, level, exp)
    ensures level == 2 && exp == 0
  {
    SettledUnique(1, 100, level, exp, 2, 0);
  }

  /**
   * A level-1 character given 350 experience in all crosses two levels in one
   * call (100 for level 1, 200 for level 2) and keeps 50, below level 3's 300.
   */
  lemma LargeGainFromLevelOne(level: int, exp: int)
    requires Settled(1, 350, level, exp)
    ensures level == 3 && exp == 50
  {
    SettledUnique(1, 350, level, exp, 3, 50);
  }

  /** Starting from level 1, the cap (level 10) is reached exactly when 4500 experience has been gained in all. */
  lemma ReachesCap(total: int, level: int, exp: int)
    requires 0 <= total && Settled(1, total, level, exp)
    ensures level == LevelCap <==> total >= 4500
  {
    CostBetweenClosedForm(1, level);
    if level < LevelCap {
      assert level * (level + 1) <= 90 by {
        assert level + 1 <= 10;
        assert level * (level + 1) <= level * 10;
      }
    }
  }

  /** The four fields a character's progress consists of (what saveProgress stores). */
  datatype Snapshot = Snapshot(level: int, exp: int, currentHP: int, equipment: seq<Equipment>)

  /**
   * The progress part of a character's invariant: level in 1..10, experience
   * non-negative and below the threshold except at the cap.
   */
  ghost predicate ProgressValid(level: int, exp: int)
  {
    1 <= level <= LevelCap && 0 <= exp && (level < LevelCap ==> exp < Threshold(level))
  }

  /**
   * Settling a non-negative gain from a valid level keeps the progress valid,
   * and the entries appended complete the unlock list of the new level.
   */
  lemma SettlingKeepsProgressValid(level0: int, total: int, level: int, exp: int)
    requires 1 <= level0 <= LevelCap && 0 <= total
    requires Settled(level0, total, level, exp)
    ensures ProgressValid(level, exp)
    ensures Unlocked(level0) + UnlocksBetween(level0, level) == Unlocked(level)
  {
    UnlocksBetweenSplit(1, level0, level);
  }

  class Character {
    var level: int
    var exp: int
    const maxHP: int
    var currentHP: int
    var equipment: seq<Equipment>

    /**
     * The state every character reachable from a fresh one is in: a level in
     * 1..10, experience below the current threshold except at the cap, hit
     * points within [0, maxHP], and equipment exactly the table entries of
     * levels 2..level in ascending order.
     */
    ghost predicate Valid()
      reads this
    {
      && ProgressValid(level, exp)
      && maxHP == FullHP
      && 0 <= currentHP <= maxHP
      && equipment == Unlocked(level)
    }

    /** The character's progress as a value. */
    function Snap(): (s: Snapshot)
      reads this
    {
      Snapshot(level, exp, currentHP, equipment)
    }

    /** A new character (the saved-progress reload is not part of this model). */
    constructor ()
      ensures Valid()
      ensures level == 1 && exp == 0 && currentHP == maxHP == FullHP && equipment == []
    {
      level, exp, maxHP, currentHP, equipment := 1, 0, FullHP, FullHP, [];
    }

    /** expToNextLevel: what leaving the current level costs. */
    function ExpToNextLevel(): (r: int)
      reads this
      ensures r == CostBetween(level, level + 1)
      ensures 1 <= level <= LevelCap ==> 100 <= r <= 1000
    {
      Threshold(level)
    }

    /**
     * addExp: adds `amount` and levels up while the threshold is met and the
     * level is below 10, appending each new level's table entry; returns the
     * entries appended by this call.
     */
    method AddExp(amount: int) returns (leveledUp: seq<Equipment>)
      modifies this`exp, this`level, this`equipment
      ensures Settled(old(level), old(exp) + amount, level, exp)
      ensures old(level) >= LevelCap ==> level == old(level) && exp == old(exp) + amount && leveledUp == []
      ensures leveledUp == UnlocksBetween(old(level), level)
      ensures equipment == old(equipment) + leveledUp
      ensures old(Valid()) && amount >= 0 ==> Valid()
    {
      exp := exp + amount;
      leveledUp := [];
      while exp >= Threshold(level) && level < LevelCap
        invariant old(level) <= level <= Max(old(level), LevelCap)
        invariant exp + CostBetween(old(level), level) == old(exp) + amount
        invariant old(exp) + amount >= 0 ==> exp >= 0
        invariant leveledUp == UnlocksBetween(old(level), level)
        invariant equipment == old(equipment) + leveledUp
        decreases LevelCap - level
      {
        exp := exp - Threshold(level);
        level := level + 1;
        var entry := EntryFor(level);
        if entry.Some? {
          equipment := equipment + [entry.value];
          leveledUp := leveledUp + [entry.value];
        }
      }
      if old(Valid()) && amount >= 0 {
        SettlingKeepsProgressValid(old(level), old(exp) + amount, level, exp);
      }
    }

    /** takeDamage: hit points drop by `amount` but not below 0; reports whether they reached 0. */
    method TakeDamage(amount: int) returns (dead: bool)
      modifies this`currentHP
      ensures currentHP == Max(0, old(currentHP) - amount)
      ensures dead <==> currentHP == 0
      ensures old(Valid()) && amount >= 0 ==> Valid()
    {
      currentHP := Max(0, currentHP - amount);
      dead := currentHP <= 0;
    }

    /** heal: hit points rise by `amount` but not above maxHP. */
    method Heal(amount: int)
      modifies this`currentHP
      ensures currentHP == Min(maxHP, old(currentHP) + amount)
      ensures old(Valid()) && amount >= 0 ==> Valid()
    {
      currentHP := Min(maxHP, currentHP + amount);
    }

    /** resetHP: back to full hit points. */
    method ResetHP()
      modifies this`currentHP
      ensures currentHP == maxHP
      ensures old(Valid()) ==> Valid()
    {
      currentHP := maxHP;
    }
  }

  /**
   * A fresh character takes 15 damage seven times in a row: the first six
   * hits leave it standing and the seventh is fatal.
   */
  method SeventhHitIsFatal() returns (fatal: seq<bool>)
    ensures |fatal| == 7
    ensures forall i :: 0 <= i < |fatal| ==> (fatal[i] <==> i == 6)
  {
    var c := new Character();
    fatal := [];
    while |fatal| < 6
      invariant |fatal| <= 6
      invariant c.currentHP == FullHP - 15 * |fatal|
      invariant forall i :: 0 <= i < |fatal| ==> !fatal[i]
    {
      var dead := c.TakeDamage(15);
      fatal := fatal + [dead];
    }
    var dead := c.TakeDamage(15);
    fatal := fatal + [dead];
  }
}
