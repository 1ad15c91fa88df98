/** The player's resource pool and progression counters. */
module Resources {

  /** One snapshot of the integer fields of the game state. */
  datatype Economy = Economy(gold: int, food: int, soldiers: int, level: int, experience: int, turn: int)

  /** The values a new game starts with. */
  const Start := Economy(100, 50, 10, 1, 0, 1)

  /** Levelling threshold: the experience that triggers the next level. */
  function RequiredXP(level: int): int { level * 100 }

  /**
   * The states reachable between two player actions: no resource is negative,
   * levels start at 1, the turn counter at 1, and experience is always below
   * the current threshold (every turn ends with a level check).
   */
  predicate WellFormed(e: Economy)
  {
    e.gold >= 0 && e.food >= 0 && e.soldiers >= 0 &&
    e.level >= 1 && 0 <= e.experience < RequiredXP(e.level) && e.turn >= 1
  }
}
