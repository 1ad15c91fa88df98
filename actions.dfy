/**
 * The four player actions as functions of the economy before the action and
 * the grid. Each one either is refused and changes nothing, or applies its
 * deltas and then plays exactly one turn. Random draws arrive as arguments:
 * `success` for the attack's coin, `lootRoll` in [0,50) and `bonusRoll` in
 * [0,20) for the whole-number part of the scaled random floats.
 */
module Actions {
  import opened Catalog
  import opened Resources
  import opened Turn

  /** Gold raised by one tax collection at a given level. */
  function TaxAmount(level: int): int { 25 + level * 5 }

  /** Collecting tax never fails: the tax is credited and a turn is played. */
  function TaxStep(e: Economy, tiles: seq<Kind>): (r: Economy)
    ensures r.turn == e.turn + 1
    ensures r.gold >= e.gold + TaxAmount(e.level)
    ensures r.soldiers >= e.soldiers
    ensures Played(tiles, e.(gold := e.gold + TaxAmount(e.level)), r)
    ensures WellFormed(e) ==> WellFormed(r)
  {
    var taxed := e.(gold := e.gold + TaxAmount(e.level));
    TurnStepCensus(tiles, taxed);
    TurnStep(tiles, taxed)
  }

  /** Training needs 10 gold and 5 food and buys 3 soldiers. */
  function TrainStep(e: Economy, tiles: seq<Kind>): (r: Economy)
    ensures e.gold >= 10 && e.food >= 5 ==>
      r.turn == e.turn + 1 && r.gold >= e.gold - 10 && r.soldiers >= e.soldiers + 3
    ensures e.gold >= 10 && e.food >= 5 ==>
      Played(tiles, e.(gold := e.gold - 10, food := e.food - 5, soldiers := e.soldiers + 3), r)
    ensures !(e.gold >= 10 && e.food >= 5) ==> r == e
    ensures WellFormed(e) ==> WellFormed(r)
  {
    if e.gold >= 10 && e.food >= 5 then
      var trained := e.(gold := e.gold - 10, food := e.food - 5, soldiers := e.soldiers + 3);
      TurnStepCensus(tiles, trained);
      TurnStep(tiles, trained)
    else e
  }

  /**
   * Attacking needs 5 soldiers. A won attack brings 25 to 74 gold and 10
   * experience; a lost one costs 2 soldiers, which the 5-soldier guard can
   * always pay.
   */
  function AttackStep(e: Economy, tiles: seq<Kind>, success: bool, lootRoll: nat): (r: Economy)
    requires lootRoll < 50
    ensures e.soldiers < 5 ==> r == e
    ensures e.soldiers >= 5 ==> r.turn == e.turn + 1
    ensures e.soldiers >= 5 && success ==>
      r.gold >= e.gold + 25 + lootRoll && r.soldiers >= e.soldiers &&
      ((r.level == e.level && r.experience == e.experience + 10) ||
       (r.level == e.level + 1 && r.experience == 0))
    ensures e.soldiers >= 5 && success ==>
      Played(tiles, e.(gold := e.gold + 25 + lootRoll, experience := e.experience + 10), r)
    ensures e.soldiers >= 5 && !success ==>
      Played(tiles, e.(soldiers := e.soldiers - 2), r)
    ensures WellFormed(e) && e.soldiers >= 5 && !success ==>
      r.soldiers >= e.soldiers - 2 >= 3 && r.gold >= e.gold &&
      r.level == e.level && r.experience == e.experience
    ensures WellFormed(e) ==> WellFormed(r)
  {
    if e.soldiers >= 5 then
      if success then
        var won := e.(gold := e.gold + 25 + lootRoll, experience := e.experience + 10);
        TurnStepCensus(tiles, won);
        TurnStep(tiles, won)
      else
        var lost := e.(soldiers := e.soldiers - 2);
        TurnStepCensus(tiles, lost);
        TurnStep(tiles, lost)
    else e
  }

  /**
   * Diplomacy needs 15 gold and brings 10 to 29 food from allies, before the
   * turn's barracks eat.
   */
  function DiplomacyStep(e: Economy, tiles: seq<Kind>, bonusRoll: nat): (r: Economy)
    requires bonusRoll < 20
    ensures e.gold < 15 ==> r == e
    ensures e.gold >= 15 ==>
      r.turn == e.turn + 1 && r.gold >= e.gold - 15 && r.soldiers >= e.soldiers &&
      r.food + 2 * (r.soldiers - e.soldiers) >= e.food + 10 + bonusRoll
    ensures e.gold >= 15 ==>
      Played(tiles, e.(gold := e.gold - 15, food := e.food + 10 + bonusRoll), r)
    ensures WellFormed(e) ==> WellFormed(r)
  {
    if e.gold >= 15 then
      var paid := e.(gold := e.gold - 15, food := e.food + 10 + bonusRoll);
      TurnStepCensus(tiles, paid);
      TurnStep(tiles, paid)
    else e
  }

  /**
   * The action dispatcher: the four action tags run their action, every other
   * tag (including the two build tags, which go through the build dialog) does
   * nothing.
   */
  function ActionStep(action: string, e: Economy, tiles: seq<Kind>,
                      success: bool, lootRoll: nat, bonusRoll: nat): (r: Economy)
    requires lootRoll < 50 && bonusRoll < 20
    ensures r == e || r.turn == e.turn + 1
    ensures action == "collect-tax" ==> r.turn == e.turn + 1
    ensures !(action in {"collect-tax", "train-soldiers", "diplomacy", "attack"}) ==> r == e
    ensures WellFormed(e) ==> WellFormed(r)
  {
    if action == "collect-tax" then TaxStep(e, tiles)
    else if action == "train-soldiers" then TrainStep(e, tiles)
    else if action == "diplomacy" then DiplomacyStep(e, tiles, bonusRoll)
    else if action == "attack" then AttackStep(e, tiles, success, lootRoll)
    else e
  }
}
