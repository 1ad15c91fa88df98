/** The turn engine: passive yields of the grid, the level check, and one full turn. */
module Turn {
  import opened Catalog
  import opened Resources

  /**
   * The passive yield of one tile, applied to the running totals. A barracks
   * feeds on the food held at the moment it is visited.
   */
  function Yield(k: Kind, e: Economy): (r: Economy)
    ensures r.turn == e.turn && r.level == e.level && r.experience == e.experience
    ensures r.gold >= e.gold && r.soldiers >= e.soldiers
    ensures e.food >= 0 ==> r.food >= 0
    ensures k == Empty || k == Castle ==> r == e
  {
    match k
    case Farm => e.(food := e.food + 5)
    case Mine => e.(gold := e.gold + 8)
    case Barracks =>
      if e.food >= 2 then e.(soldiers := e.soldiers + 1, food := e.food - 2) else e
    case Market => e.(gold := e.gold + 5)
    case _ => e
  }

  /** The yields of all tiles, visited in index order. */
  function PassiveIncome(tiles: seq<Kind>, e: Economy): (r: Economy)
    ensures r.turn == e.turn && r.level == e.level && r.experience == e.experience
    ensures r.gold >= e.gold && r.soldiers >= e.soldiers
    ensures e.food >= 0 ==> r.food >= 0
    decreases |tiles|
  {
    if tiles == [] then e
    else Yield(tiles[|tiles| - 1], PassiveIncome(tiles[..|tiles| - 1], e))
  }

  /** Splitting a grid before its last tile, with the tile counts that go with it. */
  lemma SplitLast(tiles: seq<Kind>)
    requires tiles != []
    ensures var n := |tiles| - 1;
      tiles == tiles[..n] + [tiles[n]] &&
      multiset(tiles) == multiset(tiles[..n]) + multiset{tiles[n]}
  {
    var n := |tiles| - 1;
    assert tiles == tiles[..n] + [tiles[n]];
  }

  /** Gold from a turn's passive income: 8 per mine and 5 per market, nothing else. */
  lemma {:induction false} PassiveGold(tiles: seq<Kind>, e: Economy)
    ensures PassiveIncome(tiles, e).gold == e.gold + 8 * multiset(tiles)[Mine] + 5 * multiset(tiles)[Market]
  {
    if tiles != [] {
      var n := |tiles| - 1;
      SplitLast(tiles);
      PassiveGold(tiles[..n], e);
    }
  }

  /**
   * Food and soldiers from a turn's passive income: every farm adds 5 food,
   * every soldier raised cost exactly 2 food, and at most one soldier is
   * raised per barracks.
   */
  lemma {:induction false} PassiveFood(tiles: seq<Kind>, e: Economy)
    ensures var r := PassiveIncome(tiles, e);
      r.food + 2 * (r.soldiers - e.soldiers) == e.food + 5 * multiset(tiles)[Farm] &&
      0 <= r.soldiers - e.soldiers <= multiset(tiles)[Barracks]
  {
    if tiles != [] {
      var n := |tiles| - 1;
      SplitLast(tiles);
      PassiveFood(tiles[..n], e);
    }
  }

  /** With two food per barracks in store at the start, no barracks goes hungry. */
  lemma {:induction false} AmpleFoodFeedsEveryBarracks(tiles: seq<Kind>, e: Economy)
    requires e.food >= 2 * multiset(tiles)[Barracks]
    ensures PassiveIncome(tiles, e).soldiers == e.soldiers + multiset(tiles)[Barracks]
  {
    if tiles != [] {
      var n := |tiles| - 1;
      SplitLast(tiles);
      AmpleFoodFeedsEveryBarracks(tiles[..n], e);
      PassiveFood(tiles[..n], e);
    }
  }

  /** A grid of empty land and the castle yields nothing. */
  lemma {:induction false} IdleGridYieldsNothing(tiles: seq<Kind>, e: Economy)
    requires forall i :: 0 <= i < |tiles| ==> tiles[i] == Empty || tiles[i] == Castle
    ensures PassiveIncome(tiles, e) == e
  {
    if tiles != [] {
      IdleGridYieldsNothing(tiles[..|tiles| - 1], e);
    }
  }

  /** Visiting order matters: a barracks visited first can leave a later one hungry. */
  lemma EarlierBarracksStarvesLater(e: Economy)
    requires 2 <= e.food < 4
    ensures PassiveIncome([Barracks, Barracks], e).soldiers == e.soldiers + 1
    ensures PassiveIncome([Barracks, Barracks], e).food == e.food - 2
  {
    assert [Barracks, Barracks][..1] == [Barracks];
    assert [Barracks][..0] == [];
  }

  /**
   * The level check: at or above the threshold the player rises exactly one
   * level, experience restarts at 0 and the reward is 50 gold and 5 soldiers;
   * below it nothing changes.
   */
  function LevelUp(e: Economy): (r: Economy)
    ensures r.food == e.food && r.turn == e.turn
    ensures r.level == e.level || r.level == e.level + 1
    ensures r.level == e.level + 1 <==> e.experience >= RequiredXP(e.level)
    ensures r.level == e.level + 1 ==> r.experience == 0 && r.gold == e.gold + 50 && r.soldiers == e.soldiers + 5
    ensures r.level == e.level ==> r == e
    ensures e.level >= 0 ==> r.experience < RequiredXP(r.level)
  {
    if e.experience >= RequiredXP(e.level) then
      e.(level := e.level + 1, experience := 0, gold := e.gold + 50, soldiers := e.soldiers + 5)
    else e
  }

  /** A second level check right after a first one never raises the level again. */
  lemma LevelUpSettles(e: Economy)
    requires e.level >= 0
    ensures LevelUp(LevelUp(e)) == LevelUp(e)
  {
  }

  /**
   * One full turn: the counter advances, every tile yields in index order,
   * then the level is checked once.
   */
  function TurnStep(tiles: seq<Kind>, e: Economy): (r: Economy)
    ensures r.turn == e.turn + 1
    ensures r.level == e.level || r.level == e.level + 1
    ensures r.gold >= e.gold && r.soldiers >= e.soldiers
    ensures WellFormed(e) ==> WellFormed(r)
  {
    LevelUp(PassiveIncome(tiles, e.(turn := e.turn + 1)))
  }

  /**
   * `r` is what one turn makes of `e` on `tiles`, stated by census rather than
   * by the visiting order: the turn counter advances by one; gold grows by 8
   * per mine, 5 per market and 50 on a level-up; the soldiers raised by
   * barracks (at most one each) cost 2 food apiece against 5 food per farm;
   * a level-up adds 5 more soldiers and resets experience, and happens
   * exactly when experience had reached the threshold.
   */
  predicate Played(tiles: seq<Kind>, e: Economy, r: Economy)
  {
    var m := multiset(tiles);
    var up := r.level - e.level;
    var raised := r.soldiers - e.soldiers - 5 * up;
    r.turn == e.turn + 1 &&
    (up == 0 || up == 1) &&
    (up == 1 <==> e.experience >= RequiredXP(e.level)) &&
    r.experience == (if up == 1 then 0 else e.experience) &&
    r.gold == e.gold + 8 * m[Mine] + 5 * m[Market] + 50 * up &&
    r.food + 2 * raised == e.food + 5 * m[Farm] &&
    0 <= raised <= m[Barracks]
  }

  /** Every turn's outcome satisfies the census of `Played`. */
  lemma TurnStepCensus(tiles: seq<Kind>, e: Economy)
    ensures Played(tiles, e, TurnStep(tiles, e))
  {
    var next := e.(turn := e.turn + 1);
    PassiveGold(tiles, next);
    PassiveFood(tiles, next);
  }

  /** On a grid that holds no barracks, a turn never lowers the food store. */
  lemma {:induction false} TurnKeepsFoodWithoutBarracks(tiles: seq<Kind>, e: Economy)
    requires multiset(tiles)[Barracks] == 0
    ensures TurnStep(tiles, e).food == e.food + 5 * multiset(tiles)[Farm]
  {
    PassiveFood(tiles, e.(turn := e.turn + 1));
  }
}
