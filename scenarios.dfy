/** Sessions driven through the public methods of `Game`, checked against their contracts alone. */
module Scenarios {
  import opened Options
  import opened Catalog
  import opened Resources
  import opened Turn
  import opened Engine

  /** A new game starts with the fixed counters and the castle alone at the centre. */
  method NewSession()
  {
    var g := new Game();
    assert g.gold == 100 && g.food == 50 && g.soldiers == 10;
    assert g.level == 1 && g.experience == 0 && g.turn == 1;
    assert g.grid.Length == 25 && g.grid[12] == Castle && g.grid[0] == Empty;
  }

  /** A mine bought on empty land costs 30 gold; its tile cannot be selected again. */
  method BuildTwiceOnOneTile()
  {
    var g := new Game();
    g.HandleTileClick(0);
    g.ChooseBuilding(Mine);
    g.BuildStructure();
    assert g.gold == 70 && g.grid[0] == Mine && g.turn == 1;
    g.HandleTileClick(0);
    assert g.selectedTile == None;
    g.ChooseBuilding(Farm);
    g.BuildStructure();
    assert g.gold == 70 && g.grid[0] == Mine;
  }

  /** Clicking the castle never selects it, so building cannot reach it. */
  method CastleIsNeverSelected()
  {
    var g := new Game();
    g.HandleTileClick(Centre);
    assert g.selectedTile == None;
    g.ChooseBuilding(Farm);
    g.BuildStructure();
    assert g.grid[Centre] == Castle && g.gold == 100;
  }

  /** A lost attack with exactly 5 soldiers leaves 3 and plays one idle turn. */
  method LostAttack()
  {
    var g := new Game();
    g.soldiers := 5;
    IdleGridYieldsNothing(g.grid[..], Economy(100, 50, 3, 1, 0, 2));
    g.AttackEnemy(false, 0);
    assert g.soldiers == 3 && g.gold == 100 && g.experience == 0 && g.turn == 2;
  }

  /**
   * A won attack that lifts experience from 95 to 105 raises the level once;
   * experience restarts at 0, not at the 5 points above the threshold.
   */
  method WonAttackLevelsUp()
  {
    var g := new Game();
    g.experience := 95;
    IdleGridYieldsNothing(g.grid[..], Economy(125, 50, 10, 1, 105, 2));
    g.AttackEnemy(true, 0);
    assert g.level == 2 && g.experience == 0;
    assert g.gold == 100 + 25 + 50 && g.soldiers == 15 && g.turn == 2;
  }

  /** One farm and one mine bring 5 food and 8 gold on top of the tax. */
  method FarmAndMineTurn()
  {
    var g := new Game();
    g.HandleTileClick(0);
    g.ChooseBuilding(Farm);
    g.BuildStructure();
    g.HandleTileClick(1);
    g.ChooseBuilding(Mine);
    g.BuildStructure();
    assert g.gold == 50;
    var tiles := g.grid[..];
    assert tiles == [Farm, Mine] + InitialMap()[2..];
    IdleCensus(InitialMap()[2..]);
    assert multiset(tiles)[Farm] == 1 && multiset(tiles)[Mine] == 1;
    assert multiset(tiles)[Market] == 0 && multiset(tiles)[Barracks] == 0;
    g.CollectTax();
    assert g.gold == 50 + 30 + 8 && g.food == 55 && g.turn == 2;
  }

  /** An idle run of tiles counts no producing kind. */
  lemma {:induction false} IdleCensus(s: seq<Kind>)
    requires forall i :: 0 <= i < |s| ==> s[i] == Empty || s[i] == Castle
    ensures multiset(s)[Farm] == 0 && multiset(s)[Mine] == 0
    ensures multiset(s)[Market] == 0 && multiset(s)[Barracks] == 0
  {
    if s != [] {
      var n := |s| - 1;
      assert s == s[..n] + [s[n]];
      IdleCensus(s[..n]);
    }
  }
}
