/**
 * The game state as the mutable record the game keeps: integer counters,
 * the 25-tile grid as an array, and the two selection slots of the build
 * dialog. Every method updates the fields in place and is specified by the
 * pure step functions of `Turn` and `Actions`.
 */
module Engine {
  import opened Options
  import opened Catalog
  import opened Resources
  import opened Turn
  import opened Actions

  class Game {
    var gold: int
    var food: int
    var soldiers: int
    var level: int
    var experience: int
    var turn: int
    var grid: array<Kind>  // the source's `map` field (a keyword here)
    var selectedTile: Option<int>
    var selectedBuilding: Option<Kind>

    /** The integer counters as one value. */
    function Econ(): Economy
      reads this
    {
      Economy(gold, food, soldiers, level, experience, turn)
    }

    /**
     * The object invariant: a well-formed economy, a 25-tile grid with the
     * castle at its centre, and a selected tile (if any) that is empty land.
     */
    ghost predicate Valid()
      reads this, grid
    {
      WellFormed(Econ()) &&
      grid.Length == MapSize && grid[Centre] == Castle &&
      (selectedTile.Some? ==> 0 <= selectedTile.value < MapSize && grid[selectedTile.value] == Empty)
    }

    /** The build dialog is ready to build: a kind and a tile are chosen and the gold suffices. */
    predicate CanBuild()
      reads this
    {
      selectedBuilding.Some? && selectedTile.Some? && gold >= Cost(selectedBuilding.value)
    }

    /** Neither the grid array nor the selection changed. */
    twostate predicate GridAndSelectionKept()
      reads this
    {
      grid == old(grid) && selectedTile == old(selectedTile) && selectedBuilding == old(selectedBuilding)
    }

    /** A new game: the starting counters, nothing selected, and a freshly generated grid. */
    constructor ()
      ensures Valid() && fresh(grid)
      ensures Econ() == Start && grid[..] == InitialMap()
      ensures selectedTile == None && selectedBuilding == None
    {
      gold, food, soldiers := 100, 50, 10;
      level, experience, turn := 1, 0, 1;
      grid := new Kind[0];
      selectedTile, selectedBuilding := None, None;
      new;
      GenerateMap();
    }

    /** Lays out the grid tile by tile: the castle at the centre, empty land elsewhere. */
    method GenerateMap()
      modifies this
      ensures fresh(grid) && grid[..] == InitialMap()
      ensures old(Valid()) ==> Valid()
      ensures Econ() == old(Econ())
      ensures selectedTile == old(selectedTile) && selectedBuilding == old(selectedBuilding)
    {
      var tiles := new Kind[MapSize];
      var i := 0;
      while i < MapSize
        modifies tiles
        invariant 0 <= i <= MapSize
        invariant forall j :: 0 <= j < i ==> tiles[j] == InitialMap()[j]
      {
        tiles[i] := if i == Centre then Castle else Empty;
        i := i + 1;
      }
      grid := tiles;
    }

    /**
     * A click on a tile: empty land becomes the selected tile and the build
     * dialog opens with no kind chosen; any other tile leaves the selection as it was.
     */
    method HandleTileClick(index: int)
      requires Valid() && 0 <= index < MapSize
      modifies this
      ensures Valid() && Econ() == old(Econ()) && grid == old(grid)
      ensures old(grid[index]) == Empty ==> selectedTile == Some(index) && selectedBuilding == None
      ensures old(grid[index]) != Empty ==>
        selectedTile == old(selectedTile) && selectedBuilding == old(selectedBuilding)
    {
      if grid[index] == Empty {
        selectedTile := Some(index);
        selectedBuilding := None;
      }
    }

    /** Picking a kind in the open build dialog. */
    method ChooseBuilding(k: Kind)
      requires Valid()
      modifies this
      ensures Valid() && Econ() == old(Econ()) && grid == old(grid)
      ensures selectedBuilding == Some(k) && selectedTile == old(selectedTile)
    {
      selectedBuilding := Some(k);
    }

    /** Closing the build dialog clears both selections. */
    method HideBuildModal()
      modifies this
      ensures old(Valid()) ==> Valid()
      ensures selectedTile == None && selectedBuilding == None
      ensures Econ() == old(Econ()) && grid == old(grid)
    {
      selectedTile := None;
      selectedBuilding := None;
    }

    /**
     * Confirming the build dialog. Without a chosen kind, a chosen tile or
     * enough gold nothing changes. Otherwise the cost is paid, the selected
     * tile (always empty land) takes the kind, the dialog closes, and the
     * turn does not advance.
     */
    method BuildStructure()
      requires Valid()
      modifies this, grid
      ensures Valid() && grid == old(grid)
      ensures !old(CanBuild()) ==>
        grid[..] == old(grid[..]) && Econ() == old(Econ()) &&
        selectedTile == old(selectedTile) && selectedBuilding == old(selectedBuilding)
      ensures old(CanBuild()) ==>
        var k, t := old(selectedBuilding.value), old(selectedTile.value);
        old(grid[t]) == Empty && grid[..] == old(grid[..])[t := k] &&
        Econ() == old(Econ()).(gold := old(gold) - Cost(k)) &&
        selectedTile == None && selectedBuilding == None
    {
      if selectedBuilding.None? || selectedTile.None? {
        return;
      }
      var k, t := selectedBuilding.value, selectedTile.value;
      if gold >= Cost(k) {
        gold := gold - Cost(k);
        grid[t] := k;
        HideBuildModal();
      }
    }

    /** Collecting tax, then one turn. */
    method CollectTax()
      requires Valid()
      modifies this
      ensures Valid() && GridAndSelectionKept()
      ensures Econ() == TaxStep(old(Econ()), grid[..])
    {
      gold := gold + TaxAmount(level);
      NextTurn();
    }

    /** Training soldiers when 10 gold and 5 food are at hand, then one turn. */
    method TrainSoldiers()
      requires Valid()
      modifies this
      ensures Valid() && GridAndSelectionKept()
      ensures Econ() == TrainStep(old(Econ()), grid[..])
    {
      if gold >= 10 && food >= 5 {
        gold := gold - 10;
        food := food - 5;
        soldiers := soldiers + 3;
        NextTurn();
      }
    }

    /** Attacking with at least 5 soldiers, then one turn; the outcome and loot are drawn by the caller. */
    method AttackEnemy(success: bool, lootRoll: nat)
      requires Valid() && lootRoll < 50
      modifies this
      ensures Valid() && GridAndSelectionKept()
      ensures Econ() == AttackStep(old(Econ()), grid[..], success, lootRoll)
    {
      if soldiers >= 5 {
        if success {
          var loot := lootRoll + 25;
          gold := gold + loot;
          experience := experience + 10;
        } else {
          soldiers := soldiers - 2;
        }
        NextTurn();
      }
    }

    /** Diplomacy with at least 15 gold, then one turn; the food bonus is drawn by the caller. */
    method Diplomacy(bonusRoll: nat)
      requires Valid() && bonusRoll < 20
      modifies this
      ensures Valid() && GridAndSelectionKept()
      ensures Econ() == DiplomacyStep(old(Econ()), grid[..], bonusRoll)
    {
      if gold >= 15 {
        gold := gold - 15;
        var bonus := bonusRoll + 10;
        food := food + bonus;
        NextTurn();
      }
    }

    /**
     * One turn: the counter goes up, every tile yields in index order on the
     * running totals, then the level is checked.
     */
    method NextTurn()
      modifies this
      ensures GridAndSelectionKept()
      ensures Econ() == TurnStep(grid[..], old(Econ()))
      ensures old(Valid()) ==> Valid()
    {
      turn := turn + 1;
      ghost var before := Econ();
      var i := 0;
      while i < grid.Length
        invariant 0 <= i <= grid.Length
        invariant GridAndSelectionKept()
        invariant Econ() == PassiveIncome(grid[..i], before)
      {
        match grid[i] {
          case Farm =>
            food := food + 5;
          case Mine =>
            gold := gold + 8;
          case Barracks =>
            if food >= 2 {
              soldiers := soldiers + 1;
              food := food - 2;
            }
          case Market =>
            gold := gold + 5;
          case _ =>
        }
        assert grid[..i + 1][..i] == grid[..i];
        i := i + 1;
      }
      assert grid[..i] == grid[..];
      CheckLevelUp();
    }

    /** The level check on the current counters. */
    method CheckLevelUp()
      modifies this
      ensures GridAndSelectionKept()
      ensures Econ() == LevelUp(old(Econ()))
      ensures old(Valid()) ==> Valid()
    {
      if experience >= RequiredXP(level) {
        level := level + 1;
        experience := 0;
        gold := gold + 50;
        soldiers := soldiers + 5;
      }
    }

    /** Dispatching an action button by its tag. */
    method HandleAction(action: string, success: bool, lootRoll: nat, bonusRoll: nat)
      requires Valid() && lootRoll < 50 && bonusRoll < 20
      modifies this
      ensures Valid() && GridAndSelectionKept()
      ensures Econ() == ActionStep(action, old(Econ()), grid[..], success, lootRoll, bonusRoll)
    {
      if action == "collect-tax" {
        CollectTax();
      } else if action == "train-soldiers" {
        TrainSoldiers();
      } else if action == "build-farm" || action == "build-mine" {
        // these tags are served by the build dialog, not here
      } else if action == "diplomacy" {
        Diplomacy(bonusRoll);
      } else if action == "attack" {
        AttackEnemy(success, lootRoll);
      }
    }
  }
}
