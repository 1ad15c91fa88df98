# Empire economy engine — a Dafny model

This project models the turn-based economy of a small empire-building game
(`game.js`). The player owns a 5×5 grid of land. The centre tile holds the
castle. Every other tile starts empty and can take a farm, a mine, a barracks
or a market, each bought with gold. Four actions are available: collect tax,
train soldiers, diplomacy and attack. Each action either is refused and
changes nothing, or applies its deltas and plays exactly one turn. In a turn
the counter advances, every tile yields in index order, and the level is
checked once. Building does not play a turn.

Layout:

- `options.dfy`: `Option`, used for the two nullable selection slots.
- `catalog.dfy`: the building kinds, their costs, the grid size, the centre
  index and the initial grid.
- `resources.dfy`: the integer counters as one value (`Economy`), the starting
  values, and `WellFormed`, the set of states reachable between actions.
- `turn.dfy`: the per-tile yield, the passive income of a whole grid, the
  level check and one full turn, all as pure functions, with lemmas about
  them. `Played` states a turn's outcome by counting tiles, independently of
  the visiting order; `TurnStepCensus` proves every turn satisfies it.
- `actions.dfy`: the four actions and the dispatcher as pure functions of the
  counters and the grid.
- `engine.dfy`: class `Game`, the mutable game state. It has integer fields,
  the grid as an `array<Kind>` and the two selection slots. Its methods update
  the fields in place. Each method's postcondition ties the new counters to
  the pure functions above, and each method keeps the object invariant
  `Valid()` (described below).
- `scenarios.dfy`: client methods that drive a `Game` through its public
  methods. They prove concrete sessions from the contracts alone: a new game,
  a mine bought twice on one tile, a click on the castle, a lost and a won
  attack, and a turn with a farm and a mine.

The random draws become parameters. `success` is the attack's coin.
`lootRoll` lies in [0,50) and `bonusRoll` in [0,20); they are the whole-number
parts of the scaled random floats. The model adds the source's offsets: loot
is `lootRoll + 25` and the diplomacy bonus is `bonusRoll + 10`.

The object invariant `Valid()` has three parts:

- the counters are `WellFormed`: gold, food and soldiers are non-negative,
  level ≥ 1, turn ≥ 1, and 0 ≤ experience < level·100;
- the grid has 25 tiles and the castle is at index 12;
- a selected tile, if there is one, is empty land.

Every public operation of `Game` requires and ensures it. The helpers
`GenerateMap`, `HideBuildModal`, `NextTurn` and `CheckLevelUp` also run
mid-update inside other methods, where it does not hold. So they do not
require it, but they keep it whenever it held on entry. As a result, building
always writes to empty land and the castle is never overwritten, although
`buildStructure` itself does not re-check the tile.

The source's `map` field is called `grid` here, because `map` is a Dafny
keyword.

The level check sets experience to 0 (`game.js:232`). It does not
carry the excess over to the next level.

## Model

| member | source | states |
|---|---|---|
| Catalog.Cost | game.js:35-42 | only empty land and the castle are free, and no building costs more than 50 gold |
| Catalog.InitialMap | game.js:54-64 | the initial grid has 25 tiles, the castle at index 12 and empty land at every other index |
| Catalog.InitialMapCensus | game.js:54-64 | the initial grid holds exactly one castle and 24 empty tiles |
| Turn.Yield | game.js:199-216 | one tile's passive yield never touches turn, level or experience, never lowers gold or soldiers, never drives food negative; empty land and the castle yield nothing |
| Turn.PassiveIncome | game.js:198-217 | visiting every tile in index order keeps turn, level and experience, never lowers gold or soldiers, and keeps food non-negative |
| Turn.PassiveGold | game.js:204-215 | passive gold equals 8 per mine plus 5 per market, whatever the order of the tiles |
| Turn.PassiveFood | game.js:201-212 | passive food equals 5 per farm minus 2 per soldier raised, and at most one soldier is raised per barracks |
| Turn.AmpleFoodFeedsEveryBarracks | game.js:207-212 | when the turn starts with at least 2 food per barracks, every barracks raises a soldier |
| Turn.IdleGridYieldsNothing | game.js:199-217 | a grid of only empty land and castle leaves the counters as they were |
| Turn.EarlierBarracksStarvesLater | game.js:207-212 | with 2 or 3 food, the first of two barracks eats and the second goes hungry |
| Turn.LevelUp | game.js:228-239 | at or above level·100 experience the level rises by exactly one, experience becomes 0, and the player gains 50 gold and 5 soldiers; below it nothing changes; afterwards experience is below the new threshold |
| Turn.LevelUpSettles | game.js:228-239 | a second level check right after a first never levels again |
| Turn.TurnStep | game.js:195-225 | a turn advances the counter by exactly one, raises the level by at most one, never lowers gold or soldiers, and keeps the counters well-formed |
| Turn.TurnStepCensus | game.js:195-239 | a turn's outcome by census: turn +1; gold +8 per mine, +5 per market, +50 on a level-up; the soldiers raised by barracks (at most one each) cost 2 food apiece against +5 food per farm; a level-up, exactly when experience reached level·100, adds 5 soldiers and resets experience |
| Turn.TurnKeepsFoodWithoutBarracks | game.js:195-217 | on a grid without barracks a turn adds exactly 5 food per farm |
| Actions.TaxStep | game.js:143-148 | tax is never refused: it credits exactly 25 + 5·level gold, then exactly one turn's census outcome follows |
| Actions.TrainStep | game.js:150-161 | training is refused with no change unless gold ≥ 10 and food ≥ 5; otherwise it takes exactly 10 gold and 5 food and gives 3 soldiers, then exactly one turn's census outcome follows |
| Actions.AttackStep | game.js:163-179 | an attack with fewer than 5 soldiers changes nothing; a won attack gives exactly 25 + roll gold and 10 experience, a lost one takes exactly 2 soldiers, leaving at least 3; either way exactly one turn's census outcome follows |
| Actions.DiplomacyStep | game.js:181-192 | diplomacy is refused with no change below 15 gold; otherwise it takes exactly 15 gold and gives exactly 10 + roll food, then exactly one turn's census outcome follows |
| Actions.ActionStep | game.js:310-329 | a dispatched action either changes nothing or plays exactly one turn; tags other than the four actions, including the two build tags, change nothing; the counters stay well-formed |
| Engine.Game.constructor | game.js:7-18 | a new game starts with 100 gold, 50 food, 10 soldiers, level 1, experience 0, turn 1, nothing selected and the initial grid |
| Engine.Game.GenerateMap | game.js:54-64 | the tile-by-tile loop lays out exactly the initial grid, in a fresh array, leaves every other field alone and keeps the invariant |
| Engine.Game.HandleTileClick | game.js:86-92 | clicking empty land selects it and clears the chosen kind; clicking the castle or a built tile leaves the selection untouched |
| Engine.Game.ChooseBuilding | game.js:100-104 | picking a kind in the dialog sets the chosen kind and nothing else |
| Engine.Game.HideBuildModal | game.js:114-118 | closing the dialog clears both selections and nothing else, and keeps the invariant |
| Engine.Game.BuildStructure | game.js:121-140 | without a kind, a tile or enough gold nothing changes; otherwise gold falls by exactly the cost, only the selected tile changes, from empty land to the chosen kind, both selections clear and the turn stays |
| Engine.Game.CollectTax | game.js:143-148 | the new counters are those of the tax step on the current grid; grid and selection are kept |
| Engine.Game.TrainSoldiers | game.js:150-161 | the new counters are those of the training step; grid and selection are kept |
| Engine.Game.AttackEnemy | game.js:163-179 | the new counters are those of the attack step for the given draws; grid and selection are kept |
| Engine.Game.Diplomacy | game.js:181-192 | the new counters are those of the diplomacy step for the given draw; grid and selection are kept |
| Engine.Game.NextTurn | game.js:195-225 | the loop over the grid leaves exactly the counters of one full turn; grid and selection are kept, and so is the invariant |
| Engine.Game.CheckLevelUp | game.js:228-239 | the new counters are those of the level check; grid, selection and the invariant are kept |
| Engine.Game.HandleAction | game.js:310-329 | the new counters are those of the dispatched action; grid and selection are kept; the invariant holds |

## Left out

- Rendering the grid and the counters, the event log and its message texts, building names, icons and benefit texts. These are presentation only (`renderMap`, `updateUI`, `addToLog`).
- The Telegram host: expanding the web app, the main button and its click handler. These are calls into a foreign library.
- Saving to and loading from cloud storage, including the save timestamp, the JSON encoding and the asynchronous merge of a saved state into the live one. This is I/O plus an untyped merge. The model starts every game from the initial state.
- The autosave interval, the visibility handler and the page-load hook. These are host lifecycle and timing.
- The probabilities of the random draws. An attack is won when a float exceeds 0.3, so 70% of the time. The model takes the outcome and the rolls as arguments with their ranges, not their distribution.
- The player's display name. It is opaque text.
- The wiring of the dialog's option buttons and of the confirm and cancel buttons. `ChooseBuilding`, `BuildStructure` and `HideBuildModal` stand for what those handlers do to the state. The set of kinds offered by the dialog lives in the page markup, which is not part of this model, so any catalog kind may be chosen. A kind name outside the catalog cannot be expressed.
- JavaScript numbers are doubles. The counters here are unbounded integers; the two agree for all values below 2^53.
- Engine.Game.HandleTileClick: the source receives the tile's kind as captured when the grid was last drawn. The model reads the current tile instead. The grid is redrawn after every build, the only write to a tile, so the two agree outside the left-out asynchronous restore.
