/** Start-up state of the game: a fresh farm, or the fields of a saved
    snapshot each falling back to its own default. Reading storage and
    parsing JSON are not modelled; their outcome is a `Stored` value. */
module Load {
  import opened Types
  import opened Catalog

  /** What storage yields for one key: nothing (or an empty string), text
      that does not parse, or a parsed value. */
  datatype Stored<T> = Absent | Unreadable | Saved(value: T)

  /** A parsed game-state snapshot. `coins`, `xp` and `level` are the numbers
      the game's code converts them to; the optional fields are None when missing
      or falsy (inventories) or not an array (animals). */
  datatype Snapshot = Snapshot(
    coins: int, xp: int, level: int,
    inventory: Option<map<string, int>>,
    seedInventory: Option<map<CropType, int>>,
    animals: Option<seq<AnimalSlot>>)

  /** The economy part of the game state. */
  datatype GameState = GameState(
    coins: int, xp: int, level: int,
    inventory: map<string, int>,
    seedInventory: map<CropType, int>,
    animals: seq<AnimalSlot>)

  /** Seed stock of a new farm: five wheat seeds, no others. */
  const DefaultSeeds: map<CropType, int> :=
    map[Wheat := 5, Corn := 0, Carrot := 0, Tomato := 0, Pumpkin := 0]

  /** The state of a new farm. */
  function NewGameState(): GameState
  {
    GameState(InitialCoins, 0, 1, map[], DefaultSeeds, [])
  }

  /** The state loaded at start-up: full defaults unless a snapshot parsed,
      otherwise each optional field defaults on its own. */
  function LoadGameState(saved: Stored<Snapshot>): (g: GameState)
    ensures !saved.Saved? ==> g == NewGameState()
    ensures saved.Saved? ==>
      g.coins == saved.value.coins && g.xp == saved.value.xp && g.level == saved.value.level
  {
    match saved
    case Saved(s) =>
      GameState(
        s.coins, s.xp, s.level,
        if s.inventory.Some? then s.inventory.value else map[],
        if s.seedInventory.Some? then s.seedInventory.value else DefaultSeeds,
        if s.animals.Some? then s.animals.value else [])
    case _ => NewGameState()
  }

  /** The plots of a new farm: `InitialPlotCount` empty plots numbered from 0. */
  function InitialPlots(): (ps: seq<Plot>)
    ensures |ps| == InitialPlotCount
    ensures forall i :: 0 <= i < |ps| ==> ps[i] == EmptyPlot(i)
  {
    seq(InitialPlotCount, i => EmptyPlot(i))
  }

  /** The plots loaded at start-up: the saved list as it is, else the initial plots. */
  function LoadPlots(saved: Stored<seq<Plot>>): (ps: seq<Plot>)
    ensures saved.Saved? ==> ps == saved.value
    ensures !saved.Saved? ==> ps == InitialPlots()
  {
    if saved.Saved? then saved.value else InitialPlots()
  }

  /** Each optional field of a parsed snapshot falls back independently: a
      missing seed stock gives the default seeds, a missing inventory an empty
      one, a non-array animal list no animals, and every present field is kept. */
  lemma LoadFieldDefaults(s: Snapshot)
    ensures LoadGameState(Saved(s)).seedInventory == (if s.seedInventory.None? then DefaultSeeds else s.seedInventory.value)
    ensures LoadGameState(Saved(s)).inventory == (if s.inventory.None? then map[] else s.inventory.value)
    ensures LoadGameState(Saved(s)).animals == (if s.animals.None? then [] else s.animals.value)
  {
  }

  /** A new farm has 50 coins, no XP, level 1, five wheat seeds and nothing else. */
  lemma NewGameContents()
    ensures NewGameState().coins == 50 && NewGameState().xp == 0 && NewGameState().level == 1
    ensures NewGameState().inventory == map[] && NewGameState().animals == []
    ensures Count(NewGameState().seedInventory, Wheat) == 5
    ensures forall c :: c != Wheat ==> Count(NewGameState().seedInventory, c) == 0
  {
  }
}
