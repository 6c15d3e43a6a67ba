/** The game engine: one farm whose fields the click handlers update in place. */
module FarmEngine {
  import opened Types
  import opened Catalog
  import opened Rules
  import opened Load

  /** Which branch a click on a plot took. */
  datatype PlotEffect = Harvested | Planted | Watered | NoEffect

  /** A plot is empty, or holds a crop with a planting time; only a planted plot is watered. */
  predicate PlotConsistent(p: Plot)
  {
    (p.crop.Some? <==> p.plantedAt.Some?) && (p.watered ==> p.crop.Some?)
  }

  /** The level that `xp` experience points earn: one level per 100 XP, from level 1. */
  function LevelFor(xp: int): (r: int)
    ensures xp >= 0 ==> r >= 1 && (r - 1) * XpPerLevel <= xp < r * XpPerLevel
  {
    xp / XpPerLevel + 1
  }

  /** The plot list invariant: plot `i` is plot number `i`, there are at most
      `MaxPlotCount` of them, and each is in a consistent state. */
  predicate PlotsValid(ps: seq<Plot>)
  {
    && |ps| <= MaxPlotCount
    && forall i :: 0 <= i < |ps| ==> ps[i].id == i && PlotConsistent(ps[i])
  }

  /** Harvest update: every plot numbered `id` becomes empty. */
  function ClearPlots(ps: seq<Plot>, id: int): (r: seq<Plot>)
    ensures |r| == |ps|
    ensures forall i :: 0 <= i < |ps| ==> r[i] == if ps[i].id == id then EmptyPlot(id) else ps[i]
    ensures PlotsValid(ps) ==> PlotsValid(r)
  {
    seq(|ps|, i requires 0 <= i < |ps| => if ps[i].id == id then EmptyPlot(id) else ps[i])
  }

  /** Planting update: every plot numbered `id` holds `seed`, planted at `now`, unwatered. */
  function PlantPlots(ps: seq<Plot>, id: int, seed: CropType, now: int): (r: seq<Plot>)
    ensures |r| == |ps|
    ensures forall i :: 0 <= i < |ps| ==>
      r[i] == if ps[i].id == id then Plot(id, Some(seed), Some(now), false) else ps[i]
    ensures PlotsValid(ps) ==> PlotsValid(r)
  {
    seq(|ps|, i requires 0 <= i < |ps| => if ps[i].id == id then Plot(id, Some(seed), Some(now), false) else ps[i])
  }

  /** Watering update: every plot numbered `id` is watered; the list stays
      valid when the plot numbered `id` holds a crop. */
  function WaterPlots(ps: seq<Plot>, id: int): (r: seq<Plot>)
    ensures |r| == |ps|
    ensures forall i :: 0 <= i < |ps| ==> r[i] == if ps[i].id == id then ps[i].(watered := true) else ps[i]
    ensures PlotsValid(ps) && (0 <= id < |ps| ==> ps[id].crop.Some?) ==> PlotsValid(r)
  {
    seq(|ps|, i requires 0 <= i < |ps| => if ps[i].id == id then ps[i].(watered := true) else ps[i])
  }

  /** Collection update: every animal numbered `id` restarts its timer at `now`. */
  function ResetAnimals(pen: seq<AnimalSlot>, id: int, now: int): (r: seq<AnimalSlot>)
    ensures |r| == |pen|
    ensures forall i :: 0 <= i < |pen| ==> r[i] == if pen[i].id == id then pen[i].(lastProducedAt := now) else pen[i]
  {
    seq(|pen|, i requires 0 <= i < |pen| => if pen[i].id == id then pen[i].(lastProducedAt := now) else pen[i])
  }

  class Farm {
    var coins: int
    var xp: int
    var level: int
    var inventory: map<string, int>
    var seedInventory: map<CropType, int>
    var animals: seq<AnimalSlot>
    var plots: seq<Plot>

    /** The economy invariant: balances and counts are non-negative, the level
        never runs ahead of the XP, and plot `i` is plot number `i`, one of at
        most `MaxPlotCount`, in a consistent state. */
    ghost predicate Valid()
      reads this
    {
      && coins >= 0
      && xp >= 0
      && 1 <= level <= LevelFor(xp)
      && NonNegative(inventory)
      && NonNegative(seedInventory)
      && PlotsValid(plots)
    }

    /** The economy fields as one value. */
    function State(): GameState
      reads this
    {
      GameState(coins, xp, level, inventory, seedInventory, animals)
    }

    /** The farm at start-up, from what storage holds; with nothing stored it
        is a new farm, which satisfies the invariant. */
    constructor (saved: Stored<Snapshot>, savedPlots: Stored<seq<Plot>>)
      ensures State() == LoadGameState(saved)
      ensures plots == LoadPlots(savedPlots)
      ensures !saved.Saved? && !savedPlots.Saved? ==> Valid()
    {
      var g := LoadGameState(saved);
      coins, xp, level := g.coins, g.xp, g.level;
      inventory, seedInventory, animals := g.inventory, g.seedInventory, g.animals;
      plots := LoadPlots(savedPlots);
    }

    /** One click on plot `id` with the selected tool and seed at time `now`.
        A ready crop is harvested whatever the tool; otherwise the seed tool
        plants on an empty plot when a seed is in stock, and the watering can
        waters a planted, unwatered plot. Every plot with that id is updated. */
    method PlotAction(id: int, tool: Tool, seed: CropType, now: int) returns (effect: PlotEffect)
      modifies this
      ensures old(Valid()) ==> Valid()
      ensures coins == old(coins) && animals == old(animals)
      ensures |plots| == |old(plots)|
      ensures var k := FindIndex(old(plots), PlotId, id);
        && (effect == Harvested <==> k.Some? && PlotReady(old(plots)[k.value], now))
        && (effect == Planted <==>
              k.Some? && tool == SeedTool && old(plots)[k.value].crop.None? && Count(old(seedInventory), seed) > 0)
        && (effect == Watered <==>
              k.Some? && !PlotReady(old(plots)[k.value], now) && tool == WaterTool
              && old(plots)[k.value].crop.Some? && !old(plots)[k.value].watered)
      // harvest: one unit of the crop, 15 XP, level recomputed, plot cleared
      ensures effect == Harvested ==>
        && var crop := old(plots)[FindIndex(old(plots), PlotId, id).value].crop.value;
        && inventory == AddOne(old(inventory), CropKey(crop))
        && xp == old(xp) + HarvestXp && level == LevelFor(xp)
        && seedInventory == old(seedInventory)
        && plots == ClearPlots(old(plots), id)
      // planting: one seed used, the plot holds the seed planted now and unwatered
      ensures effect == Planted ==>
        && seedInventory == old(seedInventory)[seed := Count(old(seedInventory), seed) - 1]
        && inventory == old(inventory) && xp == old(xp) && level == old(level)
        && plots == PlantPlots(old(plots), id, seed, now)
      // watering: only the watered flag changes
      ensures effect == Watered ==>
        && State() == old(State())
        && plots == WaterPlots(old(plots), id)
      ensures effect == NoEffect ==> State() == old(State()) && plots == old(plots)
    {
      var k := FindIndex(plots, PlotId, id);
      if k.None? {
        return NoEffect;
      }
      var plot := plots[k.value];
      if PlotReady(plot, now) {
        Harvest(id, plot.crop.value);
        return Harvested;
      }
      if tool == SeedTool && plot.crop.None? {
        if Count(seedInventory, seed) > 0 {
          Plant(id, seed, now);
          return Planted;
        }
      } else if tool == WaterTool && plot.crop.Some? && !plot.watered {
        Water(id);
        return Watered;
      }
      return NoEffect;
    }

    /** The harvest branch: one more `crop`, 15 more XP, the level recomputed
        from the XP, and the plots numbered `id` emptied. */
    method Harvest(id: int, crop: CropType)
      modifies this
      ensures old(Valid()) ==> Valid()
      ensures inventory == AddOne(old(inventory), CropKey(crop))
      ensures xp == old(xp) + HarvestXp && level == LevelFor(xp)
      ensures plots == ClearPlots(old(plots), id)
      ensures coins == old(coins) && seedInventory == old(seedInventory) && animals == old(animals)
    {
      xp := xp + HarvestXp;
      level := LevelFor(xp);
      inventory := AddOne(inventory, CropKey(crop));
      plots := ClearPlots(plots, id);
    }

    /** The planting branch: one `seed` fewer, and the plots numbered `id`
        hold it, planted at `now` and unwatered. */
    method Plant(id: int, seed: CropType, now: int)
      modifies this
      ensures old(Valid()) && Count(old(seedInventory), seed) > 0 ==> Valid()
      ensures seedInventory == old(seedInventory)[seed := Count(old(seedInventory), seed) - 1]
      ensures plots == PlantPlots(old(plots), id, seed, now)
      ensures coins == old(coins) && xp == old(xp) && level == old(level)
      ensures inventory == old(inventory) && animals == old(animals)
    {
      seedInventory := seedInventory[seed := Count(seedInventory, seed) - 1];
      plots := PlantPlots(plots, id, seed, now);
    }

    /** The watering branch: the plots numbered `id` are watered. */
    method Water(id: int)
      modifies this
      ensures old(Valid()) && (0 <= id < |old(plots)| ==> old(plots)[id].crop.Some?) ==> Valid()
      ensures plots == WaterPlots(old(plots), id)
      ensures State() == old(State())
    {
      plots := WaterPlots(plots, id);
    }

    /** One click on animal `animalId`. Readiness is judged at `currentTime`,
        the last clock tick; on success the timer restarts at `now`, every
        animal with that id is reset, the produce is credited and 20 XP granted
        without touching the level. */
    method CollectAnimal(animalId: int, currentTime: int, now: int) returns (collected: bool)
      modifies this
      ensures old(Valid()) ==> Valid()
      ensures coins == old(coins) && level == old(level) && seedInventory == old(seedInventory)
      ensures plots == old(plots)
      ensures var k := FindIndex(old(animals), AnimalId, animalId);
        && (collected <==> k.Some? && AnimalReady(old(animals)[k.value], currentTime))
        && (collected ==>
              && inventory == AddOne(old(inventory), Animals(old(animals)[k.value].kind).produceName)
              && xp == old(xp) + CollectXp)
      ensures collected ==> animals == ResetAnimals(old(animals), animalId, now)
      ensures !collected ==> State() == old(State())
    {
      var k := FindIndex(animals, AnimalId, animalId);
      if k.None? {
        return false;
      }
      var data := Animals(animals[k.value].kind);
      collected := AnimalReady(animals[k.value], currentTime);
      if collected {
        xp := xp + CollectXp;
        inventory := AddOne(inventory, data.produceName);
        animals := ResetAnimals(animals, animalId, now);
      }
    }

    /** Unlock a plot: while fewer than `MaxPlotCount` plots exist and the farm
        can pay `PlotUnlockCost`, pay it and append an empty plot numbered by
        the old plot count. */
    method UnlockPlot() returns (unlocked: bool)
      modifies this
      ensures old(Valid()) ==> Valid()
      ensures unlocked <==> |old(plots)| < MaxPlotCount && old(coins) >= PlotUnlockCost
      ensures unlocked ==> coins == old(coins) - PlotUnlockCost && plots == old(plots) + [EmptyPlot(|old(plots)|)]
      ensures !unlocked ==> coins == old(coins) && plots == old(plots)
      ensures xp == old(xp) && level == old(level) && animals == old(animals)
      ensures inventory == old(inventory) && seedInventory == old(seedInventory)
    {
      unlocked := |plots| < MaxPlotCount && coins >= PlotUnlockCost;
      if unlocked {
        coins := coins - PlotUnlockCost;
        plots := plots + [EmptyPlot(|plots|)];
      }
    }

    /** Buy one seed of catalog crop `c` when the farm can pay its cost. */
    method BuySeed(c: CropType) returns (bought: bool)
      requires Crops(c).Some?
      modifies this
      ensures old(Valid()) ==> Valid()
      ensures bought <==> old(coins) >= Crops(c).value.cost
      ensures bought ==> coins == old(coins) - Crops(c).value.cost && seedInventory == AddOne(old(seedInventory), c)
      ensures !bought ==> coins == old(coins) && seedInventory == old(seedInventory)
      ensures xp == old(xp) && level == old(level) && inventory == old(inventory)
      ensures animals == old(animals) && plots == old(plots)
    {
      var cost := Crops(c).value.cost;
      bought := coins >= cost;
      if bought {
        CatalogPositive();
        coins := coins - cost;
        seedInventory := AddOne(seedInventory, c);
      }
    }

    /** Sell one unit of inventory item `name`; the sale is offered only while
        the farm holds some of it, and credits `SellValue(name)`. */
    method Sell(name: string) returns (sold: bool)
      modifies this
      ensures old(Valid()) ==> Valid()
      ensures sold <==> name in old(inventory) && old(inventory)[name] > 0
      ensures sold ==> coins == old(coins) + SellValue(name) && inventory == old(inventory)[name := old(inventory)[name] - 1]
      ensures !sold ==> coins == old(coins) && inventory == old(inventory)
      ensures xp == old(xp) && level == old(level) && seedInventory == old(seedInventory)
      ensures animals == old(animals) && plots == old(plots)
    {
      sold := name in inventory && inventory[name] > 0;
      if sold {
        SellValuePositive(name);
        coins := coins + SellValue(name);
        inventory := inventory[name := inventory[name] - 1];
      }
    }
  }

  /** Two collections of the same animal with no tick in between: the second
      credits nothing, since the timer restarted at or after the tick. */
  method CollectTwice(farm: Farm, animalId: int, currentTime: int, now: int) returns (first: bool, second: bool)
    requires currentTime <= now
    modifies farm
    ensures !second
    ensures first ==> farm.xp == old(farm.xp) + CollectXp
    ensures !first ==> farm.State() == old(farm.State())
  {
    first := farm.CollectAnimal(animalId, currentTime, now);
    second := farm.CollectAnimal(animalId, currentTime, now);
    if first {
      var k := FindIndex(farm.animals, AnimalId, animalId);
      assert k.Some?;
      AnimalNotReadyAtOnce(farm.animals[k.value], currentTime);
    }
  }

  /** Two clicks with the watering can on the same plot at the same moment:
      the second never waters again. It can only harvest, when the first
      watering made the crop ready; otherwise it changes nothing. */
  method WaterTwice(farm: Farm, id: int, seed: CropType, now: int) returns (first: PlotEffect, second: PlotEffect)
    modifies farm
    ensures second != Watered && second != Planted
    ensures first != Watered ==> second == NoEffect
  {
    first := farm.PlotAction(id, WaterTool, seed, now);
    second := farm.PlotAction(id, WaterTool, seed, now);
  }

  /** A new farm buys a wheat seed, plants it at time 1000 and harvests it 5
      seconds later, not a millisecond sooner. */
  method WheatRun() returns (farm: Farm)
    ensures farm.coins == 48 && Count(farm.seedInventory, Wheat) == 5
    ensures Count(farm.inventory, CropKey(Wheat)) == 1 && farm.xp == 15 && farm.level == 1
    ensures |farm.plots| == InitialPlotCount && farm.plots[0] == EmptyPlot(0)
  {
    farm := new Farm(Absent, Absent);
    var bought := farm.BuySeed(Wheat);
    assert bought && farm.coins == 48 && Count(farm.seedInventory, Wheat) == 6;
    var effect := farm.PlotAction(0, SeedTool, Wheat, 1000);
    assert effect == Planted;
    assert farm.plots[0] == Plot(0, Some(Wheat), Some(1000), false);
    effect := farm.PlotAction(0, SeedTool, Wheat, 5999);
    assert effect == NoEffect;
    effect := farm.PlotAction(0, SeedTool, Wheat, 6000);
    assert effect == Harvested;
  }

  /** A new farm plants a wheat seed at time 1000 and waters it at once: it is
      not ready 2499 ms later and is harvested 2500 ms later. */
  method WateredWheatRun() returns (farm: Farm)
    ensures Count(farm.seedInventory, Wheat) == 4 && Count(farm.inventory, CropKey(Wheat)) == 1
    ensures |farm.plots| == InitialPlotCount && farm.plots[0] == EmptyPlot(0)
  {
    farm := new Farm(Absent, Absent);
    var effect := farm.PlotAction(0, SeedTool, Wheat, 1000);
    assert effect == Planted;
    assert farm.plots[0] == Plot(0, Some(Wheat), Some(1000), false);
    effect := farm.PlotAction(0, WaterTool, Wheat, 1000);
    assert effect == Watered;
    assert farm.plots[0] == Plot(0, Some(Wheat), Some(1000), true);
    effect := farm.PlotAction(0, WaterTool, Wheat, 3499);
    assert effect == NoEffect;
    effect := farm.PlotAction(0, WaterTool, Wheat, 3500);
    assert effect == Harvested;
  }
}
