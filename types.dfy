/** Record shapes of the farming game: crop and animal kinds, catalog
    entries, plots and animal slots. Timestamps are integer milliseconds. */
module Types {

  datatype Option<T> = None | Some(value: T)

  /** Every crop kind the game declares; only six of them have a catalog entry. */
  datatype CropType =
    | Wheat | Corn | Blueberry | Carrot | Strawberry
    | Tomato | Pumpkin | DragonFruit | Pineapple | GiantWatermelon

  datatype AnimalType = Chicken | Cow

  /** The tool selected in the toolbar: a seed bag or a watering can. */
  datatype Tool = SeedTool | WaterTool

  /** The string under which a harvested crop is counted in the inventory
      (the enum's string value). */
  function CropKey(c: CropType): string
  {
    match c
    case Wheat => "WHEAT"
    case Corn => "CORN"
    case Blueberry => "BLUEBERRY"
    case Carrot => "CARROT"
    case Strawberry => "STRAWBERRY"
    case Tomato => "TOMATO"
    case Pumpkin => "PUMPKIN"
    case DragonFruit => "DRAGON_FRUIT"
    case Pineapple => "PINEAPPLE"
    case GiantWatermelon => "GIANT_WATERMELON"
  }

  /** Catalog entry of a crop; growth time in whole seconds. */
  datatype CropData = CropData(
    kind: CropType, name: string, growthTime: int, value: int, cost: int,
    icon: string, color: string, minLevel: Option<int>)

  /** Catalog entry of an animal; production time in whole seconds. */
  datatype AnimalData = AnimalData(
    kind: AnimalType, name: string, produceName: string, produceIcon: string,
    produceTime: int, produceValue: int, cost: int, icon: string)

  /** One plot of farmland: empty, or holding a crop planted at `plantedAt`. */
  datatype Plot = Plot(id: int, crop: Option<CropType>, plantedAt: Option<int>, watered: bool)

  /** An owned animal and the moment its production timer last restarted. */
  datatype AnimalSlot = AnimalSlot(id: int, kind: AnimalType, lastProducedAt: int)

  /** An empty plot with the given id. */
  function EmptyPlot(id: int): Plot
  {
    Plot(id, None, None, false)
  }

  /** Count of `k` in a count map; an absent key counts as zero. */
  function Count<K>(m: map<K, int>, k: K): int
  {
    if k in m then m[k] else 0
  }

  /** `m` with one more `k`, treating an absent key as zero. */
  function AddOne<K>(m: map<K, int>, k: K): (r: map<K, int>)
    ensures r.Keys == m.Keys + {k}
    ensures Count(r, k) == Count(m, k) + 1
    ensures forall j :: j in m && j != k ==> r[j] == m[j]
  {
    m[k := Count(m, k) + 1]
  }

  /** Every count in the map is non-negative. */
  predicate NonNegative<K>(m: map<K, int>)
  {
    forall k :: k in m ==> m[k] >= 0
  }

  /** Distinct crop kinds are counted under distinct inventory keys. */
  lemma CropKeyInjective(c: CropType, d: CropType)
    ensures CropKey(c) == CropKey(d) <==> c == d
  {
  }
}
