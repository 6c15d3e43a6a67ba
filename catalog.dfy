/** The game's read-only catalog: crop and animal definitions and the
    economy constants. */
module Catalog {
  import opened Types

  const XpPerLevel: int := 100
  const InitialCoins: int := 50
  const InitialPlotCount: int := 6
  const MaxPlotCount: int := 12
  const PlotUnlockCost: int := 200

  /** The catalog crops in the order they are listed (the iteration order of
      the crop table). */
  const CropOrder: seq<CropType> := [Wheat, Corn, Carrot, Tomato, Pumpkin, DragonFruit]

  /** The animal kinds in the order they are listed. */
  const AnimalOrder: seq<AnimalType> := [Chicken, Cow]

  /** The crop table; the four kinds without an entry give None. */
  function Crops(c: CropType): Option<CropData>
  {
    match c
    case Wheat => Some(CropData(Wheat, "Trigo", 5, 12, 2, "🌾", "bg-yellow-200", None))
    case Corn => Some(CropData(Corn, "Milho", 15, 35, 5, "🌽", "bg-yellow-400", None))
    case Carrot => Some(CropData(Carrot, "Cenoura", 30, 90, 10, "🥕", "bg-orange-400", None))
    case Tomato => Some(CropData(Tomato, "Tomate", 60, 280, 25, "🍅", "bg-red-400", None))
    case Pumpkin => Some(CropData(Pumpkin, "Abóbora", 120, 750, 50, "🎃", "bg-orange-600", None))
    case DragonFruit => Some(CropData(DragonFruit, "Fruta Dragão", 300, 2500, 200, "🐲", "bg-purple-600", Some(10)))
    case _ => None
  }

  /** The animal table; every animal kind has an entry. */
  function Animals(a: AnimalType): AnimalData
  {
    match a
    case Chicken => AnimalData(Chicken, "Galinha", "Ovo", "🥚", 20, 80, 100, "🐔")
    case Cow => AnimalData(Cow, "Vaca", "Leite", "🥛", 45, 250, 250, "🐄")
  }

  /** A crop has a catalog entry exactly when it is one of the listed six. */
  lemma CatalogKeys(c: CropType)
    ensures Crops(c).Some? <==> c in CropOrder
  {
  }

  /** Each entry is filed under its own kind, which the sale-price lookup by kind relies on. */
  lemma CatalogKeyedByKind()
    ensures forall c :: Crops(c).Some? ==> Crops(c).value.kind == c
    ensures forall a :: Animals(a).kind == a
  {
  }

  /** Growth and production times are positive, and every crop sells for more than its seed costs. */
  lemma CatalogPositive()
    ensures forall c :: Crops(c).Some? ==> Crops(c).value.growthTime > 0
    ensures forall c :: Crops(c).Some? ==> Crops(c).value.value > Crops(c).value.cost > 0
    ensures forall a :: Animals(a).produceTime > 0 && Animals(a).produceValue > 0
  {
  }

  /** Growth time, sale value and seed cost strictly increase along the listed order. */
  lemma CropsIncreasing(i: int, j: int)
    requires 0 <= i < j < |CropOrder|
    ensures Crops(CropOrder[i]).Some? && Crops(CropOrder[j]).Some?
    ensures Crops(CropOrder[i]).value.growthTime < Crops(CropOrder[j]).value.growthTime
    ensures Crops(CropOrder[i]).value.value < Crops(CropOrder[j]).value.value
    ensures Crops(CropOrder[i]).value.cost < Crops(CropOrder[j]).value.cost
  {
  }

  /** The produce names differ from each other and from every crop key, so a
      name in the inventory resolves to at most one price. */
  lemma ProduceNamesDistinct(c: CropType)
    ensures Animals(Chicken).produceName != Animals(Cow).produceName
    ensures Animals(Chicken).produceName != CropKey(c)
    ensures Animals(Cow).produceName != CropKey(c)
  {
  }

  /** A fresh farm fits within the plot limit, and cannot afford to unlock a plot. */
  lemma EconomyConstants()
    ensures 0 < InitialPlotCount <= MaxPlotCount
    ensures PlotUnlockCost > InitialCoins
    ensures XpPerLevel > 0
  {
  }

  /** Only the dragon fruit carries a minimum level, and it is 10. */
  lemma OnlyDragonFruitHasMinLevel(c: CropType)
    requires Crops(c).Some?
    ensures Crops(c).value.minLevel == if c == DragonFruit then Some(10) else None
  {
  }
}
