/** The pure rules of the game screen: when a crop or an animal is ready,
    how a click finds its plot or animal, and what one unit sells for.
    Times are integer milliseconds, growth and production times whole seconds. */
module Rules {
  import opened Types
  import opened Catalog

  /** XP granted by one harvest and by one animal collection. */
  const HarvestXp: int := 15
  const CollectXp: int := 20

  /** Growth time of a crop; a crop without a catalog entry counts as 0. */
  function GrowthTime(c: CropType): (g: int)
    ensures g >= 0
    ensures Crops(c).Some? ==> g > 0 && g == Crops(c).value.growthTime
    ensures Crops(c).None? ==> g == 0
  {
    match Crops(c)
    case Some(d) => d.growthTime
    case None => 0
  }

  /** The readiness predicate: a planted crop is ready once the time elapsed
      since planting reaches its growth time, or half of it when watered.
      A planting time of 0 is falsy in the game code's test and never ready. */
  predicate IsReady(now: int, plantedAt: Option<int>, watered: bool, growthTime: int)
  {
    && plantedAt.Some?
    && plantedAt.value != 0
    && if watered then 2 * (now - plantedAt.value) >= growthTime * 1000
       else now - plantedAt.value >= growthTime * 1000
  }

  /** A plot is ready to harvest when it holds a crop whose growth is complete. */
  predicate PlotReady(p: Plot, now: int)
  {
    p.crop.Some? && IsReady(now, p.plantedAt, p.watered, GrowthTime(p.crop.value))
  }

  /** An animal is ready once its production time has elapsed since its timer last restarted. */
  predicate AnimalReady(a: AnimalSlot, currentTime: int)
  {
    currentTime - a.lastProducedAt >= Animals(a.kind).produceTime * 1000
  }

  /** Readiness thresholds: unwatered after `growthTime*1000` ms, watered
      after `growthTime*500` ms, and never before. */
  lemma ReadyThresholds(now: int, t: int, g: int)
    requires t != 0
    ensures IsReady(now, Some(t), false, g) <==> now >= t + g * 1000
    ensures IsReady(now, Some(t), true, g) <==> now >= t + g * 500
  {
  }

  /** Once ready, a crop stays ready as time goes on. */
  lemma ReadyMonotone(now: int, later: int, plantedAt: Option<int>, watered: bool, g: int)
    requires now <= later
    requires IsReady(now, plantedAt, watered, g)
    ensures IsReady(later, plantedAt, watered, g)
  {
  }

  /** Watering never makes a ready crop unready. */
  lemma WateringKeepsReady(now: int, plantedAt: Option<int>, g: int)
    requires g >= 0
    requires IsReady(now, plantedAt, false, g)
    ensures IsReady(now, plantedAt, true, g)
  {
  }

  /** A catalog crop planted just now is not ready, watered or not. */
  lemma CropNotReadyAtOnce(c: CropType, now: int, watered: bool)
    requires Crops(c).Some?
    ensures !IsReady(now, Some(now), watered, GrowthTime(c))
  {
  }

  /** An animal whose timer restarted at or after the current time is not ready. */
  lemma AnimalNotReadyAtOnce(a: AnimalSlot, currentTime: int)
    requires currentTime <= a.lastProducedAt
    ensures !AnimalReady(a, currentTime)
  {
  }

  /** `id` of a plot and of an animal, as the lookups below take them. */
  function PlotId(p: Plot): int { p.id }
  function AnimalId(a: AnimalSlot): int { a.id }

  /** Index of the first element whose id is `id`, or None when there is none. */
  function FindIndex<T>(s: seq<T>, idOf: T -> int, id: int): (r: Option<nat>)
    ensures r.Some? ==> r.value < |s| && idOf(s[r.value]) == id
    ensures r.Some? ==> forall j :: 0 <= j < r.value ==> idOf(s[j]) != id
    ensures r.None? ==> forall j :: 0 <= j < |s| ==> idOf(s[j]) != id
    decreases |s|
  {
    if s == [] then None
    else if idOf(s[0]) == id then Some(0)
    else match FindIndex(s[1..], idOf, id)
      case None => None
      case Some(k) => Some(k + 1)
  }

  /** The first catalog crop, in listed order, whose kind key equals `name`. */
  function CropMatch(name: string, order: seq<CropType>): (r: Option<CropData>)
    ensures r.Some? ==> CropKey(r.value.kind) == name && Crops(r.value.kind) == r
    decreases |order|
  {
    if order == [] then None
    else match Crops(order[0])
      case Some(d) =>
        CatalogKeyedByKind();
        if CropKey(d.kind) == name then Some(d) else CropMatch(name, order[1..])
      case None => CropMatch(name, order[1..])
  }

  /** The first animal, in listed order, whose produce is called `name`. */
  function ProduceMatch(name: string, order: seq<AnimalType>): (r: Option<AnimalData>)
    ensures r.Some? ==> r.value.produceName == name && Animals(r.value.kind) == r.value
    decreases |order|
  {
    if order == [] then None
    else
      var d := Animals(order[0]);
      CatalogKeyedByKind();
      if d.produceName == name then Some(d) else ProduceMatch(name, order[1..])
  }

  /** Price of one unit of the inventory item `name`: the crop's value when
      `name` is a crop key, else the produce's value when it is a produce name,
      else 1. A zero price falls through to the next choice. */
  function SellValue(name: string): int
  {
    var crop := CropMatch(name, CropOrder);
    var produce := ProduceMatch(name, AnimalOrder);
    if crop.Some? && crop.value.value != 0 then crop.value.value
    else if produce.Some? && produce.value.produceValue != 0 then produce.value.produceValue
    else 1
  }

  /** Every sale credits at least one coin. */
  lemma SellValuePositive(name: string)
    ensures SellValue(name) >= 1
  {
  }

  /** A harvested crop sells for its catalog value. */
  lemma SellValueOfCrop(c: CropType)
    requires Crops(c).Some?
    ensures SellValue(CropKey(c)) == Crops(c).value.value
  {
    CatalogKeys(c);
    CatalogPositive();
    CropMatchFinds(CropKey(c), CropOrder, c);
    var m := CropMatch(CropKey(c), CropOrder);
    CropKeyInjective(m.value.kind, c);
  }

  /** A crop listed in `order` is found by its key. */
  lemma {:induction false} CropMatchFinds(name: string, order: seq<CropType>, c: CropType)
    requires c in order && Crops(c).Some? && CropKey(c) == name
    ensures CropMatch(name, order).Some?
    decreases |order|
  {
    if order[0] != c {
      CropMatchFinds(name, order[1..], c);
    } else {
      CatalogKeyedByKind();
    }
  }

  /** An animal's produce sells for its catalog produce value. */
  lemma SellValueOfProduce(a: AnimalType)
    ensures SellValue(Animals(a).produceName) == Animals(a).produceValue
  {
  }

  /** An item that is neither a catalog crop's key nor a produce name sells
      for 1; this covers a harvested crop without a catalog entry. */
  lemma SellValueFallback(name: string)
    requires forall c :: Crops(c).Some? ==> CropKey(c) != name
    requires forall a :: Animals(a).produceName != name
    ensures SellValue(name) == 1
  {
  }

  /** A harvested crop without a catalog entry (one a stored plot can still
      hold) sells for 1. */
  lemma SellValueOfUncatalogued(c: CropType)
    requires Crops(c).None?
    ensures SellValue(CropKey(c)) == 1
  {
    forall d | Crops(d).Some?
      ensures CropKey(d) != CropKey(c)
    {
      CropKeyInjective(d, c);
    }
    ProduceNamesDistinct(c);
    SellValueFallback(CropKey(c));
  }
}
