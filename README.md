# Farming game engine in Dafny

This project models the engine of a casual farming game. The engine lives in the game screen's click handlers. A farm has coins, experience points (XP), a level, an inventory of harvested goods and animal produce keyed by item name, a seed stock keyed by crop kind, a list of plots and a list of animals. Each handler is one atomic update of that state:

- A click on a plot harvests a ready crop, whatever tool is selected. Otherwise the seed tool plants on an empty plot and the watering can waters a planted plot.
- A click on an animal collects its produce once its production time has passed. The production timer then restarts.
- A button below the plots buys a new plot. The store sells seeds and buys back goods.

A crop is ready when the time since planting reaches its growth time. A watered crop needs half that time. Readiness is computed from stored timestamps whenever it is asked for. A separate notifier shows "harvest ready" desktop notifications, at most one every 30 seconds.

Files, one module each:

- `types.dfy` (`Types`): the record shapes, the inventory key of a crop, and counts in which an absent key counts as zero.
- `catalog.dfy` (`Catalog`): the crop and animal tables, the economy constants, and lemmas about the catalog's contents.
- `rules.dfy` (`Rules`): the readiness predicates, the lookup of the clicked plot or animal, and the sale price of an item.
- `load.dfy` (`Load`): the start-up state, with each field falling back to its default on its own.
- `farm.dfy` (`FarmEngine`): the class `Farm` with one method per handler, plus client methods that exercise the contracts.
- `notifications.dfy` (`Notifications`): the throttled notifier as a class, and the spacing property over any run of requests.

Times are integer milliseconds. Growth and production times are whole seconds. The handler compares `elapsed / 1000` with the growth time, or with half of it when the crop is watered, in floating point. Here that is stated exactly in integers: `now - plantedAt >= growthTime * 1000` when unwatered, and `2 * (now - plantedAt) >= growthTime * 1000` when watered.

`Farm.Valid()` is the economy invariant. It says:

- coins, XP, every inventory count and every seed count are non-negative;
- `1 <= level <= xp / 100 + 1`;
- plot `i` has id `i`, and there are at most 12 plots;
- a plot holds a crop exactly when it has a planting time, and only a planted plot is watered.

A new farm satisfies it. Every handler keeps it (`old(Valid()) ==> Valid()`), so it holds after any sequence of actions. The handlers do not require it, because the game runs them on whatever state it holds.

The types declare more than the handlers use (an `unlocked` flag on plots, a crop's `minLevel`, an animal store tab). The model follows the handlers:

- Plots have no `unlocked` flag. Unlocking appends a new empty plot.
- No level is checked when planting or buying.
- There is no buy-animal operation.
- The level is recomputed as `xp / 100 + 1`, and only on a harvest. There is no per-level threshold loop.
- Every harvest gives 15 XP and every collection gives 20 XP.
- An item that is neither a catalog crop's key nor a produce name sells for 1. This includes a harvested crop that has no catalog entry.
- A crop planted at time 0 is never ready, because the handler tests the planting time for truthiness. Such a plot still holds its crop: it cannot be replanted, and it can be watered.

## Model

| member | source | states |
|---|---|---|
| `Types.AddOne` | App.tsx:109 | crediting one item adds exactly 1 to that key's count, with an absent key counting as 0, and leaves every other count as it was |
| `Types.CropKeyInjective` | types.ts:2-13 | two crop kinds have the same inventory key only if they are the same kind |
| `Catalog.CatalogKeys` | constants.tsx:4-60 | exactly the six listed crops have a catalog entry; the other four declared kinds have none |
| `Catalog.CatalogKeyedByKind` | constants.tsx:4-83 | every crop entry and every animal entry is filed under its own kind |
| `Catalog.CatalogPositive` | constants.tsx:4-83 | every growth time and every production time is positive, every produce value is positive, and every crop sells for more than its seed costs |
| `Catalog.CropsIncreasing` | constants.tsx:5-59 | growth time, value and cost strictly increase along the listed order from wheat to dragon fruit |
| `Catalog.ProduceNamesDistinct` | constants.tsx:62-83 | "Ovo" and "Leite" differ from each other and from every crop key |
| `Catalog.EconomyConstants` | constants.tsx:85-89 | 0 < 6 initial plots <= 12 maximum plots, the unlock cost 200 exceeds the 50 starting coins, and XP per level is positive |
| `Catalog.OnlyDragonFruitHasMinLevel` | constants.tsx:50-59 | among the catalog crops, only the dragon fruit has a minimum level, and it is 10 |
| `Rules.GrowthTime` | App.tsx:95-97 | the growth time used for readiness is the catalog growth time, which is positive, for a catalog crop, and 0 for a crop without an entry |
| `Rules.IsReady` | App.tsx:97-98 | the readiness test on a planting time; its exact thresholds, persistence and watering properties are the three lemmas below |
| `Rules.PlotReady` | App.tsx:100 | a plot is ready to harvest when it holds a crop and `IsReady` holds for its planting time, watered flag and growth time; `CropNotReadyAtOnce` states that a just-planted crop is not |
| `Rules.AnimalReady` | App.tsx:133 | an animal is ready once its production time has passed since its timer restarted; `AnimalNotReadyAtOnce` states that a just-restarted animal is not |
| `Rules.ReadyThresholds` | App.tsx:97-98 | a crop planted at a non-zero time t is ready unwatered exactly from t + growthTime*1000 ms, and watered exactly from t + growthTime*500 ms |
| `Rules.ReadyMonotone` | App.tsx:97-98 | once ready, a crop stays ready at every later time |
| `Rules.WateringKeepsReady` | App.tsx:97-98 | watering never makes a ready crop unready |
| `Rules.CropNotReadyAtOnce` | App.tsx:97-98 | a catalog crop planted just now is not ready, watered or not |
| `Rules.AnimalNotReadyAtOnce` | App.tsx:133 | an animal whose timer restarted at or after the current tick is not ready |
| `Rules.FindIndex` | App.tsx:93 | the lookup returns the first element with the clicked id, or nothing when no element has it |
| `Rules.CropMatch` | App.tsx:295 | the crop found for an item name is the catalog entry whose kind key equals that name |
| `Rules.ProduceMatch` | App.tsx:296 | the animal found for an item name is the catalog entry whose produce is called that name |
| `Rules.CropMatchFinds` | App.tsx:295 | a catalog crop in the searched list is always found by its key |
| `Rules.SellValue` | App.tsx:295-297 | the price of one unit: the crop's value, else the produce's value, else 1; its properties are the five lemmas below |
| `Rules.SellValuePositive` | App.tsx:297 | every sale credits at least one coin |
| `Rules.SellValueOfCrop` | App.tsx:295-297 | a harvested crop sells for its catalog value |
| `Rules.SellValueOfProduce` | App.tsx:296-297 | an egg or a milk sells for its animal's produce value |
| `Rules.SellValueFallback` | App.tsx:295-297 | an item that is neither a catalog crop's key nor a produce name sells for 1 |
| `Rules.SellValueOfUncatalogued` | App.tsx:295-297 | a harvested crop without a catalog entry sells for 1 |
| `Load.LoadGameState` | App.tsx:19-39 | when nothing is stored or the stored text does not parse, the state is a new farm; a parsed snapshot keeps its coins, XP and level |
| `Load.LoadFieldDefaults` | App.tsx:32-34 | each optional field defaults on its own: a missing seed stock gives the default seeds, a missing inventory an empty one, and a non-array animal list no animals |
| `Load.NewGameState` | App.tsx:20-38 | the state of a new farm; its contents are stated by `NewGameContents` |
| `Load.NewGameContents` | App.tsx:20-38 | a new farm has 50 coins, 0 XP, level 1, 5 wheat seeds, no other seeds, an empty inventory and no animals |
| `Load.InitialPlots` | App.tsx:46-48 | a new farm has 6 plots, where plot i is empty and has id i |
| `Load.LoadPlots` | App.tsx:41-49 | the stored plot list is used as it is; otherwise the farm starts with the initial plots |
| `FarmEngine.LevelFor` | App.tsx:108 | for non-negative XP the level is at least 1, and xp lies in [(level-1)*100, level*100) |
| `FarmEngine.ClearPlots` | App.tsx:112 | the harvest update empties every plot with the clicked id, leaves the others alone, and keeps the plot-list invariant |
| `FarmEngine.PlantPlots` | App.tsx:122 | the planting update puts the seed, planted now and unwatered, on every plot with the clicked id, leaves the others alone, and keeps the plot-list invariant |
| `FarmEngine.WaterPlots` | App.tsx:125 | the watering update sets only the watered flag of the plots with the clicked id, and keeps the plot-list invariant when that plot holds a crop |
| `FarmEngine.ResetAnimals` | App.tsx:142 | the collection update restarts only the timers of the animals with the clicked id |
| `FarmEngine.Farm.constructor` | App.tsx:19-49 | the farm starts from the loaded state and plots; with nothing stored it satisfies the invariant |
| `FarmEngine.Farm.PlotAction` | App.tsx:92-127 | a ready crop is harvested whatever the tool: +1 of that crop, +15 XP, level recomputed, the plot cleared. Otherwise the seed tool plants on an empty plot with a seed in stock, using exactly one seed and recording now, unwatered. Otherwise the watering can waters a planted, unwatered plot. In every other case nothing changes. Coins and animals never change, and the invariant is kept |
| `FarmEngine.Farm.Harvest` | App.tsx:103-112 | the harvest branch adds one unit of the crop and 15 XP, sets the level to xp/100 + 1, empties the clicked plot, and keeps the invariant |
| `FarmEngine.Farm.Plant` | App.tsx:118-122 | the planting branch takes exactly one seed of the chosen kind and puts that seed on the clicked plot, planted now and unwatered. It keeps the invariant when a seed was in stock |
| `FarmEngine.Farm.Water` | App.tsx:125 | the watering branch changes only the clicked plot's watered flag, and keeps the invariant when that plot holds a crop |
| `FarmEngine.Farm.CollectAnimal` | App.tsx:129-145 | a collection succeeds exactly when the first animal with that id has waited its production time at the current tick. It then credits one unit of that animal's produce and 20 XP, leaves the level as it was, and restarts the timers at now. Otherwise nothing changes. The invariant is kept |
| `FarmEngine.Farm.UnlockPlot` | App.tsx:197-199 | a plot is unlocked exactly when there are fewer than 12 plots and at least 200 coins. The unlock debits 200 and appends an empty plot whose id is the old plot count. Otherwise nothing changes. The invariant is kept |
| `FarmEngine.Farm.BuySeed` | App.tsx:289 | a seed is bought exactly when the coins cover its cost; the purchase debits exactly the cost and adds one seed of that crop. Otherwise nothing changes. The invariant is kept |
| `FarmEngine.Farm.Sell` | App.tsx:293-308 | a sale happens exactly when the item's count is positive; it credits the item's price and takes one unit. Otherwise nothing changes. The invariant is kept |
| `FarmEngine.CollectTwice` | App.tsx:129-145 | collecting the same animal twice without a new tick credits at most once: the second collection is a no-op |
| `FarmEngine.WaterTwice` | App.tsx:100-126 | a second click with the watering can never waters again. It can harvest only when the first click watered the crop; otherwise it changes nothing |
| `FarmEngine.WheatRun` | App.tsx:92-127 | a new farm buys a wheat seed (48 coins, 6 seeds) and plants it at t=1000. The crop is not ready at t=5999. At t=6000 it is harvested: one wheat, 15 XP |
| `FarmEngine.WateredWheatRun` | App.tsx:92-127 | a wheat seed watered at planting is not ready 2499 ms later, and is harvested 2500 ms later |
| `Notifications.HarvestReadyNotification` | services/notificationService.ts:24-28 | the notification body is "Sua colheita de <crop> <icon> está pronta!", with title "Gemini Harvest" and tag "harvest-ready" |
| `Notifications.NotificationService.constructor` | services/notificationService.ts:2-4 | the service starts with last-notification time 0 and a 30000 ms throttle |
| `Notifications.NotificationService.SendHarvestReady` | services/notificationService.ts:18-30 | a notification is sent exactly when at least 30000 ms have passed since the last one and permission is granted. The time of a sent notification is remembered. When throttled or without permission, nothing is sent and nothing changes |
| `Notifications.ShouldNotify` | services/notificationService.ts:20-22 | a request is shown when 30000 ms have passed since the last one and permission is granted; `SentTimesSpaced` and `NothingSentWithoutPermission` state what that means over a run |
| `Notifications.SentTimesSpaced` | services/notificationService.ts:20-23 | in any run of requests, every sent notification comes at least 30000 ms after the starting time and after every earlier sent one, even when the clock readings are not in order |
| `Notifications.NothingSentWithoutPermission` | services/notificationService.ts:22 | without permission, no request in a run sends anything |
| `Notifications.ServeRequests` | services/notificationService.ts:18-30 | one service serving a run of requests in order sends at exactly the times `SentTimes` gives, so any two notifications are at least 30000 ms apart |

## Left out

- Rendering, floating texts, tabs, the store dialog and the progress bars are user interface and are not modelled.
- The one-second tick, timeouts and effect scheduling are not modelled. Time is a parameter instead: `now` is the clock at the click, and `currentTime` is the last tick.
- Storage reads and writes and JSON parsing are input/output. Their outcome is the `Load.Stored` value. Saving is not modelled.
- `Load.LoadGameState`: `Number(...)` can yield NaN for a missing or non-numeric coins, XP or level, and the `??` after it never falls back. The snapshot here carries those three as integers, so NaN is not modelled.
- `FarmEngine.Farm.PlotAction`: the handler reads the clock twice, for readiness and for the planting time. One `now` is used for both.
- `FarmEngine.Farm.BuySeed`: requires a catalog crop. The store offers only those, and the handler would fail on any other.
- `FarmEngine.Farm.Sell`: one unit per click, as in the game. The price is the one shown for the item's name.
- `FarmEngine.Farm.constructor`: the invariant is claimed only for a new farm. A stored snapshot or plot list can hold anything.
- The plot card component's own progress computation is not modelled. It is floating point, and it duplicates the readiness rule modelled in `Rules`.
- Sound effects and the farm-advice text are not modelled. They never feed back into the state.
- Requesting notification permission and constructing the browser notification are browser calls. Permission is a boolean input, and the notification is the method's result.
- `ANIMAL_SLOT_COST`, the material types, the material inventory and the house level are not modelled. They are declared, but no operation uses them.
- The crops' display colours and icons appear in the catalog data, but no property is stated about them.
