# TrainBuilder construction economy, in Dafny

This project models the construction economy of TrainBuilder, a railway-building game. It also models the small state-holding objects of the game's C++ and grid-simulation variants, and proves properties of all of them.

The model covers these parts of the repository:

- **Cost service** (`CostService`, with its tables in `RailTypes`):
  - platform validation;
  - station, track and crossover prices;
  - network value and yearly maintenance;
  - the terrain heuristic;
  - the revenue estimate.
  
  Prices are exact reals. `Math.round` is `Floor(x + 0.5)`.
- **Geometry** (`Geometry`): route length as a fold of an uninterpreted, non-negative distance; bounding boxes and their overlap; the bounding-box fast path of `linesIntersect`.
- **Network documents** (`NetworkStore`):
  - the document store is an in-memory map from id to network;
  - `/init`, `GET /:id`, and adding a station or a track, with the 404, 400 and 403 replies;
  - every stored document keeps `budget + value == 1,000,000,000` and `budget >= 0`.
- **Preview endpoints** (`ComputationRoutes`): the request-shape checks of each handler, the terrain band classification, and the network statistics.
- **Client store** (`GameStore`): a class with the store's fields.
  - Each action is a method whose new network is a pure reducer of the old one.
  - Lemmas state the refund rates, conservation of budget plus value on building, and "nothing else changes".
  - Only the local branches are modelled.
- **C++ objects**, each a class with the source's fields:
  - `EconomySystem.Economy`;
  - `TrainMotion.Train`;
  - `TrainLines.TrainLine`;
  - `StationObjects.Station`;
  - `GameStates.GameStateManager`, with its 26-country table;
  - `CityRendering.CityRenderer`, together with the `UserInterface.Button` hit test.
- **Grid simulation** (`GridState`, `Simulation`):
  - the seeded generator;
  - grid generation;
  - `toggleTrackAt`;
  - the bounded nearest-track search;
  - the mode-share guard.

Inputs the source takes from outside appear as parameters:

| Input | Parameter |
|---|---|
| Great-circle distance | `dist` |
| `Math.pow(n, 1.2)` | `pow` |
| `sqrt`-based track length | `lengthOf` |
| Distance to the grid centre | `distToCenter` |
| Random district placement | `draw` |
| `crypto.randomUUID` and `Date.now` ids | `newId`, `freshId` |

## Model

| member | source | states |
|---|---|---|
| Common.Round | backend/src/services/cost.service.ts:57-63 | Math.round lands within half a unit of its argument |
| Common.Trunc | src/TrainLine.cpp:10-16 | the C++ cast to int truncates towards zero |
| Common.CDiv | src/CityRenderer.cpp:8-12 | C++ integer division truncates towards zero; for a non-negative dividend it is the floor quotient |
| Common.JsRem | src/state/store.ts:20 | JavaScript `%` has the dividend's sign and lies strictly within the divisor |
| Common.FindFirstSpec | src/store/gameStore.ts:233-236 | `find` answers None exactly when nothing matches, else the first match |
| Common.FilterMembership | src/store/gameStore.ts:237-250 | `filter` keeps exactly the elements that satisfy the predicate |
| Common.FilterPartition | src/store/gameStore.ts:237-250 | the kept and the dropped elements together are the original multiset |
| Common.SumFilterSplit | src/store/gameStore.ts:237-250 | a sum splits into the sums over the kept and the dropped elements |
| RailTypes.TrackTablesOrdered | backend/src/types/index.ts:129-145 | hst > ic > non_electrified in cost per km, maintenance per km and speed limit |
| RailTypes.TrackSpeedLimit | backend/src/types/index.ts:135-139 | speed limits lie between 120 and 300 km/h |
| RailTypes.StationBaseCostsIncrease | backend/src/types/index.ts:147-152 | station base costs strictly increase from local to hub |
| RailTypes.StationBaseCostsDivisibleByTen | backend/src/types/index.ts:147-152 | every station base cost is a whole multiple of 10 |
| RailTypes.CrossoverCostsIncrease | backend/src/types/index.ts:154-158 | simple < junction < flying junction |
| RailTypes.AllFacilitiesAddTwelvePercent | backend/src/types/index.ts:160-164 | the three facility surcharges add up to 12% |
| Geometry.CalculateRouteLength | backend/src/services/geometry.service.ts:33-42 | the loop's total is the sum over consecutive pairs, and 0 for fewer than two waypoints |
| Geometry.PathLength | backend/src/services/geometry.service.ts:33-42 | route length is non-negative when the distance is |
| Geometry.PathLengthSplit | backend/src/services/geometry.service.ts:36-41 | splitting a route at a shared waypoint adds the two lengths |
| Geometry.PathLengthAppend | backend/src/services/geometry.service.ts:36-41 | appending a waypoint adds one leg |
| Geometry.GetBoundingBox | backend/src/services/geometry.service.ts:163-186 | the loop computes the box of the points, {0,0,0,0} when there are none |
| Geometry.BoxContainsAll | backend/src/services/geometry.service.ts:173-185 | a non-empty box is well formed and holds every input point |
| Geometry.BoxBoundsAttained | backend/src/services/geometry.service.ts:173-185 | each bound of a non-empty box is some point's coordinate |
| Geometry.BoxesOverlapSymmetric | backend/src/services/geometry.service.ts:191-201 | overlap does not depend on argument order |
| Geometry.OverlapIffSharedPoint | backend/src/services/geometry.service.ts:191-201 | two proper boxes overlap exactly when some point lies in both |
| Geometry.LinesIntersect | backend/src/services/geometry.service.ts:131-158 | separated bounding boxes answer false; otherwise the distance test decides |
| Geometry.SharedPointPassesFastPath | backend/src/services/geometry.service.ts:138-143 | segments sharing an endpoint always pass the fast reject |
| CostService.ValidatePlatformCount | backend/src/services/cost.service.ts:242-263 | accepted exactly when the count is within 1–30 and within its class's band; outside 1–30 the range error comes first |
| CostService.PlatformCountAcceptedForExactlyOneClass | backend/src/services/cost.service.ts:250-262 | a count is accepted for exactly one class, the one whose band holds it |
| CostService.PlatformCountExamples | backend/src/services/cost.service.ts:246-262 | local 4 is accepted, local 5 is refused with the class band, and 31 and 0 are out of range |
| CostService.FacilitiesMultiplier | backend/src/services/cost.service.ts:39-50 | the surcharge factor lies in [1, 1.12], and is 1 exactly without facilities |
| CostService.StationCost | backend/src/services/cost.service.ts:27-64 | refused exactly on a validation error; base cost is the class constant; total is the rounded exact product |
| CostService.StationCostParts | backend/src/services/cost.service.ts:39-62 | platform cost is the rounded base × (1 + platforms/10); the facilities and terrain parts are that cost times (multiplier − 1), rounded |
| CostService.StationSurchargesVanish | backend/src/services/cost.service.ts:44-52 | no facilities and no terrain modifier each add 0 |
| CostService.RegionalStationExample | backend/src/services/cost.service.ts:36-63 | regional, 5 platforms, no facilities gives 30,000,000 |
| CostService.StationCostMonotoneInTerrain | backend/src/services/cost.service.ts:52-55 | a harder terrain never makes a station cheaper |
| CostService.RoundTo2Decimals | backend/src/services/cost.service.ts:113 | the result is a whole number of cents within half a cent of the input, which (by WholeCentsInWindowIsRounded) determines it |
| CostService.WholeCentsInWindowIsRounded | backend/src/services/cost.service.ts:113 | the only whole-cent value in the half-cent window of x is the rounded one |
| CostService.TrackCost | backend/src/services/cost.service.ts:69-121 | refused exactly below 0.5 km; cost and maintenance are the rounded products; the length is the route length rounded to cents |
| CostService.TrackCostParts | backend/src/services/cost.service.ts:85-118 | base cost is the rounded cost per km × length; the double-track and terrain parts are that base times (multiplier − 1), rounded |
| CostService.TrackSurchargesVanish | backend/src/services/cost.service.ts:90-97 | single track and no terrain modifier each add 0 |
| CostService.MaintenanceIgnoresTerrain | backend/src/services/cost.service.ts:105-107 | changing the terrain modifier never changes maintenance |
| CostService.NonElectrifiedTrackExample | backend/src/services/cost.service.ts:100-107 | non-electrified, 10 km, single track costs 20,000,000 and 150,000 a year |
| CostService.ShortTrackExample | backend/src/services/cost.service.ts:80-84 | a 0.3 km route is too short |
| CostService.CrossoverCost | backend/src/services/cost.service.ts:126-132 | the cost is the rounded base times terrain |
| CostService.JunctionOnMountainExample | backend/src/services/cost.service.ts:126-132 | a junction at terrain 1.8 costs 3,600,000 |
| CostService.NetworkValue | backend/src/services/cost.service.ts:137-147 | the value of a network whose costs are all non-negative is non-negative |
| CostService.AnnualMaintenance | backend/src/services/cost.service.ts:152-156 | maintenance is non-negative when every track's maintenance is |
| CostService.EmptyNetworkHasNoValue | backend/src/services/cost.service.ts:137-156 | an empty network has value 0 and maintenance 0 |
| CostService.NetworkValueAppendStation | backend/src/services/cost.service.ts:137-147 | appending a station adds its cost to the value |
| CostService.NetworkValueAppendTrack | backend/src/services/cost.service.ts:137-156 | appending a track adds its cost to the value and its maintenance to the maintenance |
| CostService.NetworkValueAppendCrossover | backend/src/services/cost.service.ts:137-147 | appending a crossover adds its cost to the value |
| CostService.NetworkValueSplits | backend/src/services/cost.service.ts:137-156 | value and maintenance add over concatenated networks |
| CostService.UrbanCenters | backend/src/services/cost.service.ts:177-183 | five urban centres |
| CostService.TerrainModifierOf | backend/src/services/cost.service.ts:162-197 | the modifier is always 1.8, 1.5 or 1.0, and 1.0 for no waypoints (the NaN mean fails every test) |
| CostService.EstimateTerrainModifier | backend/src/services/cost.service.ts:162-197 | the loop answers the specified modifier, always one of 1.8, 1.5, 1.0 |
| CostService.TerrainModifierBands | backend/src/services/cost.service.ts:172-196 | only the three values occur, and an Alpine centroid gives 1.8 before any city test |
| CostService.TerrainModifierExamples | backend/src/services/cost.service.ts:172-196 | a route at Amsterdam is urban, one in the Alps mountainous, one in Spain flat |
| CostService.AnnualRevenue | backend/src/services/cost.service.ts:203-239 | with at most one station no bonus applies: the revenue is the rounded base sum |
| CostService.EstimateAnnualRevenue | backend/src/services/cost.service.ts:203-239 | the loops compute station plus track revenue times one plus the bonus, rounded |
| CostService.AccumulateStationRevenue | backend/src/services/cost.service.ts:211-216 | the station loop sums base revenue times (1 + platforms/10) |
| CostService.AccumulateTrackRevenue | backend/src/services/cost.service.ts:219-224 | the track loop sums rate times length |
| CostService.AnnualRevenueNonNegative | backend/src/services/cost.service.ts:203-239 | with non-negative platforms, lengths and bonus, revenue is not negative |
| CostService.NoBonusBelowTwoStations | backend/src/services/cost.service.ts:227-236 | at most one station earns no network bonus |
| NetworkStore.RegionalStationScenario | backend/src/routes/network.routes.ts:33-83 | a fresh network buys a 5-platform regional station for 30,000,000 and keeps 970,000,000; an unknown network id gets 404 |
| NetworkStore.NetworkStore.constructor | backend/src/routes/network.routes.ts:33-50 | the store starts empty and valid |
| NetworkStore.NetworkStore.Init | backend/src/routes/network.routes.ts:33-50 | saves a fresh document at once: budget 1e9, year 2024, month 1, empty lists, default name |
| NetworkStore.NetworkStore.Get | backend/src/routes/network.routes.ts:53-57 | the stored document, or 404 |
| NetworkStore.NetworkStore.AddStation | backend/src/routes/network.routes.ts:60-83 | 404 for an unknown id; 400 on a cost error; 403 below the cost; else exactly one debit and append, conservation kept |
| NetworkStore.NetworkStore.AddTrack | backend/src/routes/network.routes.ts:86-112 | the same budget rule for tracks, with length, cost, maintenance and speed limit from the service and the type |
| ComputationRoutes.DistancePreview | backend/src/routes/computation.routes.ts:17-38 | accepted exactly when both points are present and all four numbers are non-zero; km and miles are the distance and its mile conversion rounded to cents |
| ComputationRoutes.GreenwichIsRefused | backend/src/routes/computation.routes.ts:21-25 | a start on the Greenwich meridian or the equator is refused |
| ComputationRoutes.DistancePreviewCorrected | backend/src/routes/computation.routes.ts:21-32 | accepted exactly when both points are present; km and miles rounded to cents as in the written handler |
| ComputationRoutes.CorrectedDistanceExtendsWritten | backend/src/routes/computation.routes.ts:21-32 | the corrected handler agrees wherever the written one answers, and also accepts Greenwich |
| ComputationRoutes.RouteLengthPreview | backend/src/routes/computation.routes.ts:44-64 | 400 for a missing list or fewer than two waypoints; else the count and the route length rounded to cents |
| ComputationRoutes.StationCostPreview | backend/src/routes/computation.routes.ts:70-86 | falsy platforms or a missing type answer the shape error; service errors become 400; else the service's breakdown |
| ComputationRoutes.ZeroPlatformsFailShapeCheck | backend/src/routes/computation.routes.ts:74-85 | 0 platforms fail the shape check; −1 reaches the service and is out of range |
| ComputationRoutes.StationPreviewAcceptsValidCounts | backend/src/routes/computation.routes.ts:74-85 | with both fields present, accepted exactly for a count in range and in its class |
| ComputationRoutes.TrackCostPreview | backend/src/routes/computation.routes.ts:92-108 | missing fields are refused; the only service error is a too-short route; else the service's breakdown |
| ComputationRoutes.EmptyWaypointsAreTooShort | backend/src/routes/computation.routes.ts:96-107 | an empty array passes the shape check and is too short |
| ComputationRoutes.ParseCrossoverType | backend/src/routes/computation.routes.ts:116-121 | a parsed type prints back as the input |
| ComputationRoutes.CrossoverTypeNamesRoundTrip | backend/src/routes/computation.routes.ts:116-121 | parse inverts the name, and exactly three names parse |
| ComputationRoutes.CrossoverCostPreview | backend/src/routes/computation.routes.ts:114-131 | only the three types are accepted; the type and the terrain (default 1.0) are echoed; cost from the service |
| ComputationRoutes.CrossoverPreviewExamples | backend/src/routes/computation.routes.ts:114-131 | junction at 1.8 gives 3,600,000; simple defaults to 1.0; "bridge" is refused |
| ComputationRoutes.BandOf | backend/src/routes/computation.routes.ts:149-152 | mountainous above 1.6, urban above 1.3, hilly above 1.1, else flat, each as an if-and-only-if |
| ComputationRoutes.BandOfMonotone | backend/src/routes/computation.routes.ts:149-152 | a larger modifier never gives a milder band |
| ComputationRoutes.TerrainPreview | backend/src/routes/computation.routes.ts:137-159 | a missing or empty list is refused; else the estimated modifier and its band |
| ComputationRoutes.TerrainPreviewNeverHilly | backend/src/routes/computation.routes.ts:149-152 | 1.8, 1.5 and 1.0 map to mountainous, urban and flat, so hilly never occurs |
| ComputationRoutes.NetworkStatsPreview | backend/src/routes/computation.routes.ts:165-199 | net income is revenue minus maintenance; counts are the list lengths; missing crossovers count as empty; total track length is the sum of the tracks' lengths |
| ComputationRoutes.MissingCrossoversAreEmpty | backend/src/routes/computation.routes.ts:169-193 | no crossovers field answers as an empty one |
| ComputationRoutes.NetworkStatsAdditive | backend/src/routes/computation.routes.ts:175-193 | value, maintenance, length and counts add over concatenated networks |
| GameStore.LocalStationCost | src/store/gameStore.ts:15-31 | the base plus 500,000 per platform, with facilities adding between 0 and 750,000 |
| GameStore.LocalTrackCost | src/store/gameStore.ts:33-46 | for a non-negative length, between the per-km cost times length and 1.6 times it |
| GameStore.LocalCrossoverCost | src/store/gameStore.ts:362-363 | 1,000,000 for a simple crossover, 2,500,000 for a junction, 5,000,000 for a flying junction, each as an if-and-only-if |
| GameStore.LocalStationCostParts | src/store/gameStore.ts:15-31 | each platform adds 500,000 and each facility 250,000; regional with 5 platforms costs 5,000,000 |
| GameStore.LocalStationCheaperThanBackend | src/store/gameStore.ts:15-31 | for a valid request on terrain ≥ 1 the local estimate is below the server's price |
| GameStore.LocalTrackCostAgainstBackend | src/store/gameStore.ts:33-46 | local single track equals the server's exact price; local double track is 16/15 of it |
| GameStore.GetSpeedLimit | src/store/gameStore.ts:59-66 | the client's speed limit equals the server table for every type |
| GameStore.CrossoverPricesAgainstBackend | src/store/gameStore.ts:358-381 | the client charges 2×, 1.25× and 0.5× the server's crossover bases |
| GameStore.DefaultNetworkMatchesBackend | src/store/gameStore.ts:135-146 | the default network is the one `/init` creates |
| GameStore.StationAddedLocally | src/store/gameStore.ts:185-227 | only budget and stations change; below the local price nothing changes, otherwise the budget is debited exactly the price and the station built from the data, the new id and that price is appended |
| GameStore.StationRemoved | src/store/gameStore.ts:229-259 | only budget, stations and tracks change, and no list grows |
| GameStore.TrackAddedLocally | src/store/gameStore.ts:277-325 | only budget and tracks change; below the local price nothing changes, otherwise the budget is debited exactly the price and a track with the data, the new id, the given length, the type's speed limit, that cost and 2% of it as maintenance is appended |
| GameStore.TrackRemoved | src/store/gameStore.ts:334-353 | only budget and tracks change, and the track list does not grow |
| GameStore.CrossoverAdded | src/store/gameStore.ts:358-381 | only budget and crossovers change; below the type's price nothing changes, otherwise the budget is debited exactly that price and the crossover is appended carrying it |
| GameStore.CrossoverRemoved | src/store/gameStore.ts:383-401 | only budget and crossovers change, and the crossover list does not grow |
| GameStore.BudgetSpent | src/store/gameStore.ts:404-418 | only the budget changes, and it is either unchanged or non-negative |
| GameStore.IncomeAdded | src/store/gameStore.ts:420-430 | budget and income both rise by the amount, nothing else changes |
| GameStore.ExpenseAdded | src/store/gameStore.ts:432-442 | the budget falls and the expenses rise by the amount, nothing else changes |
| GameStore.RevenueCalculated | src/store/gameStore.ts:445-471 | only income and expenses change, and together they are the gross revenue |
| GameStore.BuildingConservesWorth | src/store/gameStore.ts:185-381 | building a station, track or crossover keeps budget plus value; never overdraws; each is refused exactly below its price |
| GameStore.StationRemovedKeepsOthers | src/store/gameStore.ts:229-259 | removes exactly that station and the tracks touching it; the rest and the crossovers stay |
| GameStore.StationRemovedUnknownId | src/store/gameStore.ts:229-259 | an unknown, unreferenced id changes nothing |
| GameStore.StationDemolitionNeverCreatesWorth | src/store/gameStore.ts:229-259 | the budget rises, and budget plus value never does |
| GameStore.TrackDemolitionNeverCreatesWorth | src/store/gameStore.ts:334-353 | the same for tracks |
| GameStore.CrossoverDemolitionNeverCreatesWorth | src/store/gameStore.ts:383-401 | the same for crossovers |
| GameStore.TrackRemovedKeepsOthers | src/store/gameStore.ts:334-353 | only tracks with that id go; an unknown id changes nothing |
| GameStore.CrossoverRemovedKeepsOthers | src/store/gameStore.ts:383-401 | only crossovers with that id go; an unknown id changes nothing |
| GameStore.RefundRates | src/store/gameStore.ts:229-401 | on any network: removing a station refunds 50% of the first station with the id plus 30% of every track touching it; a track refunds 30% and a crossover 40% of the first match; an unmatched id refunds nothing of that kind |
| GameStore.SumScale | src/store/gameStore.ts:237-250 | the cascaded refunds are 30% of the cascaded costs |
| GameStore.SpendNeverOverdraws | src/store/gameStore.ts:404-418 | a spend is refused exactly when it would go negative, else it debits exactly the amount |
| GameStore.LedgerBalances | src/store/gameStore.ts:420-442 | income and expense keep budget − income + expenses; income then equal expense restores the budget |
| GameStore.RevenueSettles | src/store/gameStore.ts:445-471 | budget and lists unchanged; income plus expenses is the gross; expenses are maintenance; repeating changes nothing |
| GameStore.GameStore.constructor | src/store/gameStore.ts:148-159 | no network, no selection, not drawing, select tool |
| GameStore.GameStore.SetNetwork | src/store/gameStore.ts:162 | installs the network and touches nothing else |
| GameStore.GameStore.SetSelectedRegion | src/store/gameStore.ts:163-176 | installs the region and a fresh default network |
| GameStore.GameStore.SetCurrentTool | src/store/gameStore.ts:177 | sets the tool only |
| GameStore.GameStore.ToggleToolMenu | src/store/gameStore.ts:182 | flips the menu flag only |
| GameStore.GameStore.AddStationLocal | src/store/gameStore.ts:185-227 | applies the local add; a no-op without a network |
| GameStore.GameStore.RemoveStation | src/store/gameStore.ts:229-259 | applies the removal and clears the station selection if it pointed there |
| GameStore.GameStore.SelectStation | src/store/gameStore.ts:261 | selects the station and clears the track selection |
| GameStore.GameStore.StartDrawingTrack | src/store/gameStore.ts:264-270 | drawing starts with one point from the node, under the track tool |
| GameStore.GameStore.AddTrackWaypoint | src/store/gameStore.ts:272-275 | appends the point |
| GameStore.GameStore.CancelDrawingTrack | src/store/gameStore.ts:327-332 | drawing state cleared |
| GameStore.GameStore.FinishDrawingTrackLocal | src/store/gameStore.ts:277-325 | adds the drawn track when affordable and always ends the drawing; a no-op without a network |
| GameStore.GameStore.RemoveTrack | src/store/gameStore.ts:334-353 | applies the removal and clears the track selection if it pointed there |
| GameStore.GameStore.SelectTrack | src/store/gameStore.ts:355 | selects the track and clears the station selection |
| GameStore.GameStore.AddCrossover | src/store/gameStore.ts:358-381 | applies the add-if-affordable |
| GameStore.GameStore.RemoveCrossover | src/store/gameStore.ts:383-401 | applies the removal with its refund |
| GameStore.GameStore.SpendBudget | src/store/gameStore.ts:404-418 | applies the guarded spend |
| GameStore.GameStore.AddIncome | src/store/gameStore.ts:420-430 | applies the income |
| GameStore.GameStore.AddExpense | src/store/gameStore.ts:432-442 | applies the expense |
| GameStore.GameStore.CalculateRevenue | src/store/gameStore.ts:445-471 | applies the settlement |
| EconomySystem.Economy.constructor | src/Economy.cpp:4-9 | 100,000 money, zero income, expenses and clock |
| EconomySystem.Economy.SpendMoney | src/Economy.cpp:11-17 | pays exactly when the money covers the amount, else changes nothing; for the station cost it pays exactly when CanBuildStation held; keeps the ledger balanced |
| EconomySystem.Economy.EarnMoney | src/Economy.cpp:19-22 | money and monthly income both rise by the amount |
| EconomySystem.Economy.Update | src/Economy.cpp:24-37 | below 30 s only the clock moves; at 30 s income minus expenses is settled and the counters reset |
| EconomySystem.Economy.UpdateCorrected | src/Economy.cpp:24-37 | the settlement that charges expenses only, which keeps the ledger balanced |
| EconomySystem.Economy.CanBuildStation | src/Economy.cpp:39-41 | true exactly when the money covers the station cost; SpendMoney's contract states that paying for a station succeeds exactly when it was true |
| EconomySystem.Economy.GetNetIncome | include/Economy.h:18 | with no expense ever recorded, net income is the income |
| EconomySystem.TicketRevenue | src/Economy.cpp:43-45 | twice the revenue is passengers × distance; non-negative for non-negative inputs |
| EconomySystem.TicketRevenueAdds | src/Economy.cpp:43-45 | revenue adds over passengers |
| EconomySystem.EarnThenSettleAsWritten | src/Economy.cpp:19-30 | earning 100 and settling credits it twice |
| EconomySystem.EarnThenSettleCorrected | src/Economy.cpp:19-30 | the corrected settlement ends at the expected sum |
| EconomySystem.FirstStationScenario | src/Economy.cpp:11-17 | a fresh ledger can afford a station and keeps 95,000 |
| TrainMotion.PositionChange | src/Train.cpp:23 | the step is non-negative for non-negative speed and time |
| TrainMotion.PositionChangeAdds | src/Train.cpp:23 | two steps add up to one step over the summed time |
| TrainMotion.Train.constructor | src/Train.cpp:4-12 | position 0, forward, empty, speed 80 |
| TrainMotion.Train.Update | src/Train.cpp:14-36 | no-op for a non-positive length; clamps at an end and reverses exactly then; stays in [0,1]; the load never changes |
| TrainMotion.Train.Reverse | src/Train.cpp:38-40 | flips the direction only, so two reversals are the identity |
| TrainMotion.Train.BoardPassengers | src/Train.cpp:42-45 | adds min(count, free seats), never exceeding capacity |
| TrainMotion.Train.DisembarkPassengers | src/Train.cpp:47-49 | the load becomes max(0, load − count) |
| TrainMotion.ShuttleScenario | src/Train.cpp:14-49 | a train run past the end stops there and reverses |
| TrainLines.RemoveFirst | src/TrainLine.cpp:22-29 | the list loses at most one element |
| TrainLines.FirstIndex | src/TrainLine.cpp:22-29 | the first position holding the id, or the length |
| TrainLines.RemoveFirstCutsFirstOccurrence | src/TrainLine.cpp:22-29 | removal cuts exactly the first occurrence; the rest keep their order |
| TrainLines.RemoveFirstCounts | src/TrainLine.cpp:22-29 | an absent id changes nothing; a present one shortens by one and drops one copy |
| TrainLines.TrainLine.constructor | src/TrainLine.cpp:3-8 | length 0, no trains |
| TrainLines.TrainLine.SetLength | include/TrainLine.h:16 | sets the length, trains unchanged |
| TrainLines.TrainLine.GetBuildCost | src/TrainLine.cpp:10-12 | the integer part of length × 1000 |
| TrainLines.TrainLine.GetMaintenanceCost | src/TrainLine.cpp:14-16 | the integer part of length × 10 |
| TrainLines.TrainLine.AddTrain | src/TrainLine.cpp:18-20 | appends the id |
| TrainLines.TrainLine.RemoveTrain | src/TrainLine.cpp:22-29 | the iterator loop removes the first occurrence only |
| TrainLines.BuildCostMonotone | src/TrainLine.cpp:10-16 | a longer line never costs less; 2.5 km costs 2,500 and 25 a year |
| StationObjects.Station.constructor | src/Station.cpp:3-11 | no passengers, 5,000 build, 100 maintenance, no lines |
| StationObjects.Station.AddPassengers | src/Station.cpp:13-15 | adds exactly the count; lines and costs unchanged |
| StationObjects.Station.RemovePassengers | src/Station.cpp:17-19 | max(0, count − n), never negative; lines and costs unchanged |
| StationObjects.Station.AddConnectedLine | src/Station.cpp:21-23 | appends, duplicates kept, one longer; passengers and costs unchanged |
| StationObjects.PassengerScenario | src/Station.cpp:13-23 | over-removal empties the station, and later arrivals count from zero |
| GameStates.CountriesWellFormed | src/GameState.cpp:24-56 | 26 entries with two-letter codes and proper boxes holding their centres |
| GameStates.CountryCodesUnique | src/GameState.cpp:29-54 | no two entries share a code |
| GameStates.FindCode | src/GameState.cpp:14-22 | the first index with the code, or None when there is none |
| GameStates.GameStateManager.constructor | src/GameState.cpp:3-8 | main menu, no selection, the country table |
| GameStates.GameStateManager.SelectedCountry | include/GameState.h:38 | the selected country is one of the list |
| GameStates.GameStateManager.SetCurrentSaveName | include/GameState.h:42 | sets the save name only |
| GameStates.GameStateManager.SetState | src/GameState.cpp:10-12 | sets exactly the given state; every other field unchanged |
| GameStates.GameStateManager.SelectCountry | src/GameState.cpp:14-22 | selects the first entry with the code, else keeps the previous choice; every other field unchanged |
| GameStates.SwitzerlandIsFourth | src/GameState.cpp:33 | "CH" is found at index 3 |
| GameStates.EmptyCodeNotFound | src/GameState.cpp:29-54 | a code no entry has is not found |
| GameStates.SelectSwitzerland | src/GameState.cpp:14-22 | selecting CH selects Switzerland |
| GameStates.SelectUnknown | src/GameState.cpp:14-22 | an unknown code leaves the selection empty |
| UserInterface.NewButton | include/UI.h:17-19 | the given geometry, enabled, not hovered |
| UserInterface.Contains | include/UI.h:21-24 | a hit needs a non-negative width and height |
| UserInterface.HitArea | include/UI.h:21-24 | the hit area is exactly the points `contains` accepts |
| UserInterface.CornersAreInside | include/UI.h:22-23 | all four corners are hit when the size is not negative; a negative size hits nothing |
| UserInterface.OutsidePointsMiss | include/UI.h:22-23 | points left, above, right or below are never hit |
| UserInterface.HitTestFollowsPosition | include/UI.h:21-24 | moving the button moves its hit area |
| UserInterface.MenuButtonExample | include/UI.h:21-24 | the far corner is hit, one pixel beyond is not, and a zero-size button hits one point |
| GridState.CellAt | src/state/store.ts:82-83 | the cell at the index, or none outside the array |
| GridState.LcgStep | src/state/store.ts:19-21 | a non-negative seed steps into [0, 233280) |
| GridState.LcgStaysInRange | src/state/store.ts:19-21 | from a non-negative seed every state is in range, so every output lies in [0,1) |
| GridState.SeededRandom.constructor | src/state/store.ts:19 | the generator starts from the given seed |
| GridState.SeededRandom.Next | src/state/store.ts:20 | advances the seed by one step and returns it over 233280 |
| GridState.FirstDrawFromFortyTwo | src/state/store.ts:25 | the first state from seed 42 is 206659 |
| GridState.Clamp01 | src/state/store.ts:30-34 | clamped into [0,1], unchanged inside it |
| GridState.GenerateGrid | src/state/store.ts:24-56 | cols × rows cells, none with track, population and work in [0,1], and base preferences that are non-negative fractions summing to 1 (so ModeSharesAreFractions applies to every cell) |
| GridState.NewCell | src/state/store.ts:29-52 | a cell without track whose base preferences sum to 1, all non-negative when the centre distance is at most 1 |
| GridState.Normalised | src/state/store.ts:41-51 | normalised preferences sum to 1, and stay non-negative |
| GridState.Toggled | src/state/store.ts:80-87 | the toggle keeps the grid's size |
| GridState.ToggleChangesOneCell | src/state/store.ts:81-86 | only the addressed cell changes, only its track; a missing cell changes nothing |
| GridState.ToggleTwiceRestores | src/state/store.ts:85 | two plain toggles restore the grid |
| GridState.ToggleOnIsIdempotent | src/state/store.ts:85 | setting a flag twice is setting it once |
| GridState.GridStore.constructor | src/state/store.ts:72-76 | track tool, brush 1, transit overlay |
| GridState.GridStore.SetTool | src/state/store.ts:77 | sets the tool only |
| GridState.GridStore.SetBrush | src/state/store.ts:78 | sets the brush only |
| GridState.GridStore.SetOverlay | src/state/store.ts:79 | sets the overlay only |
| GridState.GridStore.ToggleTrackAt | src/state/store.ts:80-87 | installs the toggled grid |
| Simulation.DistanceToTrack | src/lib/simulation.ts:30-48 | Infinity exactly when no track lies in the window; else the least Manhattan distance, attained by a track in the window |
| Simulation.ScanRow | src/lib/simulation.ts:37-45 | one row of the window lowers the best to any closer track |
| Simulation.WithinWindowBounds | src/lib/simulation.ts:32-45 | a finite result is at most 12, and 0 exactly when the cell itself has a track |
| Simulation.DistanceExamples | src/lib/simulation.ts:30-48 | three cells from the only track gives 3; no track gives Infinity |
| Simulation.TransitBoost | src/lib/simulation.ts:9 | the boost lies in [0,1]; 1 on a track; 0 from six cells or Infinity |
| Simulation.ShiftKeepsShares | src/lib/simulation.ts:13-18 | a non-negative shift keeps preferences non-negative and the total from falling |
| Simulation.ComputeModeShare | src/lib/simulation.ts:4-27 | all zeros when the index has no cell; otherwise the cell's shifted, normalised shares at the given proximity |
| Simulation.ComputeModeShareAt | src/lib/simulation.ts:4-27 | all zeros when the index has no cell; otherwise the shares at the proximity distanceToTrack finds |
| Simulation.NearestTrackUnique | src/lib/simulation.ts:30-48 | only one proximity meets the search's contract, so the shares are determined |
| Simulation.ModeSharesAreFractions | src/lib/simulation.ts:12-26 | for a cell with non-negative data the shares are fractions that sum to 1 |
| CityRendering.ToUint8 | src/CityRenderer.cpp:10-12 | the cast to Uint8 lands in [0,255] and keeps small values |
| CityRendering.Density | src/CityRenderer.cpp:8 | for a non-negative population, min(255, population / 1000): never above a thousandth of it, and either 255 or the whole number of thousands; 255 from 255,000 on |
| Common.NatToString | src/CityRenderer.cpp:57 | std::to_string gives a non-empty string of decimal digits |
| Common.NatToStringReadsBack | src/CityRenderer.cpp:57 | those digits have no leading zero and read back as the number |
| CityRendering.GetColor | src/CityRenderer.cpp:6-15 | opaque alpha; for a non-negative population red = green = 200 − d/2 and blue = 220 − d/3, red within [72,200] and blue within [135,220] |
| CityRendering.DenserIsDarker | src/CityRenderer.cpp:8-12 | more inhabitants never give a lighter colour |
| CityRendering.ColorExamples | src/CityRenderer.cpp:6-15 | 250,000 gives (75,75,137); from 255,000 on the colour is (73,73,135) |
| CityRendering.NumMajorCities | src/CityRenderer.cpp:46 | at least 3 major cities |
| CityRendering.TierDistricts | src/CityRenderer.cpp:47-91 | a tier loop pushes count districts, the i-th from the i-th draw |
| CityRendering.DistrictCounts | src/CityRenderer.cpp:46-91 | 6 × numMajorCities districts, at least 18, with cities, then suburbs, then towns |
| CityRendering.RoadImportance | src/CityRenderer.cpp:112-113 | 1 above 400,000, 2 above 100,000, else 3, each as an if-and-only-if |
| CityRendering.ImportanceMonotone | src/CityRenderer.cpp:112-113 | more population never gives a lesser road |
| CityRendering.RowUpToMembers | src/CityRenderer.cpp:97-117 | a row's roads are exactly the nearby later districts |
| CityRendering.RoadsBeforeMembers | src/CityRenderer.cpp:96-118 | the roads are exactly those of the nearby pairs i < j |
| CityRendering.RoadsBeforeSound | src/CityRenderer.cpp:96-118 | every road drawn joins a nearby pair i < j |
| CityRendering.RoadsBeforeComplete | src/CityRenderer.cpp:96-118 | every nearby pair i < j gets its road |
| CityRendering.RowUpToLength | src/CityRenderer.cpp:97-117 | a row has at most one road per later district |
| CityRendering.CityRenderer.constructor | src/CityRenderer.cpp:17-19 | no districts and no roads |
| CityRendering.CityRenderer.GenerateCity | src/CityRenderer.cpp:26-34 | clears both lists, then districts and their roads |
| CityRendering.CityRenderer.GenerateDistricts | src/CityRenderer.cpp:36-92 | appends the three tiers, roads untouched |
| CityRendering.CityRenderer.PushTier | src/CityRenderer.cpp:47-59 | one tier loop appends its districts |
| CityRendering.CityRenderer.GenerateRoads | src/CityRenderer.cpp:94-119 | appends only, the road of each nearby pair once, districts untouched |

## Left out

- `platforms` is an integer. Fractional counts are not modelled. TypeScript `number` allows them, and the class bands can accept one (2.5 for a local station), which is then priced at base × 1.25.

- Haversine distance, bearings, interpolation and nearest-point sampling: trigonometric floating point. The distance is a parameter that is only assumed non-negative.
- The distance-sum branch of `linesIntersect` is the parameter-driven `CrossDistancesClose`. Only the bounding-box fast path is modelled exactly.
- `Math.pow(n, 1.2)` in the revenue bonus is a parameter `pow`.
- `calculateTrackLength`'s `sqrt` in the client store is a parameter `lengthOf`.
- The centre distance of `generateGrid` is a parameter. It is a ratio of two `Math.hypot` values and is required to lie in [0,1] for the grid's cells, which that ratio does.
- Floating-point rounding is not modelled: every `number` and `double` is an exact real.
- Integer overflow of C++ `int` is not modelled: populations, costs and passenger counts are unbounded integers.
- The seeded generator assumes exact integer arithmetic. This holds in a double only while seed × 9301 stays below 2^53.
- JSON file persistence and HTTP plumbing are not modelled. The store is a map, and each handler's reply is a value.
- Untyped request bodies are not modelled: NaN, `null`, strings where numbers belong. Bodies are typed records, and an absent field or a non-array is `None`.
- Error message texts are not modelled. The 403 body is the bare `InsufficientBudget` reply.
- The client's `api.*` branches, `localStorage` save and load, `toolSettings` and every `console` call are I/O and are left out.
- `Train::setPosition` can put the position outside [0,1]. `TrainMotion.Train.Update` therefore keeps [0,1] as a conditional postcondition, not as a class invariant.
- The SDL and TTF rendering, projections and the event loop are user interface code. So are `UIRenderer`, `latLonToScreen` and the `onClick` callback of `Button`.
- Random district placement and populations (`std::mt19937`) are a parameter `draw`. The model does not claim they lie within the uniform distributions' ranges.
- `GameStates.GameStateManager.SelectCountry` stores an index into the list where the source stores a pointer to the entry.
- `Simulation.ComputeModeShare` answers `NotANumber` where the source divides by a zero total.
- `Simulation.DistanceToTrack`: that only in-bounds cells are read is shown by its structure (each read sits under the bounds guard), not by its postcondition.
- The server has no delete endpoints, and it does not check a track's endpoint ids. The model has neither.
- `EconomySystem.Economy.GetNetIncome` promises `net == monthlyIncome` only under `Valid()`. No method ever raises `monthlyExpenses`, so that invariant always holds.

## Findings

| source | as written | input that shows it | evidently intended | confidence | as-written member | corrected member |
|---|---|---|---|---|---|---|
| src/Economy.cpp:19-30 | `earnMoney` credits money at once and records it as monthly income; the monthly `update` then adds that income to money again | a fresh Economy, `earnMoney(100)`, then `update(30)`: money ends at 100,200 | income is credited once, so the settlement charges only the expenses and money ends at 100,100 | medium, not executed | EconomySystem.EarnThenSettleAsWritten | EconomySystem.EarnThenSettleCorrected |
| backend/src/routes/computation.routes.ts:21-25 | the distance handler refuses the request when any latitude or longitude is falsy, and 0 is falsy | `from = {lat: 51.48, lon: 0}` (Greenwich) is refused with 400 | only absent coordinates are refused | high, not executed | ComputationRoutes.GreenwichIsRefused | ComputationRoutes.CorrectedDistanceExtendsWritten |
