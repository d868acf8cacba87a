# Parhelion-WMS logistics core, modelled in Dafny

Parhelion-WMS is a logistics back end. A C# service handles shipments, the warehouse, route blueprints and permissions, and a Python analytics service plans loads and routes and scores drivers, trucks and anomalies. This project models the decision logic of both services and proves what that logic promises. CRUD, HTTP, database and machine-learning plumbing are not modelled.

One Dafny module stands for each core source file:

| module | file | what it models |
|---|---|---|
| `Loading` | `loading.dfy` | The greedy 3-D load planner: largest-volume-first order, the weight check, the four-branch row/layer cursor, utilisation, centre of gravity, the stability verdict, the loading sequence and the warnings. |
| `Routing` | `routing.dfy` | The route optimizer: the bidirectional sample graph, constraint filtering, the order of the error checks, alternatives re-costed from their own edges, distance sums, path bottlenecks and the confidence score. |
| `NetworkAnalysis` | `network_analysis.dfy` | The network analyzer: the top-5 hubs, hub-to-hub critical paths, resilience after the top hub is removed, and network bottlenecks. |
| `Shipments` | `shipments.dfy` | The shipment status machine, the field updates of the status change, assignment and generic update, and the cargo type of the exception event. |
| `Cargo` | `cargo.dfy` | The cargo/truck compatibility validator and the required-truck-type rule. |
| `InventoryStocks` | `inventory_stock.dfy` | Reserve and release guards, the balance invariant and the low-stock query. |
| `RouteSteps` | `route_steps.dfy` | Route-step create, update and delete with the route's step count and transit-time totals, reordering, append-at-end and listing by route. |
| `Paging` | `paging.dfy` | The clamping paged request, its skip offset in 32-bit arithmetic, and the paged result's page count and previous/next flags. |
| `RolePermissions` | `role_permissions.dfy` | The fixed role-to-permission table. |
| `Webhooks` | `webhooks.dfy` | The n8n webhook URL join. |
| `ShipmentItems` | `shipment_items.dfy` | The volume and volumetric-weight conversions. |
| `DriverPerformance` | `driver_performance.dfy` | Driver percentile, rating, category, trend, recommendations, the per-driver report and the leaderboard. |
| `AnomalyDetection` | `anomaly_detector.dfy` | Anomaly severity, classification, the suggested actions, and the filtered, severity-ordered report. |
| `ShipmentClustering` | `shipment_clusterer.dfy` | Truck class, the nearest hub, consolidated route distance and savings, and per-cluster summaries. |
| `TruckRecommendation` | `truck_recommender.dfy` | Truck features, hard constraints, weighted scores, the top-N selection and the formatted recommendations. |
| `StableSort` | `stable_sort.dfy` | A stable descending sort by a real key. It stands for Python's `sorted`/`list.sort`, LINQ `OrderBy` and pandas `nlargest`. |
| `Common` | `common.dfy` | Option, Python slicing, rounding to n decimals, decimal digits and substring search. |

The code follows the source's own form. Pure code becomes functions and lemmas. Objects whose fields the source updates become classes: `PagedRequest`, `InventoryStockService`, `RouteStepService`, `ShipmentService`, `RouteOptimizer` and `NetworkAnalyzer`. Their repositories are `map` or `seq` fields, and a `saves` counter stands for `SaveChangesAsync`. Loops in the source, such as the load planner's placement loop, the centre-of-gravity sums, nearest-hub search, alternatives, score columns and the leaderboard's rank loop, are methods with loops. Each such method is proved equal to a pure model function, and the lemmas are proved about that function.

Library calls whose code is not part of this model become inputs with a stated contract:
- networkx (`dijkstra_path`, `shortest_simple_paths`, `betweenness_centrality`, `connected_components`, `shortest_path`, `density`, `average_shortest_path_length`) is a record of function values. A predicate states what a sound answer is (for example, a Dijkstra answer is a path in the graph from origin to destination);
- the machine-learning outputs (IsolationForest labels and scores, KMeans labels) are sequences given to the model;
- square root is a `real -> real` parameter;
- clocks are a `now` parameter.

Facts about the code that its comments do not make plain:
- The load planner's row/layer cursor keeps boxes pairwise disjoint for non-negative dimensions (`Loading.PackKeepsInv`). A new row starts behind the deepest box of the current layer. A new layer starts above the tallest box of the current row and resets `z`. Both jumps clear every earlier box. The cursor does not guarantee containment: only the same-row branch checks the width, and `Loading.OversizeBoxIsPlaced` exhibits a box that sticks out of the truck.
- The loading sequence is placement order numbered from 1. The source's comment says "reverse of placement", but the code does not reverse it.
- The constraint filter reads `max_edge_time`, while both routers send `max_time`. See the findings below.
- The transition table lets OutForDelivery go back to AtHub. The method's doc comment does not list this move.

## Model

| member | source | states |
|---|---|---|
| Loading.SampleTruck | service-python/src/parhelion_py/application/services/loading_optimizer.py:44-51 | The fixed sample truck (240 x 220 x 600 cm, 5000 kg) has positive dimensions and capacity. |
| Loading.SortByVolume | service-python/src/parhelion_py/application/services/loading_optimizer.py:64-68 | Items are ordered by non-increasing volume and form a permutation of the input. |
| Loading.DisjointBoxesShareNoPoint | service-python/src/parhelion_py/application/services/loading_optimizer.py:116-124 | Two boxes that are disjoint in the model's sense share no interior point. |
| Loading.StartRowKeepsInv | service-python/src/parhelion_py/application/services/loading_optimizer.py:90-94 | The new-row branch (`x=0`, `z += layer_depth`, `layer_depth=0`) preserves the placement invariant (disjoint boxes, cursor behind them all). |
| Loading.StartLayerKeepsInv | service-python/src/parhelion_py/application/services/loading_optimizer.py:95-101 | The new-layer branch (`y += row_height`, `z=0`, both maxima reset) preserves the placement invariant. |
| Loading.PutKeepsInv | service-python/src/parhelion_py/application/services/loading_optimizer.py:108-133 | Placing a box at the cursor and advancing `x` and the maxima preserves the invariant, including the weight total within capacity. |
| Loading.PlaceKeepsInv | service-python/src/parhelion_py/application/services/loading_optimizer.py:81-133 | One loop iteration (weight check, cursor branch, placement or rejection) preserves the invariant. |
| Loading.PackKeepsInv | service-python/src/parhelion_py/application/services/loading_optimizer.py:80-133 | After the whole loop, placed boxes are pairwise disjoint, lie at non-negative coordinates and have non-decreasing `y`. |
| Loading.PackWithinBudget | service-python/src/parhelion_py/application/services/loading_optimizer.py:82-84 | The accumulated weight never exceeds the truck's capacity. |
| Loading.PackPartitions | service-python/src/parhelion_py/application/services/loading_optimizer.py:80-133 | Every item ends in exactly one of the loaded and unfitted lists: the counts add up and the multisets are a partition of the input. |
| Loading.PutTotals | service-python/src/parhelion_py/application/services/loading_optimizer.py:132-133 | Placing a box keeps the running weight and volume equal to the sums over the loaded boxes. |
| Loading.PlaceTotals | service-python/src/parhelion_py/application/services/loading_optimizer.py:80-133 | One iteration keeps the running totals equal to the sums over the loaded boxes. |
| Loading.PackTotals | service-python/src/parhelion_py/application/services/loading_optimizer.py:132-133 | The final total weight and volume are the sums over placed items only. |
| Loading.PlaceRaisesOnly | service-python/src/parhelion_py/application/services/loading_optimizer.py:87-101 | No branch lowers the `y` cursor. |
| Loading.OverweightNeverPlaced | service-python/src/parhelion_py/application/services/loading_optimizer.py:82-84 | An item heavier than the capacity is always unfitted and the loaded list is unchanged. |
| Loading.SameRowWithinWidth | service-python/src/parhelion_py/application/services/loading_optimizer.py:87-89 | A box placed by the same-row branch ends within the cargo width. |
| Loading.OversizeBoxIsPlaced | service-python/src/parhelion_py/application/services/loading_optimizer.py:90-101 | A box wider than the truck is still placed by the new-row branch and sticks out of the cargo width, so containment is not guaranteed. |
| Loading.CenterOfGravity | service-python/src/parhelion_py/application/services/loading_optimizer.py:212-250 | The loop's weighted sums equal the pure model; with no placed items the split is 50/50, and front plus rear is always 100. |
| Loading.MomentBounds | service-python/src/parhelion_py/application/services/loading_optimizer.py:224-233 | If every centre lies in [lo, hi], the weight moment lies between lo and hi times the total weight. |
| Loading.MeanWithin | service-python/src/parhelion_py/application/services/loading_optimizer.py:235-237 | For positive weights the centre of gravity lies between the smallest and largest box centre. |
| Loading.StabilityWindow | service-python/src/parhelion_py/application/services/loading_optimizer.py:252-262 | Balanced holds iff the COG x lies strictly between 35% and 65% of the width and the COG z strictly between 35% and 65% of the depth. |
| Loading.EmptyLoadUnbalanced | service-python/src/parhelion_py/application/services/loading_optimizer.py:252-262 | An empty load (COG at the origin) is always reported unbalanced. |
| Loading.LoadingSequence | service-python/src/parhelion_py/application/services/loading_optimizer.py:146-154 | The sequence has one step per placed item, numbered 1..n in placement order, with each item's SKU, description and position. |
| Loading.Warnings | service-python/src/parhelion_py/application/services/loading_optimizer.py:157-163 | Each of the three warnings appears iff its condition holds; the unstable warning comes first and the low-volume warning last. |
| Loading.UnfitEntries | service-python/src/parhelion_py/application/services/loading_optimizer.py:171-174 | Every unfitted item is reported with its SKU and the reason "No space available". |
| Loading.WeightRateAtMostOne | service-python/src/parhelion_py/application/services/loading_optimizer.py:137 | The weight utilisation, raw and rounded, is at most 1. |
| Loading.PlaceAll | service-python/src/parhelion_py/application/services/loading_optimizer.py:80-133 | The placement loop computes exactly the function `Pack`. |
| Loading.OptimizeLoading | service-python/src/parhelion_py/application/services/loading_optimizer.py:26-189 | The service method (placement loop, centre-of-gravity loop, report) returns exactly the pure load plan that LoadPlanFigures, LoadPlanReport and LoadPlanPacking describe. |
| Loading.LoadPlanFigures | service-python/src/parhelion_py/application/services/loading_optimizer.py:165-180 | Truck id and plate, the placed boxes, one unfit entry per left-over item, loaded and unfitted counts equal to the two lists and adding up to the number of items, utilisation rates and totals measured from the placed boxes and rounded as reported, weight rate at most 1. |
| Loading.LoadPlanReport | service-python/src/parhelion_py/application/services/loading_optimizer.py:140-188 | The weight distribution is the placed boxes' centre of gravity, its stability flag and its front/rear split rounded to one decimal; the sequence and the warnings are those of the placed boxes. |
| Loading.LoadPlanPacking | service-python/src/parhelion_py/application/services/loading_optimizer.py:64-133 | Placed and left-over items together are the input items, the load is within capacity, and for non-negative dimensions the boxes are pairwise disjoint, in ascending layers, at non-negative positions. |
| Routing.AddBothWaysFacts | service-python/src/parhelion_py/application/services/route_optimizer.py:144-147 | Adding a lane inserts both directions with identical attributes and keeps the graph symmetric and closed. |
| Routing.BuildGraphSymmetric | service-python/src/parhelion_py/application/services/route_optimizer.py:144-147 | The built graph is symmetric: an edge a->b exists iff b->a exists, with equal attributes. |
| Routing.BuildGraphHasLinks | service-python/src/parhelion_py/application/services/route_optimizer.py:144-147 | Every sample lane is present in both directions. |
| Routing.BuildGraphNodes | service-python/src/parhelion_py/application/services/route_optimizer.py:144-147 | The nodes are exactly the lane endpoints. |
| Routing.WithoutNodesFacts | service-python/src/parhelion_py/application/services/route_optimizer.py:157-161 | Removing the avoided ids drops exactly those nodes present in the graph and all their incident edges, and ignores unknown ids. |
| Routing.ConstrainedFacts | service-python/src/parhelion_py/application/services/route_optimizer.py:151-172 | The constrained graph keeps exactly the edges between non-avoided nodes that pass the `max_edge_time` filter, and only when that value is truthy. Attributes are unchanged. |
| Routing.ApplyConstraints | service-python/src/parhelion_py/application/services/route_optimizer.py:151-172 | The in-place removal on a copy yields the modelled graph and leaves the input untouched. |
| Routing.RouterMaxTimeIgnored | service-python/src/parhelion_py/api/routers/internal.py:127-130 | The constraints as the routers build them (key `max_time`) filter nothing: an edge slower than the limit survives. |
| Routing.IntendedConstraintsBoundEdges | service-python/src/parhelion_py/application/services/route_optimizer.py:164-170 | With the intended key `max_edge_time`, every surviving edge has transit time within the limit and avoids the excluded nodes. |
| Routing.PathSumPrepend | service-python/src/parhelion_py/application/services/route_optimizer.py:226-234 | A path sum splits into the first edge (0 when missing) plus the sum of the rest. |
| Routing.ReversePathSum | service-python/src/parhelion_py/application/services/route_optimizer.py:144-147 | On the symmetric graph, a path and its reverse have the same distance and time. |
| Routing.PathHasNoMissingEdges | service-python/src/parhelion_py/application/services/route_optimizer.py:249-251 | A genuine path has no missing edges. |
| Routing.SumAlong | service-python/src/parhelion_py/application/services/route_optimizer.py:187-190 | The summing loop equals the path sum of the attribute, with a missing edge counting 0. |
| Routing.TotalDistance | service-python/src/parhelion_py/application/services/route_optimizer.py:226-234 | The total distance is the sum of `distance_km` over consecutive pairs, with a missing edge counting 0. |
| Routing.CalculateConfidence | service-python/src/parhelion_py/application/services/route_optimizer.py:236-253 | The loop equals the confidence formula applied to the path's node count and number of missing edges. |
| Routing.ConfidenceAtMostOne | service-python/src/parhelion_py/application/services/route_optimizer.py:253 | The confidence never exceeds 1. |
| Routing.ConfidenceOfCompletePath | service-python/src/parhelion_py/application/services/route_optimizer.py:241-253 | With no missing edges and at least 2 nodes, the confidence is at least 0.5. |
| Routing.ConfidenceExamples | service-python/src/parhelion_py/application/services/route_optimizer.py:245-253 | With no missing edges, one hop gives 1.0 and two hops give 0.95. |
| Routing.ConfidenceCanBeNegative | service-python/src/parhelion_py/application/services/route_optimizer.py:248-253 | With many missing edges the edge score drives the confidence below 0; nothing clamps it at 0. |
| Routing.FindKShortestPaths | service-python/src/parhelion_py/application/services/route_optimizer.py:174-200 | The alternatives are `paths[1:k]`, ranked from 2, each re-costed from its own edges' transit times with hops = length - 1; their count follows the slice. |
| Routing.AlternativeMayRepeatOptimal | service-python/src/parhelion_py/application/services/route_optimizer.py:186 | Alternatives are chosen by position, so under cost ties one can equal the optimal path. |
| Routing.BottlenecksAmongExactly | service-python/src/parhelion_py/application/services/route_optimizer.py:213-222 | Every reported bottleneck is an interior path node with betweenness > 0.3, and every such node is reported; severity is HIGH iff > 0.5. |
| Routing.RouteErrorOrder | service-python/src/parhelion_py/application/services/route_optimizer.py:57-76 | A missing origin is reported before a missing destination, then "No path exists…". A route is produced iff both exist and a path exists. |
| Routing.AvoidedOriginRejected | service-python/src/parhelion_py/application/services/route_optimizer.py:53-60 | Validation runs after the constraints, so an avoided origin is reported as not found. |
| Routing.SoundAlternatives | service-python/src/parhelion_py/application/services/route_optimizer.py:174-198 | For a sound simple-paths answer, every alternative runs from the origin to the destination in the constrained graph and contains none of the avoided locations. |
| Routing.SoundRoute | service-python/src/parhelion_py/application/services/route_optimizer.py:66-109 | For a sound Dijkstra answer, the route starts at the origin, ends at the destination, avoids the excluded nodes, has hops = length - 1 and confidence ≤ 1, and ≥ 0.5 when origin ≠ destination. |
| Routing.RouteOptimizer.BuildNetworkGraph | service-python/src/parhelion_py/application/services/route_optimizer.py:111-149 | The object's locations field becomes the sample table, and the graph is the symmetric closed graph of the sample lanes. |
| Routing.RouteOptimizer.DetectBottlenecks | service-python/src/parhelion_py/application/services/route_optimizer.py:202-224 | The loop equals the modelled bottleneck list over the interior nodes (none for fewer than 3 nodes). |
| Routing.RouteOptimizer.CalculateOptimalRoute | service-python/src/parhelion_py/application/services/route_optimizer.py:30-109 | The whole call equals the modelled outcome on the constrained sample graph. |
| NetworkAnalysis.BuildUGraphWellFormed | service-python/src/parhelion_py/application/services/network_analyzer.py:101-132 | The undirected sample graph is well formed, and its nodes are exactly the lane endpoints. |
| NetworkAnalysis.WithoutFacts | service-python/src/parhelion_py/application/services/network_analyzer.py:198 | Removing a node from a duplicate-free node list removes exactly that node and keeps the list duplicate-free. |
| NetworkAnalysis.RemoveNodeFacts | service-python/src/parhelion_py/application/services/network_analyzer.py:197-198 | Removing the top hub from a copy drops that node and exactly its incident edges. |
| NetworkAnalysis.TopHubsFacts | service-python/src/parhelion_py/application/services/network_analyzer.py:53-57 | The critical hubs are min(5, n) nodes in descending betweenness, each at least as central as every node left out, with ties kept in node order. |
| NetworkAnalysis.HubNodes | service-python/src/parhelion_py/application/services/network_analyzer.py:167 | The hubs are exactly the nodes whose id contains "HUB". |
| NetworkAnalysis.RowSound | service-python/src/parhelion_py/application/services/network_analyzer.py:170-183 | Every critical-path entry from one hub is a shortest-path answer to a later hub, with hops = length - 1. |
| NetworkAnalysis.RowComplete | service-python/src/parhelion_py/application/services/network_analyzer.py:170-183 | Every later hub that the library reaches from the source has an entry. |
| NetworkAnalysis.GridSound | service-python/src/parhelion_py/application/services/network_analyzer.py:169-183 | Every entry belongs to an unordered hub pair i < j. |
| NetworkAnalysis.GridComplete | service-python/src/parhelion_py/application/services/network_analyzer.py:169-183 | Every reachable hub pair i < j has an entry. |
| NetworkAnalysis.CriticalPathsFacts | service-python/src/parhelion_py/application/services/network_analyzer.py:162-185 | The critical paths are the first min(10, total) entries, in pair order, each between two hubs i < j. |
| NetworkAnalysis.IsolatedExactly | service-python/src/parhelion_py/application/services/network_analyzer.py:205-209 | The isolated locations are exactly the members of components with fewer than 3 nodes. |
| NetworkAnalysis.ResilienceScoreRange | service-python/src/parhelion_py/application/services/network_analyzer.py:187-220 | With no hubs the result is "Unable to analyze". Otherwise the score lies in (0, 1], equals 1 iff the remainder is connected, and is 1/components otherwise. |
| NetworkAnalysis.ResilienceWithSoundComponents | service-python/src/parhelion_py/application/services/network_analyzer.py:196-209 | With a sound component answer, the remainder is empty iff the top hub was the only node, and isolated locations are nodes of small components other than the hub. |
| NetworkAnalysis.OverExactly | service-python/src/parhelion_py/application/services/network_analyzer.py:228-238 | Network bottlenecks are exactly the nodes with betweenness > 0.15; HIGH iff > 0.3. |
| NetworkAnalysis.NetBottlenecksFacts | service-python/src/parhelion_py/application/services/network_analyzer.py:222-240 | The bottleneck list is exactly the nodes over 0.15, sorted by rounded centrality, descending. |
| NetworkAnalysis.NetworkAnalyzer.BuildNetworkGraph | service-python/src/parhelion_py/application/services/network_analyzer.py:101-132 | The locations field becomes the sample table, and the graph is the well-formed graph of the sample lanes. |
| NetworkAnalysis.NetworkAnalyzer.FindCriticalPaths | service-python/src/parhelion_py/application/services/network_analyzer.py:162-185 | The nested loops equal the modelled list of critical paths. |
| NetworkAnalysis.NetworkAnalyzer.AnalyzeResilience | service-python/src/parhelion_py/application/services/network_analyzer.py:187-220 | The method equals the modelled resilience analysis. |
| NetworkAnalysis.NetworkAnalyzer.DetectBottlenecks | service-python/src/parhelion_py/application/services/network_analyzer.py:222-240 | The loop plus sort equals the modelled bottleneck list. |
| NetworkAnalysis.NetworkAnalyzer.AnalyzeNetwork | service-python/src/parhelion_py/application/services/network_analyzer.py:28-99 | The whole analysis equals the modelled report on the sample graph. |
| Shipments.ParseStatus | backend/src/Parhelion.Infrastructure/Services/Shipment/ShipmentService.cs:108 | A status is parsed iff some member has exactly that name, and the parsed member has it. |
| Shipments.ParsePriority | backend/src/Parhelion.Infrastructure/Services/Shipment/ShipmentService.cs:107 | A priority is parsed iff some member has exactly that name, and the parsed member has it. |
| Shipments.ParseInvertsName | backend/src/Parhelion.Infrastructure/Services/Shipment/ShipmentService.cs:107-108 | Parsing a member's name gives that member back, for statuses and priorities. |
| Shipments.TransitionTable | backend/src/Parhelion.Infrastructure/Services/Shipment/ShipmentService.cs:334-355 | A move is allowed iff it stays put, starts from Exception, goes to Exception, or is one of the forward moves listed in the table, including OutForDelivery→AtHub. |
| Shipments.TransitionBasics | backend/src/Parhelion.Infrastructure/Services/Shipment/ShipmentService.cs:334-350 | Staying put, leaving Exception and entering Exception are always allowed; Delivered can only stay or go to Exception. |
| Shipments.RejectionMessage | backend/src/Parhelion.Infrastructure/Services/Shipment/ShipmentService.cs:354-355 | A rejection happens iff the move is not allowed; its message starts with "Transición de estado inválida: c → n" and ends with the list of valid targets. |
| Shipments.StepPhase | backend/src/Parhelion.Infrastructure/Services/Shipment/ShipmentService.cs:344-350 | Outside Exception, an allowed move advances the workflow phase by at most one, and only OutForDelivery reaches Delivered. |
| Shipments.WalkMonotone | backend/src/Parhelion.Infrastructure/Services/Shipment/ShipmentService.cs:344-350 | Along any walk that avoids Exception, the phase never decreases. |
| Shipments.EntersPhase | backend/src/Parhelion.Infrastructure/Services/Shipment/ShipmentService.cs:344-350 | A walk that avoids Exception and ends in a later phase enters every phase in between at some step. |
| Shipments.DeliveryPassesEveryStage | backend/src/Parhelion.Infrastructure/Services/Shipment/ShipmentService.cs:344-350 | Every walk from PendingApproval to Delivered without Exception passes Approved, Loaded, InTransit and OutForDelivery in that order. |
| Shipments.CargoTypePriority | backend/src/Parhelion.Infrastructure/Services/Shipment/ShipmentService.cs:272-275 | The cargo type is Perishable iff any item needs refrigeration, else Hazmat iff any is hazardous, else HighValue iff the declared value exceeds 500000. A missing value is never HighValue. |
| Shipments.WithStatusStampsDelivery | backend/src/Parhelion.Infrastructure/Services/Shipment/ShipmentService.cs:220-225 | A status change sets the status, and stamps `DeliveredAt` iff the new status is Delivered. |
| Shipments.UpdateBypassesTable | backend/src/Parhelion.Infrastructure/Services/Shipment/ShipmentService.cs:108 | The generic update can move a Delivered shipment back to InTransit, which the table forbids. |
| Shipments.AssignmentBypassesTable | backend/src/Parhelion.Infrastructure/Services/Shipment/ShipmentService.cs:200 | Assignment sets Approved even from states the table forbids it from. |
| Shipments.ShipmentService.UpdateStatus | backend/src/Parhelion.Infrastructure/Services/Shipment/ShipmentService.cs:209-234 | A missing shipment or an invalid move changes nothing and saves nothing. Otherwise the new status (and `DeliveredAt`) is stored and saved once, a status-changed event is published, and an exception event follows iff the new status is Exception. |
| Shipments.ShipmentService.AssignToDriver | backend/src/Parhelion.Infrastructure/Services/Shipment/ShipmentService.cs:176-206 | The checks run in order (shipment, available driver, truck, cargo compatibility), each with its message; the cargo failure reports the validator's message with the required and the assigned truck type. Assignment succeeds iff all pass; it then sets driver, truck, time and Approved and saves once. |
| Shipments.ShipmentService.Update | backend/src/Parhelion.Infrastructure/Services/Shipment/ShipmentService.cs:98-120 | A missing shipment fails with no change. Otherwise the request's fields are copied, status and priority only when they parse, and saved once. |
| Cargo.ValidIffRequirementsMet | backend/src/Parhelion.Infrastructure/Validators/CargoCompatibilityValidator.cs:21-54 | Validation succeeds iff refrigerated cargo gets a Refrigerated truck, hazmat cargo a HazmatTank, and high-value cargo an Armored truck. |
| Cargo.FailureNamesFirstBrokenRule | backend/src/Parhelion.Infrastructure/Validators/CargoCompatibilityValidator.cs:26-51 | A failure names the truck type of the first broken rule in the order refrigeration, hazmat, value. |
| Cargo.EmptyCargo | backend/src/Parhelion.Infrastructure/Validators/CargoCompatibilityValidator.cs:23-24 | An empty item list is valid for every truck and requires a DryBox. |
| Cargo.StandardCargoFitsAnyTruck | backend/src/Parhelion.Infrastructure/Validators/CargoCompatibilityValidator.cs:27-53 | Cargo without refrigeration, hazmat or high value is valid for every truck type. |
| Cargo.ThresholdIsStrict | backend/src/Parhelion.Infrastructure/Validators/CargoCompatibilityValidator.cs:45-46 | A total declared value of exactly 500000 passes on a DryBox. |
| Cargo.ColdHazmatFitsNoTruck | backend/src/Parhelion.Infrastructure/Validators/CargoCompatibilityValidator.cs:27-42 | Cargo that is both refrigerated and hazardous fails on every truck type. |
| Cargo.DeterminedTypeFailsWithHighValue | backend/src/Parhelion.Infrastructure/Validators/CargoCompatibilityValidator.cs:61-70 | High value combined with refrigeration or hazmat makes validation against the determined type fail. |
| Cargo.DeterminedTypeValidates | backend/src/Parhelion.Infrastructure/Validators/CargoCompatibilityValidator.cs:56-73 | When at most one requirement applies, the determined truck type passes validation. |
| InventoryStocks.ReserveFacts | backend/src/Parhelion.Infrastructure/Services/Warehouse/InventoryStockService.cs:127-131 | A reservation succeeds iff the available quantity covers it; it then raises the reserved quantity by q, keeps the quantity, and lowers the available quantity by q. |
| InventoryStocks.ReleaseFacts | backend/src/Parhelion.Infrastructure/Services/Warehouse/InventoryStockService.cs:143-147 | A release succeeds iff the reserved quantity covers it; it then lowers the reserved quantity by q and raises the available quantity by q. |
| InventoryStocks.OperationsKeepBalance | backend/src/Parhelion.Infrastructure/Services/Warehouse/InventoryStockService.cs:122-152 | For a non-negative amount, both operations preserve 0 ≤ reserved ≤ quantity. |
| InventoryStocks.NegativeReleaseBreaksBalance | backend/src/Parhelion.Infrastructure/Services/Warehouse/InventoryStockService.cs:143-146 | A negative release passes the guard and breaks the balance. |
| InventoryStocks.ReserveThenRelease | backend/src/Parhelion.Infrastructure/Services/Warehouse/InventoryStockService.cs:130 | Releasing what was just reserved restores the reserved quantity. |
| InventoryStocks.ReserveExample | backend/src/Parhelion.Infrastructure/Services/Warehouse/InventoryStockService.cs:127-131 | Reserving 75 of 200 leaves 125 available; reserving 95 with 90 available fails. |
| InventoryStocks.LowOfExactly | backend/src/Parhelion.Infrastructure/Services/Warehouse/InventoryStockService.cs:115 | The low-stock filter keeps exactly the tenant's stocks with available quantity ≤ threshold. |
| InventoryStocks.LowStockPageMembers | backend/src/Parhelion.Infrastructure/Services/Warehouse/InventoryStockService.cs:112-120 | The page is taken at the request's 32-bit `Skip` and exists whenever the true offset fits; it holds at most `pageSize` of the tenant's low stocks, and the total count is the number of low stocks. |
| InventoryStocks.LowStockPageOrdered | backend/src/Parhelion.Infrastructure/Services/Warehouse/InventoryStockService.cs:116 | Any page produced is ordered by available quantity, ascending. |
| InventoryStocks.InventoryStockService.ReserveQuantity | backend/src/Parhelion.Infrastructure/Services/Warehouse/InventoryStockService.cs:122-136 | A missing stock or a shortfall fails with its message and no change. Otherwise the stock is replaced by the reserved one and saved once. |
| InventoryStocks.InventoryStockService.ReleaseReserved | backend/src/Parhelion.Infrastructure/Services/Warehouse/InventoryStockService.cs:138-152 | A missing stock or an over-release fails with no change. Otherwise the stock is replaced by the released one and saved once. |
| RouteSteps.TotalsConcat | backend/src/Parhelion.Infrastructure/Services/Network/RouteStepService.cs:52-53 | The step count and transit-time sum of a route split over concatenation. |
| RouteSteps.RemoveTotals | backend/src/Parhelion.Infrastructure/Services/Network/RouteStepService.cs:97-98 | Removing a step lowers its route's count by one and its time by the step's time. |
| RouteSteps.ReplaceTotals | backend/src/Parhelion.Infrastructure/Services/Network/RouteStepService.cs:79 | Replacing a step on the same route keeps the count and shifts the time by new minus old. |
| RouteSteps.AppendTotals | backend/src/Parhelion.Infrastructure/Services/Network/RouteStepService.cs:52-53 | Appending a step raises its route's count by one and its time by the step's time. |
| RouteSteps.IndexOf | backend/src/Parhelion.Infrastructure/Services/Network/RouteStepService.cs:63-64 | The lookup finds the first step with the id, or reports that there is none. |
| RouteSteps.StepTypeDefaults | backend/src/Parhelion.Infrastructure/Services/Network/RouteStepService.cs:45 | An unparsable step type becomes Intermediate on create and keeps the old value on update. |
| RouteSteps.ReorderedElementwise | backend/src/Parhelion.Infrastructure/Services/Network/RouteStepService.cs:122-137 | After reordering, each listed step of the route gets its new order, and every other step is unchanged. |
| RouteSteps.UnlistedKeepOrder | backend/src/Parhelion.Infrastructure/Services/Network/RouteStepService.cs:122-134 | Steps not listed (or on another route) keep their order. |
| RouteSteps.MatchedAllKnown | backend/src/Parhelion.Infrastructure/Services/Network/RouteStepService.cs:125-134 | When every listed id is a step of this route, every id consumes a number. |
| RouteSteps.ListedNumberedInOrder | backend/src/Parhelion.Infrastructure/Services/Network/RouteStepService.cs:125-131 | The j-th listed id gets order j + 1 (for distinct, known ids). |
| RouteSteps.StepsOnExactly | backend/src/Parhelion.Infrastructure/Services/Network/RouteStepService.cs:113 | Listing a route yields exactly that route's steps. |
| RouteSteps.ByRouteFacts | backend/src/Parhelion.Infrastructure/Services/Network/RouteStepService.cs:111-117 | The listing is a permutation of the route's steps, ordered by non-decreasing step order. |
| RouteSteps.MaxOrderFacts | backend/src/Parhelion.Infrastructure/Services/Network/RouteStepService.cs:143-145 | The maximum order bounds every step on the route and is attained, or is 0 for an empty route. |
| RouteSteps.NoneOnRoute | backend/src/Parhelion.Infrastructure/Services/Network/RouteStepService.cs:143-145 | A route with no counted steps has no steps. |
| RouteSteps.AppendNumbersAfterAll | backend/src/Parhelion.Infrastructure/Services/Network/RouteStepService.cs:140-148 | Appending numbers the new step after every existing step (1 on an empty route), on the given route. |
| RouteSteps.RouteStepService.Create | backend/src/Parhelion.Infrastructure/Services/Network/RouteStepService.cs:33-59 | A missing route fails with no change. Otherwise the step is appended, the route's count rises by one and its time by the step's, it is saved once, and the totals invariant is kept. |
| RouteSteps.RouteStepService.Update | backend/src/Parhelion.Infrastructure/Services/Network/RouteStepService.cs:61-86 | A missing step fails with no change. Otherwise the step is updated, the route time shifts by new minus old with the count unchanged, and the invariant is kept. |
| RouteSteps.RouteStepService.Delete | backend/src/Parhelion.Infrastructure/Services/Network/RouteStepService.cs:88-106 | A missing step fails. Otherwise the step is removed, the route loses one step and its time, and the invariant is kept. |
| RouteSteps.ReorderedKeepsTotals | backend/src/Parhelion.Infrastructure/Services/Network/RouteStepService.cs:120-138 | Renumbering changes only step numbers and timestamps, so every route keeps its step count and total transit time. |
| RouteSteps.RouteStepService.ReorderSteps | backend/src/Parhelion.Infrastructure/Services/Network/RouteStepService.cs:120-138 | The loop yields the modelled reordering, leaves the routes untouched, saves once, always succeeds and keeps every route's totals consistent with its steps. |
| RouteSteps.RouteStepService.AddStepToRoute | backend/src/Parhelion.Infrastructure/Services/Network/RouteStepService.cs:140-148 | An unknown route changes nothing. Otherwise the step is appended with order max + 1, the route's step count rises by one and its transit time by the step's, other routes are unchanged, the work is saved once, and the totals invariant is kept. |
| Paging.Wrap32 | backend/src/Parhelion.Application/DTOs/Common/PagedRequest.cs:55 | Unchecked int arithmetic: the result is congruent modulo 2^32 and equals the input when it fits. |
| Paging.ClampFacts | backend/src/Parhelion.Application/DTOs/Common/PagedRequest.cs:16-29 | Page ≥ 1 and 1 ≤ PageSize ≤ 100 after clamping, in-range values are kept, and clamping is idempotent. |
| Paging.SkipOf | backend/src/Parhelion.Application/DTOs/Common/PagedRequest.cs:55 | The skip offset is never negative for page ≥ 1. |
| Paging.SkipAgreesWhenItFits | backend/src/Parhelion.Application/DTOs/Common/PagedRequest.cs:55 | When the product fits in 32 bits, the source's computation equals the true offset. |
| Paging.SkipCongruent | backend/src/Parhelion.Application/DTOs/Common/PagedRequest.cs:55 | The 32-bit offset is always congruent to the true offset modulo 2^32. |
| Paging.SkipOverflows | backend/src/Parhelion.Application/DTOs/Common/PagedRequest.cs:55 | Page 21474838 with size 100 passes both setters but wraps to a negative skip. |
| Paging.PagesTile | backend/src/Parhelion.Application/DTOs/Common/PagedRequest.cs:55 | Pages tile the items: item i lies in page p iff p = i / size + 1. |
| Paging.SkipExample | backend/src/Parhelion.Application/DTOs/Common/PagedRequest.cs:55 | Page 3 with size 10 skips 20. |
| Paging.PagedRequest.constructor | backend/src/Parhelion.Application/DTOs/Common/PagedRequest.cs:9-50 | Defaults are page 1, size 20, active only, no sort or search, skip 0. |
| Paging.PagedRequest.SetPage | backend/src/Parhelion.Application/DTOs/Common/PagedRequest.cs:16-20 | Setting the page clamps it and leaves every other field unchanged. |
| Paging.PagedRequest.SetPageSize | backend/src/Parhelion.Application/DTOs/Common/PagedRequest.cs:25-29 | Setting the size clamps it to [1, 100] and leaves every other field unchanged. |
| Paging.PagedRequest.Skip | backend/src/Parhelion.Application/DTOs/Common/PagedRequest.cs:55 | `Skip` is computed in unchecked 32-bit arithmetic: the number of items on earlier pages whenever that fits, congruent to it modulo 2^32 always (so it can be negative, see the findings). |
| Paging.From | backend/src/Parhelion.Application/DTOs/Common/PagedResult.cs:37-38 | The result copies the page and size from the request, so a request the setters maintain gives page ≥ 1 and a page size in [1, 100]. |
| Paging.FromHasNextPageIffItemsRemain | backend/src/Parhelion.Application/DTOs/Common/PagedResult.cs:37-38 | A result wrapped from such a request has a defined page count, and a next page iff items remain after its page. |
| Paging.TotalPagesIsCeiling | backend/src/Parhelion.Application/DTOs/Common/PagedResult.cs:14 | The page count is the ceiling of total / size. |
| Paging.LastPageIsPartlyFull | backend/src/Parhelion.Application/DTOs/Common/PagedResult.cs:14 | For a positive total, (pages - 1) * size < total ≤ pages * size. |
| Paging.HasNextPageIffItemsRemain | backend/src/Parhelion.Application/DTOs/Common/PagedResult.cs:16 | There is a next page iff items remain after this page. |
| Paging.EmptyFacts | backend/src/Parhelion.Application/DTOs/Common/PagedResult.cs:31-32 | The empty result has 0 pages and no next page, and has a previous page iff page > 1; with no arguments it is page 1 of size 20, with neither a next nor a previous page. |
| Paging.PageCountExample | backend/src/Parhelion.Application/DTOs/Common/PagedResult.cs:14-16 | 25 items in pages of 10 give 3 pages; page 3 has a previous page and no next one. |
| RolePermissions.CodesDistinct | backend/src/Parhelion.Domain/Enums/Permission.cs:8-72 | Each permission has its own code. |
| RolePermissions.HasPermissionIffListed | backend/src/Parhelion.Application/Auth/RolePermissions.cs:136-152 | A role has a permission iff it is in the role's set. |
| RolePermissions.RolesExactly | backend/src/Parhelion.Application/Auth/RolePermissions.cs:147-165 | The roles are exactly Admin, Driver, Warehouse and DemoUser; any other role has no permissions. |
| RolePermissions.SuperAdminHasNothing | backend/src/Parhelion.Application/Auth/RolePermissions.cs:147-152 | The SuperAdmin role the seeder creates is unknown to the table and has no permissions. |
| RolePermissions.AdminHoldsAllButScopedReads | backend/src/Parhelion.Application/Auth/RolePermissions.cs:24-85 | Admin holds every permission except the three scoped reads (own shipments, shipments by location, own documents). |
| RolePermissions.DemoUserOnlyReads | backend/src/Parhelion.Application/Auth/RolePermissions.cs:114-127 | DemoUser holds only read permissions. |
| RolePermissions.OnlyAdminDeletesOrAssigns | backend/src/Parhelion.Application/Auth/RolePermissions.cs:20-128 | Only Admin holds delete permissions or shipment assignment, and Admin holds all of them. |
| RolePermissions.DriverScope | backend/src/Parhelion.Application/Auth/RolePermissions.cs:89-96 | Driver holds exactly own-shipment reads, checkpoint creation, own documents, route reads and location reads. |
| Webhooks.TrimEndSlash | backend/src/Parhelion.Infrastructure/External/Webhooks/N8nConfiguration.cs:38 | The trimmed base is a prefix of the base with no trailing slash, and only slashes were removed. |
| Webhooks.WithLeadingSlash | backend/src/Parhelion.Infrastructure/External/Webhooks/N8nConfiguration.cs:39 | The path always starts with '/'. |
| Webhooks.UrlShape | backend/src/Parhelion.Infrastructure/External/Webhooks/N8nConfiguration.cs:33-41 | The URL is the trimmed base, then '/', then the path without its leading '/' when it had one. |
| Webhooks.TrailingSlashesIgnored | backend/src/Parhelion.Infrastructure/External/Webhooks/N8nConfiguration.cs:38 | Extra trailing slashes on the base do not change the trimmed base. |
| Webhooks.LeadingSlashOptional | backend/src/Parhelion.Infrastructure/External/Webhooks/N8nConfiguration.cs:39 | Paths "x" and "/x" give the same URL. |
| Webhooks.BaseSlashesIgnored | backend/src/Parhelion.Infrastructure/External/Webhooks/N8nConfiguration.cs:38-40 | Extra trailing slashes on the base never change the URL. |
| Webhooks.TrimIdempotent | backend/src/Parhelion.Infrastructure/External/Webhooks/N8nConfiguration.cs:38 | Trimming twice is trimming once. |
| Webhooks.DefaultFacts | backend/src/Parhelion.Infrastructure/External/Webhooks/N8nConfiguration.cs:10-26 | The defaults are disabled, localhost:5678 and 10 s, and every lookup yields nothing. |
| Webhooks.UrlExample | backend/src/Parhelion.Infrastructure/External/Webhooks/N8nConfiguration.cs:33-41 | A base with a trailing slash and a path without a leading slash join with one slash. |
| ShipmentItems.VolumetricWeightIsTwoHundredPerCubicMetre | backend/src/Parhelion.Domain/Entities/ShipmentItem.cs:25-31 | The volumetric weight is 200 times the volume in cubic metres. |
| ShipmentItems.DefaultFactorMatchesEntity | backend/src/Parhelion.Infrastructure/Services/Shipment/ShipmentItemService.cs:115-116 | The service calculation with its default factor 5000 equals the entity's volumetric weight. |
| ShipmentItems.ConversionsNonNegative | backend/src/Parhelion.Domain/Entities/ShipmentItem.cs:25-31 | Non-negative dimensions give non-negative volume and volumetric weight. |
| ShipmentItems.ZeroIffSomeDimensionZero | backend/src/Parhelion.Domain/Entities/ShipmentItem.cs:25-31 | Both conversions are 0 iff some dimension is 0. |
| ShipmentItems.ConversionsMonotone | backend/src/Parhelion.Domain/Entities/ShipmentItem.cs:25-31 | Enlarging any dimension never shrinks either conversion. |
| ShipmentItems.ConversionExample | backend/src/Parhelion.Domain/Entities/ShipmentItem.cs:25-31 | A 50 x 40 x 30 cm box is 0.06 m³ and 12 kg volumetric. |
| StableSort.SortDescIsSortedPermutation | service-python/src/parhelion_py/application/services/loading_optimizer.py:64-68 | The sort yields a non-increasing permutation of its input. |
| StableSort.SortDescIsStable | service-python/src/parhelion_py/application/services/loading_optimizer.py:64-68 | Items with equal keys keep their relative order (Python's sort is stable). |
| StableSort.TopIsLargest | service-python/src/parhelion_py/application/services/network_analyzer.py:53-57 | Every item in a prefix of the sorted list has a key at least as large as every item after it. |
| Common.PyTake | service-python/src/parhelion_py/application/services/driver_performance.py:157 | Python's `s[:n]`: the first n items (all of them when n exceeds the length), and for negative n all but the last -n. |
| DriverPerformance.PercentileDipsAboveMinimum | service-python/src/parhelion_py/application/services/driver_performance.py:198-207 | As written, the percentile is 1 at the fleet minimum but 0 just above it. |
| DriverPerformance.PositionRange | service-python/src/parhelion_py/application/services/driver_performance.py:205-207 | Strictly between min and max, the position is the floor of the fraction times 100 and lies in [0, 99]. |
| DriverPerformance.PercentileRange | service-python/src/parhelion_py/application/services/driver_performance.py:198-207 | The corrected percentile lies in [1, 99] and is the source's value raised to at least 1, so the two differ only where the source gives 0. |
| DriverPerformance.PercentileMonotone | service-python/src/parhelion_py/application/services/driver_performance.py:198-207 | The corrected percentile is monotone in the value. |
| DriverPerformance.RatingRange | service-python/src/parhelion_py/application/services/driver_performance.py:209-231 | For non-negative delay and exception count, the rating lies in [1.0, 5.0]. |
| DriverPerformance.RatingMonotone | service-python/src/parhelion_py/application/services/driver_performance.py:214-231 | A higher on-time rate never lowers the rating. |
| DriverPerformance.CategoryMonotone | service-python/src/parhelion_py/application/services/driver_performance.py:233-244 | The category is monotone in the rating (thresholds 4.5 / 4.0 / 3.0 / 2.0). |
| DriverPerformance.ShareRange | service-python/src/parhelion_py/application/services/driver_performance.py:253-254 | An on-time share lies in [0, 1]. |
| DriverPerformance.TrendFacts | service-python/src/parhelion_py/application/services/driver_performance.py:246-268 | Fewer than 10 deliveries is STABLE with change 0. Otherwise IMPROVING iff change > 5, DECLINING iff change < -5, and the change lies in [-100, 100]. |
| DriverPerformance.GenerateRecommendations | service-python/src/parhelion_py/application/services/driver_performance.py:270-295 | The list is never empty. The praise message appears iff no other advice fired, and is then the only entry. |
| DriverPerformance.AdviceNeverPraises | service-python/src/parhelion_py/application/services/driver_performance.py:280-290 | None of the specific advice rules emits the praise message. |
| DriverPerformance.LateTotalPositive | service-python/src/parhelion_py/application/services/driver_performance.py:67-68 | The total delay is non-negative, and positive when some delivery is late. |
| DriverPerformance.AnalyzeDriverFacts | service-python/src/parhelion_py/application/services/driver_performance.py:30-112 | No deliveries gives the error result. Otherwise the totals match, top performer iff percentile ≥ 90, stars lie in [1, 5] with their category, recommendations are non-empty, and the percentile is the source's value raised to at least 1, so it lies in [1, 99]. |
| DriverPerformance.GetLeaderboard | service-python/src/parhelion_py/application/services/driver_performance.py:114-157 | The sort-and-rank loop equals the modelled leaderboard. |
| DriverPerformance.LeaderboardFacts | service-python/src/parhelion_py/application/services/driver_performance.py:150-157 | The leaderboard is ordered by on-time rate (descending), ranks are 1..n, and there are min(limit, drivers) entries. |
| DriverPerformance.LeaderboardDrawsOnDrivers | service-python/src/parhelion_py/application/services/driver_performance.py:150-157 | Each entry is an input driver with its rank filled in. |
| DriverPerformance.LeaderboardIsTop | service-python/src/parhelion_py/application/services/driver_performance.py:150-157 | The board ranks, in order, a selection of the drivers that repeats none of them, and no driver left off has a better on-time rate than one listed. |
| AnomalyDetection.SeverityFacts | service-python/src/parhelion_py/application/services/anomaly_detector.py:148-155 | CRITICAL iff score < -0.5, WARNING iff -0.5 ≤ score < -0.3, else INFO; severity is monotone in the score. |
| AnomalyDetection.SeverityNamesDistinct | service-python/src/parhelion_py/application/services/anomaly_detector.py:148-155 | The three severity names are distinct. |
| AnomalyDetection.ClassifyPriority | service-python/src/parhelion_py/application/services/anomaly_detector.py:157-168 | Classification follows the priority chain: gap > 6, then ETA deviation > 4, then invalid sequence, then fewer than 2 locations, else unknown. Each outcome is stated as an iff. |
| AnomalyDetection.TypeNamesDistinct | service-python/src/parhelion_py/application/services/anomaly_detector.py:157-168 | The five type names are distinct. |
| AnomalyDetection.ActionsFacts | service-python/src/parhelion_py/application/services/anomaly_detector.py:181-209 | Every type the classifier produces has a non-empty action list; any other type maps to ["Investigate further"]. |
| AnomalyDetection.DetectAnomalies | service-python/src/parhelion_py/application/services/anomaly_detector.py:37-114 | The loop and sort compute the modelled report. |
| AnomalyDetection.CandidatesExactly | service-python/src/parhelion_py/application/services/anomaly_detector.py:76-108 | The candidates are exactly the rows labelled -1 whose severity passes the filter, each built from its row. |
| AnomalyDetection.ReportExactly | service-python/src/parhelion_py/application/services/anomaly_detector.py:76-112 | The report holds exactly the rows labelled -1 whose severity passes the filter. |
| AnomalyDetection.FilterIsExact | service-python/src/parhelion_py/application/services/anomaly_detector.py:87-88 | With a severity filter, every reported anomaly has that severity, and a filter that is not a severity name yields nothing. |
| AnomalyDetection.ReportOrdered | service-python/src/parhelion_py/application/services/anomaly_detector.py:110-112 | The report is ordered CRITICAL, WARNING, INFO, stably within each severity. |
| AnomalyDetection.CandidatesInRowOrder | service-python/src/parhelion_py/application/services/anomaly_detector.py:93-108 | Before sorting, anomalies appear in row order. |
| ShipmentClustering.RecommendTruckExactly | service-python/src/parhelion_py/application/services/shipment_clusterer.py:186-195 | Van iff weight < 500 and volume < 5; Light Truck iff not a Van and < 2000 / < 20; Heavy Truck iff weight ≥ 5000 or volume ≥ 40. |
| ShipmentClustering.RecommendTruckMonotone | service-python/src/parhelion_py/application/services/shipment_clusterer.py:186-195 | More weight or volume never yields a smaller truck class. |
| ShipmentClustering.FirstMinIsFirstLeast | service-python/src/parhelion_py/application/services/shipment_clusterer.py:171-178 | The chosen index holds the least distance, and every earlier index is strictly larger (strict `<` keeps the first). |
| ShipmentClustering.FindNearestHub | service-python/src/parhelion_py/application/services/shipment_clusterer.py:163-184 | The loop equals the pure model: first hub at minimum distance, reported as round(d·111, 1) km. |
| ShipmentClustering.NearestIsClosest | service-python/src/parhelion_py/application/services/shipment_clusterer.py:171-178 | For a monotone square root, the nearest hub minimises the squared degree distance and is the first such hub. |
| ShipmentClustering.NearestHubExample | service-python/src/parhelion_py/application/services/shipment_clusterer.py:163-184 | A point at Monterrey's coordinates maps to MTY at 0 km. |
| ShipmentClustering.LoneShipmentSavesNothing | service-python/src/parhelion_py/application/services/shipment_clusterer.py:199-200 | A single-shipment cluster saves 0 km and 0%. |
| ShipmentClustering.ConsolidationSaves | service-python/src/parhelion_py/application/services/shipment_clusterer.py:197-212 | With at least 2 shipments each at least 15 km from the hub, consolidation saves a positive distance. |
| ShipmentClustering.SavingsAtMostAll | service-python/src/parhelion_py/application/services/shipment_clusterer.py:123 | The savings percentage never exceeds 100. |
| ShipmentClustering.ClusterIds | service-python/src/parhelion_py/application/services/shipment_clusterer.py:76 | The cluster ids are exactly the labels below the bound, and there are at most bound of them. |
| ShipmentClustering.ClusterIdsAscending | service-python/src/parhelion_py/application/services/shipment_clusterer.py:76 | The cluster ids are emitted in ascending order. |
| ShipmentClustering.MembersExactly | service-python/src/parhelion_py/application/services/shipment_clusterer.py:77 | A cluster's members are exactly the shipments with that label. |
| ShipmentClustering.Summarize | service-python/src/parhelion_py/application/services/shipment_clusterer.py:77-125 | The method computes the modelled summary of a cluster. |
| ShipmentClustering.ClusterShipments | service-python/src/parhelion_py/application/services/shipment_clusterer.py:31-127 | The method computes the modelled list of clusters. |
| ShipmentClustering.ClustersFacts | service-python/src/parhelion_py/application/services/shipment_clusterer.py:66-125 | There are at most min(clusterCount, shipments) clusters, in ascending id order, each non-empty and holding only shipments with its label. |
| ShipmentClustering.EveryShipmentClustered | service-python/src/parhelion_py/application/services/shipment_clusterer.py:76-79 | Every shipment lands in the cluster whose id is its own label. |
| TruckRecommendation.UtilizationWithinCapacity | service-python/src/parhelion_py/application/services/truck_recommender.py:138-145 | The projected utilisation is at most 1 iff the shipment fits the available weight. |
| TruckRecommendation.CalculateFeatures | service-python/src/parhelion_py/application/services/truck_recommender.py:133-155 | The loop computes each truck's features (available capacity, projected utilisation, deadhead). |
| TruckRecommendation.ConstraintsExactly | service-python/src/parhelion_py/application/services/truck_recommender.py:166-184 | The feasible trucks are exactly those meeting all four hard constraints. |
| TruckRecommendation.MaxDeadheadIsMax | service-python/src/parhelion_py/application/services/truck_recommender.py:191-193 | The maximum deadhead bounds every truck and is attained. |
| TruckRecommendation.CalculateScores | service-python/src/parhelion_py/application/services/truck_recommender.py:186-205 | The loops compute each truck's scores against the fleet's distance scale. |
| TruckRecommendation.DistanceScoreRange | service-python/src/parhelion_py/application/services/truck_recommender.py:191-193 | For non-negative deadheads the distance score lies in [0, 1]. |
| TruckRecommendation.FarthestScoresZero | service-python/src/parhelion_py/application/services/truck_recommender.py:191-193 | When some deadhead is positive, the farthest truck scores 0 on distance. |
| TruckRecommendation.NoDeadheadScoresOne | service-python/src/parhelion_py/application/services/truck_recommender.py:191-193 | When every deadhead is 0, every truck scores 1 on distance. |
| TruckRecommendation.FinalScoreInUnit | service-python/src/parhelion_py/application/services/truck_recommender.py:189-203 | For a load within capacity and non-negative deadheads, the final score lies in [0, 1]. |
| TruckRecommendation.FormatRecommendations | service-python/src/parhelion_py/application/services/truck_recommender.py:207-238 | The loop formats each top truck, in order. |
| TruckRecommendation.RecommendationShape | service-python/src/parhelion_py/application/services/truck_recommender.py:213-236 | Reasons are never empty and `compatible` is always true; the fallback "Available capacity" appears alone iff no other reason fired. |
| TruckRecommendation.FeasibleHaveCapacity | service-python/src/parhelion_py/application/services/truck_recommender.py:166-184 | Filtering keeps the positive-capacity property. |
| TruckRecommendation.RecommendTrucks | service-python/src/parhelion_py/application/services/truck_recommender.py:31-87 | The result is the formatted top-N selection of the pure model. |
| TruckRecommendation.TopScoredFacts | service-python/src/parhelion_py/application/services/truck_recommender.py:78-85 | At most `limit` trucks are returned, each meeting the hard constraints, in descending final score. |
| TruckRecommendation.ScoredFeasible | service-python/src/parhelion_py/application/services/truck_recommender.py:73-82 | One scored row per truck that meets the hard constraints, in fleet order. |
| TruckRecommendation.TopScoredIsBest | service-python/src/parhelion_py/application/services/truck_recommender.py:84-85 | `nlargest`: min(limit, #feasible) trucks, none repeated, and no feasible truck left out scores higher than one recommended. |
| TruckRecommendation.EmptyIffNoneFeasible | service-python/src/parhelion_py/application/services/truck_recommender.py:65-85 | For limit ≥ 1 the result is empty iff no truck of the fleet (the sample fleet when none is given) meets the constraints. |
| TruckRecommendation.SampleFleetFits | service-python/src/parhelion_py/application/services/truck_recommender.py:89-131 | Every sample truck can carry a 2500 kg, 15 m³ ordinary shipment. |

## Left out

- InventoryStocks.LowStockPage gives no page when the request's `Skip` wraps negative: the repository passes that offset to the database provider, whose response is not part of this model.
- HTTP controllers, FastAPI routers, middleware, EF Core repositories, unit of work, database context, migrations and seeders are not part of this model. Repositories are `map`/`seq` fields, and a save is a counter increment.
- `GenericRepository.GetPagedAsync` is modelled only as filter, stable order, skip and take in the low-stock query; query translation is left out.
- Webhook publishing is recorded as an event appended to a list; the HTTP call, its retries and failures are left out.
- The networkx algorithms (Dijkstra, Yen's k shortest paths, betweenness, closeness, connected components, shortest paths, density, average path length) are inputs with soundness predicates, not reimplementations. Library tie-breaking is not modelled.
- `_detect_communities` (louvain with a fallback to connected components) is not modelled: it is a library call whose result the analyzer only copies into the report.
- IsolationForest, KMeans, StandardScaler and the pandas feature extraction are inputs (labels, scores, per-row features); `_extract_features` and the statistics are left out.
- Sample data generators (`_generate_sample_items`, `_get_sample_deliveries`, `_generate_sample_data`, `_generate_sample_shipments`), random tracking numbers, GUIDs and clocks are left out or are parameters.
- Floating point is modelled as exact reals. Python's `round(x, n)` is modelled as round-half-up on exact reals (`Common.Round`); claims about rounded values use only its monotonicity and that it fixes exact multiples.
- `float` percentages and penalties are exact reals, so no claim is made about IEEE rounding at the thresholds.
- Anomaly descriptions (`_generate_description`) and the human-readable strings built by f-string formatting of numbers (positions, currency) are left out; the model keeps the structured values.
- C# `decimal` quantities are exact reals; decimal overflow is not modelled.
- `Enum.TryParse` is modelled on the exact names only; numeric strings and case-insensitive forms are not modelled.
- Route steps: the `int` `TotalSteps` counter is an unbounded integer (no 32-bit overflow).
- Loading.OptimizeLoading requires a truck with positive dimensions and capacity; the source uses a fixed truck that has them.
- DriverPerformance.AnalyzeDriverFacts: the report's `percentile_rank` uses the corrected percentile (see the findings), so where the source reports 0, just above the fleet minimum, the model reports 1; the contract states this relation exactly.
- DriverPerformance.LeaderboardFacts states the entry count only for limit ≥ 0; a negative limit follows Python slicing (modelled by `Common.PyTake`) but is not otherwise described.
- TruckRecommendation.RecommendTrucks takes truck records with capacities and loads. The source fills its fleet from `get_drivers` (truck_recommender.py:63), whose records (parhelion_client.py:184-196) carry only a driver's id, name, licence, current truck, active flag and last position; any non-empty answer therefore raises KeyError at `df["max_capacity_kg"]` (truck_recommender.py:138), and only the empty answer, which falls back to the sample fleet, gets past feature engineering. The model describes the recommendation as it would run on truck records.
- TruckRecommendation.RecommendTrucks requires every truck to have positive capacities; with a zero capacity pandas would produce infinities, which are not modelled. The limit is a natural number.
- ShipmentClustering.ClustersFacts assumes every KMeans label is below min(cluster count, number of shipments), the number of clusters KMeans is asked for; the labels are not computed.
- ShipmentClustering.NearestIsClosest assumes the square root passed in is strictly increasing; square root itself is a parameter.
- Routing.SoundRoute assumes the library's Dijkstra answer is a genuine, cheapest path by transit time (`SoundDijkstra`); its conclusion states the route's shape and confidence but not that the reported time is minimal. Routing.SoundAlternatives likewise assumes each simple path the library lists is a path of the constrained graph (`SoundSimplePaths`); that they come in order of increasing cost is not stated.
- Paging.PagedResult.TotalPages requires a non-zero page size; with a zero size the source divides by zero in floating point.
- Concurrency (async calls, fire-and-forget publishing) is not modelled; every operation runs to completion in sequence.

## Findings

| source | as written | input that shows it | evidently intended | confidence | as-written member | corrected member |
|---|---|---|---|---|---|---|
| service-python/src/parhelion_py/api/routers/internal.py:127-130 | The routers send the constraint key `max_time`, but `_apply_constraints` reads `max_edge_time`, so the per-edge time limit is never applied. | Any request with `max_time_hours` set below some edge's transit time: that edge survives. | The router's limit bounds every edge's transit time. | not executed | Routing.RouterMaxTimeIgnored | Routing.IntendedConstraintsBoundEdges |
| backend/src/Parhelion.Application/DTOs/Common/PagedRequest.cs:55 | `Skip = (Page - 1) * PageSize` in unchecked 32-bit arithmetic; `Page` has no upper clamp. | Page 21474838 with PageSize 100 gives Skip -2147483596. | Skip is the non-negative number of items on earlier pages. | not executed | Paging.SkipOverflows | Paging.PagesTile |
| service-python/src/parhelion_py/application/services/driver_performance.py:198-207 | `_calculate_percentile` returns 1 at or below the minimum but `int(position * 100)`, which is 0, just above it. | With fleet stats min 65 and max 98, value 65.0 gives 1 and value 65.2 gives 0. | The percentile is at least 1 and never decreases as the value rises. | not executed | DriverPerformance.PercentileDipsAboveMinimum | DriverPerformance.PercentileMonotone |
