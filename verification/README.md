# Gas station: station state machine and pump queue bookkeeping

This project models, in Dafny, the two sequential cores of a Java gas station.

- **The station** (`GasStationImpl`, module `GasStation`) keeps a price per gas type. It also keeps the
  registered pumps of each type in registration order, the revenue, and three counters:
  sales, no-gas cancellations and too-expensive cancellations.
  Its operations are `addGasPump`, `getGasPumps`, `setPrice`, `getPrice` and `buyGas`.
  With one caller at a time every `tryLock` succeeds, so `buyGas` follows one rule:
  - fail when the type has no price;
  - count a too-expensive cancellation when the price is above the caller's ceiling;
  - otherwise sell through the first registered pump of that type whose remaining amount covers the request;
  - otherwise count a no-gas cancellation.

  The station is a value of the datatype `Station`. Each operation is a pure function from station to station.
  `buyGas` returns a `Reply`, which holds the next station and either the price or the exception thrown.
  Module `StationRuns` serves a sequence of `buyGas` calls one after another and proves the bookkeeping over the whole run.
  Module `StationScenarios` restates the unit-test scenarios on the test set-up station.
- **The pump queue** (`PumpQueue` and `Purchase`, modules `PumpQueues` and `Purchases`) is a FIFO of purchases at
  one pump. It keeps two derived fields, recomputed after every change:
  - `estimatedAmount = realAmount - Sum(queue)`;
  - `estimatedWaitingTime = Sum(queue)`.

  A purchase is an amount plus a completion latch that starts at one. Counting the latch down at zero does nothing.
  `Run` applies a sequence of `enqueuePurchase` / `dequePurchase` calls.
  The lemmas about `Run` show FIFO completion and that the derived fields never go stale.

The external `GasPump` is modelled in module `Pumps` as `(id, gasType, remaining)`, where `id` stands for Java object identity.
`pumpGas(a)` lowers `remaining` by exactly `a`. `GasType` is `REGULAR | DIESEL | SUPER`, and `GasTypes` lists the types in that order.
Litres, prices and revenue are Dafny `real`s. The counters are `nat`s.

Two facts about the code shape the model:
- `buyGas` sells through the first registered pump of the type that holds enough gas.
- `GasStationImpl` does not use `PumpQueue`, so the queue is modelled on its own.

## Model

| member | source | states |
|---|---|---|
| GasStation.NewStation | gasstation-implementation/src/main/java/net/bigpoint/assessment/gasstation/GasStationImpl.java:17-30 | a fresh station has a valid registry with an empty pump list for every type and no prices, so `getPrice` fails for every type; revenue and all three counters are zero |
| GasStation.AddGasPump | gasstation-implementation/src/main/java/net/bigpoint/assessment/gasstation/GasStationImpl.java:33-39 | a pump is appended to its type's list only if that pump is not already there; afterwards it is registered; other types, prices, revenue and counters are unchanged; the registry invariant is kept (lists hold only pumps of their type, no pump twice within a list) |
| GasStation.AddGasPumpKeepsOneType | gasstation-implementation/src/main/java/net/bigpoint/assessment/gasstation/GasStationImpl.java:33-39 | a pump object has one gas type, so adding a pump whose identity no other type's list holds keeps every identity under at most one type |
| GasStation.NewStationOneType | gasstation-implementation/src/main/java/net/bigpoint/assessment/gasstation/GasStationImpl.java:26-30 | a fresh station registers no identity under two types |
| GasStation.GetGasPumpsDistinct | gasstation-implementation/src/main/java/net/bigpoint/assessment/gasstation/GasStationImpl.java:42-49 | when every identity is registered under at most one type, `getGasPumps` lists no pump twice |
| GasStation.AddGasPumpIsIdempotent | gasstation-implementation/src/main/java/net/bigpoint/assessment/gasstation/GasStationImpl.java:33-39 | adding the same pump a second time gives the same station, so `getGasPumps` keeps its size |
| GasStation.AddGasPumpSize | gasstation-implementation/src/main/java/net/bigpoint/assessment/gasstation/GasStationImpl.java:33-39 | `getGasPumps` grows by exactly one when the pump is new and by zero when it was registered, and afterwards contains that pump |
| GasStation.Collect | gasstation-implementation/src/main/java/net/bigpoint/assessment/gasstation/GasStationImpl.java:44-48 | the loop copying each type's list holds a pump exactly when one of the listed types' lists holds it |
| GasStation.GetGasPumps | gasstation-implementation/src/main/java/net/bigpoint/assessment/gasstation/GasStationImpl.java:42-49 | the result is the REGULAR, DIESEL and SUPER lists concatenated in that order; its size is the sum of their sizes, and it holds a pump exactly when some type's list does |
| GasStation.SetPrice | gasstation-implementation/src/main/java/net/bigpoint/assessment/gasstation/GasStationImpl.java:52-54 | afterwards `getPrice` of that type returns the new price; every other type's `getPrice` answer, the pumps, revenue and counters are unchanged |
| GasStation.PricesFromHistory | gasstation-implementation/src/main/java/net/bigpoint/assessment/gasstation/GasStationImpl.java:52-63 | after any sequence of `setPrice` calls, `getPrice` of a type returns the price of the last call for that type; if no call named the type, the answer is what it was before; pumps, revenue and counters are unchanged |
| GasStation.PricedExactlyWhenSet | gasstation-implementation/src/main/java/net/bigpoint/assessment/gasstation/GasStationImpl.java:52-63 | starting from a new station, `getPrice` of a type succeeds exactly when some `setPrice` call named that type, and otherwise fails with the price-not-specified error |
| GasStation.Dispense | gasstation-implementation/src/main/java/net/bigpoint/assessment/gasstation/GasStationImpl.java:111-116 | a sale through pump i of a type lowers that pump's remaining by exactly the amount and changes no other pump. Revenue rises by price times amount and sales by one. Prices and cancellations are unchanged and the registry invariant is kept |
| GasStation.TryPump | gasstation-implementation/src/main/java/net/bigpoint/assessment/gasstation/GasStationImpl.java:111-120 | `tryPump` sells exactly when the pump's remaining amount covers the request. After a sale that pump's remaining is not negative, the station's total remaining has fallen by exactly the amount, and revenue has risen by price times amount |
| GasStation.TryPumpsFromPicksFirst | gasstation-implementation/src/main/java/net/bigpoint/assessment/gasstation/GasStationImpl.java:78-106 | the pump loop sells through the first pump whose remaining covers the amount; if no pump does, only the no-gas counter rises and no pump changes |
| GasStation.FirstCoveringExists | gasstation-implementation/src/main/java/net/bigpoint/assessment/gasstation/GasStationImpl.java:79-91 | for any pump list, either no pump covers the amount or exactly one pump is the first that does, so the loop's choice is determined |
| GasStation.BuyGas | gasstation-implementation/src/main/java/net/bigpoint/assessment/gasstation/GasStationImpl.java:66-107 | an unpriced type fails and leaves the station unchanged. A price above the ceiling raises only the too-expensive counter. If no pump of the type covers the amount, only the no-gas counter rises. Otherwise the first covering pump makes the sale and the price is returned |
| GasStation.BuyGasCountsOnce | gasstation-implementation/src/main/java/net/bigpoint/assessment/gasstation/GasStationImpl.java:66-119 | an unpriced call changes nothing. A priced call raises exactly one counter, by one: sales on success, no-gas on not-enough-gas, too-expensive on too-expensive. A successful call returns the current price, and that price is within the ceiling |
| GasStation.BuyGasRevenue | gasstation-implementation/src/main/java/net/bigpoint/assessment/gasstation/GasStationImpl.java:66-116 | prices never change. On success revenue rises by the returned price times the amount. On failure revenue and every pump are untouched |
| GasStation.BuyGasConserves | gasstation-implementation/src/main/java/net/bigpoint/assessment/gasstation/GasStationImpl.java:111-116 | on success the station's total remaining falls by exactly the amount; on failure it is unchanged. The registry invariant is kept |
| GasStation.BuyGasKeepsOneType | gasstation-implementation/src/main/java/net/bigpoint/assessment/gasstation/GasStationImpl.java:66-116 | `buyGas` keeps every identity registered under at most one type |
| GasStation.DispenseKeepsOneType | gasstation-implementation/src/main/java/net/bigpoint/assessment/gasstation/GasStationImpl.java:111-116 | a sale keeps every identity registered under at most one type |
| GasStation.DispenseConserves | gasstation-implementation/src/main/java/net/bigpoint/assessment/gasstation/GasStationImpl.java:112-113 | a sale lowers the sum of all pumps' remaining amounts by exactly the amount sold |
| GasStation.DispenseNeverOverdraws | gasstation-implementation/src/main/java/net/bigpoint/assessment/gasstation/GasStationImpl.java:112-113 | selling through a pump whose remaining covers the amount leaves no pump negative |
| GasStation.BuyGasNeverOverdraws | gasstation-implementation/src/main/java/net/bigpoint/assessment/gasstation/GasStationImpl.java:112-113 | if no pump is negative before `buyGas`, none is after |
| StationRuns.ServeRevenue | gasstation-implementation/src/main/java/net/bigpoint/assessment/gasstation/GasStationImpl.java:114-125 | over any sequence of calls, revenue grows by the sum of price times amount over the calls that sold, and prices are unchanged |
| StationRuns.ServeCounts | gasstation-implementation/src/main/java/net/bigpoint/assessment/gasstation/GasStationImpl.java:66-119 | over any sequence of calls, the sales counter grows by the number of calls that sold. Sales plus both cancellation counters grow by the number of calls on a priced type |
| StationRuns.ServeConserves | gasstation-implementation/src/main/java/net/bigpoint/assessment/gasstation/GasStationImpl.java:111-116 | over any sequence of calls, the pumps' total remaining falls by exactly the litres sold, and the registry invariant is kept |
| StationRuns.ServeNeverOverdraws | gasstation-implementation/src/main/java/net/bigpoint/assessment/gasstation/GasStationImpl.java:112-113 | starting with no negative pump, no pump ever goes negative, and the litres sold never exceed what the pumps held at the start |
| StationScenarios.SetUpByOperations | gasstation-implementation/src/test/java/net/bigpoint/assessment/gasstation/GasStationTest.java:20-26 | the test set-up calls (a new station, two `addGasPump` calls, two `setPrice` calls) build the station with one 10-litre REGULAR pump and one 10-litre DIESEL pump, both types priced at 1, SUPER unpriced and all counters zero; that station satisfies the registry invariant |
| StationScenarios.AddThirdPumpTwice | gasstation-implementation/src/test/java/net/bigpoint/assessment/gasstation/GasStationTest.java:28-41 | the set-up station lists two pumps; a third pump makes three, and adding it again leaves three |
| StationScenarios.TooExpensiveScenario | gasstation-implementation/src/test/java/net/bigpoint/assessment/gasstation/GasStationTest.java:43-53 | buying at ceiling 0.5 is too expensive: counters 0 sales, 0 no-gas, 1 too-expensive |
| StationScenarios.NotEnoughGasScenario | gasstation-implementation/src/test/java/net/bigpoint/assessment/gasstation/GasStationTest.java:55-65 | buying 20 litres fails with not enough gas: counters 0, 1, 0 |
| StationScenarios.UnspecifiedPriceScenario | gasstation-implementation/src/test/java/net/bigpoint/assessment/gasstation/GasStationTest.java:67-70 | buying SUPER fails with price-not-specified and leaves the station unchanged |
| StationScenarios.ChangePriceScenario | gasstation-implementation/src/test/java/net/bigpoint/assessment/gasstation/GasStationTest.java:72-77 | REGULAR is priced 1, and 2 after `setPrice` |
| StationScenarios.BuyGasScenario | gasstation-implementation/src/test/java/net/bigpoint/assessment/gasstation/GasStationTest.java:79-86 | buying 5 litres at ceiling 2 returns price 1, revenue 5, one sale, no cancellations, and leaves 5 litres in the pump |
| PumpQueues.NewQueue | gasstation-implementation/src/main/java/net/bigpoint/assessment/gasstation/PumpQueue.java:18-22 | a new queue is empty; its real and estimated amounts equal the pump's remaining amount and the waiting time is zero; the derived-field invariant holds |
| PumpQueues.Reestimate | gasstation-implementation/src/main/java/net/bigpoint/assessment/gasstation/PumpQueue.java:60-68 | re-estimation totals the queue with the summing loop and so establishes `estimatedAmount = realAmount - Sum(queue)` and `estimatedWaitingTime = Sum(queue)`; the two add up to `realAmount`, and queue and real amount are kept |
| PumpQueues.QueuedAmount | gasstation-implementation/src/main/java/net/bigpoint/assessment/gasstation/PumpQueue.java:61-64 | the front-to-back summing loop, started from any total, ends at that total plus the recursive sum of the queued amounts |
| PumpQueues.Enqueue | gasstation-implementation/src/main/java/net/bigpoint/assessment/gasstation/PumpQueue.java:44-49 | returns exactly the queue contents before the call, in order; the new queue is the old one plus the purchase at the end. `realAmount` is unchanged, the invariant holds, and, from a consistent queue, `estimatedAmount` falls and `estimatedWaitingTime` rises by the purchase's amount |
| PumpQueues.Dequeue | gasstation-implementation/src/main/java/net/bigpoint/assessment/gasstation/PumpQueue.java:51-58 | on an empty queue nothing changes and nothing is completed. Otherwise only the head leaves and is returned completed, `realAmount` becomes the pump's current reading, and the invariant holds. The waiting time falls by the head's amount. When the pump gave exactly that amount, `estimatedAmount` is unchanged |
| PumpQueues.RunIsFifo | gasstation-implementation/src/main/java/net/bigpoint/assessment/gasstation/PumpQueue.java:44-58 | over any sequence of enqueues and dequeues, the completed purchases are the first ones ever queued, in enqueue order, each completed; the queue left is exactly the remainder |
| PumpQueues.RunKeepsInv | gasstation-implementation/src/main/java/net/bigpoint/assessment/gasstation/PumpQueue.java:44-68 | starting from a consistent queue, the derived fields equal their definitions after any sequence of enqueues and dequeues |
| Purchases.NewPurchase | gasstation-implementation/src/main/java/net/bigpoint/assessment/gasstation/Purchase.java:7-12 | a new purchase has the given amount and is not yet complete, its latch being at one |
| Purchases.Complete | gasstation-implementation/src/main/java/net/bigpoint/assessment/gasstation/Purchase.java:22-24 | completion keeps the amount and releases the latch of a purchase made by the constructor; on a completed purchase it changes nothing |
| Purchases.CompleteIsSingleFire | gasstation-implementation/src/main/java/net/bigpoint/assessment/gasstation/Purchase.java:8-24 | completing a purchase twice gives the same purchase as completing it once, with the same amount |

## Left out

- Locking is left out because its purpose is concurrency; run sequentially, it reduces to trying the pumps in registration order. This covers the fair per-pump locks and the `pumpLocks` map, the `tryLock` first pass and the blocking second pass of `buyGas`, `PumpQueue.lock`/`unlock`, and waiting on a purchase's latch (`getCompletion`).
- `AtomicDouble` and the atomic counters are left out: sequentially each update is a plain addition, so revenue is a `real` field.
- IEEE-754 rounding of `double` sums and products, and comparisons involving NaN, are left out: amounts and prices are `real`.
- BuyGas: the counters are unbounded `nat`s, while Java's `int` counters would wrap after 2^31 - 1 increments.
- The thread-safety of `ConcurrentHashMap` and `CopyOnWriteArrayList` is left out: the registry is a `map<GasType, seq<Pump>>`.
- GasStation.PumpsOf: an absent type reads as an empty list, whereas Java would throw a `NullPointerException`. A station built by `NewStation` always holds all three types, so that path cannot be reached.
- The source of `GasPump` and `GasType` is not available. A pump is modelled only as an identity, a type and an exact decrement of `remaining`, with no timing. The enum's declaration order is taken to be REGULAR, DIESEL, SUPER.
- `dequePurchase` reads the pump's remaining amount, which is changed outside the queue. That reading is the parameter `remainingNow` of `Dequeue`.
- In Java the completed purchase is the caller's shared object. `Dequeue` instead returns the completed value.
- `PumpQueue.getPump`, `Purchase.getAmount` and the four counter getters of the station are plain field reads of the datatypes.
- The unused `SimpleDateFormat` field is left out.
- The multithreaded test's timing and throughput claims are left out. Its bookkeeping is what `StationRuns` proves for any sequence of calls.
