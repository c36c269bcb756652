/**
  Model of `GasStationImpl` run by one caller at a time. The station keeps a
  price per gas type, the registered pumps of each type in registration
  order, the revenue and three counters. Locks, the atomic revenue register
  and the concurrent collections are left out: without contention every
  `tryLock` succeeds, so `buyGas` tries the pumps of the type in order and
  the blocked-pump second pass never runs.
*/
module GasStation {

  import opened Options
  import opened Pumps

  /** The exceptions `buyGas` and `getPrice` throw. */
  datatype Error =
    | PriceNotSpecified   // IllegalArgumentException from getPrice
    | GasTooExpensive     // GasTooExpensiveException
    | NotEnoughGas        // NotEnoughGasException

  datatype Result<+T> = Ok(value: T) | Err(error: Error)

  datatype Station = Station(
    prices: map<GasType, real>,
    pumps: map<GasType, seq<Pump>>,
    revenue: real,
    numberOfSales: nat,
    cancellationsNoGas: nat,
    cancellationsTooExpensive: nat)

  /** The station after a call to `buyGas`, and what the call returned or threw. */
  datatype Reply = Reply(station: Station, result: Result<real>)

  /** The pumps registered for `t`, in registration order. */
  function PumpsOf(s: Station, t: GasType): seq<Pump> {
    if t in s.pumps then s.pumps[t] else []
  }

  /**
    What the constructor sets up and every operation keeps: a list for every
    type, holding only pumps of that type, none of them twice.
  */
  ghost predicate Valid(s: Station) {
    forall t: GasType :: t in s.pumps && OfType(s.pumps[t], t) && DistinctIds(s.pumps[t])
  }

  /**
    A pump identity is registered under one gas type only, as a Java pump
    object has a single gas type.
  */
  ghost predicate OneTypePerPump(s: Station) {
    forall t, u :: t != u ==> Ids(PumpsOf(s, t)) !! Ids(PumpsOf(s, u))
  }

  /** Sum of the remaining amounts of every registered pump. */
  function StationRemaining(s: Station): real {
    TotalRemaining(GetGasPumps(s))
  }

  /** No registered pump has a negative remaining amount. */
  predicate NoneOverdrawn(s: Station) {
    NonNegative(GetGasPumps(s))
  }

  // ----- construction and registration -----

  /** The constructor: an empty pump list for every gas type, no prices, zero revenue and counters. */
  function NewStation(): (s: Station)
    ensures Valid(s)
    ensures forall t :: PumpsOf(s, t) == [] && GetPrice(s, t) == Err(PriceNotSpecified)
    ensures GetGasPumps(s) == []
    ensures s.revenue == 0.0 && s.numberOfSales == 0
    ensures s.cancellationsNoGas == 0 && s.cancellationsTooExpensive == 0
  {
    var pumps := map[REGULAR := [], DIESEL := [], SUPER := []];
    assert forall t: GasType :: t in pumps by {
      forall t: GasType ensures t in pumps {
        assert t.REGULAR? || t.DIESEL? || t.SUPER?;
      }
    }
    Station(map[], pumps, 0.0, 0, 0, 0)
  }

  /**
    `addGasPump(pump)`: make sure the type has a list, then append the pump
    unless that very pump is already registered.
  */
  function AddGasPump(s: Station, p: Pump): (r: Station)
    ensures Valid(s) ==> Valid(r)
    ensures Registered(PumpsOf(r, p.gasType), p.id)
    ensures Registered(PumpsOf(s, p.gasType), p.id) ==> PumpsOf(r, p.gasType) == PumpsOf(s, p.gasType)
    ensures !Registered(PumpsOf(s, p.gasType), p.id) ==> PumpsOf(r, p.gasType) == PumpsOf(s, p.gasType) + [p]
    ensures forall t :: t != p.gasType ==> PumpsOf(r, t) == PumpsOf(s, t)
    ensures r.prices == s.prices && r.revenue == s.revenue && r.numberOfSales == s.numberOfSales
    ensures r.cancellationsNoGas == s.cancellationsNoGas
    ensures r.cancellationsTooExpensive == s.cancellationsTooExpensive
  {
    var ps := PumpsOf(s, p.gasType);
    var ps' := if Registered(ps, p.id) then ps else ps + [p];
    assert ps'[|ps'| - 1].id == p.id || Registered(ps, p.id);
    s.(pumps := s.pumps[p.gasType := ps'])
  }

  /** The per-type lists of `ts`, concatenated in that order. */
  function Collect(s: Station, ts: seq<GasType>): (all: seq<Pump>)
    ensures forall p :: p in all <==> exists k :: 0 <= k < |ts| && p in PumpsOf(s, ts[k])
    decreases |ts|
  {
    if ts == [] then []
    else
      var rest := Collect(s, ts[1..]);
      assert forall k :: 1 <= k < |ts| ==> ts[k] == ts[1..][k - 1];
      PumpsOf(s, ts[0]) + rest
  }

  /** `getGasPumps()`: a copy of every type's list, the types in enumeration order. */
  function GetGasPumps(s: Station): (all: seq<Pump>)
    ensures all == PumpsOf(s, REGULAR) + PumpsOf(s, DIESEL) + PumpsOf(s, SUPER)
    ensures |all| == |PumpsOf(s, REGULAR)| + |PumpsOf(s, DIESEL)| + |PumpsOf(s, SUPER)|
    ensures forall p :: p in all <==> exists t :: p in PumpsOf(s, t)
  {
    var all := Collect(s, GasTypes);
    assert all == PumpsOf(s, REGULAR) + (PumpsOf(s, DIESEL) + (PumpsOf(s, SUPER) + []));
    assert forall p :: p in all ==> exists t :: p in PumpsOf(s, t);
    assert forall p, t :: p in PumpsOf(s, t) ==> p in all by {
      forall p, t | p in PumpsOf(s, t) ensures p in all {
        assert t == REGULAR || t == DIESEL || t == SUPER;
      }
    }
    all
  }

  /**
    Registering a pump whose identity is not already listed under another
    type keeps every identity under one type.
  */
  lemma AddGasPumpKeepsOneType(s: Station, p: Pump)
    requires OneTypePerPump(s)
    requires forall u :: u != p.gasType ==> !Registered(PumpsOf(s, u), p.id)
    ensures OneTypePerPump(AddGasPump(s, p))
  {
    var r := AddGasPump(s, p);
    var ps := PumpsOf(s, p.gasType);
    IdsAppend(ps, p);
    forall u | u != p.gasType ensures p.id !in Ids(PumpsOf(s, u)) {
      RegisteredIds(PumpsOf(s, u), p.id);
    }
    assert Ids(PumpsOf(r, p.gasType)) <= Ids(ps) + {p.id};
  }

  /** Two lists without repeated pumps that share no pump concatenate to one without repeats. */
  lemma DistinctConcat(a: seq<Pump>, b: seq<Pump>)
    requires DistinctIds(a) && DistinctIds(b)
    requires Ids(a) !! Ids(b)
    ensures DistinctIds(a + b)
  {
    forall i, j | 0 <= i < j < |a + b| ensures (a + b)[i].id != (a + b)[j].id {
      if j < |a| {
        assert (a + b)[i] == a[i] && (a + b)[j] == a[j];
      } else if i >= |a| {
        assert (a + b)[i] == b[i - |a|] && (a + b)[j] == b[j - |a|];
      } else {
        assert (a + b)[i] in a && (a + b)[j] in b;
        assert (a + b)[i].id in Ids(a) && (a + b)[j].id in Ids(b);
      }
    }
  }

  /** In a valid station `getGasPumps` lists no pump twice. */
  lemma GetGasPumpsDistinct(s: Station)
    requires Valid(s) && OneTypePerPump(s)
    ensures DistinctIds(GetGasPumps(s))
  {
    var a, b, c := PumpsOf(s, REGULAR), PumpsOf(s, DIESEL), PumpsOf(s, SUPER);
    DistinctConcat(a, b);
    assert Ids(a + b) == Ids(a) + Ids(b);
    DistinctConcat(a + b, c);
  }

  /** Registering a pump a second time changes nothing, so the pump list keeps its size. */
  lemma AddGasPumpIsIdempotent(s: Station, p: Pump)
    ensures AddGasPump(AddGasPump(s, p), p) == AddGasPump(s, p)
    ensures |GetGasPumps(AddGasPump(AddGasPump(s, p), p))| == |GetGasPumps(AddGasPump(s, p))|
  {
  }

  /** The pump list grows by one exactly when the pump is new, and afterwards it holds the pump. */
  lemma AddGasPumpSize(s: Station, p: Pump)
    ensures |GetGasPumps(AddGasPump(s, p))|
         == |GetGasPumps(s)| + (if Registered(PumpsOf(s, p.gasType), p.id) then 0 else 1)
    ensures Registered(GetGasPumps(AddGasPump(s, p)), p.id)
  {
    var r := AddGasPump(s, p);
    var ps := PumpsOf(r, p.gasType);
    var j :| 0 <= j < |ps| && ps[j].id == p.id;
    assert ps[j] in GetGasPumps(r);
    var k :| 0 <= k < |GetGasPumps(r)| && GetGasPumps(r)[k] == ps[j];
    assert GetGasPumps(r)[k].id == p.id;
  }

  // ----- prices -----

  /** `setPrice(type, price)`. */
  function SetPrice(s: Station, t: GasType, price: real): (r: Station)
    ensures GetPrice(r, t) == Ok(price)
    ensures forall u :: u != t ==> GetPrice(r, u) == GetPrice(s, u)
    ensures r.pumps == s.pumps && r.revenue == s.revenue && r.numberOfSales == s.numberOfSales
    ensures r.cancellationsNoGas == s.cancellationsNoGas
    ensures r.cancellationsTooExpensive == s.cancellationsTooExpensive
  {
    s.(prices := s.prices[t := price])
  }

  /** `getPrice(type)`: the price last set, or an error when none was. */
  function GetPrice(s: Station, t: GasType): (r: Result<real>)
    ensures r.Ok? <==> t in s.prices
    ensures r.Ok? ==> r.value == s.prices[t]
    ensures r.Err? ==> r.error == PriceNotSpecified
  {
    if t in s.prices then Ok(s.prices[t]) else Err(PriceNotSpecified)
  }

  /** One `setPrice` call. */
  datatype PriceChange = PriceChange(gasType: GasType, price: real)

  /** `setPrice` called for each change in turn. */
  function ApplyPrices(s: Station, changes: seq<PriceChange>): Station
    decreases |changes|
  {
    if changes == [] then s
    else ApplyPrices(SetPrice(s, changes[0].gasType, changes[0].price), changes[1..])
  }

  /**
    After any sequence of `setPrice` calls, `getPrice` of a type answers the
    last price set for it, or what it answered before when none was; pumps,
    revenue and counters are untouched.
  */
  lemma {:induction false} PricesFromHistory(s: Station, changes: seq<PriceChange>, t: GasType)
    ensures (forall k :: 0 <= k < |changes| ==> changes[k].gasType != t) ==>
      GetPrice(ApplyPrices(s, changes), t) == GetPrice(s, t)
    ensures forall k :: 0 <= k < |changes| && changes[k].gasType == t
                        && (forall j :: k < j < |changes| ==> changes[j].gasType != t) ==>
      GetPrice(ApplyPrices(s, changes), t) == Ok(changes[k].price)
    ensures ApplyPrices(s, changes).pumps == s.pumps
    ensures ApplyPrices(s, changes).revenue == s.revenue
    ensures ApplyPrices(s, changes).numberOfSales == s.numberOfSales
    ensures ApplyPrices(s, changes).cancellationsNoGas == s.cancellationsNoGas
    ensures ApplyPrices(s, changes).cancellationsTooExpensive == s.cancellationsTooExpensive
    decreases |changes|
  {
    if changes != [] {
      var s' := SetPrice(s, changes[0].gasType, changes[0].price);
      PricesFromHistory(s', changes[1..], t);
      forall k | 0 <= k < |changes| && changes[k].gasType == t
                 && (forall j :: k < j < |changes| ==> changes[j].gasType != t)
        ensures GetPrice(ApplyPrices(s, changes), t) == Ok(changes[k].price)
      {
        if k == 0 {
          assert forall j :: 0 <= j < |changes[1..]| ==> changes[1..][j] == changes[j + 1];
        } else {
          assert changes[1..][k - 1] == changes[k];
        }
      }
    }
  }

  /** On a new station, a type has a price exactly when some `setPrice` call named it. */
  lemma PricedExactlyWhenSet(changes: seq<PriceChange>, t: GasType)
    ensures GetPrice(ApplyPrices(NewStation(), changes), t).Ok?
        <==> exists k :: 0 <= k < |changes| && changes[k].gasType == t
  {
    PricesFromHistory(NewStation(), changes, t);
    if k :| 0 <= k < |changes| && changes[k].gasType == t {
      LastChangeExists(changes, t, k);
    }
  }

  /** If some change names `t`, a last one does. */
  lemma {:induction false} LastChangeExists(changes: seq<PriceChange>, t: GasType, k: nat)
    requires k < |changes| && changes[k].gasType == t
    ensures exists m :: k <= m < |changes| && changes[m].gasType == t
                        && forall j :: m < j < |changes| ==> changes[j].gasType != t
    decreases |changes| - k
  {
    if exists j :: k < j < |changes| && changes[j].gasType == t {
      var j :| k < j < |changes| && changes[j].gasType == t;
      LastChangeExists(changes, t, j);
    }
  }

  // ----- buying -----

  /** Pump `i` of `ps` holds at least `amount` and no earlier pump does. */
  predicate IsFirstCovering(ps: seq<Pump>, amount: real, i: int) {
    && 0 <= i < |ps|
    && ps[i].remaining >= amount
    && forall j :: 0 <= j < i ==> ps[j].remaining < amount
  }

  /** No pump of `ps` holds `amount`. */
  predicate NoneCovers(ps: seq<Pump>, amount: real) {
    forall j :: 0 <= j < |ps| ==> ps[j].remaining < amount
  }

  /** Either no pump covers the amount or exactly one pump is the first that does. */
  lemma {:induction false} FirstCoveringExists(ps: seq<Pump>, amount: real)
    ensures NoneCovers(ps, amount) || exists i :: IsFirstCovering(ps, amount, i)
    ensures forall i, k :: IsFirstCovering(ps, amount, i) && IsFirstCovering(ps, amount, k) ==> i == k
    decreases |ps|
  {
    if ps != [] && ps[0].remaining < amount {
      FirstCoveringExists(ps[1..], amount);
      if !NoneCovers(ps[1..], amount) {
        var i :| IsFirstCovering(ps[1..], amount, i);
        assert IsFirstCovering(ps, amount, i + 1);
      }
    } else if ps != [] {
      assert IsFirstCovering(ps, amount, 0);
    }
  }

  /**
    The sale through pump `i` of type `t` (the successful branch of
    `tryPump`): that pump gives `amount`, revenue grows by `price * amount`
    and one more sale is counted.
  */
  function Dispense(s: Station, t: GasType, i: nat, price: real, amount: real): (r: Station)
    requires i < |PumpsOf(s, t)|
    ensures |PumpsOf(r, t)| == |PumpsOf(s, t)|
    ensures PumpsOf(r, t)[i] == PumpGas(PumpsOf(s, t)[i], amount)
    ensures forall j :: 0 <= j < |PumpsOf(s, t)| && j != i ==> PumpsOf(r, t)[j] == PumpsOf(s, t)[j]
    ensures forall u :: u != t ==> PumpsOf(r, u) == PumpsOf(s, u)
    ensures r.prices == s.prices
    ensures r.revenue == s.revenue + price * amount
    ensures r.numberOfSales == s.numberOfSales + 1
    ensures r.cancellationsNoGas == s.cancellationsNoGas
    ensures r.cancellationsTooExpensive == s.cancellationsTooExpensive
    ensures Valid(s) ==> Valid(r)
  {
    var ps := PumpsOf(s, t);
    s.(pumps := s.pumps[t := ps[i := PumpGas(ps[i], amount)]],
       revenue := s.revenue + price * amount,
       numberOfSales := s.numberOfSales + 1)
  }

  /** `tryPump(pump, price, amount)` on pump `i` of type `t`: sell if the pump holds enough. */
  function TryPump(s: Station, t: GasType, i: nat, price: real, amount: real): (r: Option<Station>)
    requires i < |PumpsOf(s, t)|
    ensures r.Some? <==> PumpsOf(s, t)[i].remaining >= amount
    ensures r.Some? ==> r.value == Dispense(s, t, i, price, amount)
    ensures r.Some? ==> PumpsOf(r.value, t)[i].remaining >= 0.0
    ensures r.Some? ==> StationRemaining(r.value) == StationRemaining(s) - amount
    ensures r.Some? ==> r.value.revenue == s.revenue + price * amount
  {
    if PumpsOf(s, t)[i].remaining >= amount then
      DispenseConserves(s, t, i, price, amount);
      Some(Dispense(s, t, i, price, amount))
    else
      None
  }

  /**
    The loop of `buyGas` from pump `i` on: the first pump whose `tryPump`
    succeeds makes the sale; past the last pump the no-gas counter rises.
  */
  function TryPumpsFrom(s: Station, t: GasType, i: nat, price: real, amount: real): Reply
    requires i <= |PumpsOf(s, t)|
    decreases |PumpsOf(s, t)| - i
  {
    if i == |PumpsOf(s, t)| then
      Reply(s.(cancellationsNoGas := s.cancellationsNoGas + 1), Err(NotEnoughGas))
    else
      match TryPump(s, t, i, price, amount)
      case Some(sold) => Reply(sold, Ok(price))
      case None => TryPumpsFrom(s, t, i + 1, price, amount)
  }

  /** The loop sells through the first covering pump, or counts a no-gas cancellation. */
  lemma {:induction false} TryPumpsFromPicksFirst(s: Station, t: GasType, i: nat, price: real, amount: real)
    requires i <= |PumpsOf(s, t)|
    requires forall j :: 0 <= j < i ==> PumpsOf(s, t)[j].remaining < amount
    ensures NoneCovers(PumpsOf(s, t), amount) ==>
      TryPumpsFrom(s, t, i, price, amount)
        == Reply(s.(cancellationsNoGas := s.cancellationsNoGas + 1), Err(NotEnoughGas))
    ensures forall k :: IsFirstCovering(PumpsOf(s, t), amount, k) ==>
      TryPumpsFrom(s, t, i, price, amount) == Reply(Dispense(s, t, k, price, amount), Ok(price))
    decreases |PumpsOf(s, t)| - i
  {
    var ps := PumpsOf(s, t);
    if i < |ps| {
      if ps[i].remaining >= amount {
        assert IsFirstCovering(ps, amount, i);
        FirstCoveringExists(ps, amount);
      } else {
        TryPumpsFromPicksFirst(s, t, i + 1, price, amount);
      }
    }
  }

  /**
    `buyGas(type, amount, maxPricePerLiter)`: an unpriced type fails before
    anything changes; a price above the ceiling counts a too-expensive
    cancellation; otherwise the first pump of the type that holds the amount
    makes the sale and the price is returned, and if there is none a no-gas
    cancellation is counted.
  */
  function BuyGas(s: Station, t: GasType, amount: real, maxPrice: real): (r: Reply)
    ensures t !in s.prices ==> r == Reply(s, Err(PriceNotSpecified))
    ensures t in s.prices && s.prices[t] > maxPrice ==>
      r == Reply(s.(cancellationsTooExpensive := s.cancellationsTooExpensive + 1), Err(GasTooExpensive))
    ensures t in s.prices && s.prices[t] <= maxPrice && NoneCovers(PumpsOf(s, t), amount) ==>
      r == Reply(s.(cancellationsNoGas := s.cancellationsNoGas + 1), Err(NotEnoughGas))
    ensures forall i :: t in s.prices && s.prices[t] <= maxPrice && IsFirstCovering(PumpsOf(s, t), amount, i) ==>
      r == Reply(Dispense(s, t, i, s.prices[t], amount), Ok(s.prices[t]))
  {
    match GetPrice(s, t)
    case Err(e) => Reply(s, Err(e))
    case Ok(price) =>
      if price > maxPrice then
        Reply(s.(cancellationsTooExpensive := s.cancellationsTooExpensive + 1), Err(GasTooExpensive))
      else
        TryPumpsFromPicksFirst(s, t, 0, price, amount);
        TryPumpsFrom(s, t, 0, price, amount)
  }

  // ----- properties of buyGas -----

  /** A new station lists no pump, so no identity sits under two types. */
  lemma NewStationOneType()
    ensures OneTypePerPump(NewStation())
  {
    assert forall t :: PumpsOf(NewStation(), t) == [];
  }

  /** A sale keeps every pump's identity and type, so identities stay under one type. */
  lemma DispenseKeepsOneType(s: Station, t: GasType, i: nat, price: real, amount: real)
    requires i < |PumpsOf(s, t)|
    requires OneTypePerPump(s)
    ensures OneTypePerPump(Dispense(s, t, i, price, amount))
  {
    var r := Dispense(s, t, i, price, amount);
    var ps := PumpsOf(s, t);
    assert PumpsOf(r, t) == ps[i := PumpGas(ps[i], amount)];
    IdsUpdate(ps, i, PumpGas(ps[i], amount));
    assert forall u :: Ids(PumpsOf(r, u)) == Ids(PumpsOf(s, u));
  }

  /** A sale lowers the total remaining amount of the station by exactly the amount sold. */
  lemma DispenseConserves(s: Station, t: GasType, i: nat, price: real, amount: real)
    requires i < |PumpsOf(s, t)|
    ensures StationRemaining(Dispense(s, t, i, price, amount)) == StationRemaining(s) - amount
  {
    var r := Dispense(s, t, i, price, amount);
    var ps := PumpsOf(s, t);
    assert PumpsOf(r, t) == ps[i := PumpGas(ps[i], amount)];
    TotalRemainingUpdate(ps, i, PumpGas(ps[i], amount));
    var a, b, c := PumpsOf(s, REGULAR), PumpsOf(s, DIESEL), PumpsOf(s, SUPER);
    var a', b', c' := PumpsOf(r, REGULAR), PumpsOf(r, DIESEL), PumpsOf(r, SUPER);
    TotalRemainingAppend(a + b, c);
    TotalRemainingAppend(a, b);
    TotalRemainingAppend(a' + b', c');
    TotalRemainingAppend(a', b');
  }

  /** A sale through a pump that holds the amount leaves no pump overdrawn. */
  lemma DispenseNeverOverdraws(s: Station, t: GasType, i: nat, price: real, amount: real)
    requires i < |PumpsOf(s, t)| && PumpsOf(s, t)[i].remaining >= amount
    requires NoneOverdrawn(s)
    ensures NoneOverdrawn(Dispense(s, t, i, price, amount))
  {
    var r := Dispense(s, t, i, price, amount);
    forall p | p in GetGasPumps(r) ensures p.remaining >= 0.0 {
      var u :| p in PumpsOf(r, u);
      if u == t {
        var j :| 0 <= j < |PumpsOf(r, t)| && PumpsOf(r, t)[j] == p;
        if j != i {
          assert PumpsOf(s, t)[j] in GetGasPumps(s);
        }
      } else {
        assert p in GetGasPumps(s);
      }
    }
  }

  /**
    Every `buyGas` on a priced type raises exactly one of the sales, no-gas
    and too-expensive counters, by one; on an unpriced type nothing changes.
    A sale returns the current price.
  */
  lemma BuyGasCountsOnce(s: Station, t: GasType, amount: real, maxPrice: real)
    ensures var r := BuyGas(s, t, amount, maxPrice);
      t !in s.prices ==> r.station == s && r.result == Err(PriceNotSpecified)
    ensures var r := BuyGas(s, t, amount, maxPrice).station;
      t in s.prices ==>
        r.numberOfSales + r.cancellationsNoGas + r.cancellationsTooExpensive
          == s.numberOfSales + s.cancellationsNoGas + s.cancellationsTooExpensive + 1
    ensures var r := BuyGas(s, t, amount, maxPrice);
      && r.station.numberOfSales == s.numberOfSales + (if r.result.Ok? then 1 else 0)
      && r.station.cancellationsNoGas
           == s.cancellationsNoGas + (if r.result == Err(NotEnoughGas) then 1 else 0)
      && r.station.cancellationsTooExpensive
           == s.cancellationsTooExpensive + (if r.result == Err(GasTooExpensive) then 1 else 0)
    ensures var r := BuyGas(s, t, amount, maxPrice);
      r.result.Ok? ==> t in s.prices && r.result.value == s.prices[t] <= maxPrice
  {
    FirstCoveringExists(PumpsOf(s, t), amount);
  }

  /**
    `buyGas` never changes a price; a sale adds price times amount to the
    revenue, and a failed call leaves revenue and pumps alone.
  */
  lemma BuyGasRevenue(s: Station, t: GasType, amount: real, maxPrice: real)
    ensures var r := BuyGas(s, t, amount, maxPrice);
      && r.station.prices == s.prices
      && (r.result.Ok? ==> r.station.revenue == s.revenue + r.result.value * amount)
      && (r.result.Err? ==> r.station.revenue == s.revenue && r.station.pumps == s.pumps)
  {
    FirstCoveringExists(PumpsOf(s, t), amount);
  }

  /**
    The station's total remaining amount falls by exactly the amount sold,
    and by nothing on a failed call; the registration invariant is kept.
  */
  lemma BuyGasConserves(s: Station, t: GasType, amount: real, maxPrice: real)
    ensures var r := BuyGas(s, t, amount, maxPrice);
      && (r.result.Ok? ==> StationRemaining(r.station) == StationRemaining(s) - amount)
      && (r.result.Err? ==> StationRemaining(r.station) == StationRemaining(s))
    ensures Valid(s) ==> Valid(BuyGas(s, t, amount, maxPrice).station)
  {
    FirstCoveringExists(PumpsOf(s, t), amount);
    if t in s.prices && s.prices[t] <= maxPrice && !NoneCovers(PumpsOf(s, t), amount) {
      var i :| IsFirstCovering(PumpsOf(s, t), amount, i);
      DispenseConserves(s, t, i, s.prices[t], amount);
    }
  }

  /** `buyGas` keeps every registered identity under one type. */
  lemma BuyGasKeepsOneType(s: Station, t: GasType, amount: real, maxPrice: real)
    requires OneTypePerPump(s)
    ensures OneTypePerPump(BuyGas(s, t, amount, maxPrice).station)
  {
    FirstCoveringExists(PumpsOf(s, t), amount);
    if t in s.prices && s.prices[t] <= maxPrice && !NoneCovers(PumpsOf(s, t), amount) {
      var i :| IsFirstCovering(PumpsOf(s, t), amount, i);
      DispenseKeepsOneType(s, t, i, s.prices[t], amount);
    } else {
      var r := BuyGas(s, t, amount, maxPrice).station;
      assert r.pumps == s.pumps;
      assert forall u :: PumpsOf(r, u) == PumpsOf(s, u);
    }
  }

  /** No `buyGas` drives a pump below zero. */
  lemma BuyGasNeverOverdraws(s: Station, t: GasType, amount: real, maxPrice: real)
    requires NoneOverdrawn(s)
    ensures NoneOverdrawn(BuyGas(s, t, amount, maxPrice).station)
  {
    FirstCoveringExists(PumpsOf(s, t), amount);
    if t in s.prices && s.prices[t] <= maxPrice && !NoneCovers(PumpsOf(s, t), amount) {
      var i :| IsFirstCovering(PumpsOf(s, t), amount, i);
      DispenseNeverOverdraws(s, t, i, s.prices[t], amount);
    }
  }

}
