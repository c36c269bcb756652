/**
  The fixed scenarios of the station's unit tests, on the set-up station:
  one REGULAR and one DIESEL pump with 10 litres each, both types at price 1.
*/
module StationScenarios {

  import opened Pumps
  import opened GasStation

  /** Two pumps, REGULAR and DIESEL priced at 1, SUPER unpriced. */
  function SetUp(): Station
  {
    Station(map[REGULAR := 1.0, DIESEL := 1.0],
            map[REGULAR := [Pump(0, REGULAR, 10.0)], DIESEL := [Pump(1, DIESEL, 10.0)], SUPER := []],
            0.0, 0, 0, 0)
  }

  /** Adding a pump to a type with no pumps yet makes it that type's only pump. */
  lemma AddFirstPump(s: Station, p: Pump)
    requires PumpsOf(s, p.gasType) == []
    ensures AddGasPump(s, p).pumps == s.pumps[p.gasType := [p]]
  {
    assert !Registered([], p.id);
    assert [] + [p] == [p];
  }

  /** The two `addGasPump` calls of the set-up register one pump per type. */
  lemma SetUpPumps()
    ensures
      var s1 := AddGasPump(NewStation(), Pump(0, REGULAR, 10.0));
      AddGasPump(s1, Pump(1, DIESEL, 10.0)).pumps == SetUp().pumps
  {
    var s0 := NewStation();
    var s1 := AddGasPump(s0, Pump(0, REGULAR, 10.0));
    NewStationPumps();
    AddFirstPump(s0, Pump(0, REGULAR, 10.0));
    AddFirstPump(s1, Pump(1, DIESEL, 10.0));
    SetUpPumpMap();
  }

  /** A new station's pump lists, as a map. */
  lemma NewStationPumps()
    ensures NewStation().pumps == map[REGULAR := [], DIESEL := [], SUPER := []]
  {
  }

  /** One pump added to each of REGULAR and DIESEL gives the set-up's pump lists. */
  lemma SetUpPumpMap()
    ensures map[REGULAR := [], DIESEL := [], SUPER := []][REGULAR := [Pump(0, REGULAR, 10.0)]][DIESEL := [Pump(1, DIESEL, 10.0)]]
      == SetUp().pumps
  {
  }

  /** The set-up calls of the tests build exactly that station, and it is valid. */
  lemma SetUpByOperations()
    ensures
      var s1 := AddGasPump(NewStation(), Pump(0, REGULAR, 10.0));
      var s2 := AddGasPump(s1, Pump(1, DIESEL, 10.0));
      SetPrice(SetPrice(s2, REGULAR, 1.0), DIESEL, 1.0) == SetUp()
    ensures Valid(SetUp())
  {
    SetUpPumps();
    var s1 := AddGasPump(NewStation(), Pump(0, REGULAR, 10.0));
    var s2 := AddGasPump(s1, Pump(1, DIESEL, 10.0));
    assert Valid(s2);
  }

  /** A third pump makes three; adding it again still leaves three. */
  lemma AddThirdPumpTwice()
    ensures |GetGasPumps(SetUp())| == 2
    ensures |GetGasPumps(AddGasPump(SetUp(), Pump(2, REGULAR, 1.0)))| == 3
    ensures |GetGasPumps(AddGasPump(AddGasPump(SetUp(), Pump(2, REGULAR, 1.0)), Pump(2, REGULAR, 1.0)))| == 3
  {
  }

  /** Price 1 against a ceiling of 0.5: too expensive, and only that counter moves. */
  lemma TooExpensiveScenario()
    ensures var r := BuyGas(SetUp(), REGULAR, 1.0, 0.5);
      && r.result == Err(GasTooExpensive)
      && r.station.numberOfSales == 0
      && r.station.cancellationsNoGas == 0
      && r.station.cancellationsTooExpensive == 1
  {
  }

  /** 20 litres from a 10-litre pump: not enough gas, and only that counter moves. */
  lemma NotEnoughGasScenario()
    ensures var r := BuyGas(SetUp(), REGULAR, 20.0, 2.0);
      && r.result == Err(NotEnoughGas)
      && r.station.numberOfSales == 0
      && r.station.cancellationsNoGas == 1
      && r.station.cancellationsTooExpensive == 0
  {
  }

  /** SUPER has no price: the call fails and the station is untouched. */
  lemma UnspecifiedPriceScenario()
    ensures BuyGas(SetUp(), SUPER, 1.0, 1.0) == Reply(SetUp(), Err(PriceNotSpecified))
  {
  }

  /** Changing the REGULAR price from 1 to 2. */
  lemma ChangePriceScenario()
    ensures GetPrice(SetUp(), REGULAR) == Ok(1.0)
    ensures GetPrice(SetPrice(SetUp(), REGULAR, 2.0), REGULAR) == Ok(2.0)
  {
  }

  /** 5 litres at price 1 under a ceiling of 2: sold at 1, revenue 5, one sale, 5 litres left. */
  lemma BuyGasScenario()
    ensures var r := BuyGas(SetUp(), REGULAR, 5.0, 2.0);
      && r.result == Ok(1.0)
      && r.station.revenue == 5.0
      && r.station.numberOfSales == 1
      && r.station.cancellationsNoGas == 0
      && r.station.cancellationsTooExpensive == 0
      && PumpsOf(r.station, REGULAR) == [Pump(0, REGULAR, 5.0)]
  {
  }

}
