/**
  A sequence of `buyGas` calls served one after another, and the bookkeeping
  the station keeps over the whole sequence: revenue is the sum of price
  times amount over the sales, every priced call is counted exactly once, and
  the litres sold are exactly the litres the pumps lost.
*/
module StationRuns {

  import opened Pumps
  import opened GasStation

  /** The arguments of one `buyGas` call. */
  datatype Request = Request(gasType: GasType, amount: real, maxPrice: real)

  /** The station after a run, and each call's outcome in call order. */
  datatype Served = Served(station: Station, results: seq<Result<real>>)

  /** Serve `reqs` in order. */
  function Serve(s: Station, reqs: seq<Request>): (r: Served)
    ensures |r.results| == |reqs|
    decreases |reqs|
  {
    if reqs == [] then
      Served(s, [])
    else
      var first := BuyGas(s, reqs[0].gasType, reqs[0].amount, reqs[0].maxPrice);
      var rest := Serve(first.station, reqs[1..]);
      Served(rest.station, [first.result] + rest.results)
  }

  /** One step of a run: the first call, then the rest from the station it leaves. */
  lemma ServeStep(s: Station, reqs: seq<Request>)
    requires reqs != []
    ensures var first := BuyGas(s, reqs[0].gasType, reqs[0].amount, reqs[0].maxPrice);
      && Serve(s, reqs).station == Serve(first.station, reqs[1..]).station
      && Serve(s, reqs).results == [first.result] + Serve(first.station, reqs[1..]).results
  {
  }

  /** Sum of price times amount over the calls that sold. */
  function Takings(reqs: seq<Request>, results: seq<Result<real>>): real
    requires |reqs| == |results|
    decreases |reqs|
  {
    if reqs == [] then 0.0
    else (if results[0].Ok? then results[0].value * reqs[0].amount else 0.0)
         + Takings(reqs[1..], results[1..])
  }

  /** The first call's takings, then the rest's. */
  lemma TakingsCons(reqs: seq<Request>, first: Result<real>, rest: seq<Result<real>>)
    requires |reqs| == |rest| + 1
    ensures Takings(reqs, [first] + rest) == Takings(reqs[..1], [first]) + Takings(reqs[1..], rest)
  {
    assert ([first] + rest)[1..] == rest;
    assert reqs[..1][1..] == [];
  }

  /** One call adds its own takings to the revenue. */
  lemma BuyGasTakings(s: Station, q: Request)
    ensures var r := BuyGas(s, q.gasType, q.amount, q.maxPrice);
      r.station.revenue == s.revenue + Takings([q], [r.result])
  {
    BuyGasRevenue(s, q.gasType, q.amount, q.maxPrice);
  }

  /** Litres handed out by the calls that sold. */
  function SoldLitres(reqs: seq<Request>, results: seq<Result<real>>): real
    requires |reqs| == |results|
    decreases |reqs|
  {
    if reqs == [] then 0.0
    else (if results[0].Ok? then reqs[0].amount else 0.0) + SoldLitres(reqs[1..], results[1..])
  }

  /** Number of calls that sold. */
  function Sales(results: seq<Result<real>>): nat
    decreases |results|
  {
    if results == [] then 0 else (if results[0].Ok? then 1 else 0) + Sales(results[1..])
  }

  /** Number of calls for a gas type that has a price. */
  function PricedCalls(prices: map<GasType, real>, reqs: seq<Request>): nat
    decreases |reqs|
  {
    if reqs == [] then 0
    else (if reqs[0].gasType in prices then 1 else 0) + PricedCalls(prices, reqs[1..])
  }

  /** Sales and both kinds of cancellation together. */
  function Outcomes(s: Station): nat {
    s.numberOfSales + s.cancellationsNoGas + s.cancellationsTooExpensive
  }

  /** Revenue over a run is the sum of price times amount over the sales; prices never change. */
  lemma {:induction false} ServeRevenue(s: Station, reqs: seq<Request>)
    ensures Serve(s, reqs).station.prices == s.prices
    ensures Serve(s, reqs).station.revenue == s.revenue + Takings(reqs, Serve(s, reqs).results)
    decreases |reqs|
  {
    if reqs != [] {
      var q := reqs[0];
      var first := BuyGas(s, q.gasType, q.amount, q.maxPrice);
      var rest := Serve(first.station, reqs[1..]);
      ServeStep(s, reqs);
      BuyGasRevenue(s, q.gasType, q.amount, q.maxPrice);
      BuyGasTakings(s, q);
      ServeRevenue(first.station, reqs[1..]);
      TakingsCons(reqs, first.result, rest.results);
      assert reqs[..1] == [q];
    }
  }

  /**
    Every call on a priced type is counted once, as a sale or as one of the
    two cancellations, and the sales counter counts the calls that sold.
  */
  lemma {:induction false} ServeCounts(s: Station, reqs: seq<Request>)
    ensures Serve(s, reqs).station.numberOfSales == s.numberOfSales + Sales(Serve(s, reqs).results)
    ensures Outcomes(Serve(s, reqs).station) == Outcomes(s) + PricedCalls(s.prices, reqs)
    decreases |reqs|
  {
    if reqs != [] {
      var q := reqs[0];
      var first := BuyGas(s, q.gasType, q.amount, q.maxPrice);
      BuyGasCountsOnce(s, q.gasType, q.amount, q.maxPrice);
      BuyGasRevenue(s, q.gasType, q.amount, q.maxPrice);
      ServeCounts(first.station, reqs[1..]);
      ServeStep(s, reqs);
      assert Serve(s, reqs).results[1..] == Serve(first.station, reqs[1..]).results;
    }
  }

  /** The litres sold over a run are exactly the litres the pumps lost; registration stays valid. */
  lemma {:induction false} ServeConserves(s: Station, reqs: seq<Request>)
    ensures StationRemaining(Serve(s, reqs).station)
         == StationRemaining(s) - SoldLitres(reqs, Serve(s, reqs).results)
    ensures Valid(s) ==> Valid(Serve(s, reqs).station)
    decreases |reqs|
  {
    if reqs != [] {
      var q := reqs[0];
      var first := BuyGas(s, q.gasType, q.amount, q.maxPrice);
      BuyGasConserves(s, q.gasType, q.amount, q.maxPrice);
      ServeConserves(first.station, reqs[1..]);
      ServeStep(s, reqs);
      assert Serve(s, reqs).results[1..] == Serve(first.station, reqs[1..]).results;
    }
  }

  /**
    Conservation: when no pump starts overdrawn, none ends overdrawn, and the
    litres sold never exceed what the pumps held at the start.
  */
  lemma {:induction false} ServeNeverOverdraws(s: Station, reqs: seq<Request>)
    requires NoneOverdrawn(s)
    ensures NoneOverdrawn(Serve(s, reqs).station)
    ensures SoldLitres(reqs, Serve(s, reqs).results) <= StationRemaining(s)
    decreases |reqs|
  {
    if reqs != [] {
      var q := reqs[0];
      var first := BuyGas(s, q.gasType, q.amount, q.maxPrice);
      BuyGasNeverOverdraws(s, q.gasType, q.amount, q.maxPrice);
      ServeNeverOverdraws(first.station, reqs[1..]);
    }
    ServeConserves(s, reqs);
    NonNegativeTotal(GetGasPumps(Serve(s, reqs).station));
  }

}
