/**
  The external gas pump, which is not part of this model beyond what the
  station relies on: a pump has an identity, a gas type and a remaining
  amount, and pumping withdraws exactly the requested amount. Its timing is
  left out.
*/
module Pumps {

  /** The gas types, in the order the station enumerates them. */
  datatype GasType = REGULAR | DIESEL | SUPER

  /** `GasType.values()`. */
  const GasTypes: seq<GasType> := [REGULAR, DIESEL, SUPER]

  /** A pump: `id` stands for Java object identity. */
  datatype Pump = Pump(id: nat, gasType: GasType, remaining: real)

  /** `pumpGas(amount)`: the remaining amount drops by exactly `amount`. */
  function PumpGas(p: Pump, amount: real): (q: Pump)
    ensures q.id == p.id && q.gasType == p.gasType
    ensures q.remaining + amount == p.remaining
  {
    p.(remaining := p.remaining - amount)
  }

  /** Sum of the remaining amounts of `ps`. */
  function TotalRemaining(ps: seq<Pump>): real
  {
    if ps == [] then 0.0 else ps[0].remaining + TotalRemaining(ps[1..])
  }

  /** No pump of `ps` has a negative remaining amount. */
  predicate NonNegative(ps: seq<Pump>) {
    forall p :: p in ps ==> p.remaining >= 0.0
  }

  /** Every pump of `ps` is of type `t`. */
  predicate OfType(ps: seq<Pump>, t: GasType) {
    forall i :: 0 <= i < |ps| ==> ps[i].gasType == t
  }

  /** No pump appears twice in `ps`. */
  predicate DistinctIds(ps: seq<Pump>) {
    forall i, j :: 0 <= i < j < |ps| ==> ps[i].id != ps[j].id
  }

  /** Some pump of `ps` has identity `id`. */
  predicate Registered(ps: seq<Pump>, id: nat) {
    exists j | 0 <= j < |ps| :: ps[j].id == id
  }

  /** The identities of the pumps of `ps`. */
  function Ids(ps: seq<Pump>): set<nat> {
    set p | p in ps :: p.id
  }

  /** `Registered` is membership of the identity set. */
  lemma RegisteredIds(ps: seq<Pump>, id: nat)
    ensures Registered(ps, id) <==> id in Ids(ps)
  {
    if id in Ids(ps) {
      var p :| p in ps && p.id == id;
      var j :| 0 <= j < |ps| && ps[j] == p;
    }
  }

  /** Appending a pump adds its identity. */
  lemma IdsAppend(ps: seq<Pump>, p: Pump)
    ensures Ids(ps + [p]) == Ids(ps) + {p.id}
  {
    assert p in ps + [p];
  }

  /** Replacing a pump by one of the same identity keeps the identity set. */
  lemma IdsUpdate(ps: seq<Pump>, i: nat, q: Pump)
    requires i < |ps| && q.id == ps[i].id
    ensures Ids(ps[i := q]) == Ids(ps)
  {
    assert ps[i] in ps;
    assert ps[i := q][i] == q;
    forall x | x in ps[i := q] ensures x.id in Ids(ps) {
      var j :| 0 <= j < |ps| && ps[i := q][j] == x;
      if j != i { assert ps[j] in ps; }
    }
    forall x | x in ps ensures x.id in Ids(ps[i := q]) {
      var j :| 0 <= j < |ps| && ps[j] == x;
      if j != i { assert ps[i := q][j] == x; }
    }
  }

  lemma {:induction false} TotalRemainingAppend(a: seq<Pump>, b: seq<Pump>)
    ensures TotalRemaining(a + b) == TotalRemaining(a) + TotalRemaining(b)
    decreases |a|
  {
    if a == [] {
      assert a + b == b;
    } else {
      assert (a + b)[1..] == a[1..] + b;
      TotalRemainingAppend(a[1..], b);
    }
  }

  /** Replacing one pump changes the total by the difference of the two remaining amounts. */
  lemma {:induction false} TotalRemainingUpdate(ps: seq<Pump>, i: nat, q: Pump)
    requires i < |ps|
    ensures TotalRemaining(ps[i := q]) == TotalRemaining(ps) - ps[i].remaining + q.remaining
    decreases i
  {
    if i > 0 {
      assert ps[i := q][1..] == ps[1..][i - 1 := q];
      TotalRemainingUpdate(ps[1..], i - 1, q);
    }
  }

  /** A list without negative amounts has a non-negative total. */
  lemma {:induction false} NonNegativeTotal(ps: seq<Pump>)
    requires NonNegative(ps)
    ensures TotalRemaining(ps) >= 0.0
    decreases |ps|
  {
    if ps != [] {
      assert ps[0] in ps;
      NonNegativeTotal(ps[1..]);
    }
  }

}
