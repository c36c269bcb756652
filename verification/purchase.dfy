/**
  Model of `Purchase`: one customer's request queued at a pump. The amount is
  fixed when the purchase is made; completion is a countdown latch created
  with count one, so the purchase is complete exactly when the latch reaches
  zero. Waiting on the latch is concurrency and is not modelled.
*/
module Purchases {

  datatype Purchase = Purchase(amount: real, latch: nat) {

    /** The completion latch has been released. */
    predicate Completed() {
      latch == 0
    }

    /** A latch created with count one never holds more than one. */
    predicate Valid() {
      latch <= 1
    }
  }

  /** The constructor: a purchase of `amount` litres, not yet complete. */
  function NewPurchase(amount: real): (p: Purchase)
    ensures p.amount == amount
    ensures p.Valid() && !p.Completed()
  {
    Purchase(amount, 1)
  }

  /** `complete()`: count the latch down, which does nothing once it is zero. */
  function Complete(p: Purchase): (q: Purchase)
    ensures q.amount == p.amount
    ensures p.Valid() ==> q.Valid() && q.Completed()
    ensures p.Completed() ==> q == p
  {
    if p.latch > 0 then p.(latch := p.latch - 1) else p
  }

  /** Completing twice is the same as completing once. */
  lemma CompleteIsSingleFire(p: Purchase)
    requires p.Valid()
    ensures Complete(Complete(p)) == Complete(p)
    ensures Complete(Complete(p)).amount == p.amount
  {
  }

  /** Every purchase in `ps`, completed, in the same order. */
  function CompleteAll(ps: seq<Purchase>): (qs: seq<Purchase>)
    ensures |qs| == |ps|
    ensures forall i :: 0 <= i < |ps| ==> qs[i] == Complete(ps[i])
  {
    seq(|ps|, i requires 0 <= i < |ps| => Complete(ps[i]))
  }

}
