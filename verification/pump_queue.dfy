/**
  Model of `PumpQueue`: the FIFO of purchases waiting at one pump, with two
  derived fields that the class recomputes after every change of the queue:
    estimatedAmount      == realAmount - (sum of queued amounts)
    estimatedWaitingTime == (sum of queued amounts)
  `realAmount` is the pump's remaining amount as last read. The pump itself
  is changed elsewhere, so the reading taken by `dequePurchase` is a
  parameter. The queue's lock is left out.
*/
module PumpQueues {

  import opened Options
  import opened Pumps
  import opened Purchases

  datatype PumpQueue = PumpQueue(
    pump: Pump,
    queue: seq<Purchase>,
    realAmount: real,
    estimatedAmount: real,
    estimatedWaitingTime: real)

  /** What `enqueuePurchase` leaves behind and returns: the purchases ahead of the new one. */
  datatype Enqueued = Enqueued(queue: PumpQueue, ahead: seq<Purchase>)

  /** What `dequePurchase` leaves behind, with the purchase it completed, if any. */
  datatype Dequeued = Dequeued(queue: PumpQueue, done: Option<Purchase>)

  /** Total amount of the purchases in `ps`. */
  function Sum(ps: seq<Purchase>): real
  {
    if ps == [] then 0.0 else ps[0].amount + Sum(ps[1..])
  }

  /** The derived fields agree with the queue contents. */
  predicate Inv(q: PumpQueue) {
    && q.estimatedWaitingTime == Sum(q.queue)
    && q.estimatedAmount == q.realAmount - Sum(q.queue)
  }

  lemma {:induction false} SumAppend(a: seq<Purchase>, b: seq<Purchase>)
    ensures Sum(a + b) == Sum(a) + Sum(b)
    decreases |a|
  {
    if a == [] {
      assert a + b == b;
    } else {
      assert (a + b)[1..] == a[1..] + b;
      SumAppend(a[1..], b);
    }
  }

  /** The constructor: an empty queue whose estimates start from the pump's remaining amount. */
  function NewQueue(pump: Pump): (q: PumpQueue)
    ensures q.pump == pump && q.queue == []
    ensures q.realAmount == pump.remaining && q.estimatedAmount == pump.remaining
    ensures q.estimatedWaitingTime == 0.0
    ensures Inv(q)
  {
    PumpQueue(pump, [], pump.remaining, pump.remaining, 0.0)
  }

  /**
    The summing loop of `reestimate()`: walk the queue front to back, adding
    each amount to the running total `acc`. It ends with the loop's start
    value plus the recursive `Sum`.
  */
  function QueuedAmount(queue: seq<Purchase>, acc: real): (total: real)
    ensures total == acc + Sum(queue)
    decreases |queue|
  {
    if queue == [] then acc else QueuedAmount(queue[1..], acc + queue[0].amount)
  }

  /**
    `reestimate()`: total the queued amounts with the loop, then set the
    estimated amount to the last reading minus that total and the waiting
    time to the total.
  */
  function Reestimate(q: PumpQueue): (r: PumpQueue)
    ensures Inv(r)
    ensures r.pump == q.pump && r.queue == q.queue && r.realAmount == q.realAmount
    ensures r.estimatedAmount + r.estimatedWaitingTime == r.realAmount
  {
    var queuedAmount := QueuedAmount(q.queue, 0.0);
    q.(estimatedAmount := q.realAmount - queuedAmount, estimatedWaitingTime := queuedAmount)
  }

  /**
    `enqueuePurchase(p)`: append `p`, re-estimate, and return the purchases
    that were queued before it.
  */
  function Enqueue(q: PumpQueue, p: Purchase): (r: Enqueued)
    ensures r.ahead == q.queue
    ensures r.queue.queue == q.queue + [p]
    ensures r.queue.pump == q.pump && r.queue.realAmount == q.realAmount
    ensures Inv(r.queue)
    ensures Inv(q) ==> r.queue.estimatedAmount == q.estimatedAmount - p.amount
    ensures Inv(q) ==> r.queue.estimatedWaitingTime == q.estimatedWaitingTime + p.amount
  {
    SumAppend(q.queue, [p]);
    Enqueued(Reestimate(q.(queue := q.queue + [p])), q.queue)
  }

  /**
    `dequePurchase()`: on an empty queue nothing happens. Otherwise the head
    leaves the queue and is completed, `realAmount` becomes the pump's current
    remaining amount `remainingNow`, and the estimates are recomputed.
  */
  function Dequeue(q: PumpQueue, remainingNow: real): (r: Dequeued)
    ensures q.queue == [] ==> r == Dequeued(q, None)
    ensures q.queue != [] ==>
      && r.done == Some(Complete(q.queue[0]))
      && r.queue.queue == q.queue[1..]
      && r.queue.pump == q.pump
      && r.queue.realAmount == remainingNow
      && Inv(r.queue)
    ensures q.queue != [] && q.queue[0].Valid() ==> r.done.value.Completed()
    ensures q.queue != [] && Inv(q) ==>
      r.queue.estimatedWaitingTime == q.estimatedWaitingTime - q.queue[0].amount
    // When the pump delivered exactly the head's amount, the estimate does not move.
    ensures q.queue != [] && Inv(q) && remainingNow == q.realAmount - q.queue[0].amount ==>
      r.queue.estimatedAmount == q.estimatedAmount
  {
    if q.queue == [] then
      Dequeued(q, None)
    else
      Dequeued(Reestimate(q.(queue := q.queue[1..], realAmount := remainingNow)),
               Some(Complete(q.queue[0])))
  }

  /** One call on a queue: `enqueuePurchase` or `dequePurchase` with the pump's reading. */
  datatype QueueOp = Enq(purchase: Purchase) | Deq(remainingNow: real)

  /** The final queue and the purchases completed, in completion order. */
  datatype Trace = Trace(queue: PumpQueue, done: seq<Purchase>)

  /** Apply `ops` in order. */
  function Run(q: PumpQueue, ops: seq<QueueOp>): Trace
    decreases |ops|
  {
    if ops == [] then
      Trace(q, [])
    else
      match ops[0]
      case Enq(p) =>
        Run(Enqueue(q, p).queue, ops[1..])
      case Deq(now) =>
        var d := Dequeue(q, now);
        var rest := Run(d.queue, ops[1..]);
        Trace(rest.queue, (if d.done.Some? then [d.done.value] else []) + rest.done)
  }

  /** The purchases enqueued by `ops`, in order. */
  function Enqueues(ops: seq<QueueOp>): seq<Purchase>
    decreases |ops|
  {
    if ops == [] then []
    else (if ops[0].Enq? then [ops[0].purchase] else []) + Enqueues(ops[1..])
  }

  /** `done` is the completed prefix of `all` and `rest` the untouched remainder. */
  predicate FifoSplit(all: seq<Purchase>, done: seq<Purchase>, rest: seq<Purchase>) {
    && |done| <= |all|
    && done == CompleteAll(all[..|done|])
    && rest == all[|done|..]
  }

  /** Completing the head in front of a split of the tail splits the whole. */
  lemma ConsFifoSplit(all: seq<Purchase>, done: seq<Purchase>, rest: seq<Purchase>)
    requires all != []
    requires FifoSplit(all[1..], done, rest)
    ensures FifoSplit(all, [Complete(all[0])] + done, rest)
  {
  }

  /** Appending a purchase to the queued part does not change what was queued and enqueued, in order. */
  lemma EnqFifoSplit(queued: seq<Purchase>, p: Purchase, later: seq<Purchase>, done: seq<Purchase>, rest: seq<Purchase>)
    requires FifoSplit((queued + [p]) + later, done, rest)
    ensures FifoSplit(queued + ([p] + later), done, rest)
  {
    assert (queued + [p]) + later == queued + ([p] + later);
  }

  /** Taking the head off the queued part moves it, completed, to the front of the done list. */
  lemma DeqFifoSplit(queued: seq<Purchase>, later: seq<Purchase>, done: seq<Purchase>, rest: seq<Purchase>)
    requires queued != []
    requires FifoSplit(queued[1..] + later, done, rest)
    ensures FifoSplit(queued + later, [Complete(queued[0])] + done, rest)
  {
    assert (queued + later)[1..] == queued[1..] + later;
    ConsFifoSplit(queued + later, done, rest);
  }

  /** One enqueue step of a run. */
  lemma RunEnqStep(q: PumpQueue, ops: seq<QueueOp>)
    requires ops != [] && ops[0].Enq?
    ensures Run(q, ops) == Run(Enqueue(q, ops[0].purchase).queue, ops[1..])
    ensures Enqueues(ops) == [ops[0].purchase] + Enqueues(ops[1..])
  {
  }

  /** One dequeue step of a run: on a non-empty queue the completed head leads the done list. */
  lemma RunDeqStep(q: PumpQueue, ops: seq<QueueOp>)
    requires ops != [] && ops[0].Deq?
    ensures var d := Dequeue(q, ops[0].remainingNow).queue;
      q.queue == [] ==> d == q && Run(q, ops) == Run(d, ops[1..])
    ensures var d := Dequeue(q, ops[0].remainingNow).queue;
      q.queue != [] ==>
        && d.queue == q.queue[1..]
        && Run(q, ops) == Trace(Run(d, ops[1..]).queue, [Complete(q.queue[0])] + Run(d, ops[1..]).done)
    ensures Enqueues(ops) == Enqueues(ops[1..])
  {
  }

  /**
    FIFO: of everything that was queued or enqueued, the purchases completed
    are a prefix, in order, and the queue left behind is the rest.
  */
  lemma {:induction false} RunIsFifo(q: PumpQueue, ops: seq<QueueOp>)
    ensures FifoSplit(q.queue + Enqueues(ops), Run(q, ops).done, Run(q, ops).queue.queue)
    decreases |ops|
  {
    if ops == [] {
      assert q.queue + Enqueues(ops) == q.queue;
    } else if ops[0].Enq? {
      var next := Enqueue(q, ops[0].purchase).queue;
      var tail := Run(next, ops[1..]);
      RunIsFifo(next, ops[1..]);
      RunEnqStep(q, ops);
      EnqFifoSplit(q.queue, ops[0].purchase, Enqueues(ops[1..]), tail.done, tail.queue.queue);
    } else {
      var d := Dequeue(q, ops[0].remainingNow).queue;
      var tail := Run(d, ops[1..]);
      RunIsFifo(d, ops[1..]);
      RunDeqStep(q, ops);
      if q.queue != [] {
        DeqFifoSplit(q.queue, Enqueues(ops[1..]), tail.done, tail.queue.queue);
      }
    }
  }

  /** The derived fields stay consistent through any run. */
  lemma {:induction false} RunKeepsInv(q: PumpQueue, ops: seq<QueueOp>)
    requires Inv(q)
    ensures Inv(Run(q, ops).queue)
    ensures Run(q, ops).queue.pump == q.pump
    decreases |ops|
  {
    if ops != [] {
      match ops[0]
      case Enq(p) =>
        RunKeepsInv(Enqueue(q, p).queue, ops[1..]);
      case Deq(now) =>
        RunKeepsInv(Dequeue(q, now).queue, ops[1..]);
    }
  }

}
