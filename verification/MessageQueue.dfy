/**
 The bounded priority queue of requests, by its contract: a multiset whose top is least by
 timestamp and then by sender.
*/
module MessageQueue {

  /** A queued REQUEST packet: the two fields its priority depends on. */
  datatype Req = Req(timestamp: nat, sender: int)

  /** `PacketComparator`: a comes after b. */
  predicate Later(a: Req, b: Req) {
    a.timestamp > b.timestamp || (a.timestamp == b.timestamp && a.sender > b.sender)
  }

  predicate IsLeast(r: Req, q: multiset<Req>) {
    r in q && forall x <- q :: !Later(r, x)
  }

  lemma {:induction false} LeastExists(q: multiset<Req>)
    requires q != multiset{}
    ensures exists r :: IsLeast(r, q)
    decreases |q|
  {
    var x :| x in q;
    var rest := q - multiset{x};
    if rest == multiset{} {
      assert q == multiset{x};
      assert IsLeast(x, q);
    } else {
      LeastExists(rest);
      var r :| IsLeast(r, rest);
      assert forall y <- q :: y == x || y in rest;
      assert IsLeast(if Later(r, x) then x else r, q);
    }
  }

  ghost function Least(q: multiset<Req>): (r: Req)
    requires q != multiset{}
    ensures IsLeast(r, q)
  {
    LeastExists(q);
    var r :| IsLeast(r, q); r
  }

  /** The order is total, so the queue has one top only. */
  lemma LeastIsUnique(q: multiset<Req>, r: Req)
    requires IsLeast(r, q)
    ensures q != multiset{} && r == Least(q)
  {
  }

  /** The top has the lowest timestamp, and of those that have it the lowest sender. */
  lemma LeastIsLowest(q: multiset<Req>)
    requires q != multiset{}
    ensures Least(q) in q
    ensures forall x <- q ::
      Least(q).timestamp < x.timestamp || (Least(q).timestamp == x.timestamp && Least(q).sender <= x.sender)
  {
  }

  lemma LeastOfOne(r: Req)
    ensures Least(multiset{r}) == r && !Later(r, r)
  {
  }

  function Pushed(q: multiset<Req>, r: Req, maxSize: nat): multiset<Req> {
    if |q| < maxSize then q + multiset{r} else q
  }

  class Queue {
    var pq: multiset<Req>
    const capacity: nat

    constructor (capacity: nat)
      ensures pq == multiset{} && this.capacity == capacity
    {
      pq := multiset{};
      this.capacity := capacity;
    }

    method Push(r: Req) returns (pushed: bool)
      modifies this
      ensures pq == Pushed(old(pq), r, capacity)
      ensures pushed <==> |old(pq)| < capacity
      ensures pq == if pushed then old(pq) + multiset{r} else old(pq)
    {
      if |pq| < capacity {
        pq := pq + multiset{r};
        pushed := true;
      } else {
        pushed := false;
      }
    }

    method Top() returns (r: Req)
      requires pq != multiset{}
      ensures r == Least(pq) && r in pq
      ensures forall x <- pq :: r.timestamp < x.timestamp || (r.timestamp == x.timestamp && r.sender <= x.sender)
    {
      LeastExists(pq);
      r :| r in pq && forall x <- pq :: !Later(r, x);
      LeastIsUnique(pq, r);
    }

    method Pop()
      requires pq != multiset{}
      modifies this
      ensures pq == old(pq) - multiset{Least(old(pq))}
    {
      var r := Top();
      pq := pq - multiset{r};
    }

    method Empty() returns (empty: bool)
      ensures empty <==> pq == multiset{}
    {
      empty := |pq| == 0;
    }
  }
}
