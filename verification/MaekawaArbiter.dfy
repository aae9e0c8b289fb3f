/**
 What every arbiter keeps true as long as RELINQUISH and RELEASE come from the holder of its
 lock: each pending request is in one place, and an INQUIRE is outstanding exactly when some
 waiting request goes before the holder's.
*/
module MaekawaArbiter {
  import opened MessageQueue
  import opened MaekawaNode

  ghost predicate Holds(a: Arbiter, k: int) { a.lock.Held? && a.lock.owner.sender == k }

  ghost predicate Waits(q: multiset<Req>, k: int) { exists r <- q :: r.sender == k }

  ghost predicate Queued(a: Arbiter, k: int) { Waits(a.queue, k) }

  /** Some waiting request goes before r. */
  ghost predicate Preceded(r: Req, q: multiset<Req>) { exists x <- q :: Later(r, x) }

  ghost predicate OnePerSender(q: multiset<Req>) {
    && (forall r <- q :: q[r] == 1)
    && (forall r, x :: r in q && x in q && r.sender == x.sender ==> r == x)
  }

  ghost predicate ArbiterShape(a: Arbiter, n: nat) {
    |a.inquireReplied| == n && (a.lock.Held? ==> 0 <= a.lock.owner.sender < n)
  }

  ghost predicate ArbiterInv(a: Arbiter, n: nat) {
    && ArbiterShape(a, n)
    && OnePerSender(a.queue)
    && (forall r <- a.queue :: 0 <= r.sender < n && !Holds(a, r.sender))
    && (forall k :: 0 <= k < n && !a.inquireReplied[k] ==> Holds(a, k))
    && match a.lock
       case Free => a.queue == multiset{}
       case Held(h) => !a.inquireReplied[h.sender] <==> Preceded(h, a.queue)
  }

  // ---------------------------------------------------------------- the queue never fills up

  ghost function Senders(q: multiset<Req>): set<int> { set r | r in q :: r.sender }

  lemma {:induction false} SendersCount(q: multiset<Req>)
    requires OnePerSender(q)
    ensures |Senders(q)| == |q|
    decreases |q|
  {
    if q != multiset{} {
      var x :| x in q;
      var rest := q - multiset{x};
      assert x !in rest;
      SendersCount(rest);
      assert Senders(q) == Senders(rest) + {x.sender};
    }
  }

  lemma {:induction false} SetBelow(s: set<int>, n: nat)
    requires forall x <- s :: 0 <= x < n
    ensures |s| <= n
  {
    if n == 0 {
      assert forall x :: x !in s;
      assert s == {};
    } else {
      SetBelow(s - {n - 1}, n - 1);
      assert s <= s - {n - 1} + {n - 1};
      assert n - 1 in s ==> s == s - {n - 1} + {n - 1};
      assert n - 1 !in s ==> s == s - {n - 1};
    }
  }

  /** With n clients a locked arbiter has at most n-1 requests waiting. */
  lemma QueueBound(a: Arbiter, n: nat)
    requires ArbiterInv(a, n)
    ensures |a.queue| <= n
    ensures a.lock.Held? ==> |a.queue| <= n - 1
  {
    SendersCount(a.queue);
    SetBelow(Senders(a.queue), n);
    if a.lock.Held? {
      var all := Senders(a.queue) + {a.lock.owner.sender};
      assert a.lock.owner.sender !in Senders(a.queue);
      SetBelow(all, n);
    }
  }

  lemma QueueHasRoom(a: Arbiter, r: Req, n: nat)
    requires ArbiterInv(a, n) && a.lock.Held? && 0 <= r.sender < n
    requires !Queued(a, r.sender) && !Holds(a, r.sender)
    ensures |a.queue| < n - 1
  {
    SendersCount(a.queue);
    var others := Senders(a.queue) + {a.lock.owner.sender};
    assert |others| == |a.queue| + 1;
    assert r.sender !in others;
    assert |others + {r.sender}| == |a.queue| + 2;
    SetBelow(others + {r.sender}, n);
  }

  /** The result of the bounded push is ignored: a request is kept exactly when there is room for it. */
  lemma RequestKeptIffRoom(a: Arbiter, r: Req, maxSize: nat)
    requires a.lock.Held? ==> InRange(a.lock.owner.sender, a.inquireReplied)
    requires !Queued(a, r.sender) && !Holds(a, r.sender)
    ensures var a' := TreatRequestStep(a, r, maxSize).arbiter;
      (Holds(a', r.sender) || Queued(a', r.sender)) <==> (a.lock.Free? || |a.queue| < maxSize)
  {
  }

  // ---------------------------------------------------------------- the three handlers

  lemma PushedMembers(q: multiset<Req>, r: Req)
    ensures forall x :: x in q + multiset{r} <==> x in q || x == r
  {
  }

  lemma PushedWaits(q: multiset<Req>, r: Req, k: int)
    ensures Waits(q + multiset{r}, k) <==> Waits(q, k) || k == r.sender
  {
  }

  lemma LeastOfPushed(q: multiset<Req>, r: Req)
    ensures q + multiset{r} != multiset{}
    ensures Later(r, Least(q + multiset{r})) <==> Preceded(r, q)
  {
  }

  lemma PushedOnePerSender(q: multiset<Req>, r: Req)
    requires OnePerSender(q) && forall x <- q :: x.sender != r.sender
    ensures OnePerSender(q + multiset{r})
  {
  }

  /**
   What an arbiter does with a request.  The first one takes the lock.  Any other is queued;
   its sender is told FAILED when the holder or some waiting request goes first, and otherwise
   the holder is asked to give the lock back, unless it has been asked already.
  */
  ghost predicate RequestTreated(a: Arbiter, r: Req, s: ArbiterStep)
    requires a.lock.Held? ==> InRange(a.lock.owner.sender, a.inquireReplied)
  {
    match a.lock
    case Free => s == ArbiterStep(a.(lock := Held(r)), To(r.sender, Locked))
    case Held(h) =>
      var queued := a.(queue := a.queue + multiset{r});
      if Later(r, h) || Preceded(r, a.queue) then
        s == ArbiterStep(queued, To(r.sender, Failed))
      else if a.inquireReplied[h.sender] then
        s == ArbiterStep(queued.(inquireReplied := a.inquireReplied[h.sender := false]), To(h.sender, Inquire))
      else
        s == ArbiterStep(queued, Nothing)
  }

  lemma RequestMeaning(a: Arbiter, r: Req, n: nat, maxSize: nat)
    requires ArbiterInv(a, n) && n <= maxSize + 1 && 0 <= r.sender < n
    requires !Queued(a, r.sender) && !Holds(a, r.sender)
    ensures RequestTreated(a, r, TreatRequestStep(a, r, maxSize))
  {
    if a.lock.Held? {
      QueueHasRoom(a, r, n);
      LeastOfPushed(a.queue, r);
    }
  }

  /**
   By timestamps and senders: with the lock free the request takes it.  Otherwise it is queued if there is room;
   its sender is told FAILED when a pending request, the holder's included, has a lower timestamp, or the same
   timestamp and a lower sender; and if there is none the holder is asked to give the lock back, once.
  */
  lemma RequestByNumber(a: Arbiter, r: Req, maxSize: nat)
    requires a.lock.Held? ==> 0 <= a.lock.owner.sender < |a.inquireReplied|
    ensures var s := TreatRequestStep(a, r, maxSize);
      if a.lock.Free? then
        s.arbiter == Arbiter(Held(r), a.queue, a.inquireReplied) && s.answer == To(r.sender, Locked)
      else
        var h := a.lock.owner;
        && s.arbiter.lock == a.lock
        && s.arbiter.queue == (if |a.queue| < maxSize then a.queue + multiset{r} else a.queue)
        && if exists x <- a.queue + multiset{h} ::
             x.timestamp < r.timestamp || (x.timestamp == r.timestamp && x.sender < r.sender)
           then s.answer == To(r.sender, Failed) && s.arbiter.inquireReplied == a.inquireReplied
           else if a.inquireReplied[h.sender]
           then s.answer == To(h.sender, Inquire) && s.arbiter.inquireReplied == a.inquireReplied[h.sender := false]
           else s.answer == Nothing && s.arbiter.inquireReplied == a.inquireReplied
  {
    if a.lock.Held? {
      var h, q := a.lock.owner, Pushed(a.queue, r, maxSize);
      PushedMembers(a.queue, h);
      PushedMembers(a.queue, r);
      assert h in a.queue + multiset{h};
      assert (q != multiset{} && Later(r, Least(q))) <==> Preceded(r, a.queue);
      assert (Later(r, h) || Preceded(r, a.queue)) <==> exists x <- a.queue + multiset{h} ::
        x.timestamp < r.timestamp || (x.timestamp == r.timestamp && x.sender < r.sender);
    }
  }

  lemma PrecededAfterPush(h: Req, q: multiset<Req>, r: Req)
    ensures Preceded(h, q + multiset{r}) <==> Preceded(h, q) || Later(h, r)
    ensures Later(h, r) && Preceded(r, q) ==> Preceded(h, q)
  {
  }

  /** Queueing a request of a sender that has none pending, with the holder's flag set right, keeps the invariant. */
  lemma QueueingKeepsInv(a: Arbiter, r: Req, n: nat, b: Arbiter)
    requires ArbiterInv(a, n) && a.lock.Held? && 0 <= r.sender < n
    requires !Queued(a, r.sender) && !Holds(a, r.sender)
    requires b.lock == a.lock && b.queue == a.queue + multiset{r}
    requires b.inquireReplied == a.inquireReplied
      || b.inquireReplied == a.inquireReplied[a.lock.owner.sender := false]
    requires !b.inquireReplied[a.lock.owner.sender] <==> Preceded(a.lock.owner, b.queue)
    ensures ArbiterInv(b, n)
  {
    PushedMembers(a.queue, r);
    PushedOnePerSender(a.queue, r);
  }

  lemma RequestKeepsInv(a: Arbiter, r: Req, n: nat, maxSize: nat)
    requires ArbiterInv(a, n) && n <= maxSize + 1 && 0 <= r.sender < n
    requires !Queued(a, r.sender) && !Holds(a, r.sender)
    ensures ArbiterInv(TreatRequestStep(a, r, maxSize).arbiter, n)
  {
    RequestMeaning(a, r, n, maxSize);
    if a.lock.Held? {
      PrecededAfterPush(a.lock.owner, a.queue, r);
      QueueingKeepsInv(a, r, n, TreatRequestStep(a, r, maxSize).arbiter);
    }
  }

  lemma PoppedMembers(q: multiset<Req>)
    requires q != multiset{} && OnePerSender(q)
    ensures var rest := q - multiset{Least(q)};
      && OnePerSender(rest)
      && (forall x :: x in rest <==> x in q && x != Least(q))
      && (forall x <- rest :: x.sender != Least(q).sender)
      && !Preceded(Least(q), rest)
  {
  }

  lemma TopIsFirst(a: Arbiter, k: nat, n: nat)
    requires ArbiterInv(a, n) && Holds(a, k) && k < n && !a.inquireReplied[k]
    ensures a.queue != multiset{} && Later(a.lock.owner, Least(a.queue))
  {
  }

  /** Giving up the lock to the queue's top puts one request back and keeps one for each sender. */
  lemma SwapTop(q: multiset<Req>, h: Req)
    requires q != multiset{} && OnePerSender(q)
    requires forall x <- q :: x.sender != h.sender
    requires Later(h, Least(q))
    ensures var rest := q - multiset{Least(q)} + multiset{h};
      && OnePerSender(rest)
      && (forall x <- rest :: x == h || (x in q && x != Least(q)))
      && (forall x <- rest :: x.sender != Least(q).sender)
      && !Preceded(Least(q), rest)
  {
  }

  /**
   RELINQUISH from the holder: the lock goes to the least of all pending requests, which is
   strictly before the old holder's; the old holder's request is back in the queue.
  */
  lemma RelinquishMeaning(a: Arbiter, k: nat, n: nat, maxSize: nat)
    requires ArbiterInv(a, n) && n <= maxSize + 1 && k < n
    requires Holds(a, k) && !a.inquireReplied[k]
    ensures a.queue != multiset{}
    ensures var s := TreatRelinquishStep(a, k, maxSize);
      && ArbiterInv(s.arbiter, n)
      && s.arbiter.lock.Held?
      && s.answer == To(s.arbiter.lock.owner.sender, Locked)
      && Later(a.lock.owner, s.arbiter.lock.owner)
      && !Preceded(s.arbiter.lock.owner, s.arbiter.queue)
      && s.arbiter.queue + multiset{s.arbiter.lock.owner} == a.queue + multiset{a.lock.owner}
      && s.arbiter.inquireReplied == a.inquireReplied[k := true]
  {
    TopIsFirst(a, k, n);
    var top := Least(a.queue);
    QueueBound(a, n);
    assert |a.queue - multiset{top}| < maxSize;
    SwapTop(a.queue, a.lock.owner);
  }

  /** RELEASE from the holder: the lock goes to the least waiting request, or becomes free. */
  lemma ReleaseMeaning(a: Arbiter, k: nat, n: nat)
    requires ArbiterInv(a, n) && k < n && Holds(a, k)
    ensures var s := TreatReleaseStep(a, k);
      && ArbiterInv(s.arbiter, n)
      && s.arbiter.inquireReplied == a.inquireReplied[k := true]
      && match s.arbiter.lock
         case Free => a.queue == multiset{} == s.arbiter.queue && s.answer == Nothing
         case Held(h) =>
           && s.answer == To(h.sender, Locked)
           && !Preceded(h, s.arbiter.queue)
           && s.arbiter.queue + multiset{h} == a.queue
  {
    if a.queue != multiset{} {
      PoppedMembers(a.queue);
    }
  }

  /**
   By timestamps and senders: after RELINQUISH the lock belongs to the lowest of the waiting requests, which is
   lower than that of the client that gave it back.
  */
  lemma RelinquishGoesToLowest(a: Arbiter, k: nat, n: nat, maxSize: nat)
    requires ArbiterInv(a, n) && n <= maxSize + 1 && k < n
    requires Holds(a, k) && !a.inquireReplied[k]
    ensures a.queue != multiset{}
    ensures var s := TreatRelinquishStep(a, k, maxSize);
      && s.arbiter.lock.Held?
      && var was, next := a.lock.owner, s.arbiter.lock.owner;
      && next in a.queue && s.answer == To(next.sender, Locked)
      && (next.timestamp < was.timestamp || (next.timestamp == was.timestamp && next.sender < was.sender))
      && forall x <- a.queue ::
           next.timestamp < x.timestamp || (next.timestamp == x.timestamp && next.sender <= x.sender)
  {
    RelinquishMeaning(a, k, n, maxSize);
    LeastIsLowest(a.queue);
  }

  /** And after RELEASE to the lowest of the waiting requests. */
  lemma ReleaseGoesToLowest(a: Arbiter, k: nat, n: nat)
    requires ArbiterInv(a, n) && k < n && Holds(a, k) && a.queue != multiset{}
    ensures var s := TreatReleaseStep(a, k);
      && s.arbiter.lock.Held?
      && var next := s.arbiter.lock.owner;
      && next in a.queue && s.answer == To(next.sender, Locked) && s.arbiter.queue == a.queue - multiset{next}
      && forall x <- a.queue ::
           next.timestamp < x.timestamp || (next.timestamp == x.timestamp && next.sender <= x.sender)
  {
    LeastIsLowest(a.queue);
  }
}
