/**
 One node of Maekawa's algorithm, which is a requester towards its quorum and an arbiter
 for every node whose quorum it belongs to.  The step functions are the specification; the
 class `Strategy` works the way the source does and is proved to compute them.
*/
module MaekawaNode {
  import opened MessageQueue

  // What a requester sends to an arbiter, and what an arbiter sends to a requester.
  datatype Up = Request(r: Req) | Relinquish | Release
  datatype Down = Locked | Failed | Inquire

  datatype Standing = NoReply | AwaitingReply | GotFailed | GotLocked

  datatype Requester = Requester(ourSeq: nat, hgstSeq: nat, replies: map<nat, Standing>)

  datatype Lock = Free | Held(owner: Req)

  datatype Arbiter = Arbiter(lock: Lock, queue: multiset<Req>, inquireReplied: seq<bool>)

  /** An arbiter answers a message with one message at most. */
  datatype Answer = Nothing | To(dest: int, msg: Down)

  datatype ArbiterStep = ArbiterStep(arbiter: Arbiter, answer: Answer)

  // ---------------------------------------------------------------- the requester

  function ForAll(quorum: set<nat>, what: Standing): map<nat, Standing> {
    map i | i in quorum :: what
  }

  function AskStep(c: Requester, quorum: set<nat>): Requester {
    c.(ourSeq := c.hgstSeq + 1, replies := c.replies + ForAll(quorum, AwaitingReply))
  }

  function ReleaseStep(c: Requester, quorum: set<nat>): Requester {
    c.(replies := c.replies + ForAll(quorum, NoReply))
  }

  predicate SomeFailed(c: Requester, quorum: set<nat>) {
    exists i <- quorum :: i in c.replies && c.replies[i] == GotFailed
  }

  predicate AllLocked(c: Requester, quorum: set<nat>) {
    forall i <- quorum :: i in c.replies && c.replies[i] == GotLocked
  }

  /** The standing of arbiter j becomes what. */
  function Recorded(c: Requester, j: nat, what: Standing): Requester {
    c.(replies := c.replies[j := what])
  }

  /** What client j is sent when msg goes to every entry of the quorum. */
  ghost function ToMember(quorum: seq<nat>, j: nat, msg: Up): seq<Up> {
    seq(multiset(quorum)[j], _ => msg)
  }

  /** A quorum without repetitions sends one message to each member and none to others. */
  lemma {:induction false} OnceEach(quorum: seq<nat>, j: nat, msg: Up)
    requires forall k, l :: 0 <= k < l < |quorum| ==> quorum[k] != quorum[l]
    ensures ToMember(quorum, j, msg) == if j in quorum then [msg] else []
  {
    if quorum != [] {
      var last := |quorum| - 1;
      assert quorum == quorum[..last] + [quorum[last]];
      assert quorum[last] !in quorum[..last];
      OnceEach(quorum[..last], j, msg);
    }
  }

  // ---------------------------------------------------------------- the arbiter

  function InitArbiter(n: nat): Arbiter {
    Arbiter(Free, multiset{}, seq(n, _ => true))
  }

  predicate InRange(x: int, s: seq<bool>) { 0 <= x < |s| }

  ghost function TreatRequestStep(a: Arbiter, r: Req, maxSize: nat): ArbiterStep
    requires a.lock.Held? ==> InRange(a.lock.owner.sender, a.inquireReplied)
  {
    match a.lock
    case Free => ArbiterStep(a.(lock := Held(r)), To(r.sender, Locked))
    case Held(h) =>
      var q := Pushed(a.queue, r, maxSize);
      if Later(r, h) || (q != multiset{} && Later(r, Least(q))) then
        ArbiterStep(a.(queue := q), To(r.sender, Failed))
      else if a.inquireReplied[h.sender] then
        ArbiterStep(a.(queue := q, inquireReplied := a.inquireReplied[h.sender := false]), To(h.sender, Inquire))
      else
        ArbiterStep(a.(queue := q), Nothing)
  }

  /** Hand the lock to the least waiting request; the holder's own request goes back to the queue. */
  ghost function TreatRelinquishStep(a: Arbiter, j: nat, maxSize: nat): ArbiterStep
    requires a.lock.Held? && a.queue != multiset{} && j < |a.inquireReplied|
  {
    var top := Least(a.queue);
    ArbiterStep(
      Arbiter(Held(top), Pushed(a.queue - multiset{top}, a.lock.owner, maxSize), a.inquireReplied[j := true]),
      To(top.sender, Locked))
  }

  ghost function TreatReleaseStep(a: Arbiter, j: nat): ArbiterStep
    requires j < |a.inquireReplied|
  {
    var replied := a.inquireReplied[j := true];
    if a.queue == multiset{} then ArbiterStep(Arbiter(Free, a.queue, replied), Nothing)
    else
      var top := Least(a.queue);
      ArbiterStep(Arbiter(if a.lock.Held? then Held(top) else Free, a.queue - multiset{top}, replied),
                  To(top.sender, Locked))
  }

  // ---------------------------------------------------------------- the strategy object

  class Strategy {
    const ME: nat
    const n: nat
    const quorum: seq<nat>
    var ourSequenceNumber: nat
    var hgstSequenceNumber: nat
    const waitingQueue: Queue
    var requestReply: map<nat, Standing>
    var lockingRequest: Req
    var isLocked: bool
    var isInquireReplied: seq<bool>

    ghost predicate Valid()
      reads this, waitingQueue
    {
      && ME < n && |isInquireReplied| == n
      && (forall k :: 0 <= k < |quorum| ==> quorum[k] < n)
      && (isLocked ==> 0 <= lockingRequest.sender < n)
      && (forall r <- waitingQueue.pq :: 0 <= r.sender < n)
      && Quorum() <= requestReply.Keys
    }

    ghost function Quorum(): set<nat> { set i | i in quorum }

    ghost function RequesterView(): Requester
      reads this
    {
      Requester(ourSequenceNumber, hgstSequenceNumber, requestReply)
    }

    ghost function ArbiterView(): Arbiter
      reads this, waitingQueue
    {
      Arbiter(if isLocked then Held(lockingRequest) else Free, waitingQueue.pq, isInquireReplied)
    }

    constructor (me: nat, n: nat, quorum: seq<nat>, maxSize: nat)
      requires me < n
      requires forall k :: 0 <= k < |quorum| ==> quorum[k] < n
      ensures Valid() && ME == me && this.n == n && this.quorum == quorum && fresh(waitingQueue)
      ensures RequesterView() == Requester(0, 0, ForAll(Quorum(), NoReply))
      ensures ArbiterView() == InitArbiter(n) && waitingQueue.capacity == maxSize
      ensures ourSequenceNumber == hgstSequenceNumber == 0 && !isLocked && waitingQueue.pq == multiset{}
      ensures forall k :: 0 <= k < n ==> isInquireReplied[k]
      ensures forall i <- quorum :: i in requestReply && requestReply[i] == NoReply
    {
      ME, this.n, this.quorum := me, n, quorum;
      ourSequenceNumber, hgstSequenceNumber := 0, 0;
      isInquireReplied := seq(n, _ => true);
      waitingQueue := new Queue(maxSize);
      requestReply := map i | i in quorum :: NoReply;
      lockingRequest := Req(0, -1);
      isLocked := false;
    }

    // `reset_request_reply`, for any standing.
    method SetReplies(what: Standing)
      requires Valid()
      modifies this`requestReply
      ensures Valid() && requestReply == old(requestReply) + ForAll(Quorum(), what)
    {
      for k := 0 to |quorum|
        invariant requestReply.Keys == old(requestReply.Keys)
        invariant forall i <- requestReply ::
          requestReply[i] == if i in quorum[..k] then what else old(requestReply)[i]
      {
        assert quorum[..k + 1] == quorum[..k] + [quorum[k]];
        requestReply := requestReply[quorum[k] := what];
      }
      assert quorum[..|quorum|] == quorum;
    }

    // One message for each time an id is listed in the quorum.
    method SendToQuorum(msg: Up) returns (out: seq<seq<Up>>)
      requires Valid()
      ensures |out| == n && forall j: nat :: j < n ==> out[j] == ToMember(quorum, j, msg)
    {
      out := seq(n, _ => []);
      for k := 0 to |quorum|
        invariant |out| == n
        invariant forall j: nat :: j < n ==> out[j] == ToMember(quorum[..k], j, msg)
      {
        var i := quorum[k];
        assert quorum[..k + 1] == quorum[..k] + [i];
        out := out[i := out[i] + [msg]];
      }
      assert quorum[..|quorum|] == quorum;
    }

    method RequestResource() returns (out: seq<seq<Up>>)
      requires Valid()
      modifies this
      ensures Valid() && ArbiterView() == old(ArbiterView())
      ensures RequesterView() == AskStep(old(RequesterView()), Quorum())
      ensures |out| == n && forall j: nat :: j < n ==>
        out[j] == ToMember(quorum, j, Request(Req(ourSequenceNumber, ME)))
      ensures ourSequenceNumber == old(hgstSequenceNumber) + 1 && hgstSequenceNumber == old(hgstSequenceNumber)
      ensures forall i <- quorum :: requestReply[i] == AwaitingReply
      ensures forall i <- requestReply :: i !in quorum ==>
        i in old(requestReply) && requestReply[i] == old(requestReply)[i]
      ensures forall j: nat :: j < n ==> |out[j]| == multiset(quorum)[j]
      ensures forall j: nat :: j < n ==> (out[j] == [] <==> j !in quorum)
      ensures forall j: nat :: j < n ==> forall m <- out[j] :: m == Request(Req(old(hgstSequenceNumber) + 1, ME))
    {
      ourSequenceNumber := hgstSequenceNumber + 1;
      SetReplies(AwaitingReply);
      out := SendToQuorum(Request(Req(ourSequenceNumber, ME)));
    }

    method ReleaseResource() returns (out: seq<seq<Up>>)
      requires Valid()
      modifies this
      ensures Valid() && ArbiterView() == old(ArbiterView())
      ensures RequesterView() == ReleaseStep(old(RequesterView()), Quorum())
      ensures |out| == n && forall j: nat :: j < n ==> out[j] == ToMember(quorum, j, Release)
      ensures ourSequenceNumber == old(ourSequenceNumber) && hgstSequenceNumber == old(hgstSequenceNumber)
      ensures forall i <- quorum :: requestReply[i] == NoReply
      ensures forall i <- requestReply :: i !in quorum ==>
        i in old(requestReply) && requestReply[i] == old(requestReply)[i]
      ensures forall j: nat :: j < n ==> |out[j]| == multiset(quorum)[j]
      ensures forall j: nat :: j < n ==> (out[j] == [] <==> j !in quorum)
      ensures forall j: nat :: j < n ==> forall m <- out[j] :: m == Release
    {
      SetReplies(NoReply);
      out := SendToQuorum(Release);
    }

    // Push the request, whatever the result, and compare it with the holder's and the top.
    method QueueRequest(request: Req) returns (failed: bool)
      modifies waitingQueue
      ensures waitingQueue.pq == Pushed(old(waitingQueue.pq), request, waitingQueue.capacity)
      ensures var q := waitingQueue.pq;
        failed == (Later(request, lockingRequest) || (q != multiset{} && Later(request, Least(q))))
    {
      var _ := waitingQueue.Push(request);
      failed := Later(request, lockingRequest);
      if !failed {
        var empty := waitingQueue.Empty();
        if !empty {
          var top := waitingQueue.Top();
          failed := Later(request, top);
        }
      }
    }

    method TreatRequestMessage(request: Req) returns (answer: Answer)
      requires Valid() && 0 <= request.sender < n
      modifies this, waitingQueue
      ensures Valid()
      ensures RequesterView() == old(RequesterView()).(
        hgstSeq := if old(hgstSequenceNumber) < request.timestamp then request.timestamp
                   else old(hgstSequenceNumber))
      ensures ArbiterStep(ArbiterView(), answer)
           == TreatRequestStep(old(ArbiterView()), request, waitingQueue.capacity)
      ensures isLocked && requestReply == old(requestReply) && ourSequenceNumber == old(ourSequenceNumber)
      ensures lockingRequest == if old(isLocked) then old(lockingRequest) else request
      ensures answer == To(request.sender, Locked) <==> !old(isLocked)
      ensures waitingQueue.pq == if old(isLocked) && |old(waitingQueue.pq)| < waitingQueue.capacity
                                 then old(waitingQueue.pq) + multiset{request} else old(waitingQueue.pq)
    {
      if hgstSequenceNumber < request.timestamp {
        hgstSequenceNumber := request.timestamp;
      }
      answer := Nothing;
      if !isLocked {
        isLocked := true;
        lockingRequest := request;
        answer := To(request.sender, Locked);
      } else {
        var failed := QueueRequest(request);
        assert forall r <- waitingQueue.pq :: r in old(waitingQueue.pq) || r == request;
        if failed {
          answer := To(request.sender, Failed);
        } else {
          var lockingNodeId := lockingRequest.sender;
          if isInquireReplied[lockingNodeId] {
            answer := To(lockingNodeId, Inquire);
            isInquireReplied := isInquireReplied[lockingNodeId := false];
          }
        }
      }
    }

    // `treat_inquire_message` waits for this, and then calls `ReceivedFailed` once more.
    method CanDetermineInquireResult() returns (res: bool)
      requires Valid()
      ensures res <==> SomeFailed(RequesterView(), Quorum()) || AllLocked(RequesterView(), Quorum())
      ensures res <==>
        ((exists i <- quorum :: requestReply[i] == GotFailed) || (forall i <- quorum :: requestReply[i] == GotLocked))
    {
      res := ReceivedFailed();
      if !res {
        res := ReceivedAllLocked();
      }
    }

    // The part of `treat_inquire_message` that runs when the second call has returned true.
    method SendRelinquish(j: nat) returns (answer: Up)
      requires Valid()
      modifies this`requestReply
      ensures Valid() && ArbiterView() == old(ArbiterView())
      ensures RequesterView() == Recorded(old(RequesterView()), j, GotFailed) && answer == Relinquish
      ensures requestReply == old(requestReply)[j := GotFailed]
    {
      answer := Relinquish;
      requestReply := requestReply[j := GotFailed];
    }

    method TreatRelinquishMessage(j: nat) returns (answer: Answer)
      requires Valid() && j < n && isLocked && waitingQueue.pq != multiset{}
      modifies this, waitingQueue
      ensures Valid() && RequesterView() == old(RequesterView())
      ensures ArbiterStep(ArbiterView(), answer)
           == TreatRelinquishStep(old(ArbiterView()), j, waitingQueue.capacity)
      ensures isLocked && isInquireReplied == old(isInquireReplied)[j := true]
      ensures lockingRequest in old(waitingQueue.pq) && answer == To(lockingRequest.sender, Locked)
      ensures |old(waitingQueue.pq)| <= waitingQueue.capacity ==>
        waitingQueue.pq == old(waitingQueue.pq) - multiset{lockingRequest} + multiset{old(lockingRequest)}
      ensures forall x <- old(waitingQueue.pq) ::
        (lockingRequest.timestamp < x.timestamp
         || (lockingRequest.timestamp == x.timestamp && lockingRequest.sender <= x.sender))
    {
      var mostPrecedingRequest := waitingQueue.Top();
      waitingQueue.Pop();
      var _ := waitingQueue.Push(lockingRequest);
      assert forall r <- waitingQueue.pq :: r in old(waitingQueue.pq) || r == lockingRequest;
      lockingRequest := mostPrecedingRequest;
      isInquireReplied := isInquireReplied[j := true];
      answer := To(lockingRequest.sender, Locked);
    }

    method TreatFailedMessage(j: nat)
      requires Valid()
      modifies this`requestReply
      ensures Valid() && ArbiterView() == old(ArbiterView())
      ensures RequesterView() == Recorded(old(RequesterView()), j, GotFailed)
      ensures requestReply == old(requestReply)[j := GotFailed]
    {
      requestReply := requestReply[j := GotFailed];
    }

    method TreatLockedMessage(j: nat)
      requires Valid()
      modifies this`requestReply
      ensures Valid() && ArbiterView() == old(ArbiterView())
      ensures RequesterView() == Recorded(old(RequesterView()), j, GotLocked)
      ensures requestReply == old(requestReply)[j := GotLocked]
    {
      requestReply := requestReply[j := GotLocked];
    }

    method TreatReleaseMessage(j: nat) returns (answer: Answer)
      requires Valid() && j < n
      modifies this, waitingQueue
      ensures Valid() && RequesterView() == old(RequesterView())
      ensures ArbiterStep(ArbiterView(), answer) == TreatReleaseStep(old(ArbiterView()), j)
      ensures isInquireReplied == old(isInquireReplied)[j := true]
      ensures old(waitingQueue.pq) == multiset{} ==> !isLocked && answer == Nothing
      ensures old(waitingQueue.pq) != multiset{} ==>
        && isLocked == old(isLocked) && lockingRequest in old(waitingQueue.pq)
        && waitingQueue.pq == old(waitingQueue.pq) - multiset{lockingRequest}
        && answer == To(lockingRequest.sender, Locked)
      ensures forall x <- old(waitingQueue.pq) ::
        (lockingRequest.timestamp < x.timestamp
         || (lockingRequest.timestamp == x.timestamp && lockingRequest.sender <= x.sender))
    {
      isInquireReplied := isInquireReplied[j := true];
      var empty := waitingQueue.Empty();
      if !empty {
        lockingRequest := waitingQueue.Top();
        waitingQueue.Pop();
        answer := To(lockingRequest.sender, Locked);
      } else {
        isLocked := false;
        lockingRequest := lockingRequest.(sender := -1);
        answer := Nothing;
      }
    }

    method ReceivedFailed() returns (res: bool)
      requires Valid()
      ensures res <==> SomeFailed(RequesterView(), Quorum())
      ensures res <==> exists i <- quorum :: requestReply[i] == GotFailed
    {
      res := false;
      for k := 0 to |quorum|
        invariant !res && forall l :: 0 <= l < k ==> requestReply[quorum[l]] != GotFailed
      {
        if requestReply[quorum[k]] == GotFailed {
          assert quorum[k] in Quorum();
          return true;
        }
      }
    }

    // `received_all_locked`; `can_enter_critical_section` computes the same.
    method ReceivedAllLocked() returns (res: bool)
      requires Valid()
      ensures res <==> AllLocked(RequesterView(), Quorum())
      ensures res <==> forall i <- quorum :: requestReply[i] == GotLocked
    {
      res := true;
      for k := 0 to |quorum|
        invariant res && forall l :: 0 <= l < k ==> requestReply[quorum[l]] == GotLocked
      {
        if requestReply[quorum[k]] != GotLocked {
          assert quorum[k] in Quorum();
          return false;
        }
      }
    }
  }
}
