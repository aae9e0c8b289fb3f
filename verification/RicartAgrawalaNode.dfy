/**
 One node of the Ricart-Agrawala algorithm with the Roucairol-Carvalho
 optimisation: what each handler does to the node's fields and which messages
 it sends.  `Node` and the step functions are the specification; the class
 `Strategy` works the way the source does and is proved to compute them.
*/
module RicartAgrawalaNode {
  import opened Numbers

  // A REPLY carries a sequence number too, but its receiver never reads it.
  datatype Message = Request(seqNo: nat) | Reply

  // The messages of one step, one queue for each destination.
  type Outbox = seq<seq<Message>>

  datatype Node = Node(
    ourSeq: nat,
    hgstSeq: nat,
    A: seq<bool>,
    deferred: seq<bool>,
    using: bool,
    waiting: bool)

  datatype Step = Step(node: Node, out: Outbox)

  predicate WellFormed(nd: Node, n: nat) {
    |nd.A| == n && |nd.deferred| == n && !(nd.using && nd.waiting)
  }

  function InitNode(n: nat): Node {
    Node(0, 0, seq(n, _ => false), seq(n, _ => false), false, false)
  }

  /** The priority order on requests: lower sequence number, then lower id. */
  predicate Before(seq1: nat, id1: nat, seq2: nat, id2: nat) {
    seq1 < seq2 || (seq1 == seq2 && id1 < id2)
  }

  predicate AllGranted(nd: Node, me: nat) {
    forall j :: 0 <= j < |nd.A| && j != me ==> nd.A[j]
  }

  function Silence(n: nat): Outbox { seq(n, _ => []) }

  function Only(n: nat, j: nat, msgs: seq<Message>): Outbox {
    seq(n, k => if k == j then msgs else [])
  }

  /** Start waiting: ask exactly the peers whose permission is not cached. */
  function AskStep(nd: Node, me: nat): Step {
    var s := nd.hgstSeq + 1;
    Step(nd.(waiting := true, ourSeq := s),
         seq(|nd.A|, j requires 0 <= j < |nd.A| => if j != me && !nd.A[j] then [Request(s)] else []))
  }

  function EnterStep(nd: Node): Step {
    Step(nd.(waiting := false, using := true), Silence(|nd.A|))
  }

  /** Leave: every deferred peer gets its REPLY, and with it this node's permission. */
  function ReleaseStep(nd: Node, me: nat): Step
    requires |nd.A| == |nd.deferred|
  {
    var n := |nd.A|;
    Step(nd.(using := false,
             A := seq(n, j requires 0 <= j < n => nd.A[j] && !(j != me && nd.deferred[j])),
             deferred := seq(n, j requires 0 <= j < n => nd.deferred[j] && j == me)),
         seq(n, j requires 0 <= j < n => if j != me && nd.deferred[j] then [Reply] else []))
  }

  function TakeReplyStep(nd: Node, j: nat): Step
    requires j < |nd.A|
  {
    Step(nd.(A := nd.A[j := true]), Silence(|nd.A|))
  }

  predicate Defers(nd: Node, me: nat, theirs: nat, j: nat) {
    nd.using || (nd.waiting && Before(nd.ourSeq, me, theirs, j))
  }

  /** The waiting node holds j's permission, but j's request goes first. */
  predicate Yields(nd: Node, me: nat, theirs: nat, j: nat)
    requires j < |nd.A|
  {
    nd.waiting && !nd.using && nd.A[j] && !Before(nd.ourSeq, me, theirs, j)
  }

  /** Defer j's request, grant it, or grant it and ask for the permission back. */
  function TreatRequestStep(nd: Node, me: nat, theirs: nat, j: nat): Step
    requires j < |nd.A| && j < |nd.deferred|
  {
    var n := |nd.A|;
    var seen := nd.(hgstSeq := Max(nd.hgstSeq, theirs));
    if Defers(nd, me, theirs, j) then
      Step(seen.(deferred := nd.deferred[j := true]), Silence(n))
    else
      Step(seen.(A := nd.A[j := false]),
           Only(n, j, if Yields(nd, me, theirs, j) then [Reply, Request(nd.ourSeq)] else [Reply]))
  }

  /** By numbers and ids, what nd and out have to be after the treatment of a REQUEST. */
  lemma RequestTreated(was: Node, me: nat, theirs: nat, j: nat, nd: Node, out: Outbox)
    requires |was.A| == |was.deferred| == |nd.A| == |nd.deferred| == |out| && j < |was.A|
    requires !(was.using && was.waiting) && nd.ourSeq == was.ourSeq
    requires nd.hgstSeq == Max(was.hgstSeq, theirs) && nd.using == was.using && nd.waiting == was.waiting
    requires forall k :: 0 <= k < |out| && k != j ==>
      out[k] == [] && nd.A[k] == was.A[k] && nd.deferred[k] == was.deferred[k]
    requires
      if was.using || (was.waiting && (theirs > was.ourSeq || (theirs == was.ourSeq && j > me)))
      then out[j] == [] && nd.A[j] == was.A[j] && nd.deferred[j]
      else (!nd.A[j] && nd.deferred[j] == was.deferred[j]
            && out[j] == if was.waiting && was.A[j] then [Reply, Request(was.ourSeq)] else [Reply])
    ensures Step(nd, out) == TreatRequestStep(was, me, theirs, j)
  {
    var spec := TreatRequestStep(was, me, theirs, j);
    assert out == spec.out && nd.A == spec.node.A && nd.deferred == spec.node.deferred;
  }

  // The strategy object of one client for one file.  Each method is the part of the source's
  // method that runs under the mutex; what it sends is returned, one queue for each client.
  class Strategy {
    const ME: nat
    const n: nat
    var ourSequenceNumber: nat
    var hgstSequenceNumber: nat
    var A: seq<bool>
    var replyDeferred: seq<bool>
    var isUsing: bool
    var isWaiting: bool

    ghost predicate Valid()
      reads this
    {
      ME < n && |A| == n && |replyDeferred| == n && !(isUsing && isWaiting)
    }

    ghost function View(): Node
      reads this
    {
      Node(ourSequenceNumber, hgstSequenceNumber, A, replyDeferred, isUsing, isWaiting)
    }

    constructor (me: nat, n: nat)
      requires me < n
      ensures Valid() && ME == me && this.n == n && View() == InitNode(n)
      ensures ourSequenceNumber == hgstSequenceNumber == 0 && !isUsing && !isWaiting
      ensures forall j :: 0 <= j < n ==> !A[j] && !replyDeferred[j]
    {
      ME, this.n := me, n;
      ourSequenceNumber, hgstSequenceNumber := 0, 0;
      A := seq(n, _ => false);
      replyDeferred := seq(n, _ => false);
      isUsing, isWaiting := false, false;
    }

    // Send the same message to every listed client, in the order of the list.
    method SendAll(targets: seq<nat>, msg: Message) returns (out: Outbox)
      requires forall k :: 0 <= k < |targets| ==> targets[k] < n
      requires forall k, l :: 0 <= k < l < |targets| ==> targets[k] < targets[l]
      ensures |out| == n
      ensures forall j :: 0 <= j < n ==> out[j] == if j in targets then [msg] else []
    {
      out := Silence(n);
      for t := 0 to |targets|
        invariant |out| == n
        invariant forall j :: 0 <= j < n ==> out[j] == if j in targets[..t] then [msg] else []
      {
        var j := targets[t];
        assert j !in targets[..t];
        out := out[j := out[j] + [msg]];
        assert targets[..t + 1] == targets[..t] + [j];
      }
      assert targets[..|targets|] == targets;
    }

    method RequestResource() returns (out: Outbox)
      requires Valid() && !isUsing
      modifies this
      ensures Valid()
      ensures Step(View(), out) == AskStep(old(View()), ME)
      ensures isWaiting && ourSequenceNumber == old(hgstSequenceNumber) + 1
      ensures hgstSequenceNumber == old(hgstSequenceNumber) && isUsing == old(isUsing)
      ensures A == old(A) && replyDeferred == old(replyDeferred)
      ensures |out| == n && forall j :: 0 <= j < n ==>
        out[j] == if j != ME && !old(A)[j] then [Request(old(hgstSequenceNumber) + 1)] else []
    {
      isWaiting := true;
      ourSequenceNumber := hgstSequenceNumber + 1;
      var needToSends: seq<nat> := [];
      for j := 0 to n
        invariant forall k :: 0 <= k < |needToSends| ==> needToSends[k] < j
        invariant forall k, l :: 0 <= k < l < |needToSends| ==> needToSends[k] < needToSends[l]
        invariant forall k :: 0 <= k < n ==> (k in needToSends <==> k < j && k != ME && !A[k])
      {
        if j != ME {
          if !A[j] {
            needToSends := needToSends + [j];
          }
        }
      }
      out := SendAll(needToSends, Request(ourSequenceNumber));
      assert out == AskStep(old(View()), ME).out;
    }

    method ReleaseResource() returns (out: Outbox)
      requires Valid()
      modifies this
      ensures Valid()
      ensures Step(View(), out) == ReleaseStep(old(View()), ME)
      ensures !isUsing && isWaiting == old(isWaiting)
      ensures ourSequenceNumber == old(ourSequenceNumber) && hgstSequenceNumber == old(hgstSequenceNumber)
      ensures |out| == n && forall j :: 0 <= j < n ==>
        if j != ME && old(replyDeferred)[j] then out[j] == [Reply] && !A[j] && !replyDeferred[j]
        else out[j] == [] && A[j] == old(A)[j] && replyDeferred[j] == old(replyDeferred)[j]
    {
      isUsing := false;
      var needToSends: seq<nat> := [];
      for j := 0 to n
        invariant |A| == n && |replyDeferred| == n && !isUsing
        invariant ourSequenceNumber == old(ourSequenceNumber)
        invariant hgstSequenceNumber == old(hgstSequenceNumber) && isWaiting == old(isWaiting)
        invariant forall k :: 0 <= k < |needToSends| ==> needToSends[k] < j
        invariant forall k, l :: 0 <= k < l < |needToSends| ==> needToSends[k] < needToSends[l]
        invariant forall k :: 0 <= k < n ==> (k in needToSends <==> k < j && k != ME && old(replyDeferred)[k])
        invariant forall k :: 0 <= k < n ==>
          (A[k] <==> old(A)[k] && !(k < j && k != ME && old(replyDeferred)[k]))
        invariant forall k :: 0 <= k < n ==>
          (replyDeferred[k] <==> old(replyDeferred)[k] && !(k < j && k != ME))
      {
        if j != ME {
          if replyDeferred[j] {
            A := A[j := false];
            replyDeferred := replyDeferred[j := false];
            needToSends := needToSends + [j];
          }
        }
      }
      out := SendAll(needToSends, Reply);
      ghost var spec := ReleaseStep(old(View()), ME);
      assert A == spec.node.A && replyDeferred == spec.node.deferred && out == spec.out;
    }

    method TreatReplyMessage(j: nat)
      requires Valid() && j < n
      modifies this
      ensures Valid()
      ensures View() == TakeReplyStep(old(View()), j).node
      ensures A == old(A)[j := true] && replyDeferred == old(replyDeferred)
      ensures ourSequenceNumber == old(ourSequenceNumber) && hgstSequenceNumber == old(hgstSequenceNumber)
      ensures isUsing == old(isUsing) && isWaiting == old(isWaiting)
    {
      A := A[j := true];
    }

    // The three tests of the source, in its order; the second one may clear what the third one reads.
    // A request with a higher number, or with the same number and a higher id, has to wait.
    method TreatRequestMessage(theirSequenceNumber: nat, j: nat) returns (out: Outbox)
      requires Valid() && j < n
      modifies this
      ensures Valid()
      ensures Step(View(), out) == TreatRequestStep(old(View()), ME, theirSequenceNumber, j)
      ensures ourSequenceNumber == old(ourSequenceNumber)
      ensures hgstSequenceNumber
           == if theirSequenceNumber > old(hgstSequenceNumber) then theirSequenceNumber else old(hgstSequenceNumber)
      ensures isUsing == old(isUsing) && isWaiting == old(isWaiting) && |out| == n
      ensures forall k :: 0 <= k < n && k != j ==>
        out[k] == [] && A[k] == old(A)[k] && replyDeferred[k] == old(replyDeferred)[k]
      ensures
        if isUsing || (isWaiting && (theirSequenceNumber > ourSequenceNumber
                                     || (theirSequenceNumber == ourSequenceNumber && j > ME)))
        then out[j] == [] && A[j] == old(A)[j] && replyDeferred[j]
        else (!A[j] && replyDeferred[j] == old(replyDeferred)[j]
              && out[j] == if isWaiting && old(A)[j] then [Reply, Request(ourSequenceNumber)] else [Reply])
    {
      out := Silence(n);
      hgstSequenceNumber := Max(hgstSequenceNumber, theirSequenceNumber);
      var ourPriority := theirSequenceNumber > ourSequenceNumber
        || (theirSequenceNumber == ourSequenceNumber && j > ME);
      if isUsing || (isWaiting && ourPriority) {
        replyDeferred := replyDeferred[j := true];
      }
      if !(isUsing || isWaiting) || (isWaiting && !A[j] && !ourPriority) {
        A := A[j := false];
        out := out[j := out[j] + [Reply]];
      }
      if isWaiting && A[j] && !ourPriority {
        A := A[j := false];
        out := out[j := out[j] + [Reply]];
        out := out[j := out[j] + [Request(ourSequenceNumber)]];
      }
      RequestTreated(old(View()), ME, theirSequenceNumber, j, View(), out);
    }

    method CanEnterCriticalSection() returns (allAIsTrue: bool)
      requires Valid()
      ensures allAIsTrue <==> AllGranted(View(), ME)
      ensures allAIsTrue <==> forall j :: 0 <= j < n && j != ME ==> A[j]
    {
      allAIsTrue := true;
      for j := 0 to n
        invariant allAIsTrue <==> forall k :: 0 <= k < j && k != ME ==> A[k]
      {
        if j != ME {
          allAIsTrue := allAIsTrue && A[j];
        }
      }
    }

    method EnterCriticalSection()
      requires Valid()
      modifies this
      ensures Valid()
      ensures View() == EnterStep(old(View())).node
      ensures isUsing && !isWaiting && A == old(A) && replyDeferred == old(replyDeferred)
      ensures ourSequenceNumber == old(ourSequenceNumber) && hgstSequenceNumber == old(hgstSequenceNumber)
    {
      isWaiting := false;
      isUsing := true;
    }
  }
}
