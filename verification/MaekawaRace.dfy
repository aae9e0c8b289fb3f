/**
 A run of two clients in which every INQUIRE is answered at once, messages are treated in the program's
 order, and mutual exclusion fails all the same: the INQUIRE is stale.  Arbiter 1 asks client 1 to give its
 lock back while client 1 is inside; the INQUIRE is treated when client 1 has left, asked again and been
 told FAILED by arbiter 0.  It answers with a RELINQUISH for a lock that it has not got again yet.
*/
module MaekawaRace {
  import opened MessageQueue
  import opened MaekawaNode
  import opened MaekawaSystem
  import opened MaekawaOrder
  import opened MaekawaBoard

  const START := Board(
    Two(Outside, Outside), Two(Asker(0, 0, NoReply, NoReply), Asker(0, 0, NoReply, NoReply)),
    Two(Judge(Free, Nobody, true, true), Judge(Free, Nobody, true, true)),
    Four(Nil, Nil, Nil, Nil), Four(Nil, Nil, Nil, Nil), Four(Unread, Unread, Unread, Unread), Four(Nil, Nil, Nil,
      Nil))

  lemma StartIsInit()
    ensures Sound(START) && Full(START) == Init(Q) && Lines(START) == NoOrder(2)
  {
    var s := Init(Q);
    assert Full(START).clients[0] == s.clients[0] && Full(START).clients[1] == s.clients[1];
    assert Full(START).arbiters[0] == s.arbiters[0] && Full(START).arbiters[1] == s.arbiters[1];
    assert Full(START).up[0] == s.up[0] && Full(START).up[1] == s.up[1];
    assert Full(START).down[0] == s.down[0] && Full(START).down[1] == s.down[1];
    assert Full(START).stages[0] == s.stages[0] && Full(START).stages[1] == s.stages[1];
    assert Lines(START)[0] == NoOrder(2)[0] && Lines(START)[1] == NoOrder(2)[1];
  }

  /** Play on from where the events so far have led. */
  lemma PlayOn(es: List<Event>, c: Board, more: List<Event>, d: Board, e: Event, last: Event)
    returns (all: List<Event>)
    requires Play(START, es) == Next(c) && Play(c, more) == Next(d)
    requires AtOnce(Ask(0), es) && Last(Ask(0), es) == e && AtOnce(e, more) && Last(e, more) == last
    ensures Play(START, all) == Next(d) && AtOnce(Ask(0), all) && Last(Ask(0), all) == last
  {
    all := Cat(es, more);
    PlayCat(START, es, more);
    AtOnceCat(Ask(0), es, more);
  }

  const STALE_1 := Board(
    Two(Waiting, Waiting), Two(Asker(1, 1, AwaitingReply, AwaitingReply), Asker(1, 0, AwaitingReply, AwaitingReply)),
    Two(Judge(Held(Req(1, 1)), Nobody, true, true), Judge(Free, Nobody, true, true)),
    Four(Cons(Request(Req(1, 0)), Nil), Cons(Request(Req(1, 0)), Nil), Nil, Cons(Request(Req(1, 1)), Nil)),
    Four(Nil, Cons(Locked, Nil), Nil, Nil), Four(Unread, Unread, Unread, Unread),
    Four(Cons(FromRequester, Nil), Cons(FromRequester, Cons(FromArbiter, Nil)), Nil, Cons(FromRequester, Nil)))
  const STALE_2 := Board(
    Two(Waiting, Waiting), Two(Asker(1, 1, AwaitingReply, AwaitingReply), Asker(1, 1, GotLocked, AwaitingReply)),
    Two(Judge(Held(Req(1, 1)), Nobody, true, true), Judge(Held(Req(1, 1)), One(Req(1, 0)), true, false)),
    Four(Cons(Request(Req(1, 0)), Nil), Nil, Nil, Nil), Four(Nil, Nil, Nil, Cons(Locked, Cons(Inquire, Nil))),
    Four(Unread, Unread, Unread, Unread),
    Four(Cons(FromRequester, Nil), Nil, Nil, Cons(FromArbiter, Cons(FromArbiter, Nil))))
  const STALE_3 := Board(
    Two(Waiting, Outside), Two(Asker(1, 1, AwaitingReply, AwaitingReply), Asker(1, 1, NoReply, NoReply)),
    Two(Judge(Held(Req(1, 1)), Nobody, true, true), Judge(Held(Req(1, 1)), One(Req(1, 0)), true, false)),
    Four(Cons(Request(Req(1, 0)), Nil), Nil, Cons(Release, Nil), Cons(Release, Nil)),
    Four(Nil, Nil, Nil, Cons(Inquire, Nil)), Four(Unread, Unread, Unread, Unread),
    Four(Cons(FromRequester, Nil), Nil, Cons(FromRequester, Nil), Cons(FromArbiter, Cons(FromRequester, Nil))))
  const STALE_4 := Board(
    Two(Waiting, Waiting), Two(Asker(1, 1, AwaitingReply, AwaitingReply), Asker(2, 1, AwaitingReply, AwaitingReply)),
    Two(Judge(Held(Req(1, 0)), Nobody, true, true), Judge(Held(Req(1, 1)), One(Req(1, 0)), true, false)),
    Four(Nil, Nil, Cons(Request(Req(2, 1)), Nil), Cons(Release, Cons(Request(Req(2, 1)), Nil))),
    Four(Cons(Locked, Nil), Nil, Nil, Cons(Inquire, Nil)), Four(Unread, Unread, Unread, Unread),
    Four(Cons(FromArbiter, Nil), Nil, Cons(FromRequester, Nil), Cons(FromArbiter, Cons(FromRequester,
      Cons(FromRequester, Nil)))))
  const STALE_5 := Board(
    Two(Waiting, Waiting), Two(Asker(1, 2, GotLocked, AwaitingReply), Asker(2, 1, GotFailed, AwaitingReply)),
    Two(Judge(Held(Req(1, 0)), One(Req(2, 1)), true, true), Judge(Held(Req(1, 1)), One(Req(1, 0)), true, false)),
    Four(Nil, Nil, Nil, Cons(Release, Cons(Request(Req(2, 1)), Nil))), Four(Nil, Nil, Nil, Cons(Inquire, Nil)),
    Four(Unread, Unread, Unread, Unread),
    Four(Nil, Nil, Nil, Cons(FromArbiter, Cons(FromRequester, Cons(FromRequester, Nil)))))
  const STALE_6 := Board(
    Two(Waiting, Waiting), Two(Asker(1, 2, GotLocked, AwaitingReply), Asker(2, 1, GotFailed, GotFailed)),
    Two(Judge(Held(Req(1, 0)), One(Req(2, 1)), true, true), Judge(Held(Req(1, 1)), One(Req(1, 0)), true, false)),
    Four(Nil, Nil, Nil, Cons(Release, Cons(Request(Req(2, 1)), Cons(Relinquish, Nil)))),
    Four(Nil, Nil, Nil, Nil), Four(Unread, Unread, Unread, Unread),
    Four(Nil, Nil, Nil, Cons(FromRequester, Cons(FromRequester, Cons(FromRequester, Nil)))))
  const STALE_7 := Board(
    Two(Inside, Waiting), Two(Asker(1, 2, GotLocked, GotLocked), Asker(2, 1, GotFailed, GotFailed)),
    Two(Judge(Held(Req(1, 0)), One(Req(2, 1)), true, true), Judge(Held(Req(1, 0)), Nobody, true, true)),
    Four(Nil, Nil, Nil, Cons(Request(Req(2, 1)), Cons(Relinquish, Nil))), Four(Nil, Nil, Nil, Nil),
    Four(Unread, Unread, Unread, Unread), Four(Nil, Nil, Nil, Cons(FromRequester, Cons(FromRequester, Nil))))
  const STALE_8 := Board(
    Two(Waiting, Waiting), Two(Asker(3, 2, AwaitingReply, AwaitingReply), Asker(2, 1, GotFailed, GotFailed)),
    Two(Judge(Held(Req(2, 1)), Nobody, true, true), Judge(Held(Req(1, 0)), Nobody, true, true)),
    Four(Cons(Request(Req(3, 0)), Nil), Cons(Release, Cons(Request(Req(3, 0)), Nil)), Nil, Cons(Request(Req(2, 1)),
      Cons(Relinquish, Nil))),
    Four(Nil, Cons(Locked, Nil), Nil, Nil), Four(Unread, Unread, Unread, Unread),
    Four(Cons(FromRequester, Nil), Cons(FromRequester, Cons(FromRequester, Cons(FromArbiter, Nil))), Nil,
      Cons(FromRequester, Cons(FromRequester, Nil))))
  const STALE_9 := Board(
    Two(Waiting, Waiting), Two(Asker(3, 2, AwaitingReply, AwaitingReply), Asker(2, 3, GotFailed, GotFailed)),
    Two(Judge(Held(Req(2, 1)), Nobody, true, true), Judge(Held(Req(2, 1)), One(Req(3, 0)), true, true)),
    Four(Cons(Request(Req(3, 0)), Nil), Nil, Nil, Cons(Relinquish, Nil)),
    Four(Nil, Cons(Locked, Nil), Cons(Failed, Nil), Cons(Locked, Nil)), Four(Unread, Unread, Unread, Unread),
    Four(Cons(FromRequester, Nil), Cons(FromArbiter, Nil), Cons(FromArbiter, Nil), Cons(FromRequester,
      Cons(FromArbiter, Nil))))
  const STALE_10 := Board(
    Two(Waiting, Waiting), Two(Asker(3, 2, AwaitingReply, GotFailed), Asker(2, 3, GotLocked, GotFailed)),
    Two(Judge(Held(Req(2, 1)), Nobody, true, true), Judge(Held(Req(3, 0)), One(Req(2, 1)), true, true)),
    Four(Cons(Request(Req(3, 0)), Nil), Nil, Nil, Nil), Four(Nil, Nil, Cons(Locked, Nil), Cons(Locked, Nil)),
    Four(Unread, Unread, Unread, Unread),
    Four(Cons(FromRequester, Nil), Nil, Cons(FromArbiter, Nil), Cons(FromArbiter, Nil)))
  const STALE_11 := Board(
    Two(Waiting, Inside), Two(Asker(3, 2, AwaitingReply, GotLocked), Asker(2, 3, GotLocked, GotLocked)),
    Two(Judge(Held(Req(2, 1)), Nobody, true, true), Judge(Held(Req(3, 0)), One(Req(2, 1)), true, true)),
    Four(Cons(Request(Req(3, 0)), Nil), Nil, Nil, Nil), Four(Nil, Nil, Nil, Nil),
    Four(Unread, Unread, Unread, Unread), Four(Cons(FromRequester, Nil), Nil, Nil, Nil))
  const STALE_12 := Board(
    Two(Waiting, Waiting), Two(Asker(3, 2, AwaitingReply, GotLocked), Asker(4, 3, AwaitingReply, AwaitingReply)),
    Two(Judge(Free, Nobody, true, true), Judge(Held(Req(3, 0)), One(Req(2, 1)), true, true)),
    Four(Cons(Request(Req(3, 0)), Nil), Nil, Cons(Request(Req(4, 1)), Nil), Cons(Release, Cons(Request(Req(4, 1)),
      Nil))),
    Four(Nil, Nil, Nil, Nil), Four(Unread, Unread, Unread, Unread),
    Four(Cons(FromRequester, Nil), Nil, Cons(FromRequester, Nil), Cons(FromRequester, Cons(FromRequester, Nil))))
  const STALE_13 := Board(
    Two(Waiting, Waiting), Two(Asker(3, 4, AwaitingReply, GotLocked), Asker(4, 3, GotLocked, AwaitingReply)),
    Two(Judge(Held(Req(4, 1)), One(Req(3, 0)), true, false), Judge(Held(Req(3, 0)), One(Req(2, 1)), true, true)),
    Four(Nil, Nil, Nil, Cons(Release, Cons(Request(Req(4, 1)), Nil))), Four(Nil, Cons(Inquire, Nil), Nil, Nil),
    Four(Unread, Unread, Unread, Unread),
    Four(Nil, Cons(FromArbiter, Nil), Nil, Cons(FromRequester, Cons(FromRequester, Nil))))
  const STALE_14 := Board(
    Two(Waiting, Waiting), Two(Asker(3, 4, AwaitingReply, GotLocked), Asker(4, 4, GotLocked, GotLocked)),
    Two(Judge(Held(Req(4, 1)), One(Req(3, 0)), true, false), Judge(Held(Req(2, 1)), One(Req(4, 1)), true, true)),
    Four(Nil, Nil, Nil, Nil), Four(Nil, Cons(Inquire, Nil), Nil, Cons(Failed, Nil)),
    Four(Unread, Unread, Unread, Unread), Four(Nil, Cons(FromArbiter, Nil), Nil, Cons(FromArbiter, Nil)))
  const STALE_15 := Board(
    Two(Waiting, Inside), Two(Asker(3, 4, AwaitingReply, GotLocked), Asker(4, 4, GotLocked, GotFailed)),
    Two(Judge(Held(Req(4, 1)), One(Req(3, 0)), true, false), Judge(Held(Req(2, 1)), One(Req(4, 1)), true, true)),
    Four(Nil, Nil, Nil, Nil), Four(Nil, Cons(Inquire, Nil), Nil, Nil), Four(Unread, Unread, Unread, Unread),
    Four(Nil, Cons(FromArbiter, Nil), Nil, Nil))
  const STALE_16 := Board(
    Two(Waiting, Inside), Two(Asker(3, 4, AwaitingReply, GotLocked), Asker(4, 4, GotFailed, GotFailed)),
    Two(Judge(Held(Req(4, 1)), One(Req(3, 0)), true, false), Judge(Held(Req(2, 1)), One(Req(4, 1)), true, true)),
    Four(Nil, Nil, Cons(Relinquish, Nil), Nil), Four(Nil, Nil, Nil, Nil), Four(Unread, Unread, Unread, Unread),
    Four(Nil, Nil, Cons(FromRequester, Nil), Nil))
  const STALE_17 := Board(
    Two(Inside, Inside), Two(Asker(3, 4, GotLocked, GotLocked), Asker(4, 4, GotFailed, GotFailed)),
    Two(Judge(Held(Req(3, 0)), One(Req(4, 1)), true, true), Judge(Held(Req(2, 1)), One(Req(4, 1)), true, true)),
    Four(Nil, Nil, Nil, Nil), Four(Nil, Nil, Nil, Nil), Four(Unread, Unread, Unread, Unread),
    Four(Nil, Nil, Nil, Nil))

  lemma Play1() returns (es: List<Event>)
    ensures Play(START, es) == Next(STALE_1)
    ensures AtOnce(Ask(0), es) && Last(Ask(0), es) == AtArbiter(1, 0)
  {
    es :=
      Cons(Ask(0), Cons(Ask(1), Cons(AtArbiter(1, 0), Nil)));
  }

  lemma Play2() returns (es: List<Event>)
    ensures Play(STALE_1, es) == Next(STALE_2)
    ensures AtOnce(AtArbiter(1, 0), es) && Last(AtArbiter(1, 0), es) == AtClient(1, 0)
  {
    es :=
      Cons(AtArbiter(1, 1), Cons(AtArbiter(0, 1), Cons(AtClient(1, 0), Nil)));
  }

  lemma Play3() returns (es: List<Event>)
    ensures Play(STALE_2, es) == Next(STALE_3)
    ensures AtOnce(AtClient(1, 0), es) && Last(AtClient(1, 0), es) == Leave(1)
  {
    es :=
      Cons(AtClient(1, 1), Cons(Enter(1), Cons(Leave(1), Nil)));
  }

  lemma Play4() returns (es: List<Event>)
    ensures Play(STALE_3, es) == Next(STALE_4)
    ensures AtOnce(Leave(1), es) && Last(Leave(1), es) == AtArbiter(0, 0)
  {
    es :=
      Cons(Ask(1), Cons(AtArbiter(1, 0), Cons(AtArbiter(0, 0), Nil)));
  }

  lemma Play5() returns (es: List<Event>)
    ensures Play(STALE_4, es) == Next(STALE_5)
    ensures AtOnce(AtArbiter(0, 0), es) && Last(AtArbiter(0, 0), es) == AtClient(1, 0)
  {
    es :=
      Cons(AtClient(0, 0), Cons(AtArbiter(1, 0), Cons(AtClient(1, 0), Nil)));
  }

  lemma Play6() returns (es: List<Event>)
    ensures Play(STALE_5, es) == Next(STALE_6)
    ensures AtOnce(AtClient(1, 0), es) && Last(AtClient(1, 0), es) == Yield(1, 1)
  {
    es :=
      Cons(Determine(1, 1), Cons(Look(1, 1), Cons(Yield(1, 1), Nil)));
  }

  lemma Play7() returns (es: List<Event>)
    ensures Play(STALE_6, es) == Next(STALE_7)
    ensures AtOnce(Yield(1, 1), es) && Last(Yield(1, 1), es) == Enter(0)
  {
    es :=
      Cons(AtArbiter(1, 1), Cons(AtClient(0, 1), Cons(Enter(0), Nil)));
  }

  lemma Play8() returns (es: List<Event>)
    ensures Play(STALE_7, es) == Next(STALE_8)
    ensures AtOnce(Enter(0), es) && Last(Enter(0), es) == AtArbiter(0, 0)
  {
    es :=
      Cons(Leave(0), Cons(Ask(0), Cons(AtArbiter(0, 0), Nil)));
  }

  lemma Play9() returns (es: List<Event>)
    ensures Play(STALE_8, es) == Next(STALE_9)
    ensures AtOnce(AtArbiter(0, 0), es) && Last(AtArbiter(0, 0), es) == AtArbiter(0, 1)
  {
    es :=
      Cons(AtArbiter(0, 1), Cons(AtArbiter(1, 1), Cons(AtArbiter(0, 1), Nil)));
  }

  lemma Play10() returns (es: List<Event>)
    ensures Play(STALE_9, es) == Next(STALE_10)
    ensures AtOnce(AtArbiter(0, 1), es) && Last(AtArbiter(0, 1), es) == AtArbiter(1, 1)
  {
    es :=
      Cons(AtClient(1, 0), Cons(AtClient(0, 1), Cons(AtArbiter(1, 1), Nil)));
  }

  lemma Play11() returns (es: List<Event>)
    ensures Play(STALE_10, es) == Next(STALE_11)
    ensures AtOnce(AtArbiter(1, 1), es) && Last(AtArbiter(1, 1), es) == Enter(1)
  {
    es :=
      Cons(AtClient(0, 1), Cons(AtClient(1, 1), Cons(Enter(1), Nil)));
  }

  lemma Play12() returns (es: List<Event>)
    ensures Play(STALE_11, es) == Next(STALE_12)
    ensures AtOnce(Enter(1), es) && Last(Enter(1), es) == AtArbiter(1, 0)
  {
    es :=
      Cons(Leave(1), Cons(Ask(1), Cons(AtArbiter(1, 0), Nil)));
  }

  lemma Play13() returns (es: List<Event>)
    ensures Play(STALE_12, es) == Next(STALE_13)
    ensures AtOnce(AtArbiter(1, 0), es) && Last(AtArbiter(1, 0), es) == AtClient(1, 0)
  {
    es :=
      Cons(AtArbiter(1, 0), Cons(AtArbiter(0, 0), Cons(AtClient(1, 0), Nil)));
  }

  lemma Play14() returns (es: List<Event>)
    ensures Play(STALE_13, es) == Next(STALE_14)
    ensures AtOnce(AtClient(1, 0), es) && Last(AtClient(1, 0), es) == AtClient(1, 1)
  {
    es :=
      Cons(AtArbiter(1, 1), Cons(AtArbiter(1, 1), Cons(AtClient(1, 1), Nil)));
  }

  lemma Play15() returns (es: List<Event>)
    ensures Play(STALE_14, es) == Next(STALE_15)
    ensures AtOnce(AtClient(1, 1), es) && Last(AtClient(1, 1), es) == AtClient(1, 1)
  {
    es :=
      Cons(Enter(1), Cons(AtClient(1, 1), Nil));
  }

  lemma Play16() returns (es: List<Event>)
    ensures Play(STALE_15, es) == Next(STALE_16)
    ensures AtOnce(AtClient(1, 1), es) && Last(AtClient(1, 1), es) == Yield(1, 0)
  {
    es :=
      Cons(Determine(1, 0), Cons(Look(1, 0), Cons(Yield(1, 0), Nil)));
  }

  lemma Play17() returns (es: List<Event>)
    ensures Play(STALE_16, es) == Next(STALE_17)
    ensures AtOnce(Yield(1, 0), es) && Last(Yield(1, 0), es) == Enter(0)
  {
    es :=
      Cons(AtArbiter(1, 0), Cons(AtClient(0, 0), Cons(Enter(0), Nil)));
  }

  lemma StaleRun() returns (es: List<Event>)
    ensures Play(START, es) == Next(STALE_17) && AtOnce(Ask(0), es)
  {
    es := Play1();
    var more: List<Event>;
    more := Play2();
    es := PlayOn(es, STALE_1, more, STALE_2, AtArbiter(1, 0), AtClient(1, 0));
    more := Play3();
    es := PlayOn(es, STALE_2, more, STALE_3, AtClient(1, 0), Leave(1));
    more := Play4();
    es := PlayOn(es, STALE_3, more, STALE_4, Leave(1), AtArbiter(0, 0));
    more := Play5();
    es := PlayOn(es, STALE_4, more, STALE_5, AtArbiter(0, 0), AtClient(1, 0));
    more := Play6();
    es := PlayOn(es, STALE_5, more, STALE_6, AtClient(1, 0), Yield(1, 1));
    more := Play7();
    es := PlayOn(es, STALE_6, more, STALE_7, Yield(1, 1), Enter(0));
    more := Play8();
    es := PlayOn(es, STALE_7, more, STALE_8, Enter(0), AtArbiter(0, 0));
    more := Play9();
    es := PlayOn(es, STALE_8, more, STALE_9, AtArbiter(0, 0), AtArbiter(0, 1));
    more := Play10();
    es := PlayOn(es, STALE_9, more, STALE_10, AtArbiter(0, 1), AtArbiter(1, 1));
    more := Play11();
    es := PlayOn(es, STALE_10, more, STALE_11, AtArbiter(1, 1), Enter(1));
    more := Play12();
    es := PlayOn(es, STALE_11, more, STALE_12, Enter(1), AtArbiter(1, 0));
    more := Play13();
    es := PlayOn(es, STALE_12, more, STALE_13, AtArbiter(1, 0), AtClient(1, 0));
    more := Play14();
    es := PlayOn(es, STALE_13, more, STALE_14, AtClient(1, 0), AtClient(1, 1));
    more := Play15();
    es := PlayOn(es, STALE_14, more, STALE_15, AtClient(1, 1), AtClient(1, 1));
    more := Play16();
    es := PlayOn(es, STALE_15, more, STALE_16, AtClient(1, 1), Yield(1, 0));
    more := Play17();
    es := PlayOn(es, STALE_16, more, STALE_17, Yield(1, 0), Enter(0));
  }

  lemma QuorumsMeet()
    ensures GoodConfig(Q) && PairwiseIntersecting(Q)
  {
    assert 0 in Q.quorums[0] * Q.quorums[1];
  }

  /** Answering every INQUIRE at once does not save mutual exclusion: the INQUIRE may be stale. */
  lemma StaleInquireBreaksMutualExclusion() returns (es: List<Event>)
    ensures GoodConfig(Q) && PairwiseIntersecting(Q) && AtOnce(Ask(0), es)
    ensures Run(Q, Init(Q), Seq(es)) && InOrder(Q, Seq(es))
    ensures After(Q, Init(Q), Seq(es)).phase == [Inside, Inside]
  {
    QuorumsMeet();
    StartIsInit();
    es := StaleRun();
    PlayIsRun(START, es);
  }
}
