/** Refused work leaves no trace, with one exception: where it fails, and exactly when. */
module LoopRefusal {
  import opened Types
  import opened LoopModel
  import opened LoopSteps
  import opened LoopRuns
  import opened LoopTheorems

  /** In every reachable state, entering an operation and retiring it at once restores everything but
      the spent key, if and only if it is not a multishot accept made while the pool of promised slots
      is short; that one leaves an extra slot promised. */
  lemma RefusalLeavesNoTrace(cfg: Config, trace: seq<Step>, k: Key, o: Op)
    requires
      var m := Reached(cfg, trace);
      k !in m.issuedOps && (o.handle.Some? ==> o.handle.value in m.handles) && !IsTimer(m.handles, o)
    ensures
      var m := Reached(cfg, trace);
      var m' := Unlist(PutOp(m, k, o), k);
      && (m' == m.(issuedOps := m.issuedOps + {k}) <==> !(o.multishot && m.promised < ArmedCount(m.ops)))
      && m' == m.(issuedOps := m.issuedOps + {k}, promised := m.promised + One(o.multishot && m.promised < ArmedCount(m.ops)))
  {
    hide Inv, Reached, Unlist, PutOp, ArmedCount;
    ReachedInv(cfg, trace);
    RefusalTrace(Reached(cfg, trace), k, o);
  }

  // ------------------------------------------------------- a run where it fails

  const TINY := Config(2, 4, 4, 4, 100)
  const LISTENER: Key := 0x1_0000_0000
  const STREAM: Key := 0x1_0000_0001

  function AcceptStart(token: Token): Op { Op(Some(LISTENER), token, false, false, false, false, false, true, true, false) }

  function Listening(ops: seq<Key>): Handle { Handle(Socket, false, true, None, false, ops) }

  /** A listener with one armed multishot accept takes the last slot for a connection, which is
      then closed: the pool stays short although a slot is free again. */
  const RUN := [AddS(LISTENER, Socket), SubmitS(1, AcceptStart(7)), HouseS(1, STREAM, true), CloseS(STREAM, 9), DeliverS]

  const M1 := Model(TINY, map[LISTENER := Listening([])], 1, map[], [], 0, map[], map[], 0, {}, [], {LISTENER}, {}, {}, map[], map[])
  const M2 := M1.(handles := map[LISTENER := Listening([1])], ops := map[1 := AcceptStart(7)], promised := 1, issuedOps := {1})
  const M3 := M2.(handles := map[LISTENER := Listening([1]), STREAM := NewHandle(Socket)],
                  free := 0, promised := 0, issuedHandles := {LISTENER, STREAM})
  const M4 := M3.(handles := map[LISTENER := Listening([1]), STREAM := NewHandle(Socket).(closing := Some(9), closedQueued := true)],
                  stream := [ClosedEntry(STREAM, 9)], closedAt := map[STREAM := 0])
  const M5 := M4.(handles := map[LISTENER := Listening([1])], free := 1, out := 1)

  lemma Step1()
    ensures Apply(Init(TINY), RUN[0]) == M1
  {
    hide HeldCount, PutHandle;
    NothingCounted();
    assert Room(Init(TINY));
    assert Apply(Init(TINY), RUN[0]) == PutHandle(Init(TINY), LISTENER, NewHandle(Socket));
    Added1();
  }

  lemma Added1()
    ensures PutHandle(Init(TINY), LISTENER, NewHandle(Socket)) == M1
  {}

  lemma Step2()
    ensures Apply(M1, RUN[1]) == M2
  {
    hide HeldCount, PutOp;
    NothingCounted();
    assert CanSubmit(M1, AcceptStart(7));
    assert Apply(M1, RUN[1]) == PutOp(M1, 1, AcceptStart(7));
    Added2();
  }

  lemma Added2()
    ensures PutOp(M1, 1, AcceptStart(7)) == M2
  {
    assert M1.handles[LISTENER].ops + [1] == [1];
    assert WithOp(M1.handles, Some(LISTENER), 1) == M2.handles;
  }

  lemma Step3()
    ensures Apply(M2, RUN[2]) == M3
  {
    var ops: map<Key, Op> := map[1 := AcceptStart(7)];
    assert Held(ops) == {} && Armed(ops) == {1};
    assert HeldCount(ops) == 0 && ArmedCount(ops) == 1;
    var m1 := Release(M2, 1);
    assert m1 == M2.(promised := 0);
    var m2 := Place(m1, STREAM, true);
    assert m2 == PutHandle(m1, STREAM, NewHandle(Socket));
    assert m2.free == 0;
    assert Refill(m2) == m2;
    assert Apply(M2, RUN[2]) == House(M2, 1, STREAM, true) == m2;
  }

  lemma Step4()
    ensures Apply(M3, RUN[3]) == M4
  {
    assert Apply(M3, RUN[3]) == BeginClose(M3, STREAM, 9);
  }

  lemma Step5()
    ensures Apply(M4, RUN[4]) == M5
  {
    assert !Exhausted(STREAM);
    assert Apply(M4, RUN[4]) == Deliver(M4);
  }

  lemma RunReaches()
    ensures Reached(TINY, RUN) == M5
  {
    hide Apply;
    Step1();
    Step2();
    Step3();
    Step4();
    Step5();
    AfterOne(Init(TINY), RUN[0]);
    assert RUN == [RUN[0]] + [RUN[1], RUN[2]] + [RUN[3], RUN[4]];
    AfterTwo(M1, RUN[1], RUN[2]);
    AfterTwo(M3, RUN[3], RUN[4]);
    AfterConcat(Init(TINY), [RUN[0]], [RUN[1], RUN[2]]);
    AfterConcat(Init(TINY), [RUN[0]] + [RUN[1], RUN[2]], [RUN[3], RUN[4]]);
  }

  /** Here a refused `accept_start` leaves one slot promised that was not promised before. */
  lemma RefusalLeavesSlot()
    ensures
      var m := Reached(TINY, RUN);
      CanSubmit(m, AcceptStart(8)) && Unlist(PutOp(m, 2, AcceptStart(8)), 2).promised == m.promised + 1
  {
    RunReaches();
    var ops: map<Key, Op> := map[1 := AcceptStart(7)];
    assert Held(ops) == {} && Armed(ops) == {1};
    assert ArmedCount(ops) == 1 && HeldCount(ops) == 0;
    assert M5.ops[2 := AcceptStart(8)] - {2} == ops;
    hide Reached;
  }
}
