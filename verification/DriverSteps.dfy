/** Each update the driver makes is one step of the loop model. */
module DriverSteps {
  import opened Types
  import opened LoopModel
  import opened LoopSteps
  import opened LoopRuns
  import opened LoopTheorems
  import opened LoopEvents
  import opened LoopTimers
  import opened DriverLinks
  import opened DriverCounts
  import opened DriverState

  lemma ListsOf(m: Model)
    requires Inv(m)
    ensures Lists(m.handles, m.ops)
  {
    hide Sourced, Deadlines, OpHistory, HandleHistory, Bounded, Housing, Credit, Lists;
  }

  lemma DoAdd(f: State, m: Model, h: Key, kind: ResourceKind)
    requires Steady(f, m) && Inv(m) && Room(m) && h !in m.issuedHandles
    requires kind.TimerKind? ==> kind.op.None? && kind.repeat != Some(0)
    ensures Apply(m, AddS(h, KindOf(kind))) == PutHandle(m, h, NewHandle(KindOf(kind)))
    ensures Steady(Added(f, h, NewResource(kind)), PutHandle(m, h, NewHandle(KindOf(kind))))
  {
    hide Inv, Room, Represents, Size, Count, Lists;
    Basics(m);
    ListsOf(m);
    RepAdd(f, m, h, NewResource(kind), NewHandle(KindOf(kind)));
  }

  lemma DoRemove(f: State, m: Model, h: Key)
    requires Steady(f, m) && Inv(m) && h in m.handles && m.handles[h].ops == [] && m.handles[h].closing.None?
    requires Unmentioned(m.stream, m.out, h)
    ensures Apply(m, RemoveS(h)) == DropHandle(m, h)
    ensures Droppable(f, h) && Steady(Removed(f, h), DropHandle(m, h))
  {
    hide Inv, Represents, Size, Count, Lists, Exhausted, Unmentioned, Droppable;
    ListsOf(m);
    RepDroppable(f, m, h);
    RepRemove(f, m, h);
  }

  // ------------------------------------------------------------------ basics

  lemma RoomAt(f: State, m: Model)
    requires Steady(f, m)
    ensures (Room(m) <==> f.counters.reserved < f.free) && f.counters.reserved >= 0
  {}

  function Fresh(cfg: Config): State {
    State(map[], cfg.maxHandles, map[], map[], map[], [], Counters(0, 0, 0, 0, 0, 0, 0, [0, 0, 0]), [], {})
  }

  lemma SteadyInit(cfg: Config)
    ensures Steady(Fresh(cfg), Init(cfg)) && Reached(cfg, []) == Init(cfg)
  {
    hide HeldCount, ArmedCount, PortCount, NativeCount, RefOpCount, RefHandleCount;
    NothingCounted();
  }
  // ------------------------------------------------------------------ finish

  /** A live operation's record, and the neighbours its links name. */
  lemma LinksAt(f: State, s: Model, k: Key)
    requires Represents(f, s) && Lists(s.handles, s.ops) && k in s.ops
    ensures k in f.ops && f.ops[k].op == s.ops[k] && (s.ops[k].handle.Some? ==> s.ops[k].handle.value in f.handles)
    ensures f.ops[k].previous.Some? ==> f.ops[k].previous.value in f.ops && f.ops[k].previous.value != k
    ensures f.ops[k].next.Some? ==> f.ops[k].next.value in f.ops && f.ops[k].next.value != k
  {
    hide Lists, Rows, Chains, SameQueue, Counted;
    SpliceChains(f.ops, s.handles, s.ops, k);
    ListedAt(s.handles, s.ops, k);
    if s.ops[k].handle.Some? { RowAt(f, s, s.ops[k].handle.value); }
  }

  /** The deadlines left once the timer of `k`, if it is one, has been taken out. */
  function TimersBut(m: Model, k: Key): map<Key, Instant>
    requires k in m.ops
  {
    if IsTimer(m.handles, m.ops[k]) then m.timers - {m.ops[k].handle.value} else m.timers
  }

  /** `m` with the timer of `k` taken out and with ring `ring`. */
  function Poised(m: Model, k: Key, ring: seq<Work>): Model
    requires k in m.ops
  {
    m.(timers := TimersBut(m, k), ring := ring)
  }

  lemma FinishPoised(m: Model, k: Key, ring: seq<Work>, result: OpResult)
    requires k in m.ops
    ensures Finish(Poised(m, k, ring), k, result) == Finish(m, k, result).(ring := ring)
  {
    hide Unlist, Settle, EndEntry, Poised;
    UnlistPoised(m, k, ring);
    EndPoised(m, k, ring, result);
    var h, m1 := m.ops[k].handle, End(m, k, result);
    if h.Some? && h.value in m1.handles { SettleRing(m1, h.value, result, ring); }
  }

  lemma UnlistPoised(m: Model, k: Key, ring: seq<Work>)
    requires k in m.ops
    ensures Poised(m, k, ring).ops == m.ops && Unlist(Poised(m, k, ring), k) == Unlist(m, k).(ring := ring)
  {
    hide ArmedCount, WithoutOp;
    if IsTimer(m.handles, m.ops[k]) {
      var h := m.ops[k].handle.value;
      assert m.timers - {h} - {h} == m.timers - {h};
    }
  }

  lemma EndPoised(m: Model, k: Key, ring: seq<Work>, result: OpResult)
    requires k in m.ops && Poised(m, k, ring).ops == m.ops
    ensures EndEntry(Poised(m, k, ring), k, result) == EndEntry(m, k, result) && Poised(m, k, ring).ended == m.ended
    ensures Poised(m, k, ring).stream == m.stream
  {}

  lemma SettleRing(m: Model, h: Key, result: OpResult, ring: seq<Work>)
    requires h in m.handles
    ensures Settle(m.(ring := ring), h, result) == Settle(m, h, result).(ring := ring)
  {
    hide MaybeClosed, DropHandle;
    if !m.handles[h].hidden { MaybeClosedRing(m, h, ring); }
    else if !result.Opened? { DropRing(m, h, ring); }
  }

  lemma MaybeClosedRing(m: Model, h: Key, ring: seq<Work>)
    ensures MaybeClosed(m.(ring := ring), h) == MaybeClosed(m, h).(ring := ring)
  {
    hide ClosedEntry;
    var m' := m.(ring := ring);
    if h in m.handles && m.handles[h].ops == [] && !m.handles[h].closedQueued && m.handles[h].closing.Some? {
      var e, r := ClosedEntry(h, m.handles[h].closing.value), m.handles[h].(closedQueued := true);
      assert MaybeClosed(m, h) == m.(stream := m.stream + [e], handles := m.handles[h := r], closedAt := m.closedAt[h := |m.stream|]);
      assert MaybeClosed(m', h) == m'.(stream := m.stream + [e], handles := m.handles[h := r], closedAt := m.closedAt[h := |m.stream|]);
    }
  }

  lemma DropRing(m: Model, h: Key, ring: seq<Work>)
    ensures DropHandle(m.(ring := ring), h) == DropHandle(m, h).(ring := ring)
  {
    hide Exhausted;
  }

  lemma FinishKeeps(f: State, k: Key, result: OpResult)
    requires k in f.ops && (f.ops[k].op.handle.Some? ==> f.ops[k].op.handle.value in f.handles)
    ensures Finished(f, k, result).counters.outstanding == f.counters.outstanding
  {
    hide Spliced, Exhausted, Idled;
  }

  lemma FinishCounts(s: Model, k: Key, result: OpResult)
    requires k in s.ops && s.out <= |s.stream| && OpOutcome(result)
    ensures
      var s' := Finish(s, k, result);
      Size(s'.ops) + Count(Terminal, s'.stream, s'.out) == Size(s.ops) + Count(Terminal, s.stream, s.out)
  {
    hide Count, Size, Settle, WithoutOp, ArmedCount, EndEntry;
    MapDrop(s.ops, k);
    var s1, h := End(s, k, result), s.ops[k].handle;
    EndIsTerminal(s, k, result);
    CountPush(Terminal, s.stream, s.out, EndEntry(s, k, result));
    if h.Some? && h.value in s1.handles { SettleCounts(s1, h.value, result); }
  }

  lemma EndIsTerminal(s: Model, k: Key, result: OpResult)
    requires k in s.ops
    ensures Picks(Terminal, EndEntry(s, k, result))
  {}

  lemma SettleCounts(s: Model, h: Key, result: OpResult)
    requires h in s.handles && s.out <= |s.stream|
    ensures
      var s' := Settle(s, h, result);
      s'.ops == s.ops && s'.out == s.out && Count(Terminal, s'.stream, s'.out) == Count(Terminal, s.stream, s.out)
  {
    hide Count, Exhausted;
    if s.handles[h].closing.Some? { CountPush(Terminal, s.stream, s.out, ClosedEntry(h, s.handles[h].closing.value)); }
  }

  lemma FinishActive(f: State, s: Model, k: Key, result: OpResult)
    requires Active(f.handles) && k in f.ops && k in s.ops && f.ops[k].op == s.ops[k]
    requires s.ops[k].handle.Some? ==> s.ops[k].handle.value in f.handles && s.ops[k].handle.value in s.handles
    requires
      IsTimer(s.handles, s.ops[k]) ==>
        && SameResource(f.handles[s.ops[k].handle.value], s.handles[s.ops[k].handle.value])
        && s.handles[s.ops[k].handle.value].ops == [k] && f.ops[k].next.None?
    requires s.ops[k].handle.Some? ==> SameResource(f.handles[s.ops[k].handle.value], s.handles[s.ops[k].handle.value])
    ensures Active(Finished(f, k, result).handles)
  {
    hide Spliced, Exhausted, Credited, Charged;
  }

  lemma DoFinish(f: State, m: Model, k: Key, ring: seq<Work>, result: OpResult)
    requires Inv(m) && k in m.ops && OpOutcome(result) && Steady(f, Poised(m, k, ring))
    ensures k in f.ops && (f.ops[k].op.handle.Some? ==> f.ops[k].op.handle.value in f.handles)
    ensures Steady(Finished(f, k, result), Finish(m, k, result).(ring := ring))
  {
    hide Inv, Represents, Finished, Finish, Active, Lists, Size, Count, Without, WithoutOp;
    var s := Poised(m, k, ring);
    ListsOf(m);
    Basics(m);
    ListedOp(m, k);
    LinksAt(f, s, k);
    FinishPoised(m, k, ring, result);
    FinishKeeps(f, k, result);
    FinishCounts(s, k, result);
    RepFinish(f, s, k, result);
    if m.ops[k].handle.Some? { RowAt(f, s, m.ops[k].handle.value); }
    if IsTimer(m.handles, m.ops[k]) { LastLink(f, s, k, m.ops[k].handle.value); }
    FinishActive(f, s, k, result);
  }

  lemma LastLink(f: State, s: Model, k: Key, h: Key)
    requires Represents(f, s) && h in s.handles && s.handles[h].ops == [k]
    ensures k in f.ops && f.ops[k].next.None?
  {
    assert LinkedList(f.ops, s.handles[h].ops);
    assert LinkedAt(f.ops, s.handles[h].ops, 0);
  }

  /** Neither completion of a finish overflows the queue. */
  lemma FinishFits(f: State, m: Model, k: Key, ring: seq<Work>, result: OpResult)
    requires Inv(m) && k in m.ops && OpOutcome(result)
    requires k in f.ops && (f.ops[k].op.handle.Some? ==> f.ops[k].op.handle.value in f.handles)
    requires Steady(Finished(f, k, result), Finish(m, k, result).(ring := ring))
    ensures |Finished(f, k, result).queued| <= CompletionCapacity(m.cfg)
  {
    hide Inv, InvCore, Finish, Finished, Linked, Counted, Active;
    FinishCore(m, k, result);
    FinishExtends(m, k, result);
    QueueFits(Finish(m, k, result));
  }

  lemma QueueShape(f: State, m: Model)
    requires Steady(f, m)
    ensures |f.counters.buffered| == 3 && |f.queued| == |m.stream| - m.out
  {
    hide Linked, Counted, Active;
  }

  lemma RetiredQueue(f: State, k: Key)
    requires k in f.ops && (f.ops[k].op.handle.Some? ==> f.ops[k].op.handle.value in f.handles)
    ensures
      var f' := Retired(f, k);
      f'.queued == f.queued && f'.counters.buffered == f.counters.buffered
  {
    hide Spliced;
  }

  /** All that `finish_fs` relies on. */
  lemma FinishFacts(f: State, cfg: Config, trace: seq<Step>, m: Model, k: Key, ring: seq<Work>, result: OpResult)
    requires m == Reached(cfg, trace) && k in m.ops && OpOutcome(result) && Steady(f, Poised(m, k, ring))
    ensures |f.counters.buffered| == 3
    ensures Retirable(f, k)
    ensures Steady(Finished(f, k, result), LoopModel.Finish(m, k, result).(ring := ring))
    ensures
      var h := f.ops[k].op.handle;
      if h.None? || !f.handles[h.value].hidden then
        var f1 := Completed(f, k, PlainEntry(f, k, result));
        f1 == Finished(f, k, result) && |f1.queued| <= CompletionCapacity(cfg)
      else if result.Opened? then
        var f0 := Revealed(f, h.value);
        var f1 := Completed(f0, k, PlainEntry(f0, k, result));
        f1 == Finished(f, k, result) && |f1.queued| <= CompletionCapacity(cfg)
      else
        var f1 := Completed(f, k, PlainEntry(f, k, result));
        && Droppable(f1, h.value) && f1.queued != [] && Withdrawn(f1, h.value) == Finished(f, k, result)
        && |f1.queued| <= CompletionCapacity(cfg)
  {
    hide Inv, Represents, Finished, Finish, Active, Size, Count;
    hide Reached, Completed, PlainEntry, Lists, Without, Backs, Droppable;
    ReachedInv(cfg, trace);
    ListsOf(m);
    var s := Poised(m, k, ring);
    QueueShape(f, s);
    LinksAt(f, s, k);
    DoFinish(f, m, k, ring, result);
    FinishFits(f, m, k, ring, result);
    ListedOp(m, k);
    var h := m.ops[k].handle;
    if h.Some? { RowAt(f, s, h.value); }
    if h.None? || !f.handles[h.value].hidden { FinishPlain(f, k, result); }
    else if result.Opened? { FinishReveal(f, k, h.value); }
    else {
      FinishWithdraw(f, k, h.value, result);
      WithdrawDrops(f, m, k, ring, result);
    }
    FinishBacks(f, m, k, ring);
  }

  lemma FinishBacks(f: State, m: Model, k: Key, ring: seq<Work>)
    requires Inv(m) && k in m.ops && Steady(f, Poised(m, k, ring)) && k in f.ops && f.ops[k].op == m.ops[k]
    requires m.ops[k].handle.Some? ==> m.ops[k].handle.value in f.handles && m.ops[k].handle.value in m.handles
    ensures Backs(f.counters, m.ops[k], m.ops[k].handle.Some? ==> f.handles[m.ops[k].handle.value].referenced)
    ensures m.ops[k].handle.Some? ==> f.handles[m.ops[k].handle.value].pending >= 1
  {
    hide Inv, Represents, Active, Size, Count, Backs;
    var s := Poised(m, k, ring);
    SourceAt(m, k);
    RepBacks(f, s, k);
    if m.ops[k].handle.Some? { RowAt(f, s, m.ops[k].handle.value); }
  }

  /** The handle of a failed open is still referenced when it is discarded. */
  lemma WithdrawDrops(f: State, m: Model, k: Key, ring: seq<Work>, result: OpResult)
    requires Inv(m) && k in m.ops && OpOutcome(result) && Steady(f, Poised(m, k, ring)) && k in f.ops && f.ops[k].op == m.ops[k]
    requires m.ops[k].handle.Some? && m.ops[k].handle.value in f.handles && f.handles[m.ops[k].handle.value].closing.None?
    ensures Droppable(Completed(f, k, PlainEntry(f, k, result)), m.ops[k].handle.value)
  {
    hide Inv, Represents, Active, Size, Count, Completed, Droppable;
    var h, s := m.ops[k].handle.value, Poised(m, k, ring);
    SourceAt(m, k);
    RepDroppable(f, s, h);
    CompletedDrops(f, k, result, h);
  }

  lemma CompletedDrops(f: State, k: Key, result: OpResult, h: Key)
    requires k in f.ops && f.ops[k].op.handle == Some(h) && Droppable(f, h) && f.handles[h].closing.None?
    ensures Droppable(Completed(f, k, PlainEntry(f, k, result)), h)
  {
    hide Spliced, Bumped;
  }

  // -------------------------------------------------------------- submission

  lemma OutstandingAt(f: State, m: Model)
    requires Steady(f, m) && Inv(m)
    ensures f.counters.outstanding == Outstanding(m) <= m.cfg.maxOperations
  {
    hide Shape, OpHistory, HandleHistory, Housing, Credit, Count, Size, Settled, Sized, Represents, Active;
  }

  lemma TailAt(f: State, s: Model, h: Key)
    requires Represents(f, s) && h in s.handles
    ensures h in f.handles && (f.handles[h].tail.Some? ==> f.handles[h].tail.value in f.ops)
  {
    RowAt(f, s, h);
    var l := s.handles[h].ops;
    assert LinkedList(f.ops, l);
    if l != [] { assert LinkedAt(f.ops, l, |l| - 1); }
  }

  /** An operation that `new_op` appends. */
  lemma AdmitFacts(f: State, m: Model, k: Key, o: Op)
    requires Steady(f, m) && Inv(m) && k !in m.issuedOps && !(o.held && o.multishot)
    requires o.handle.Some? ==> o.handle.value in m.handles
    ensures
      o.handle.Some? ==>
        o.handle.value in f.handles && (f.handles[o.handle.value].tail.Some? ==> f.handles[o.handle.value].tail.value in f.ops)
    ensures f.counters.outstanding == Outstanding(m) <= m.cfg.maxOperations
    ensures Represents(Admitted(f, k, o), PutOp(m, k, o))
    ensures Admitted(f, k, o).counters.outstanding == Size(PutOp(m, k, o).ops) + Count(Terminal, m.stream, m.out)
    ensures !IsTimer(m.handles, o) ==> Active(Admitted(f, k, o).handles)
  {
    hide Inv, Represents, Lists, Size, Count, Appended, WithOp;
    ListsOf(m);
    Basics(m);
    OutstandingAt(f, m);
    MapPut(m.ops, k, o);
    RepAdmit(f, m, k, o);
    if o.handle.Some? {
      RowAt(f, m, o.handle.value);
      TailAt(f, m, o.handle.value);
    }
  }

  lemma DoSubmit(f: State, m: Model, k: Key, o: Op)
    requires Steady(f, m) && Inv(m) && k !in m.issuedOps && CanSubmit(m, o)
    ensures Apply(m, SubmitS(k, o)) == PutOp(m, k, o)
    ensures (o.handle.Some? ==> o.handle.value in f.handles) && Steady(Admitted(f, k, o), PutOp(m, k, o))
  {
    hide Inv, Represents, Size, Count, Admitted, Active, Room, PortCount;
    AdmitFacts(f, m, k, o);
    PutOpStream(m, k, o);
  }

  lemma PutOpStream(m: Model, k: Key, o: Op)
    ensures PutOp(m, k, o).stream == m.stream && PutOp(m, k, o).out == m.out
  {}

  /** `retire` of a submission the backend refused */
  function Undone(f: State, k: Key): State
    requires k in f.ops && (f.ops[k].op.handle.Some? ==> f.ops[k].op.handle.value in f.handles)
  {
    var g := Retired(f, k);
    g.(counters := g.counters.(outstanding := Less(g.counters.outstanding, 1)))
  }

  /** A refused multishot accept leaves a slot in the pool if the pool was short. */
  predicate Keeps(m: Model, o: Op) { o.multishot && m.promised < ArmedCount(m.ops) }

  lemma RejectApplies(m: Model, k: Key, o: Op)
    requires k !in m.issuedOps && (o.multishot ==> Room(m))
    ensures Apply(m, RejectS(k, Keeps(m, o))) == Reject(m, k, Keeps(m, o))
  {
    hide Room, ArmedCount;
  }

  ghost predicate Spliceable(g: State, k: Key, o: Op) {
    Retirable(g, k) && g.ops[k].op == o && g.counters.outstanding >= 1
  }

  lemma DoReject(f: State, m: Model, k: Key, o: Op)
    requires Steady(f, m) && Inv(m) && k !in m.issuedOps && !(o.held && o.multishot) && !IsTimer(m.handles, o)
    requires o.handle.Some? ==> o.handle.value in m.handles
    ensures o.handle.Some? ==> o.handle.value in f.handles
    ensures var g := Admitted(f, k, o); Spliceable(g, k, o) && Steady(Undone(g, k), Reject(m, k, Keeps(m, o)))
  {
    hide Inv, Represents, Lists, Size, Count, Admitted, Active, ArmedCount;
    hide Retired, IsTimer, WithOp, WithoutOp, Unlist, Undone, Backs;
    AdmitFacts(f, m, k, o);
    AdmittedBacks(f, k, o);
    ListsOf(m);
    Basics(m);
    var g, s := Admitted(f, k, o), PutOp(m, k, o);
    ListsPutOp(m.handles, m.ops, k, o);
    LinksAt(g, s, k);
    StillNoTimer(m, k, o);
    if o.handle.Some? { NoTimerRow(g, s, o); }
    RejectRep(g, m, k, o);
    RejectCounts(g, m, k, o);
  }

  /** What was just charged can be taken back. */
  lemma AdmittedBacks(f: State, k: Key, o: Op)
    requires (o.handle.Some? ==> o.handle.value in f.handles) && !(o.held && o.multishot)
    ensures
      var g := Admitted(f, k, o);
      && (o.handle.Some? ==> o.handle.value in g.handles)
      && (o.handle.Some? ==> g.handles[o.handle.value].pending >= 1)
      && Backs(g.counters, o, o.handle.Some? ==> g.handles[o.handle.value].referenced) && g.counters.outstanding >= 1
  {
    hide Appended;
  }

  lemma NoTimerRow(g: State, s: Model, o: Op)
    requires Represents(g, s) && o.handle.Some? && o.handle.value in s.handles && !IsTimer(s.handles, o)
    ensures o.handle.value in g.handles && !g.handles[o.handle.value].kind.TimerKind?
  {
    hide Represents;
    RowAt(g, s, o.handle.value);
  }

  lemma RejectRep(g: State, m: Model, k: Key, o: Op)
    requires Inv(m) && k !in m.issuedOps && (o.handle.Some? ==> o.handle.value in m.handles) && !IsTimer(m.handles, o)
    requires Represents(g, PutOp(m, k, o)) && Lists(PutOp(m, k, o).handles, PutOp(m, k, o).ops)
    requires !IsTimer(PutOp(m, k, o).handles, o)
    requires Spliceable(g, k, o)
    ensures Represents(Undone(g, k), Reject(m, k, Keeps(m, o)))
  {
    hide Inv, Represents, Lists, ArmedCount, Retired, IsTimer, WithOp, WithoutOp, Unlist, Reject;
    var s := PutOp(m, k, o);
    RepRetire(g, s, k);
    RefusalTrace(m, k, o);
    RefusedOnly(m, k, Keeps(m, o));
    RepSame(Retired(g, k), Unlist(s, k), Reject(m, k, Keeps(m, o)));
    RepOutstanding(Retired(g, k), Undone(g, k), Reject(m, k, Keeps(m, o)));
  }

  lemma RefusedOnly(m: Model, k: Key, kept: bool)
    ensures Reject(m, k, kept) == Reject(m, k, kept).(refused := m.refused).(refused := Reject(m, k, kept).refused)
  {}

  lemma RepOutstanding(f: State, f': State, s: Model)
    requires Represents(f, s) && f' == f.(counters := f.counters.(outstanding := f'.counters.outstanding))
    ensures Represents(f', s)
  {
    hide Linked, SameQueue;
  }

  lemma StillNoTimer(m: Model, k: Key, o: Op)
    requires !IsTimer(m.handles, o)
    ensures !IsTimer(WithOp(m.handles, o.handle, k), o) && WithOp(m.handles, o.handle, k).Keys == m.handles.Keys
  {}

  lemma RejectCounts(g: State, m: Model, k: Key, o: Op)
    requires k !in m.ops && Active(g.handles) && k in g.ops && g.ops[k].op == o
    requires o.handle.Some? ==> o.handle.value in g.handles && !g.handles[o.handle.value].kind.TimerKind?
    requires g.counters.outstanding == Size(PutOp(m, k, o).ops) + Count(Terminal, m.stream, m.out)
    ensures Active(Undone(g, k).handles) && Undone(g, k).counters.outstanding == Size(m.ops) + Count(Terminal, m.stream, m.out)
  {
    hide Size, Count, Spliced;
    MapPut(m.ops, k, o);
  }

  // ----------------------------------------------------------------- lookups

  /** What the host may name: a handle of this loop that is not still being opened. */
  predicate Visible(m: Model, h: Key) { h in m.handles && !m.handles[h].hidden }

  lemma VisibleAt(f: State, m: Model, h: Key)
    requires Steady(f, m)
    ensures (h in f.handles && !f.handles[h].hidden) <==> Visible(m, h)
    ensures h in m.handles ==> h in f.handles && SameResource(f.handles[h], m.handles[h])
  {
    hide Represents, Active, Size, Count;
    if h in m.handles { RowAt(f, m, h); } else { NoRow(f, m, h); }
  }

  lemma NoRow(f: State, m: Model, h: Key)
    requires Represents(f, m) && h !in m.handles
    ensures h !in f.handles
  {
    RecordAt(f.handles, f.ops, m.handles, m.ops, h);
  }

  lemma SteadyTail(f: State, m: Model, h: Key)
    requires Steady(f, m) && h in m.handles
    ensures h in f.handles && (f.handles[h].tail.Some? ==> f.handles[h].tail.value in f.ops)
  {
    hide Represents;
    TailAt(f, m, h);
  }

  // ------------------------------------------------------- timers, deadlines

  /** `timer`, once its handle exists */
  function ArmedAt(f: State, h: Key, k: Key, token: Token, at: Instant): State
    requires h in f.handles
  {
    var g := Admitted(f, k, TimerOp(h, token));
    g.(handles := g.handles[h := WithActive(g.handles[h], k)], timers := g.timers[h := at])
  }

  function WithActive(r: Resource, k: Key): Resource {
    if r.kind.TimerKind? then r.(kind := TimerKind(Some(k), r.kind.repeat)) else r
  }

  lemma DoArm(f: State, m: Model, h: Key, k: Key, token: Token, at: Instant)
    requires Steady(f, m) && Inv(m) && k !in m.issuedOps && Outstanding(m) < m.cfg.maxOperations
    requires h in m.handles && m.handles[h].kind.Timer? && m.handles[h].ops == [] && m.handles[h].closing.None?
    ensures Apply(m, ArmS(h, k, token, at)) == ArmTimer(m, h, k, token, at)
    ensures h in f.handles && Steady(ArmedAt(f, h, k, token, at), ArmTimer(m, h, k, token, at))
  {
    hide Inv, Represents, Size, Count, Appended, Outstanding, Admitted, PutOp, Active;
    var o := TimerOp(h, token);
    AdmitFacts(f, m, k, o);
    var g, s := Admitted(f, k, o), PutOp(m, k, o);
    PutOpAt(m, k, o, h);
    RowAt(g, s, h);
    RepFlag(g, s, h, WithActive(g.handles[h], k), s.handles[h]);
    assert s.handles[h := s.handles[h]] == s.handles;
    assert Flagged(g, h, WithActive(g.handles[h], k)) == g.(handles := g.handles[h := WithActive(g.handles[h], k)]);
    RepTimers(g.(handles := g.handles[h := WithActive(g.handles[h], k)]), s, m.timers[h := at]);
    RowAt(f, m, h);
    ArmActive(f, h, k, token, at);
  }

  lemma PutOpAt(m: Model, k: Key, o: Op, h: Key)
    requires h in m.handles && o.handle == Some(h)
    ensures
      var s := PutOp(m, k, o);
      h in s.handles && s.handles[h] == m.handles[h].(ops := m.handles[h].ops + [k]) && s.timers == m.timers
    ensures var s := PutOp(m, k, o); s.stream == m.stream && s.out == m.out
  {}

  lemma RepTimers(f: State, s: Model, timers: map<Key, Instant>)
    requires Represents(f, s)
    ensures f.timers == s.timers && Represents(f.(timers := timers), s.(timers := timers))
  {
    hide Linked, SameQueue, Counted;
  }

  lemma RepConnects(f: State, s: Model, connects: map<Key, Instant>)
    requires Represents(f, s)
    ensures f.connects == s.connects && Represents(f.(connects := connects), s.(connects := connects))
  {
    hide Linked, SameQueue, Counted;
  }

  lemma ArmActive(f: State, h: Key, k: Key, token: Token, at: Instant)
    requires Active(f.handles) && h in f.handles && (f.handles[h].kind.TimerKind? ==> f.handles[h].head.None?)
    ensures Active(ArmedAt(f, h, k, token, at).handles)
  {
    hide Appended, Charged;
  }

  lemma DoReset(f: State, m: Model, h: Key, at: Instant)
    requires Steady(f, m) && h in m.timers
    ensures Apply(m, ResetS(h, at)) == m.(timers := m.timers[h := at])
    ensures Steady(f.(timers := f.timers[h := at]), m.(timers := m.timers[h := at]))
  {
    hide Represents, Active, Size, Count;
    RepTimers(f, m, m.timers[h := at]);
  }

  /** The driver's test for a live timer is the model's. */
  lemma TimerIff(f: State, m: Model, h: Key)
    requires Steady(f, m) && Inv(m) && h in m.handles
    ensures h in f.handles && (f.handles[h].kind.TimerKind? && f.handles[h].kind.op.Some? <==> h in m.timers)
    ensures f.timers == m.timers && f.connects == m.connects
    ensures h in m.timers ==> m.handles[h].ops == [f.handles[h].kind.op.value]
  {
    hide Represents, Size, Count, HeldCount, ArmedCount, PortCount, ClosedCount, Lists;
    hide Sourced, OpHistory, HandleHistory, Bounded, Housing, Credit, Sized;
    RowAt(f, m, h);
    RepTimers(f, m, m.timers);
    RepConnects(f, m, m.connects);
    assert WellKept(m.handles[h]);
  }

  lemma DoDeadline(f: State, m: Model, k: Key, at: Instant)
    requires Steady(f, m) && k in m.ops && m.ops[k].native && !m.ops[k].cancel && m.ops[k].handle.Some?
    ensures Apply(m, DeadlineS(k, at)) == m.(connects := m.connects[k := at])
    ensures Steady(f.(connects := f.connects[k := at]), m.(connects := m.connects[k := at]))
  {
    hide Represents, Active, Size, Count;
    RepConnects(f, m, m.connects[k := at]);
  }

  // ------------------------------------------------------------ cancellation

  /** Flag an operation and drop its connect deadline. */
  function Stopped(f: State, k: Key, o: Op): State
    requires k in f.ops
  {
    f.(ops := f.ops[k := f.ops[k].(op := o)], connects := f.connects - {k})
  }

  lemma DoPatch(f: State, m: Model, k: Key, o: Op)
    requires Steady(f, m) && k in m.ops && o == m.ops[k].(cancel := o.cancel, stop := o.stop, timedOut := o.timedOut)
    ensures k in f.ops && f.ops[k].op == m.ops[k]
    ensures Steady(Stopped(f, k, o), m.(ops := m.ops[k := o], connects := m.connects - {k}))
  {
    hide Represents, Active, Count;
    RepNode(f, m, k);
    RepPatch(f, m, k, o);
    assert Patched(f, k, o) == f.(ops := f.ops[k := f.ops[k].(op := o)]);
    RepConnects(Patched(f, k, o), m.(ops := m.ops[k := o]), m.connects - {k});
    RepConnects(f, m, m.connects);
    assert m.ops[k := o].Keys == m.ops.Keys;
    assert |m.ops[k := o].Keys| == |m.ops[k := o]| && |m.ops.Keys| == |m.ops|;
  }

  lemma RepNode(f: State, m: Model, k: Key)
    requires Represents(f, m)
    ensures k in f.ops <==> k in m.ops
    ensures k in m.ops ==> f.ops[k].op == m.ops[k]
  {
    NodeAt(f.handles, f.ops, m.handles, m.ops, k);
  }

  lemma SteadyNode(f: State, m: Model, k: Key)
    requires Steady(f, m)
    ensures k in f.ops <==> k in m.ops
    ensures k in m.ops ==> f.ops[k].op == m.ops[k]
  {
    hide Represents;
    RepNode(f, m, k);
  }

  lemma DoCancel(f: State, m: Model, k: Key, stop: bool)
    requires Steady(f, m) && k in m.ops && !m.ops[k].cancel && !IsTimer(m.handles, m.ops[k])
    ensures Apply(m, CancelS(k, stop)) == MarkCancel(m, k, stop)
    ensures k in f.ops && f.ops[k].op == m.ops[k]
    ensures Steady(Stopped(f, k, m.ops[k].(cancel := true, stop := stop)), MarkCancel(m, k, stop))
  {
    hide Steady, Stopped;
    DoPatch(f, m, k, m.ops[k].(cancel := true, stop := stop));
  }

  lemma DoExpire(f: State, m: Model, k: Key)
    requires Steady(f, m) && Inv(m) && k in m.connects
    ensures k in m.ops && Apply(m, ExpireS(k)) == Expire(m, k)
    ensures k in f.ops && f.ops[k].op == m.ops[k]
    ensures Steady(Stopped(f, k, m.ops[k].(cancel := true, timedOut := true)), Expire(m, k))
  {
    hide Steady, Stopped, Inv;
    ConnectAt(m, k);
    DoPatch(f, m, k, m.ops[k].(cancel := true, timedOut := true));
  }

  // ------------------------------------------------------- events, delivery

  lemma DoEmit(f: State, m: Model, k: Key, result: OpResult)
    requires Steady(f, m) && Inv(m) && k in m.ops && OpOutcome(result) && !Hidden(m.handles, m.ops[k]) && !m.ops[k].cancel
    requires Count(Class(if result.Fired? then TIMER_EVENTS else NATIVE_EVENTS), m.stream, m.out) < m.cfg.eventsPerTurn
    ensures m.ops[k].native ==> Apply(m, EmitS(k, result)) == Emit(m, k, result)
    ensures Steady(Enqueued(f, Entry(Completion(m.ops[k].token, Some(k), m.ops[k].handle, false, result), false)), Emit(m, k, result))
  {
    hide Inv, Represents, Size, Count, Enqueued;
    Basics(m);
    DoPush(f, m, Entry(Completion(m.ops[k].token, Some(k), m.ops[k].handle, false, result), false));
  }

  lemma DoPush(f: State, m: Model, e: Entry)
    requires Steady(f, m) && m.out <= |m.stream| && !IsTerminal(e.completion)
    ensures Steady(Enqueued(f, e), Push(m, e))
  {
    hide Represents, Count, Active;
    RepPush(f, m, e);
    CountPush(Terminal, m.stream, m.out, e);
  }

  lemma DoPost(f: State, m: Model, token: Token, payload: nat)
    requires Steady(f, m) && Inv(m) && Count(Class(POST_EVENTS), m.stream, m.out) < m.cfg.eventsPerTurn
    ensures Apply(m, PostS(token, payload)) == Post(m, token, payload)
    ensures Steady(Enqueued(f, Entry(Completion(token, None, None, true, Posted(payload)), false)), Post(m, token, payload))
  {
    hide Inv, Represents, Size, Count, Enqueued;
    Basics(m);
    DoPush(f, m, Entry(Completion(token, None, None, true, Posted(payload)), false));
  }

  lemma DoPublish(f: State, m: Model, k: Key, result: OpResult)
    requires Steady(f, m) && k in m.inflight
    ensures Apply(m, PublishS(k, result)) == Publish(m, k, result)
    ensures Steady(f.(ring := f.ring + [Work(k, result)], inflight := f.inflight - {k}), Publish(m, k, result))
  {
    hide Linked, SameQueue, Counted, Active, Size, Count;
  }

  /** `drain`, one completion: delivering `Closed` releases its handle. */
  function Delivered(f: State): State
    requires f.queued != []
  {
    var c, g := f.queued[0].completion, Dequeued(f);
    if c.result.Closed? && c.handle.Some? && c.handle.value in g.handles then Removed(g, c.handle.value) else g
  }

  lemma DoDeliver(f: State, m: Model)
    requires Steady(f, m) && Inv(m) && m.out < |m.stream|
    ensures Apply(m, DeliverS) == Deliver(m)
    ensures f.queued != [] && f.queued[0] == QueuedOf(m.stream[m.out]) && Steady(Delivered(f), Deliver(m))
    ensures
      f.queued[0].eventClass.Some? ==>
        f.queued[0].eventClass.value < |f.counters.buffered| && f.counters.buffered[f.queued[0].eventClass.value] > 0
    ensures Payable(f.counters, f.queued[0])
    ensures
      var c := m.stream[m.out].completion;
      c.result.Closed? && c.handle.Some? && c.handle.value in Dequeued(f).handles ==> Droppable(Dequeued(f), c.handle.value)
  {
    hide Inv, Represents, Size, Count, Lists, Exhausted, Removed, DropHandle, Droppable;
    ListsOf(m);
    RepPop(f, m);
    var s, c := m.(out := m.out + 1), m.stream[m.out].completion;
    if c.result.Closed? && c.handle.Some? {
      ClosedFront(m);
      RowAt(Dequeued(f), s, c.handle.value);
      RepDroppable(Dequeued(f), s, c.handle.value);
      RepRemove(Dequeued(f), s, c.handle.value);
      RemovedKeeps(Dequeued(f), c.handle.value);
      DropKeeps(s, c.handle.value);
    }
  }

  lemma RemovedKeeps(f: State, h: Key)
    requires h in f.handles && Active(f.handles)
    ensures Active(Removed(f, h).handles) && Removed(f, h).counters.outstanding == f.counters.outstanding
  {
    hide Exhausted;
  }

  lemma DropKeeps(m: Model, h: Key)
    ensures DropHandle(m, h).ops == m.ops && DropHandle(m, h).stream == m.stream && DropHandle(m, h).out == m.out
  {
    hide Exhausted;
  }

  lemma ClosedFront(m: Model)
    requires Inv(m) && m.out < |m.stream| && m.stream[m.out].completion.result.Closed?
    requires m.stream[m.out].completion.handle.Some?
    ensures
      var h := m.stream[m.out].completion.handle.value;
      h in m.handles && m.handles[h].ops == [] && m.handles[h].closing.Some?
  {
    hide Shape, OpHistory, Bounded, Housing, Credit, Sized;
    assert HandleEntry(m.handles, m.issuedHandles, m.closedAt, m.out, m.out, m.stream[m.out].completion);
    assert WellKept(m.handles[m.stream[m.out].completion.handle.value]);
  }

  /** `close`, before its operations are cancelled */
  function CloseMarked(f: State, h: Key, token: Token): State
    requires h in f.handles
  {
    Flagged(f, h, f.handles[h].(closing := Some(token)))
  }

  lemma DoClose(f: State, m: Model, h: Key, token: Token)
    requires Steady(f, m) && Inv(m) && Visible(m, h) && m.handles[h].closing.None?
    ensures Apply(m, CloseS(h, token)) == BeginClose(m, h, token)
    ensures h in f.handles && Steady(MayClose(CloseMarked(f, h, token), h), BeginClose(m, h, token))
    ensures m.handles[h].ops != [] ==> MayClose(CloseMarked(f, h, token), h) == CloseMarked(f, h, token)
  {
    hide Inv, Represents, Size, Count, Enqueued, MaybeClosed;
    Basics(m);
    RowAt(f, m, h);
    var g, s := CloseMarked(f, h, token), m.(handles := m.handles[h := m.handles[h].(closing := Some(token))]);
    RepFlag(f, m, h, f.handles[h].(closing := Some(token)), m.handles[h].(closing := Some(token)));
    RowAt(g, s, h);
    RepClosed(g, s, h);
    MayCloseKeeps(g, h);
    ClosedCounts(s, h);
  }

  lemma MayCloseKeeps(f: State, h: Key)
    requires Active(f.handles)
    ensures Active(MayClose(f, h).handles) && MayClose(f, h).counters.outstanding == f.counters.outstanding
  {}

  lemma ClosedCounts(s: Model, h: Key)
    requires h in s.handles && s.out <= |s.stream|
    ensures
      var s' := MaybeClosed(s, h);
      s'.ops == s.ops && s'.out == s.out && Count(Terminal, s'.stream, s'.out) == Count(Terminal, s.stream, s.out)
  {
    hide Count;
    if s.handles[h].closing.Some? { CountPush(Terminal, s.stream, s.out, ClosedEntry(h, s.handles[h].closing.value)); }
  }

  // -------------------------------------------------------------- connections

  /** `attach_reserved`: give the slot up, place the transport, refill the pool. */
  /** The counters have the slot the operation gives up. */
  predicate Freeable(c: Counters, o: Op) {
    if o.multishot then c.pooled != 0 ==> c.reserved >= 1 else c.reserved >= One(o.held)
  }

  function Freed(f: State, k: Key): State
    requires k in f.ops
  {
    if f.ops[k].op.multishot then
      f.(counters := f.counters.(pooled := Less(f.counters.pooled, 1), reserved := Less(f.counters.reserved, One(f.counters.pooled != 0))))
    else Patched(f, k, f.ops[k].op.(held := false))
  }

  function Placed(f: State, conn: Key, taken: bool): State {
    if f.free <= f.counters.reserved then f
    else if taken then Added(f, conn, NewResource(SocketKind))
    else Removed(Added(f, conn, NewResource(SocketKind)), conn)
  }

  function Refilled(f: State): State {
    var spare := if f.free <= f.counters.reserved then 0 else f.free - f.counters.reserved;
    var owed := if f.counters.armed <= f.counters.pooled then 0 else f.counters.armed - f.counters.pooled;
    var n := if spare < owed then spare else owed;
    f.(counters := f.counters.(pooled := f.counters.pooled + n, reserved := f.counters.reserved + n))
  }

  lemma FreeableAt(f: State, m: Model, k: Key)
    requires Steady(f, m) && k in m.ops
    ensures Freeable(f.counters, m.ops[k])
  {
    hide Linked, SameQueue, Active, Count, Weight, ArmedCount, NativeCount, PortCount;
    if m.ops[k].held { assert k in Held(m.ops); }
  }

  lemma DoRelease(f: State, m: Model, k: Key)
    requires Steady(f, m) && k in m.ops
    ensures k in f.ops && f.ops[k].op == m.ops[k] && Steady(Freed(f, k), Release(m, k)) && Freeable(f.counters, m.ops[k])
  {
    hide Linked, SameQueue, Active, Count, Weight, HeldCount, ArmedCount, NativeCount, PortCount, Freeable;
    FreeableAt(f, m, k);
    RepNode(f, m, k);
    if !m.ops[k].multishot {
      RepPatch(f, m, k, m.ops[k].(held := false));
      assert m.ops[k := m.ops[k].(held := false)].Keys == m.ops.Keys;
      assert |m.ops[k := m.ops[k].(held := false)].Keys| == |m.ops[k := m.ops[k].(held := false)]| && |m.ops.Keys| == |m.ops|;
    }
  }

  lemma DoPlace(f: State, m: Model, conn: Key, taken: bool)
    requires Steady(f, m) && Inv(m) && conn !in m.issuedHandles
    ensures (Room(m) <==> f.counters.reserved < f.free) && Steady(Placed(f, conn, taken), Place(m, conn, taken))
  {
    hide Inv, Steady, Added, Removed, PutHandle, DropHandle;
    RoomAt(f, m);
    if Room(m) {
      DoAdd(f, m, conn, SocketKind);
      AddedAt(m, conn);
      AddHandle(m, conn, NewHandle(Socket));
      FreshUnmentioned(m, conn);
      if !taken { DoRemove(Added(f, conn, NewResource(SocketKind)), PutHandle(m, conn, NewHandle(Socket)), conn); }
    }
  }

  lemma AddedAt(m: Model, h: Key)
    ensures
      var m' := PutHandle(m, h, NewHandle(Socket));
      h in m'.handles && m'.handles[h] == NewHandle(Socket) && m'.stream == m.stream && m'.out == m.out
  {}

  lemma DoRefill(f: State, m: Model)
    requires Steady(f, m)
    ensures Steady(Refilled(f), Refill(m))
  {
    hide Linked, SameQueue, Active, Count, Weight, HeldCount, ArmedCount, NativeCount, PortCount, Size;
  }

  // ------------------------------------------------- what each call relies on

  lemma TimerFacts(f: State, cfg: Config, trace: seq<Step>, m: Model, h: Key, k: Key, token: Token, at: Instant)
    requires Steady(f, m) && m == Reached(cfg, trace) && k !in m.issuedOps
    requires h in m.handles && m.handles[h].kind.Timer? && m.handles[h].ops == [] && m.handles[h].closing.None?
    ensures h in f.handles && (f.handles[h].tail.Some? ==> f.handles[h].tail.value in f.ops)
    ensures f.counters.outstanding == Outstanding(m) <= cfg.maxOperations
    ensures Outstanding(m) < cfg.maxOperations ==>
              && Apply(m, ArmS(h, k, token, at)) == ArmTimer(m, h, k, token, at)
              && Steady(ArmedAt(f, h, k, token, at), ArmTimer(m, h, k, token, at))
  {
    hide Inv, Steady, Reached, Apply, ArmedAt, ArmTimer, Outstanding;
    ReachedInv(cfg, trace);
    SteadyTail(f, m, h);
    OutstandingAt(f, m);
    if Outstanding(m) < cfg.maxOperations { DoArm(f, m, h, k, token, at); }
  }

  lemma ForgetFresh(cfg: Config, trace: seq<Step>, m: Model, h: Key)
    requires m == Reached(cfg, trace) && h !in m.issuedHandles
    ensures Unmentioned(m.stream, m.out, h) && h !in m.handles && (Room(m) ==> m.free > 0)
  {
    hide Inv, Reached, Unmentioned;
    ReachedInv(cfg, trace);
    FreshUnmentioned(m, h);
    Basics(m);
  }

  lemma CancelFacts(f: State, cfg: Config, trace: seq<Step>, m: Model, k: Key, stop: bool)
    requires Steady(f, m) && m == Reached(cfg, trace)
    ensures k in f.ops <==> k in m.ops
    ensures
      k in m.ops ==>
        var o := m.ops[k];
        && f.ops[k].op == o
        && (o.handle.Some? ==> o.handle.value in f.handles && (f.handles[o.handle.value].kind.TimerKind? <==> IsTimer(m.handles, o)))
        && (IsTimer(m.handles, o) ==>
              && Steady(f.(timers := f.timers - {o.handle.value}), Poised(m, k, m.ring)) && f.ring == m.ring
              && Apply(m, FinishS(k, CancelledAs(stop))) == Finish(m, k, CancelledAs(stop))
              && FinishRing(m, k, CancelledAs(stop)))
        && (!IsTimer(m.handles, o) && !o.cancel ==>
              && Apply(m, CancelS(k, stop)) == MarkCancel(m, k, stop)
              && Steady(Stopped(f, k, o.(cancel := true, stop := stop)), MarkCancel(m, k, stop)))
  {
    hide Inv, Steady, Reached, Apply, Stopped, Finish, MarkCancel, FinishRing, Poised;
    ReachedInv(cfg, trace);
    SteadyNode(f, m, k);
    if k in m.ops {
      var o := m.ops[k];
      SourceAt(m, k);
      if o.handle.Some? { VisibleAt(f, m, o.handle.value); }
      if IsTimer(m.handles, o) {
        SteadyPoised(f, m, k);
        FinishApplies(m, k, CancelledAs(stop));
        FinishKeepsRing(m, k, CancelledAs(stop));
      } else if !o.cancel { DoCancel(f, m, k, stop); }
    }
  }

  /** Finishing an operation leaves the result ring alone. */
  ghost predicate FinishRing(m: Model, k: Key, result: OpResult)
    requires k in m.ops
  {
    Finish(m, k, result).(ring := m.ring) == Finish(m, k, result)
  }

  lemma FinishKeepsRing(m: Model, k: Key, result: OpResult)
    requires Inv(m) && k in m.ops
    ensures FinishRing(m, k, result)
  {
    hide Inv, Finish;
    FinishExtends(m, k, result);
  }

  lemma FinishApplies(m: Model, k: Key, result: OpResult)
    requires k in m.ops && OpOutcome(result) && !m.ops[k].port && Acknowledges(m.ops[k], result)
    ensures Apply(m, FinishS(k, result)) == Finish(m, k, result)
  {
    hide Finish;
  }

  lemma SteadyPoised(f: State, m: Model, k: Key)
    requires Steady(f, m) && k in m.ops
    ensures f.ring == m.ring && f.timers == m.timers
    ensures Steady(f.(timers := TimersBut(m, k)), Poised(m, k, m.ring))
  {
    hide Linked, SameQueue, Counted, Active, Size, Count, TimersBut;
  }

  lemma ResetFacts(f: State, cfg: Config, trace: seq<Step>, m: Model, h: Key, at: Instant)
    requires Steady(f, m) && m == Reached(cfg, trace)
    ensures (h in f.handles && !f.handles[h].hidden) <==> Visible(m, h)
    ensures
      h in m.handles ==>
        && f.handles[h].closing == m.handles[h].closing
        && (f.handles[h].kind.TimerKind? && f.handles[h].kind.op.Some? <==> h in m.timers)
        && (h in m.timers ==>
              && Apply(m, ResetS(h, at)) == m.(timers := m.timers[h := at])
              && Steady(f.(timers := f.timers[h := at]), m.(timers := m.timers[h := at])))
  {
    hide Inv, Steady, Reached, Apply;
    ReachedInv(cfg, trace);
    VisibleAt(f, m, h);
    if h in m.handles { TimerIff(f, m, h); }
    if h in m.timers { DoReset(f, m, h, at); }
  }

  lemma ExpireFacts(f: State, cfg: Config, trace: seq<Step>, m: Model, k: Key)
    requires Steady(f, m) && m == Reached(cfg, trace) && k in m.connects
    ensures k in m.ops && Apply(m, ExpireS(k)) == Expire(m, k) && k in f.ops && f.ops[k].op == m.ops[k]
    ensures Steady(Stopped(f, k, m.ops[k].(cancel := true, timedOut := true)), Expire(m, k))
  {
    hide Inv, Steady, Reached, Apply, Stopped, Expire;
    ReachedInv(cfg, trace);
    DoExpire(f, m, k);
  }

  lemma ConnectsAt(f: State, m: Model)
    requires Steady(f, m)
    ensures f.connects == m.connects && f.timers == m.timers && f.ring == m.ring && f.inflight == m.inflight
  {
    hide Linked, SameQueue, Counted, Active;
  }

  lemma PublishFacts(f: State, cfg: Config, trace: seq<Step>, m: Model, k: Key, result: OpResult)
    requires Steady(f, m) && m == Reached(cfg, trace) && k in m.inflight
    ensures |f.ring| < RingCapacity(cfg)
    ensures Apply(m, PublishS(k, result)) == Publish(m, k, result)
    ensures Steady(f.(ring := f.ring + [Work(k, result)], inflight := f.inflight - {k}), Publish(m, k, result))
  {
    hide Inv, Steady, Reached, Apply;
    RingHasRoom(cfg, trace);
    ConnectsAt(f, m);
    DoPublish(f, m, k, result);
  }

  lemma EmitFacts(f: State, cfg: Config, trace: seq<Step>, m: Model, k: Key, result: OpResult)
    requires Steady(f, m) && m == Reached(cfg, trace)
    requires k in m.ops && OpOutcome(result) && !Hidden(m.handles, m.ops[k]) && !m.ops[k].cancel
    requires Count(Class(if result.Fired? then TIMER_EVENTS else NATIVE_EVENTS), m.stream, m.out) < m.cfg.eventsPerTurn
    ensures k in f.ops && f.ops[k].op == m.ops[k] && m.cfg == cfg && |f.counters.buffered| == 3
    ensures |f.queued| < CompletionCapacity(cfg)
    ensures f.counters.buffered[if result.Fired? then TIMER_EVENTS else NATIVE_EVENTS] < cfg.eventsPerTurn
    ensures m.ops[k].native ==> Apply(m, EmitS(k, result)) == Emit(m, k, result)
    ensures Steady(Enqueued(f, Entry(Completion(m.ops[k].token, Some(k), m.ops[k].handle, false, result), false)), Emit(m, k, result))
  {
    hide Inv, InvCore, Steady, Reached, Apply, Count, Enqueued;
    ReachedInv(cfg, trace);
    SteadyNode(f, m, k);
    EmitEvent(m, k, result);
    CoreOf(Emit(m, k, result));
    QueueFits(Emit(m, k, result));
    QueueShape(f, m);
    BufferedAt(f, m);
    DoEmit(f, m, k, result);
  }

  lemma CoreOf(m: Model)
    requires Inv(m)
    ensures InvCore(m)
  {
    hide InvCore, Credit;
  }

  lemma BufferedAt(f: State, m: Model)
    requires Steady(f, m)
    ensures |f.counters.buffered| == 3
    ensures f.counters.buffered[NATIVE_EVENTS] == Count(Class(NATIVE_EVENTS), m.stream, m.out)
    ensures f.counters.buffered[TIMER_EVENTS] == Count(Class(TIMER_EVENTS), m.stream, m.out)
    ensures f.counters.buffered[POST_EVENTS] == Count(Class(POST_EVENTS), m.stream, m.out)
  {
    hide Linked, Counted, Active, Count;
  }

  lemma HouseFacts(f: State, cfg: Config, trace: seq<Step>, m: Model, k: Key, conn: Key, taken: bool)
    requires Steady(f, m) && m == Reached(cfg, trace) && k in m.ops && !m.ops[k].cancel && conn !in m.issuedHandles
    ensures k in f.ops && f.ops[k].op == m.ops[k] && Freeable(f.counters, m.ops[k])
    ensures Apply(m, HouseS(k, conn, taken)) == House(m, k, conn, taken)
    ensures
      var f1 := Freed(f, k);
      var f2 := Placed(f1, conn, taken);
      && (Room(Release(m, k)) <==> f1.counters.reserved < f1.free) && conn !in f1.handles
      && Steady(if m.ops[k].multishot then Refilled(f2) else f2, House(m, k, conn, taken))
  {
    hide Inv, Steady, Reached, Apply, Freed, Placed, Refilled, Release, Place, Refill, Room, Freeable;
    ReachedInv(cfg, trace);
    HouseApplies(m, k, conn, taken);
    DoRelease(f, m, k);
    ReleaseSlot(m, k);
    var m1, f1 := Release(m, k), Freed(f, k);
    RoomAt(f1, m1);
    Basics(m);
    ReleaseHandles(f, k);
    VisibleAt(f, m, conn);
    SteadyKeys(f, m, conn);
    DoPlace(f1, m1, conn, taken);
    if m.ops[k].multishot { DoRefill(Placed(f1, conn, taken), Place(m1, conn, taken)); }
  }

  lemma SteadyKeys(f: State, m: Model, h: Key)
    requires Steady(f, m)
    ensures h in f.handles <==> h in m.handles
  {
    hide Represents;
    if h in m.handles { RowAt(f, m, h); } else { NoRow(f, m, h); }
  }

  lemma ReleaseHandles(f: State, k: Key)
    requires k in f.ops
    ensures Freed(f, k).handles == f.handles
  {}

  lemma HouseApplies(m: Model, k: Key, conn: Key, taken: bool)
    requires k in m.ops && !m.ops[k].cancel && conn !in m.issuedHandles
    ensures Apply(m, HouseS(k, conn, taken)) == House(m, k, conn, taken)
  {
    hide House;
  }

  lemma CompleteFacts(f: State, cfg: Config, trace: seq<Step>, m: Model, k: Key, result: OpResult)
    requires Steady(f, m) && m == Reached(cfg, trace) && k in m.ops && OpOutcome(result) && m.ops[k].native
    requires Acknowledges(m.ops[k], result)
    ensures f.ring == m.ring && Steady(f, Poised(m, k, m.ring))
    ensures Apply(m, FinishS(k, result)) == Finish(m, k, result) && FinishRing(m, k, result)
  {
    hide Inv, Steady, Reached, Apply, Finish, FinishRing;
    ReachedInv(cfg, trace);
    SourceAt(m, k);
    ConnectsAt(f, m);
    FinishApplies(m, k, result);
    FinishKeepsRing(m, k, result);
    assert Poised(m, k, m.ring) == m;
  }

  /** What an honest event may rely on. */
  lemma EventFacts(cfg: Config, trace: seq<Step>, m: Model, k: Key)
    requires m == Reached(cfg, trace) && k in m.ops && !m.ops[k].fs
    ensures !Hidden(m.handles, m.ops[k]) && m.cfg == cfg
  {
    hide Inv, Reached;
    ReachedInv(cfg, trace);
    SourceAt(m, k);
  }

  lemma HousedOp(cfg: Config, trace: seq<Step>, m: Model, k: Key, conn: Key, taken: bool)
    requires m == Reached(cfg, trace) && k in m.ops && conn !in m.issuedHandles
    ensures
      var m' := House(m, k, conn, taken);
      && k in m'.ops && m'.ops[k] == m.ops[k].(held := m'.ops[k].held) && m'.stream == m.stream && m'.out == m.out
      && m'.cfg == m.cfg
  {
    hide Inv, Reached, House;
    ReachedInv(cfg, trace);
    HouseEffect(m, k, conn, taken);
  }

  lemma FireFacts(f: State, cfg: Config, trace: seq<Step>, m: Model, h: Key, now: Instant)
    requires Steady(f, m) && m == Reached(cfg, trace) && h in m.timers
    requires Count(Class(TIMER_EVENTS), m.stream, m.out) < m.cfg.eventsPerTurn
    ensures h in m.handles && m.handles[h].kind.Timer? && m.handles[h].ops != [] && m.handles[h].ops[0] in m.ops
    ensures h in f.handles && f.handles[h].kind == TimerKind(Some(m.handles[h].ops[0]), m.handles[h].kind.repeat)
    ensures Apply(m, FireStep(m, h, now)) == Fire(m, h, now) && m.cfg == cfg && f.ring == m.ring && f.timers == m.timers
    ensures
      var k := m.handles[h].ops[0];
      && k in f.ops && f.ops[k].op == m.ops[k] && m.ops[k].handle == Some(h) && |f.counters.buffered| == 3
      && f.counters.buffered[TIMER_EVENTS] < cfg.eventsPerTurn && |f.queued| < CompletionCapacity(cfg)
      && Steady(f.(timers := f.timers - {h}), Poised(m, k, m.ring)) && FinishRing(m, k, Fired)
      && FinishRing(m, k, Failed(InvalidInput))
      && var repeat := m.handles[h].kind.repeat;
         repeat.Some? ==> Steady(Rearmed(f, m, h, k, now + repeat.value), Repeat(m, h, k, now + repeat.value))
  {
    hide Inv, Steady, Reached, Apply, Finish, Repeat, FinishRing, Count, Poised, Rearmed, Fire, FireStep;
    ReachedInv(cfg, trace);
    FireApplies(m, h, now);
    TimerAt(m, h);
    TimerIff(f, m, h);
    VisibleAt(f, m, h);
    var k := m.handles[h].ops[0];
    EmitFacts(f, cfg, trace, m, k, Fired);
    SteadyPoised(f, m, k);
    FinishKeepsRing(m, k, Fired);
    FinishKeepsRing(m, k, Failed(InvalidInput));
    Basics(m);
    if m.handles[h].kind.repeat.Some? { DoRepeat(f, m, h, k, now + m.handles[h].kind.repeat.value); }
  }

  function Rearmed(f: State, m: Model, h: Key, k: Key, at: Instant): State
    requires k in m.ops
  {
    Enqueued(f, Entry(Completion(m.ops[k].token, Some(k), m.ops[k].handle, false, Fired), false)).(timers := f.timers[h := at])
  }

  lemma DoRepeat(f: State, m: Model, h: Key, k: Key, at: Instant)
    requires Steady(f, m) && k in m.ops && m.out <= |m.stream| && f.timers == m.timers
    ensures Steady(Rearmed(f, m, h, k, at), Repeat(m, h, k, at))
  {
    hide Represents, Active, Size, Count;
    var e := Entry(Completion(m.ops[k].token, Some(k), m.ops[k].handle, false, Fired), false);
    DoPush(f, m, e);
    RepTimers(Enqueued(f, e), Push(m, e), m.timers[h := at]);
  }

  lemma CollectFacts(f: State, cfg: Config, trace: seq<Step>, m: Model, i: nat)
    requires Steady(f, m) && m == Reached(cfg, trace) && i < |m.ring|
    ensures f.ring == m.ring && m.ring[i].op in m.ops
    ensures
      var k, rest := m.ring[i].op, m.ring[..i] + m.ring[i + 1..];
      && k in f.ops && f.ops[k].op == m.ops[k]
      && Steady(f.(ring := rest), Poised(m, k, rest))
      && CollectIs(m, i, WorkResult(m.ops[k], m.ring[i].result))
  {
    hide Inv, Steady, Reached, Poised, CollectIs;
    ReachedInv(cfg, trace);
    CollectWork(m, i, Cancelled);
    var k, rest := m.ring[i].op, m.ring[..i] + m.ring[i + 1..];
    SteadyNode(f, m, k);
    SourceAt(m, k);
    PortHere(m, i);
    SteadyRing(f, m, k, rest);
    CollectApplies(m, i, WorkResult(m.ops[k], m.ring[i].result));
  }

  ghost predicate CollectIs(m: Model, i: nat, result: OpResult)
    requires i < |m.ring| && m.ring[i].op in m.ops
  {
    && Apply(m, CollectS(i, result)) == Collect(m, i, result)
    && Collect(m, i, result) == Finish(m, m.ring[i].op, result).(ring := m.ring[..i] + m.ring[i + 1..])
  }

  lemma CollectApplies(m: Model, i: nat, result: OpResult)
    requires i < |m.ring| && m.ring[i].op in m.ops && result == WorkResult(m.ops[m.ring[i].op], m.ring[i].result)
    ensures CollectIs(m, i, result)
  {
    hide Finish;
  }

  lemma SteadyRing(f: State, m: Model, k: Key, ring: seq<Work>)
    requires Steady(f, m) && k in m.ops && !IsTimer(m.handles, m.ops[k])
    ensures f.ring == m.ring && Steady(f.(ring := ring), Poised(m, k, ring))
  {
    hide Linked, SameQueue, Counted, Active, Size, Count;
  }

  lemma PostFacts(f: State, cfg: Config, trace: seq<Step>, m: Model, token: Token, payload: nat)
    requires Steady(f, m) && m == Reached(cfg, trace) && Count(Class(POST_EVENTS), m.stream, m.out) < cfg.eventsPerTurn
    ensures |f.counters.buffered| == 3 && f.counters.buffered[POST_EVENTS] < cfg.eventsPerTurn
    ensures |f.queued| < CompletionCapacity(cfg)
    ensures Apply(m, PostS(token, payload)) == Post(m, token, payload)
    ensures Steady(Enqueued(f, Entry(Completion(token, None, None, true, Posted(payload)), false)), Post(m, token, payload))
  {
    hide Inv, InvCore, Steady, Reached, Apply, Count, Enqueued;
    ReachedInv(cfg, trace);
    PostEvent(m, token, payload);
    CoreOf(Post(m, token, payload));
    QueueFits(Post(m, token, payload));
    QueueShape(f, m);
    BufferedAt(f, m);
    DoPost(f, m, token, payload);
  }

  lemma DeliverFacts(f: State, cfg: Config, trace: seq<Step>, m: Model)
    requires Steady(f, m) && m == Reached(cfg, trace)
    ensures |f.queued| == |m.stream| - m.out
    ensures
      f.queued != [] ==>
        && f.queued[0] == QueuedOf(m.stream[m.out]) && Apply(m, DeliverS) == Deliver(m) && Steady(Delivered(f), Deliver(m))
        && (f.queued[0].eventClass.Some? ==>
              && f.queued[0].eventClass.value < |f.counters.buffered|
              && f.counters.buffered[f.queued[0].eventClass.value] > 0)
        && Payable(f.counters, f.queued[0])
        && (var c := m.stream[m.out].completion;
            c.result.Closed? && c.handle.Some? && c.handle.value in Dequeued(f).handles ==> Droppable(Dequeued(f), c.handle.value))
  {
    hide Inv, Steady, Reached, Apply, Delivered, Deliver, Dequeued, Droppable, Payable;
    ReachedInv(cfg, trace);
    QueueShape(f, m);
    if f.queued != [] { DoDeliver(f, m); }
  }

  // ------------------------------------------------------- closing, detaching

  /** Walking `next` from `head` follows the handle's list. */
  lemma WalkAt(f: State, m: Model, h: Key, i: nat)
    requires Steady(f, m) && h in m.handles
    ensures h in f.handles && f.handles[h].head == At(m.handles[h].ops, 0) && f.handles[h].pending == |m.handles[h].ops|
    ensures
      i < |m.handles[h].ops| ==>
        m.handles[h].ops[i] in f.ops && f.ops[m.handles[h].ops[i]].next == At(m.handles[h].ops, i + 1)
  {
    hide Rows, SameQueue, Counted, Active;
    RowAt(f, m, h);
    assert LinkedList(f.ops, m.handles[h].ops);
    if i < |m.handles[h].ops| { assert LinkedAt(f.ops, m.handles[h].ops, i); }
  }

  /** What one `cancel` or `stop` does to an operation that stays. */
  predicate Asked(o: Op, o': Op, stop: bool, refused: bool) {
    o' == if o.cancel || (o.native && refused) then o else o.(cancel := true, stop := stop)
  }

  /** The first `i` of handle `h`'s operations `list` have been asked to end, and no other
      operation has been touched; a timer's one operation ends at once. */
  ghost predicate Cancelling(m: Model, m': Model, h: Key, list: seq<Key>, i: nat, stop: bool, refused: set<Key>)
    requires h in m.handles && i <= |list|
  {
    && h in m'.handles && m'.handles[h] == m.handles[h].(ops := m'.handles[h].ops, closedQueued := m'.handles[h].closedQueued)
    && (i < |list| || !m.handles[h].kind.Timer? ==> m'.handles[h].ops == list)
    && (i == |list| && m.handles[h].kind.Timer? ==> m'.handles[h].ops == [] && forall j :: 0 <= j < |list| ==> list[j] !in m'.ops)
    && (forall j :: 0 <= j < |list| && list[j] in m'.ops && list[j] in m.ops ==>
          if j < i then Asked(m.ops[list[j]], m'.ops[list[j]], stop, list[j] in refused) else m'.ops[list[j]] == m.ops[list[j]])
    && (forall k :: k in m'.ops ==> k in m.ops && (m.ops[k].handle != Some(h) ==> m'.ops[k] == m.ops[k]))
    && (forall k :: k in m.ops && (m.ops[k].handle != Some(h) || !m.handles[h].kind.Timer?) ==> k in m'.ops)
  }

  lemma CancellingNone(cfg: Config, trace: seq<Step>, m: Model, h: Key, stop: bool, refused: set<Key>)
    requires m == Reached(cfg, trace) && h in m.handles
    ensures Cancelling(m, m, h, m.handles[h].ops, 0, stop, refused)
  {}

  /** One more `cancel` of the walk, whichever way it went. */
  lemma CancellingMore(
    cfg: Config, trace: seq<Step>, m: Model, m1: Model, h: Key, list: seq<Key>, i: nat, stop: bool, refused: set<Key>,
    m': Model)
    requires m1 == Reached(cfg, trace) && h in m.handles && i < |list| && Cancelling(m, m1, h, list, i, stop, refused)
    requires
      var k := list[i];
      if k !in m1.ops || m1.ops[k].cancel then m' == m1
      else if IsTimer(m1.handles, m1.ops[k]) then m' == Finish(m1, k, CancelledAs(stop))
      else if m1.ops[k].native && k in refused then m' == m1
      else m' == MarkCancel(m1, k, stop)
    ensures Cancelling(m, m', h, list, i + 1, stop, refused)
  {
    hide Inv, Finish, Reached, MarkCancel, Cancelling;
    ReachedInv(cfg, trace);
    var k := list[i];
    CancellingHere(m, m1, h, list, i, stop, refused);
    KeptAt(m1, h);
    assert k in m1.ops && m1.ops[k].handle == Some(h);
    if m1.handles[h].kind.Timer? {
      SourceAt(m1, k);
      Basics(m1);
      FinishTimer(m1, k, h, CancelledAs(stop));
      CancellingTimer(m, m1, h, list, i, stop, refused, m');
    } else {
      CancellingPlain(m, m1, h, list, i, stop, refused, m');
    }
  }

  lemma CancellingHere(m: Model, m1: Model, h: Key, list: seq<Key>, i: nat, stop: bool, refused: set<Key>)
    requires h in m.handles && i < |list| && Cancelling(m, m1, h, list, i, stop, refused)
    ensures h in m1.handles && m1.handles[h].ops == list && m1.handles[h].kind == m.handles[h].kind
    ensures m1.handles[h].hidden == m.handles[h].hidden
  {}

  lemma CancellingTimer(m: Model, m1: Model, h: Key, list: seq<Key>, i: nat, stop: bool, refused: set<Key>, m': Model)
    requires h in m.handles && i < |list| == 1 && Cancelling(m, m1, h, list, i, stop, refused) && m.handles[h].kind.Timer?
    requires h in m1.handles && m'.ops == m1.ops - {list[i]} && list[i] in m1.ops && m1.ops[list[i]].handle == Some(h)
    requires
      var r := m1.handles[h];
      m'.handles == m1.handles[h := r.(ops := [], closedQueued := r.closedQueued || r.closing.Some?)]
    ensures Cancelling(m, m', h, list, i + 1, stop, refused)
  {}

  lemma CancellingPlain(m: Model, m1: Model, h: Key, list: seq<Key>, i: nat, stop: bool, refused: set<Key>, m': Model)
    requires h in m.handles && i < |list| && Cancelling(m, m1, h, list, i, stop, refused) && !m.handles[h].kind.Timer?
    requires Distinct(list)
    requires
      var k := list[i];
      && k in m1.ops && m1.ops[k].handle == Some(h)
      && if m1.ops[k].cancel || (m1.ops[k].native && k in refused) then m' == m1 else m' == MarkCancel(m1, k, stop)
    ensures Cancelling(m, m', h, list, i + 1, stop, refused)
  {}

  lemma FinishTimer(m: Model, k: Key, h: Key, result: OpResult)
    requires k in m.ops && m.ops[k].handle == Some(h) && h in m.handles && m.handles[h].ops == [k] && !m.handles[h].hidden
    requires m.out <= |m.stream|
    ensures
      var m' := Finish(m, k, result);
      && m'.ops == m.ops - {k}
      && m'.handles == m.handles[h := m.handles[h].(ops := [], closedQueued := m.handles[h].closedQueued || m.handles[h].closing.Some?)]
  {
    hide ArmedCount, EndEntry, ClosedEntry;
    assert Without([k], k) == [];
    assert WithoutOp(m.handles, Some(h), k)[h] == m.handles[h].(ops := []);
  }

  lemma CloseFacts(f: State, cfg: Config, trace: seq<Step>, m: Model, h: Key, token: Token)
    requires Steady(f, m) && m == Reached(cfg, trace) && Visible(m, h) && m.handles[h].closing.None?
    ensures Apply(m, CloseS(h, token)) == BeginClose(m, h, token) && |f.counters.buffered| == 3
    ensures h in f.handles && f.handles[h].head == At(m.handles[h].ops, 0) && f.handles[h].closing.None?
    ensures Steady(MayClose(CloseMarked(f, h, token), h), BeginClose(m, h, token))
    ensures m.handles[h].ops != [] ==> MayClose(CloseMarked(f, h, token), h) == CloseMarked(f, h, token)
    ensures m.handles[h].ops == [] ==> |f.queued| < CompletionCapacity(cfg)
    ensures
      var m' := BeginClose(m, h, token);
      && h in m'.handles && m'.handles[h] == m.handles[h].(closing := Some(token), closedQueued := m'.handles[h].closedQueued)
      && m'.ops == m.ops && (m.handles[h].ops == [] ==> m'.handles[h].closedQueued)
  {
    hide Inv, InvCore, Steady, Reached, Apply, MayClose, CloseMarked;
    ReachedInv(cfg, trace);
    DoClose(f, m, h, token);
    WalkAt(f, m, h, 0);
    VisibleAt(f, m, h);
    QueueShape(f, m);
    KeptAt(m, h);
    BeginCloseAt(m, h, token);
    StartClose(m, h, token);
    CoreOf(BeginClose(m, h, token));
    QueueFits(BeginClose(m, h, token));
  }

  lemma BeginCloseAt(m: Model, h: Key, token: Token)
    requires h in m.handles && m.handles[h].closing.None? && !m.handles[h].closedQueued
    ensures
      var m' := BeginClose(m, h, token);
      && h in m'.handles && m'.handles[h] == m.handles[h].(closing := Some(token), closedQueued := m.handles[h].ops == [])
      && m'.ops == m.ops && m'.out == m.out && m'.cfg == m.cfg && |m'.stream| == |m.stream| + One(m.handles[h].ops == [])
  {
    hide ClosedEntry;
  }

  // ---------------------------------------------------------------- set_ref

  /** The stream once the first `i` queued completions have followed their handle. */
  function Retold(stream: seq<Entry>, out: nat, i: nat, h: Key, referenced: bool): seq<Entry> {
    seq(|stream|, j requires 0 <= j < |stream| =>
      if out <= j < out + i && Follows(stream[j].completion, h) then stream[j].(referenced := referenced) else stream[j])
  }

  function Shift(e: Entry, h: Key, referenced: bool): int {
    if Follows(e.completion, h) && e.referenced != referenced then if referenced then 1 else -1 else 0
  }

  lemma RetoldMore(stream: seq<Entry>, out: nat, i: nat, h: Key, referenced: bool)
    requires out + i < |stream|
    ensures
      var s, s', e := Retold(stream, out, i, h, referenced), Retold(stream, out, i + 1, h, referenced), stream[out + i];
      && s[out + i] == e && s' == s[out + i := if Follows(e.completion, h) then e.(referenced := referenced) else e]
      && Count(Referenced, s', out) == Count(Referenced, s, out) + Shift(e, h, referenced)
  {
    hide Count;
    var s, s', e := Retold(stream, out, i, h, referenced), Retold(stream, out, i + 1, h, referenced), stream[out + i];
    var e' := if Follows(e.completion, h) then e.(referenced := referenced) else e;
    assert s' == s[out + i := e'];
    CountPatch(Referenced, s, out, out + i, e');
  }

  lemma RetoldNone(stream: seq<Entry>, out: nat, h: Key, referenced: bool)
    ensures Retold(stream, out, 0, h, referenced) == stream
  {}

  lemma RetoldQueue(
    queued: seq<Queued>, buffered: seq<nat>, stream: seq<Entry>, out: nat, i: nat, h: Key, referenced: bool,
    queued': seq<Queued>)
    requires SameQueue(queued, buffered, stream, out) && |queued'| == |queued| && i == |queued|
    requires forall j :: 0 <= j < |queued'| ==> queued'[j] == QueuedOf(Retold(stream, out, i, h, referenced)[out + j])
    ensures SameQueue(queued', buffered, Retold(stream, out, i, h, referenced), out)
    ensures Count(Terminal, Retold(stream, out, i, h, referenced), out) == Count(Terminal, stream, out)
  {
    hide Count;
    var s := Retold(stream, out, i, h, referenced);
    assert SameCompletions(stream, s);
    CountSame(Class(NATIVE_EVENTS), stream, s, out);
    CountSame(Class(TIMER_EVENTS), stream, s, out);
    CountSame(Class(POST_EVENTS), stream, s, out);
    CountSame(Terminal, stream, s, out);
  }

  function RefWeight(r: Resource): int { r.pending + One(!r.kind.TimerKind? || r.closing.Some?) }

  /** `set_ref`: the handle's own weight, its pending operations and its queued results. */
  lemma DoRef(f: State, m: Model, h: Key, referenced: bool, f': State)
    requires Steady(f, m) && Inv(m) && Visible(m, h) && m.handles[h].referenced != referenced
    requires h in f.handles
    requires
      var stream := Retold(m.stream, m.out, |f.queued|, h, referenced);
      && SameQueue(f'.queued, f.counters.buffered, stream, m.out)
      && Count(Terminal, stream, m.out) == Count(Terminal, m.stream, m.out)
      && f' == f.(handles := f.handles[h := f.handles[h].(referenced := referenced)], queued := f'.queued,
                  counters := f.counters.(refs := f'.counters.refs))
      && f'.counters.refs == f.counters.refs + (if referenced then RefWeight(f.handles[h]) else -RefWeight(f.handles[h]))
                             + Count(Referenced, stream, m.out) - Count(Referenced, m.stream, m.out)
    ensures Steady(f', SetRef(m, h, referenced))
  {
    hide Inv, Lists, Linked, HeldCount, ArmedCount, NativeCount, PortCount;
    hide Weight, Size, Count, SameQueue, Retold, Active, SetRef;
    ListsOf(m);
    RowAt(f, m, h);
    var stream := Retold(m.stream, m.out, |f.queued|, h, referenced);
    var r, a := f.handles[h].(referenced := referenced), m.handles[h].(referenced := referenced);
    SetRefIs(f, m, h, referenced);
    LinkedPut(f.handles, f.ops, m.handles, m.ops, h, r, a);
    WeightRef(m.handles, m.ops, m.stream, m.out, stream, h, referenced);
    RefActive(f, h, referenced);
  }

  /** What a referenced handle and the queued results weigh is part of the count. */
  lemma RefBacked(f: State, m: Model, h: Key)
    requires Steady(f, m) && Inv(m) && h in m.handles && h in f.handles && m.handles[h].referenced
    ensures f.counters.refs >= RefWeight(f.handles[h]) + Count(Referenced, m.stream, m.out)
  {
    hide Inv, Lists, Linked, HeldCount, ArmedCount, NativeCount, PortCount;
    hide Size, Count, SameQueue, Active, RefHandleCount, RefOpCount;
    ListsOf(m);
    RowAt(f, m, h);
    WeightRef(m.handles, m.ops, m.stream, m.out, m.stream, h, false);
  }

  lemma RefsAt(f: State, m: Model)
    requires Steady(f, m)
    ensures f.counters.refs >= Count(Referenced, m.stream, m.out)
  {
    hide Linked, SameQueue, Active, Size, Count, RefHandleCount, RefOpCount, HeldCount, ArmedCount, NativeCount, PortCount;
  }

  lemma RefApplies(m: Model, h: Key, referenced: bool)
    requires Visible(m, h)
    ensures Apply(m, RefS(h, referenced)) == SetRef(m, h, referenced)
  {
    hide SetRef;
  }

  lemma WeightRef(
    handles: map<Key, Handle>, ops: map<Key, Op>, stream: seq<Entry>, out: nat, stream': seq<Entry>, h: Key, referenced: bool)
    requires Lists(handles, ops) && h in handles && handles[h].referenced != referenced
    ensures
      var w := |handles[h].ops| + One(!handles[h].kind.Timer? || handles[h].closing.Some?);
      Weight(handles[h := handles[h].(referenced := referenced)], ops, stream', out)
        == Weight(handles, ops, stream, out) + (if referenced then w else -w)
           + Count(Referenced, stream', out) - Count(Referenced, stream, out)
  {
    hide Lists, RefHandleCount, RefOpCount, Count;
    ReferenceWeight(handles, ops, h);
    assert handles[h := handles[h].(referenced := !referenced)] == handles;
  }

  lemma RefActive(f: State, h: Key, referenced: bool)
    requires Active(f.handles) && h in f.handles
    ensures Active(f.handles[h := f.handles[h].(referenced := referenced)])
  {}

  lemma SetRefIs(f: State, m: Model, h: Key, referenced: bool)
    requires Steady(f, m) && Visible(m, h) && m.handles[h].referenced != referenced
    ensures
      SetRef(m, h, referenced) == m.(handles := m.handles[h := m.handles[h].(referenced := referenced)],
                                     stream := Retold(m.stream, m.out, |f.queued|, h, referenced))
  {
    hide Steady;
    QueueShape(f, m);
    assert SetRef(m, h, referenced).stream == Retold(m.stream, m.out, |f.queued|, h, referenced);
  }

  // -------------------------------------------------------------------- files

  /** A typed filesystem request, served by the pool or by the backend. */
  function FsOp(handle: Option<Key>, token: Token, pooled: bool): Op {
    Op(handle, token, false, false, false, true, false, false, !pooled, pooled)
  }

  function FileKindOf(pooled: bool): ResourceKind { if pooled then FileKind else SocketKind }

  function HiddenResource(pooled: bool): Resource { NewResource(FileKindOf(pooled)).(hidden := true) }

  function Dropped(m: Model, h: Key, pooled: bool): Model {
    DropHandle(PutHandle(m, h, NewHandle(KindOf(FileKindOf(pooled)))), h)
  }

  /** Admitting an operation to an idle handle and undoing it changes nothing. */
  lemma UndoFresh(f: State, k: Key, o: Op, h: Key)
    requires o.handle == Some(h) && h in f.handles && f.handles[h] == f.handles[h].(pending := 0, head := None, tail := None)
    requires !f.handles[h].kind.TimerKind?
    requires k !in f.ops && k !in f.inflight && k !in f.connects && !(o.held && o.multishot)
    requires (o.multishot ==> f.counters.pooled >= f.counters.armed)
    ensures var g := Admitted(f, k, o); Spliceable(g, k, o) && Undone(g, k) == f
  {
    var g, f' := Admitted(f, k, o), Undone(Admitted(f, k, o), k);
    assert g.ops == f.ops[k := Node(o, None, None)];
    assert f'.ops == f.ops && f'.handles == f.handles && f'.connects == f.connects;
    assert f'.inflight == f.inflight && f'.counters == f.counters;
  }

  lemma DroppedSteps(m: Model, h: Key, k: Key, pooled: bool)
    requires Inv(m) && Room(m) && h !in m.issuedHandles && k !in m.issuedOps
    ensures After(m, [AddS(h, KindOf(FileKindOf(pooled))), RemoveS(h)]) == Dropped(m, h, pooled)
    ensures After(m, [AddS(h, KindOf(FileKindOf(pooled))), RemoveS(h), RejectS(k, false)]) == Reject(Dropped(m, h, pooled), k, false)
  {
    hide Inv, Room, Unmentioned, Exhausted, Apply, DropHandle, PutHandle, Reject;
    var kind := KindOf(FileKindOf(pooled));
    FreshUnmentioned(m, h);
    var m1 := PutHandle(m, h, NewHandle(kind));
    AddApplies(m, h, kind);
    RemoveApplies(m1, h);
    RejectPlain(Dropped(m, h, pooled), k);
    AfterTwo(m, AddS(h, kind), RemoveS(h));
    AfterThree(m, AddS(h, kind), RemoveS(h), RejectS(k, false));
    DropKeepsOps(m1, h);
  }

  lemma AddApplies(m: Model, h: Key, kind: Kind)
    requires Room(m) && h !in m.issuedHandles && kind != LoopModel.Timer(Some(0))
    ensures Apply(m, AddS(h, kind)) == PutHandle(m, h, NewHandle(kind))
    ensures
      var m1 := PutHandle(m, h, NewHandle(kind));
      h in m1.handles && m1.handles[h] == NewHandle(kind) && m1.stream == m.stream && m1.out == m.out && m1.issuedOps == m.issuedOps
  {
    hide Room;
  }

  lemma RemoveApplies(m: Model, h: Key)
    requires h in m.handles && m.handles[h].ops == [] && m.handles[h].closing.None? && Unmentioned(m.stream, m.out, h)
    ensures Apply(m, RemoveS(h)) == DropHandle(m, h)
  {
    hide Unmentioned, DropHandle;
  }

  lemma RejectPlain(m: Model, k: Key)
    ensures k !in m.issuedOps ==> Apply(m, RejectS(k, false)) == Reject(m, k, false)
  {
    hide Room, ArmedCount;
  }

  lemma DropKeepsOps(m: Model, h: Key)
    ensures DropHandle(m, h).issuedOps == m.issuedOps
  {
    hide Exhausted;
  }

  lemma OpenFacts(f: State, cfg: Config, trace: seq<Step>, m: Model, h: Key, k: Key, token: Token, pooled: bool)
    requires Steady(f, m) && m == Reached(cfg, trace) && h !in m.issuedHandles && k !in m.issuedOps && Room(m)
    requires pooled ==> PortCount(m.ops) < m.cfg.maxUndelivered
    ensures f.counters.outstanding == Outstanding(m) <= cfg.maxOperations && f.free > 0
    ensures
      var f1, o := Added(f, h, HiddenResource(pooled)), FsOp(Some(h), token, pooled);
      && h in f1.handles && f1.handles[h].tail.None? && Droppable(f1, h)
      && Spliceable(Admitted(f1, k, o), k, o) && Undone(Admitted(f1, k, o), k) == f1
      && Steady(Removed(f1, h), Dropped(m, h, pooled)) && Steady(Removed(f1, h), Reject(Dropped(m, h, pooled), k, false))
      && (Outstanding(m) < cfg.maxOperations ==>
            && Apply(m, OpenS(h, KindOf(FileKindOf(pooled)), k, o)) == PutHidden(m, h, KindOf(FileKindOf(pooled)), k, o)
            && Steady(Admitted(f1, k, o), PutHidden(m, h, KindOf(FileKindOf(pooled)), k, o)))
  {
    hide Inv, Steady, Reached, Apply, Room, Removed, Admitted;
    hide Undone, Spliceable, Outstanding, PutHidden, Dropped, Reject, PortCount;
    ReachedInv(cfg, trace);
    OutstandingAt(f, m);
    RoomAt(f, m);
    OpenUndone(f, m, h, k, token, pooled);
    OpenDropped(f, m, h, k, pooled);
    if Outstanding(m) < cfg.maxOperations { DoOpen(f, m, h, k, token, pooled); }
  }

  lemma OpenUndone(f: State, m: Model, h: Key, k: Key, token: Token, pooled: bool)
    requires Steady(f, m) && Inv(m) && k !in m.issuedOps
    ensures
      var f1, o := Added(f, h, HiddenResource(pooled)), FsOp(Some(h), token, pooled);
      h in f1.handles && f1.handles[h].tail.None? && Spliceable(Admitted(f1, k, o), k, o) && Undone(Admitted(f1, k, o), k) == f1
  {
    hide Inv, Steady, Admitted, Undone, Spliceable;
    NewKey(m, k);
    SteadyNode(f, m, k);
    ConnectsAt(f, m);
    UndoFresh(Added(f, h, HiddenResource(pooled)), k, FsOp(Some(h), token, pooled), h);
  }

  lemma OpenDropped(f: State, m: Model, h: Key, k: Key, pooled: bool)
    requires Steady(f, m) && Inv(m) && Room(m) && h !in m.issuedHandles
    ensures
      var f1 := Added(f, h, HiddenResource(pooled));
      Steady(Removed(f1, h), Dropped(m, h, pooled)) && Steady(Removed(f1, h), Reject(Dropped(m, h, pooled), k, false))
  {
    hide Inv, Steady, Room, PutHandle, DropHandle, Unmentioned, Exhausted, Reject;
    var kind := FileKindOf(pooled);
    DoAdd(f, m, h, kind);
    AddApplies(m, h, KindOf(kind));
    AddHandle(m, h, NewHandle(KindOf(kind)));
    FreshUnmentioned(m, h);
    DoRemove(Added(f, h, NewResource(kind)), PutHandle(m, h, NewHandle(KindOf(kind))), h);
    assert f.handles[h := NewResource(kind)] - {h} == f.handles[h := HiddenResource(pooled)] - {h};
    assert Removed(Added(f, h, HiddenResource(pooled)), h) == Removed(Added(f, h, NewResource(kind)), h);
    SteadyReject(Removed(Added(f, h, NewResource(kind)), h), Dropped(m, h, pooled), k);
  }

  lemma SteadyReject(f: State, m: Model, k: Key)
    requires Steady(f, m)
    ensures Steady(f, Reject(m, k, false))
  {
    hide Represents, Active, Size, Count;
    RepSame(f, m, Reject(m, k, false));
  }

  lemma DoOpen(f: State, m: Model, h: Key, k: Key, token: Token, pooled: bool)
    requires Steady(f, m) && Inv(m) && Room(m) && h !in m.issuedHandles && k !in m.issuedOps
    requires Outstanding(m) < m.cfg.maxOperations
    requires pooled ==> PortCount(m.ops) < m.cfg.maxUndelivered
    ensures
      var f1, o, kind := Added(f, h, HiddenResource(pooled)), FsOp(Some(h), token, pooled), KindOf(FileKindOf(pooled));
      && Apply(m, OpenS(h, kind, k, o)) == PutHidden(m, h, kind, k, o)
      && h in f1.handles && Steady(Admitted(f1, k, o), PutHidden(m, h, kind, k, o))
  {
    hide Inv, Represents, Active, Size, Count, Room, Lists, Admitted, PutOp, PutHandle, PortCount;
    var f1, o, kind := Added(f, h, HiddenResource(pooled)), FsOp(Some(h), token, pooled), KindOf(FileKindOf(pooled));
    var a := NewHandle(kind).(hidden := true);
    var s1 := PutHandle(m, h, a);
    ListsOf(m);
    Basics(m);
    RepAdd(f, m, h, HiddenResource(pooled), a);
    AddedHidden(m, h, a);
    OpenKeeps(f, m, h, k, o, pooled);
    RepAdmit(f1, s1, k, o);
    PutOpStream(s1, k, o);
  }

  lemma AddedHidden(m: Model, h: Key, a: Handle)
    requires Lists(m.handles, m.ops) && h !in m.handles && a.ops == []
    ensures
      var s1 := PutHandle(m, h, a);
      Lists(s1.handles, s1.ops) && h in s1.handles && s1.ops == m.ops && s1.stream == m.stream && s1.out == m.out
  {
    var s1 := PutHandle(m, h, a);
    forall x | x in s1.handles ensures ListOf(x, s1.handles[x].ops, s1.ops) {
      if x != h { assert ListOf(x, m.handles[x].ops, m.ops); }
    }
    forall x | x in s1.ops ensures Listed(x, s1.ops[x].handle, s1.handles) { assert Listed(x, m.ops[x].handle, m.handles); }
  }

  lemma OpenKeeps(f: State, m: Model, h: Key, k: Key, o: Op, pooled: bool)
    requires Active(f.handles) && k !in m.ops && o.handle == Some(h)
    requires f.counters.outstanding == Size(m.ops) + Count(Terminal, m.stream, m.out)
    ensures
      var f1 := Added(f, h, HiddenResource(pooled));
      && Active(Admitted(f1, k, o).handles)
      && Admitted(f1, k, o).counters.outstanding ==
         Size(PutOp(PutHandle(m, h, NewHandle(KindOf(FileKindOf(pooled))).(hidden := true)), k, o).ops) + Count(Terminal, m.stream, m.out)
  {
    hide Size, Count, Appended, WithOp;
    MapPut(m.ops, k, o);
  }
}
