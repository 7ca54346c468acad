/** One poll's worth of backend events, and why none of its connections is turned away. */
module LoopEvents {
  import opened Types
  import opened LoopModel
  import opened LoopSteps
  import opened LoopRuns
  import opened LoopTheorems

  /** A transport to house (with the fresh key the table would give it and whether
      the backend adopts it), or any other outcome. */
  datatype Outcome = Transport(conn: Key, taken: bool) | Done(result: OpResult)
  datatype Event = Event(op: Key, terminal: bool, outcome: Outcome)

  function FsResult(o: Op, e: Event): OpResult {
    if o.cancel then Cancelled else match e.outcome case Done(r) => r case Transport(_, _) => Failed(Other(0))
  }

  /** The result of trying to house a transport from state `m`. */
  function HouseResult(m: Model, k: Key, conn: Key, taken: bool): OpResult
    requires k in m.ops
  {
    if !Room(Release(m, k)) then Failed(ResourceLimit) else if taken then Housed(conn) else Failed(Other(1))
  }

  function Report(m: Model, e: Event, result: OpResult): Model
    requires e.op in m.ops
  {
    if e.terminal then Finish(m, e.op, result) else Emit(m, e.op, result)
  }

  /** The loop's reaction to one event, stale ones included. */
  function AcceptEvent(m: Model, e: Event): Model {
    if e.op !in m.ops then m else
    var o := m.ops[e.op];
    if o.fs && e.terminal then Finish(m, e.op, FsResult(o, e))
    else if o.cancel then (if e.terminal then Finish(m, e.op, Verdict(o)) else m)
    else match e.outcome
      case Done(result) => Report(m, e, result)
      case Transport(conn, taken) =>
        var m' := House(m, e.op, conn, taken);
        Report(m', e, HouseResult(m, e.op, conn, taken))
  }

  function AcceptAll(m: Model, events: seq<Event>): Model
    decreases |events|
  {
    if events == [] then m else AcceptAll(AcceptEvent(m, events[0]), events[1..])
  }

  /** What the backend owes for every event: a live operation it names was handed to
      it, a filesystem request answers once, a connection comes from an operation that
      reserved for it, and `conn` is a key the table never issued. */
  ghost predicate Honest(m: Model, e: Event) {
    && (e.op in m.ops ==>
          var o := m.ops[e.op];
          && o.native && (o.fs ==> e.terminal)
          && (e.outcome.Transport? && !o.cancel && !o.fs ==> o.multishot || (o.held && e.terminal)))
    && (e.outcome.Transport? ==> e.outcome.conn !in m.issuedHandles)
    && (e.outcome.Done? ==> OpOutcome(e.outcome.result) && !e.outcome.result.Fired?)
  }

  /** Honest events with distinct fresh keys, judged in the state before the poll. */
  ghost predicate Batch(m: Model, events: seq<Event>) {
    && (forall i :: 0 <= i < |events| ==> Honest(m, events[i]))
    && (forall i, j :: 0 <= i < j < |events| && events[i].outcome.Transport? && events[j].outcome.Transport? ==>
          events[i].outcome.conn != events[j].outcome.conn)
    && Count(Class(NATIVE_EVENTS), m.stream, m.out) + |events| <= m.cfg.eventsPerTurn
  }

  /** Multishot connections among the events: what the poll's budget limits. */
  function Spends(m: Model, events: seq<Event>): nat {
    if events == [] then 0
    else One(events[0].outcome.Transport? && events[0].op in m.ops && m.ops[events[0].op].multishot) + Spends(m, events[1..])
  }

  /** At its turn, every connection finds a slot. */
  ghost predicate AllHoused(m: Model, events: seq<Event>)
    decreases |events|
  {
    events != [] ==>
      && (Connects(m, events[0]) ==> Room(Release(m, events[0].op)))
      && AllHoused(AcceptEvent(m, events[0]), events[1..])
  }

  predicate Connects(m: Model, e: Event) {
    e.outcome.Transport? && e.op in m.ops && !m.ops[e.op].cancel && !m.ops[e.op].fs
  }

  // -------------------------------------------------------------- one event

  /** How the rest of a batch may see the state change: survivors are untouched. */
  ghost predicate Settles(m: Model, m': Model, conn: Option<Key>) {
    && m'.cfg == m.cfg
    && (forall x :: x in m'.ops ==> x in m.ops && m'.ops[x] == m.ops[x])
    && (forall h :: h in m'.issuedHandles ==> h in m.issuedHandles || Some(h) == conn)
    && Count(Class(NATIVE_EVENTS), m'.stream, m'.out) <= Count(Class(NATIVE_EVENTS), m.stream, m.out) + 1
  }

  lemma SettleEffect(m: Model, h: Key, result: OpResult)
    requires h in m.handles && m.out <= |m.stream|
    ensures
      var m' := Settle(m, h, result);
      && m' == m.(handles := m'.handles, free := m'.free, stream := m'.stream, closedAt := m'.closedAt) && m'.free >= m.free
      && Count(Class(NATIVE_EVENTS), m'.stream, m'.out) == Count(Class(NATIVE_EVENTS), m.stream, m.out)
  {
    hide Count, DropHandle, MaybeClosed;
    ClosedEffect(m, h);
    DropEffect(m, h);
  }

  lemma ClosedEffect(m: Model, h: Key)
    requires h in m.handles && m.out <= |m.stream|
    ensures
      var m' := MaybeClosed(m, h);
      && m' == m.(handles := m'.handles, stream := m'.stream, closedAt := m'.closedAt)
      && Count(Class(NATIVE_EVENTS), m'.stream, m'.out) == Count(Class(NATIVE_EVENTS), m.stream, m.out)
  {
    hide Count;
    if m.handles[h].ops == [] && !m.handles[h].closedQueued && m.handles[h].closing.Some? {
      var e, r := ClosedEntry(h, m.handles[h].closing.value), m.handles[h].(closedQueued := true);
      assert MaybeClosed(m, h) == m.(stream := m.stream + [e], handles := m.handles[h := r], closedAt := m.closedAt[h := |m.stream|]);
      CountPush(Class(NATIVE_EVENTS), m.stream, m.out, e);
    }
  }

  lemma DropEffect(m: Model, h: Key)
    ensures var m' := DropHandle(m, h); m' == m.(handles := m'.handles, free := m'.free) && m'.free >= m.free
  {
    hide Exhausted;
  }

  lemma FinishEffect(m: Model, k: Key, result: OpResult)
    requires Inv(m) && k in m.ops && OpOutcome(result)
    ensures
      var m' := Finish(m, k, result);
      && m'.free >= m.free && m'.out == m.out && m'.issuedHandles == m.issuedHandles && m'.ops == m.ops - {k}
      && HeldCount(m'.ops) == HeldCount(m.ops) - One(m.ops[k].held) && m'.cfg == m.cfg
      && Count(Class(NATIVE_EVENTS), m'.stream, m'.out) == Count(Class(NATIVE_EVENTS), m.stream, m.out)
  {
    hide Inv, HeldCount, ArmedCount, Count, Exhausted, Without, WithoutOp, Settle;
    Basics(m);
    OpsChange(m.ops, m.ops - {k}, k);
    var m1, h := End(m, k, result), m.ops[k].handle;
    CountPush(Class(NATIVE_EVENTS), m.stream, m.out, EndEntry(m, k, result));
    if h.Some? && h.value in m1.handles { SettleEffect(m1, h.value, result); }
  }

  lemma HouseEffect(m: Model, k: Key, conn: Key, taken: bool)
    requires Inv(m) && k in m.ops && conn !in m.issuedHandles
    ensures
      var m' := House(m, k, conn, taken);
      && m' == m.(ops := m'.ops, handles := m'.handles, free := m'.free, promised := m'.promised, issuedHandles := m'.issuedHandles)
      && m'.ops == Release(m, k).ops && m'.free >= m.free - 1
      && (forall h :: h in m'.issuedHandles ==> h in m.issuedHandles || h == conn)
  {
    hide Inv, HeldCount, ArmedCount, Exhausted, Release, Room;
    ReleaseSlot(m, k);
  }

  lemma FinishSettles(m: Model, k: Key, result: OpResult)
    requires Inv(m) && k in m.ops && OpOutcome(result) && m.ops[k].native
    ensures var m' := Finish(m, k, result); Inv(m') && Extends(m, m') && Settles(m, m', None) && Budget(m') >= Budget(m)
  {
    hide Inv, Extends, Finish, HeldCount, Count;
    SourceAt(m, k);
    FinishOp(m, k, result);
    FinishEffect(m, k, result);
  }

  lemma EmitSettles(m: Model, k: Key, result: OpResult)
    requires Inv(m) && k in m.ops && OpOutcome(result) && !result.Fired? && !m.ops[k].fs
    requires Count(Class(NATIVE_EVENTS), m.stream, m.out) < m.cfg.eventsPerTurn
    ensures var m' := Emit(m, k, result); Inv(m') && Extends(m, m') && Settles(m, m', None) && Budget(m') == Budget(m)
  {
    hide Inv, Extends, HeldCount, Count;
    Basics(m);
    SourceAt(m, k);
    EmitEvent(m, k, result);
    CountPush(Class(NATIVE_EVENTS), m.stream, m.out, Emit(m, k, result).stream[|m.stream|]);
  }

  /** A connection finds room because its own slot was released first; for a
      multishot accept, exactly when the budget covers it. */
  lemma ConnectionHasRoom(m: Model, e: Event)
    requires Inv(m) && Honest(m, e) && Connects(m, e)
    ensures if m.ops[e.op].multishot then Room(Release(m, e.op)) <==> Budget(m) >= 1 else Room(Release(m, e.op))
  {
    hide Inv, HeldCount, Extends;
    HousingAt(m);
    ReleaseSlot(m, e.op);
  }

  lemma HousingAt(m: Model)
    requires Inv(m)
    ensures Reserved(m) <= m.free && m.promised <= ArmedCount(m.ops)
  {
    hide Shape, OpHistory, HandleHistory, Bounded, Credit, Settled, Sized, HeldCount, ArmedCount;
  }

  /** One event keeps the invariant, touches no other operation, and costs the budget
      at most the multishot connection it brings. */
  lemma EventSettles(m: Model, e: Event)
    requires Inv(m) && Honest(m, e) && Count(Class(NATIVE_EVENTS), m.stream, m.out) < m.cfg.eventsPerTurn
    ensures
      var m' := AcceptEvent(m, e);
      && Inv(m') && Extends(m, m')
      && Settles(m, m', if e.outcome.Transport? then Some(e.outcome.conn) else None)
      && Budget(m') >= Budget(m) - One(e.outcome.Transport? && e.op in m.ops && m.ops[e.op].multishot)
  {
    hide Inv, Extends, Finish, Emit, House, HeldCount, Count;
    if e.op !in m.ops { Still(m); return; }
    var k, o := e.op, m.ops[e.op];
    if (o.fs && e.terminal) || o.cancel {
      if e.terminal { FinishSettles(m, k, if o.fs then FsResult(o, e) else Verdict(o)); } else { Still(m); }
    } else if e.outcome.Done? {
      if e.terminal { FinishSettles(m, k, e.outcome.result); } else { EmitSettles(m, k, e.outcome.result); }
    } else {
      ConnectionSettles(m, e);
    }
  }

  lemma ConnectionSettles(m: Model, e: Event)
    requires Inv(m) && Honest(m, e) && Connects(m, e) && Count(Class(NATIVE_EVENTS), m.stream, m.out) < m.cfg.eventsPerTurn
    ensures
      var m1 := House(m, e.op, e.outcome.conn, e.outcome.taken);
      e.op in m1.ops &&
      var m' := Report(m1, e, HouseResult(m, e.op, e.outcome.conn, e.outcome.taken));
      && Inv(m') && Extends(m, m') && Settles(m, m', Some(e.outcome.conn))
      && Budget(m') >= Budget(m) - One(m.ops[e.op].multishot)
  {
    hide Inv, Extends, Finish, Emit, House, HeldCount, Count, Room, Settles, Budget, Release, HouseResult;
    var k, conn := e.op, e.outcome.conn;
    var m1 := House(m, k, conn, e.outcome.taken);
    var result := HouseResult(m, k, conn, e.outcome.taken);
    HouseConn(m, k, conn, e.outcome.taken);
    if e.terminal {
      ConnectionEnds(m, e);
    } else {
      ConnectionContinues(m, e);
    }
    ExtendsTrans(m, m1, Report(m1, e, result));
  }

  lemma ConnectionEnds(m: Model, e: Event)
    requires Inv(m) && Honest(m, e) && Connects(m, e) && e.terminal
    ensures
      var m1 := House(m, e.op, e.outcome.conn, e.outcome.taken);
      e.op in m1.ops &&
      var m' := Finish(m1, e.op, HouseResult(m, e.op, e.outcome.conn, e.outcome.taken));
      && Inv(m') && Extends(m1, m') && Settles(m, m', Some(e.outcome.conn))
      && Budget(m') >= Budget(m) - One(m.ops[e.op].multishot)
  {
    hide Inv, Extends, Finish, House, HeldCount, Count, Room, Settles, Budget;
    var k, conn := e.op, e.outcome.conn;
    var m1 := House(m, k, conn, e.outcome.taken);
    SourceAt(m, k);
    var result := HouseResult(m, k, conn, e.outcome.taken);
    HouseConn(m, k, conn, e.outcome.taken);
    HouseEffect(m, k, conn, e.outcome.taken);
    assert OpOutcome(result);
    HouseThenFinish(m, m1, k, conn, result);
  }

  lemma HouseThenFinish(m: Model, m1: Model, k: Key, conn: Key, result: OpResult)
    requires Inv(m1) && k in m.ops && k in m1.ops && OpOutcome(result) && m1.ops[k].native
    requires m1 == m.(ops := m1.ops, handles := m1.handles, free := m1.free, promised := m1.promised, issuedHandles := m1.issuedHandles)
    requires m1.free >= m.free - 1 && (m.ops[k].held || m.ops[k].multishot) && !(m.ops[k].held && m.ops[k].multishot)
    requires m1.ops == if m.ops[k].multishot then m.ops else m.ops[k := m.ops[k].(held := false)]
    requires forall h :: h in m1.issuedHandles ==> h in m.issuedHandles || h == conn
    ensures
      var m' := Finish(m1, k, result);
      && Inv(m') && Extends(m1, m') && Settles(m, m', Some(conn))
      && Budget(m') >= Budget(m) - One(m.ops[k].multishot)
  {
    hide Inv, Extends, Finish, HeldCount, Count;
    OpsChange(m.ops, m1.ops, k);
    FinishSettles(m1, k, result);
    FinishEffect(m1, k, result);
  }

  lemma ConnectionContinues(m: Model, e: Event)
    requires Inv(m) && Honest(m, e) && Connects(m, e) && !e.terminal
    requires Count(Class(NATIVE_EVENTS), m.stream, m.out) < m.cfg.eventsPerTurn
    ensures
      var m1 := House(m, e.op, e.outcome.conn, e.outcome.taken);
      e.op in m1.ops &&
      var m' := Emit(m1, e.op, HouseResult(m, e.op, e.outcome.conn, e.outcome.taken));
      && Inv(m') && Extends(m1, m') && Settles(m, m', Some(e.outcome.conn)) && Budget(m') >= Budget(m) - 1
  {
    hide Inv, Extends, Emit, House, HeldCount, Count, Room;
    var k, conn := e.op, e.outcome.conn;
    HouseConn(m, k, conn, e.outcome.taken);
    HouseEffect(m, k, conn, e.outcome.taken);
    EmitSettles(House(m, k, conn, e.outcome.taken), k, HouseResult(m, k, conn, e.outcome.taken));
  }

  // ------------------------------------------------------------ whole batch

  lemma {:induction false} SpendsShrink(m: Model, m': Model, events: seq<Event>)
    requires forall x :: x in m'.ops ==> x in m.ops && m'.ops[x] == m.ops[x]
    ensures Spends(m', events) <= Spends(m, events)
  {
    if events != [] { SpendsShrink(m, m', events[1..]); }
  }

  lemma BatchRest(m: Model, events: seq<Event>, m': Model)
    requires Batch(m, events) && events != []
    requires Settles(m, m', if events[0].outcome.Transport? then Some(events[0].outcome.conn) else None)
    ensures Batch(m', events[1..])
  {
    hide Count;
    var rest := events[1..];
    forall i | 0 <= i < |rest| ensures Honest(m', rest[i]) {
      assert rest[i] == events[i + 1] && Honest(m, events[i + 1]);
    }
  }

  /** A batch within the poll's budget: every connection in it is housed, in any mix and
      order with single-shot accepts, errors, cancelled and stale events. */
  lemma {:induction false} BatchHoused(m: Model, events: seq<Event>)
    requires Inv(m) && Batch(m, events) && Spends(m, events) <= Budget(m)
    ensures AllHoused(m, events)
    ensures Inv(AcceptAll(m, events)) && Extends(m, AcceptAll(m, events))
    decreases |events|
  {
    hide Inv, Extends, AcceptEvent, Budget, Count, Settles, Room, Release;
    if events == [] { Still(m); return; }
    var e := events[0];
    var m' := AcceptEvent(m, e);
    assert Honest(m, e);
    if Connects(m, e) { ConnectionHasRoom(m, e); }
    EventSettles(m, e);
    BatchRest(m, events, m');
    Survivors(m, m', events);
    BatchHoused(m', events[1..]);
    ExtendsTrans(m, m', AcceptAll(m, events));
  }

  /** So in every reachable state, whatever a poll within its budget brings. */
  lemma ConnectionsHoused(cfg: Config, trace: seq<Step>, events: seq<Event>)
    requires Batch(Reached(cfg, trace), events) && Spends(Reached(cfg, trace), events) <= Budget(Reached(cfg, trace))
    ensures AllHoused(Reached(cfg, trace), events)
  {
    hide Reached, Inv, Batch, Spends, Budget, AllHoused, Extends, AcceptAll;
    ReachedInv(cfg, trace);
    BatchHoused(Reached(cfg, trace), events);
  }

  lemma Survivors(m: Model, m': Model, events: seq<Event>)
    requires events != [] && Settles(m, m', if events[0].outcome.Transport? then Some(events[0].outcome.conn) else None)
    ensures Spends(m', events[1..]) <= Spends(m, events[1..])
  {
    SpendsShrink(m, m', events[1..]);
  }
}
