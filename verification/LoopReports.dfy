/** What the host is told, and why the loop stays alive, in the terms of what was submitted. */
module LoopReports {
  import opened Types
  import opened LoopModel
  import opened LoopSteps
  import opened LoopRuns
  import opened LoopTheorems
  import opened LoopEvents
  import opened LoopTimers
  import opened LoopCancel

  // ------------------------------------------------------- one completion

  /** An operation's end is reported once, with its own token and key, its handle unless that was
      being opened in vain, and the result; it keeps the loop alive if the operation did. The last
      operation of a closing handle is followed by that handle's `Closed`, with the token of the
      close. */
  lemma FinishReports(m: Model, k: Key, result: OpResult)
    requires Inv(m) && k in m.ops
    ensures m.ops[k].handle.Some? ==> m.ops[k].handle.value in m.handles
    ensures
      var m', n, o := Finish(m, k, result), |m.stream|, m.ops[k];
      var opening := o.handle.Some? && m.handles[o.handle.value].hidden;
      var closes := o.handle.Some? && !opening && m.handles[o.handle.value].closing.Some? && m.handles[o.handle.value].ops == [k];
      && |m'.stream| == n + (if closes then 2 else 1) && m'.stream[..n] == m.stream && m'.out == m.out
      && m'.stream[n].completion ==
           Completion(o.token, Some(k), if opening && !result.Opened? then None else o.handle, true, result)
      && (m'.stream[n].referenced <==> o.handle.None? || m.handles[o.handle.value].referenced)
      && (closes ==>
            m'.stream[n + 1] == Entry(Completion(m.handles[o.handle.value].closing.value, None, o.handle, true, Closed), false))
  {
    hide Inv, Settle, Without, ArmedCount;
    ListedOp(m, k);
    var o, m1 := m.ops[k], End(m, k, result);
    assert m1.stream == m.stream + [EndEntry(m, k, result)];
    if o.handle.Some? {
      var h := o.handle.value;
      UnsettledOp(m, k);
      SettleFrame(m1, h, result);
      LastOne(m.handles[h].ops, k);
    }
  }

  lemma LastOne(s: seq<Key>, k: Key)
    requires k in s
    ensures Without(s, k) == [] <==> s == [k]
  {
    if s == [k] { assert IndexOf(s, k) == 0; }
  }

  /** A nonterminal result is reported with its operation's token, key and handle. */
  lemma EmitReports(m: Model, k: Key, result: OpResult)
    requires k in m.ops
    ensures
      Emit(m, k, result) ==
        m.(stream := m.stream + [Entry(Completion(m.ops[k].token, Some(k), m.ops[k].handle, false, result), false)])
  {}

  lemma PostReports(m: Model, token: Token, payload: nat)
    ensures Post(m, token, payload) == m.(stream := m.stream + [Entry(Completion(token, None, None, true, Posted(payload)), false)])
  {}

  /** Closing reports `Closed` at once if nothing is pending, with the token of the close. */
  lemma CloseReports(m: Model, h: Key, token: Token)
    requires h in m.handles && !m.handles[h].closedQueued
    ensures
      var m' := BeginClose(m, h, token);
      && h in m'.handles && m'.handles[h].closing == Some(token) && m'.handles[h].referenced == m.handles[h].referenced
      && m'.stream == m.stream + (if m.handles[h].ops == [] then [Entry(Completion(token, None, Some(h), true, Closed), false)] else [])
  {}

  // ----------------------------------------------------------------- liveness

  /** What is still queued names a handle that is there and visible. */
  lemma NamesLive(m: Model)
    requires Inv(m)
    ensures forall i :: m.out <= i < |m.stream| && m.stream[i].completion.handle.Some? ==>
              var h := m.stream[i].completion.handle.value; h in m.handles && !m.handles[h].hidden
    ensures forall i :: 0 <= i < |m.stream| ==> WellFormed(m.stream[i])
  {
    hide Shape, OpHistory, Credit, Housing, Sized, Settled;
    forall i | m.out <= i < |m.stream| && m.stream[i].completion.handle.Some?
      ensures m.stream[i].completion.handle.value in m.handles && !m.handles[m.stream[i].completion.handle.value].hidden
    {
      assert HandleEntry(m.handles, m.issuedHandles, m.closedAt, m.out, i, m.stream[i].completion);
    }
  }

  /** A visible handle that is still named keeps its reference. */
  ghost predicate SameReferences(m: Model, m': Model, out: nat) {
    forall h :: h in m.handles && !m.handles[h].hidden && !Unmentioned(m.stream, out, h) ==>
      h in m'.handles && m'.handles[h].referenced == m.handles[h].referenced
  }

  /** Completions that were queued stay right, and new ones are right if they are when they come. */
  lemma FlagsKeep(m: Model, m': Model)
    requires Inv(m) && Flags(m) && m.out <= m'.out && |m.stream| <= |m'.stream| && m'.stream[..|m.stream|] == m.stream
    requires SameReferences(m, m', m'.out)
    requires forall i :: |m.stream| <= i < |m'.stream| && IsTerminal(m'.stream[i].completion) ==>
               (m'.stream[i].referenced <==> Awaited(m', m'.stream[i].completion.handle))
    ensures Flags(m')
  {
    hide Inv;
    NamesLive(m);
    forall i | m'.out <= i < |m'.stream| && IsTerminal(m'.stream[i].completion)
      ensures m'.stream[i].referenced <==> Awaited(m', m'.stream[i].completion.handle)
    {
      if i < |m.stream| {
        assert m'.stream[i] == m.stream[i];
        var handle := m.stream[i].completion.handle;
        if handle.Some? { assert !Unmentioned(m.stream, m'.out, handle.value); }
      }
    }
  }

  /** Ending an operation takes away no visible handle and no reference. */
  lemma FinishReferences(m: Model, k: Key, result: OpResult)
    requires Inv(m) && k in m.ops
    ensures
      var m' := Finish(m, k, result);
      forall h :: h in m.handles && (!m.handles[h].hidden || (result.Opened? && m.ops[k].handle == Some(h))) ==>
        h in m'.handles && m'.handles[h].referenced == m.handles[h].referenced
  {
    hide Inv, Finish;
    forall h | h in m.handles && (!m.handles[h].hidden || (result.Opened? && m.ops[k].handle == Some(h)))
      ensures h in Finish(m, k, result).handles && Finish(m, k, result).handles[h].referenced == m.handles[h].referenced
    {
      if m.ops[k].handle == Some(h) { FinishOwn(m, k, result, h); } else { FinishOthers(m, k, result, h); }
    }
  }

  lemma FinishOwn(m: Model, k: Key, result: OpResult, h: Key)
    requires Inv(m) && k in m.ops && m.ops[k].handle == Some(h) && h in m.handles && (!m.handles[h].hidden || result.Opened?)
    ensures h in Finish(m, k, result).handles && Finish(m, k, result).handles[h].referenced == m.handles[h].referenced
  {
    hide Inv, Settle, Without, ArmedCount, EndEntry;
    UnsettledOp(m, k);
    SettleIs(End(m, k, result), h, result);
  }

  lemma FinishFlags(m: Model, k: Key, result: OpResult)
    requires Inv(m) && Flags(m) && k in m.ops
    ensures Flags(Finish(m, k, result))
  {
    hide Inv, Flags, Finish;
    FinishReports(m, k, result);
    FinishReferences(m, k, result);
    if m.ops[k].handle.Some? { KeptAt(m, m.ops[k].handle.value); }
    FlagsKeep(m, Finish(m, k, result));
  }

  lemma RefFlags(m: Model, h: Key, referenced: bool)
    requires Inv(m) && Flags(m) && h in m.handles
    ensures Flags(SetRef(m, h, referenced))
  {
    hide Inv;
    NamesLive(m);
  }

  lemma DeliverFlags(m: Model)
    requires Inv(m) && Flags(m) && m.out < |m.stream|
    ensures Flags(Deliver(m))
  {
    hide Inv, Flags, DropHandle;
    var m', c := Deliver(m), m.stream[m.out].completion;
    DeliverStream(m);
    if c.result.Closed? && c.handle.Some? && c.handle.value in m.handles {
      DropOthers(m.(out := m.out + 1), c.handle.value);
      ClosedIsLast(m, c.handle.value);
    }
    FlagsKeep(m, m');
  }

  lemma DropOthers(m: Model, h: Key)
    ensures
      var m' := DropHandle(m, h);
      m'.out == m.out && forall x :: x in m.handles && x != h ==> x in m'.handles && m'.handles[x] == m.handles[x]
  {
    hide Exhausted;
  }

  lemma ClosedIsLast(m: Model, h: Key)
    requires Inv(m) && m.out < |m.stream|
    requires m.stream[m.out].completion.result.Closed? && m.stream[m.out].completion.handle == Some(h)
    ensures Unmentioned(m.stream, m.out + 1, h)
  {
    hide Shape, OpHistory, Credit, Housing, Sized, Settled, Bounded;
    assert HandleEntry(m.handles, m.issuedHandles, m.closedAt, m.out, m.out, m.stream[m.out].completion);
    forall i | m.out + 1 <= i < |m.stream| ensures m.stream[i].completion.handle != Some(h) {
      if m.stream[i].completion.handle.Some? {
        assert HandleEntry(m.handles, m.issuedHandles, m.closedAt, m.out, i, m.stream[i].completion);
      }
    }
  }

  lemma HouseReferences(m: Model, k: Key, conn: Key, taken: bool)
    requires Inv(m) && k in m.ops && conn !in m.issuedHandles
    ensures
      var m' := House(m, k, conn, taken);
      m'.out == m.out && m'.stream == m.stream && forall h :: h in m.handles ==> h in m'.handles && m'.handles[h] == m.handles[h]
  {
    hide Inv, Refill, Room, Exhausted;
    Basics(m);
    HouseOut(m, k, conn, taken);
    HouseStream(m, k, conn, taken);
    RefillHandles(Place(Release(m, k), conn, taken));
  }

  lemma RoomIs(m: Model)
    requires Room(m)
    ensures m.free > 0
  {}

  lemma RefillHandles(m: Model)
    ensures Refill(m).handles == m.handles && Refill(m).free == m.free
  {
    hide Reserved, ArmedCount;
  }

  lemma StepFlags(m: Model, s: Step)
    requires Inv(m) && Flags(m)
    ensures Flags(Apply(m, s))
  {
    hide Inv, Flags, Room, CanSubmit, Count, PortCount, ArmedCount, Outstanding, Verdict, WorkResult, Unmentioned;
    hide PutHandle, DropHandle, PutOp, ArmTimer, PutHidden, Reject, Finish, Collect, Emit, House;
    hide MarkCancel, Expire, Repeat, Publish, Post, Deliver, SetRef, BeginClose;
    if Enabled(m, s) {
      match s
      case AddS(h, kind) => AddFlags(m, h, kind);
      case RemoveS(h) => RemoveFlags(m, h);
      case SubmitS(k, o) => SubmitFlags(m, k, o);
      case ArmS(h, k, token, at) => ArmFlags(m, h, k, token, at);
      case OpenS(h, kind, k, o) => OpenFlags(m, h, kind, k, o);
      case RejectS(k, kept) => PlainFlags(m, k, kept, Fired);
      case FinishS(k, result) => FinishFlags(m, k, result);
      case CollectS(i, result) => CollectFlags(m, i, result);
      case EmitS(k, result) => EmitFlags(m, k, result);
      case HouseS(k, conn, taken) => HouseFlags(m, k, conn, taken);
      case CancelS(k, stop) => AskFlags(m, k, stop);
      case ExpireS(k) => AskFlags(m, k, false);
      case DeadlineS(k, at) => SameFlags(m, Apply(m, s));
      case ResetS(h, at) => SameFlags(m, Apply(m, s));
      case RepeatS(h, at) => RepeatFlags(m, h, at);
      case PublishS(k, result) => PlainFlags(m, k, false, result);
      case PostS(token, payload) => PostFlags(m, token, payload);
      case DeliverS => DeliverFlags(m);
      case RefS(h, referenced) => RefFlags(m, h, referenced);
      case CloseS(h, token) => CloseFlags(m, h, token);
    }
  }

  lemma AddFlags(m: Model, h: Key, kind: Kind)
    requires Inv(m) && Flags(m) && h !in m.issuedHandles
    ensures Flags(PutHandle(m, h, NewHandle(kind)))
  {
    hide Inv, Flags;
    Basics(m);
    FlagsKeep(m, PutHandle(m, h, NewHandle(kind)));
  }

  lemma RemoveFlags(m: Model, h: Key)
    requires Inv(m) && Flags(m) && Unmentioned(m.stream, m.out, h)
    ensures Flags(DropHandle(m, h))
  {
    hide Inv, Flags, DropHandle;
    DropOthers(m, h);
    DropHandleStream(m, h);
    FlagsKeep(m, DropHandle(m, h));
  }

  lemma SubmitFlags(m: Model, k: Key, o: Op)
    requires Inv(m) && Flags(m)
    ensures Flags(PutOp(m, k, o))
  {
    hide Inv, Flags, PutOp;
    PutOpReferences(m, k, o);
    FlagsKeep(m, PutOp(m, k, o));
  }

  lemma ArmFlags(m: Model, h: Key, k: Key, token: Token, at: Instant)
    requires Inv(m) && Flags(m)
    ensures Flags(ArmTimer(m, h, k, token, at))
  {
    hide Inv, Flags, ArmTimer;
    ArmReferences(m, h, k, token, at);
    FlagsKeep(m, ArmTimer(m, h, k, token, at));
  }

  lemma OpenFlags(m: Model, h: Key, kind: Kind, k: Key, o: Op)
    requires Inv(m) && Flags(m) && h !in m.issuedHandles
    ensures Flags(PutHidden(m, h, kind, k, o))
  {
    hide Inv, Flags, PutHidden;
    Basics(m);
    OpenReferences(m, h, kind, k, o);
    FlagsKeep(m, PutHidden(m, h, kind, k, o));
  }

  lemma CollectFlags(m: Model, i: nat, result: OpResult)
    requires Inv(m) && Flags(m) && i < |m.ring| && m.ring[i].op in m.ops
    ensures Flags(Collect(m, i, result))
  {
    hide Inv, Flags, Finish;
    FinishFlags(m, m.ring[i].op, result);
    SameFlags(Finish(m, m.ring[i].op, result), Collect(m, i, result));
  }

  lemma EmitFlags(m: Model, k: Key, result: OpResult)
    requires Inv(m) && Flags(m) && k in m.ops
    ensures Flags(Emit(m, k, result))
  {
    hide Inv, Flags;
    FlagsKeep(m, Emit(m, k, result));
  }

  lemma RepeatFlags(m: Model, h: Key, at: Instant)
    requires Inv(m) && Flags(m) && h in m.handles && m.handles[h].ops != [] && m.handles[h].ops[0] in m.ops
    ensures Flags(Repeat(m, h, m.handles[h].ops[0], at))
  {
    hide Inv, Flags, Emit;
    EmitFlags(m, m.handles[h].ops[0], Fired);
    SameFlags(Emit(m, m.handles[h].ops[0], Fired), Repeat(m, h, m.handles[h].ops[0], at));
  }

  lemma PostFlags(m: Model, token: Token, payload: nat)
    requires Inv(m) && Flags(m)
    ensures Flags(Post(m, token, payload))
  {
    hide Inv, Flags;
    FlagsKeep(m, Post(m, token, payload));
  }

  lemma HouseFlags(m: Model, k: Key, conn: Key, taken: bool)
    requires Inv(m) && Flags(m) && k in m.ops && conn !in m.issuedHandles
    ensures Flags(House(m, k, conn, taken))
  {
    hide Inv, Flags, House;
    HouseReferences(m, k, conn, taken);
    FlagsKeep(m, House(m, k, conn, taken));
  }

  lemma AskFlags(m: Model, k: Key, stop: bool)
    requires Flags(m) && k in m.ops
    ensures Flags(MarkCancel(m, k, stop)) && Flags(Expire(m, k))
  {
    hide Flags;
    SameFlags(m, MarkCancel(m, k, stop));
    SameFlags(m, Expire(m, k));
  }

  lemma PlainFlags(m: Model, k: Key, kept: bool, result: OpResult)
    requires Flags(m)
    ensures Flags(Reject(m, k, kept)) && Flags(Publish(m, k, result))
  {
    hide Flags;
    SameFlags(m, Reject(m, k, kept));
    SameFlags(m, Publish(m, k, result));
  }

  lemma SameFlags(m: Model, m': Model)
    requires Flags(m) && m'.stream == m.stream && m'.out == m.out && m'.handles == m.handles
    ensures Flags(m')
  {}

  lemma PutOpReferences(m: Model, k: Key, o: Op)
    ensures
      var m' := PutOp(m, k, o);
      m'.stream == m.stream && m'.out == m.out &&
      forall h :: h in m.handles ==> h in m'.handles && m'.handles[h].referenced == m.handles[h].referenced
  {}

  lemma ArmReferences(m: Model, h: Key, k: Key, token: Token, at: Instant)
    ensures
      var m' := ArmTimer(m, h, k, token, at);
      m'.stream == m.stream && m'.out == m.out &&
      forall h :: h in m.handles ==> h in m'.handles && m'.handles[h].referenced == m.handles[h].referenced
  {}

  lemma OpenReferences(m: Model, h: Key, kind: Kind, k: Key, o: Op)
    requires h !in m.handles
    ensures
      var m' := PutHidden(m, h, kind, k, o);
      m'.stream == m.stream && m'.out == m.out &&
      forall x :: x in m.handles ==> x in m'.handles && m'.handles[x].referenced == m.handles[x].referenced
  {}

  lemma CloseFlags(m: Model, h: Key, token: Token)
    requires Inv(m) && Flags(m) && h in m.handles && m.handles[h].closing.None?
    ensures Flags(BeginClose(m, h, token))
  {
    hide Inv, Flags;
    KeptAt(m, h);
    CloseReports(m, h, token);
    CloseOut(m, h, token);
    assert forall x :: x in m.handles && x != h ==>
             x in BeginClose(m, h, token).handles && BeginClose(m, h, token).handles[x] == m.handles[x];
    hide BeginClose;
    FlagsKeep(m, BeginClose(m, h, token));
  }

  /** Over every run, each operation's result the host has not received keeps the loop alive exactly
      if it belongs to no handle or to a referenced one. */
  lemma {:induction false} ReachedFlags(cfg: Config, trace: seq<Step>)
    ensures
      var m := Reached(cfg, trace);
      Flags(m) &&
      forall i :: m.out <= i < |m.stream| && m.stream[i].completion.terminal && m.stream[i].completion.op.Some? ==>
        (m.stream[i].referenced <==>
           m.stream[i].completion.handle.None? ||
           (m.stream[i].completion.handle.value in m.handles && m.handles[m.stream[i].completion.handle.value].referenced))
    decreases |trace|
  {
    hide Apply, Inv;
    if trace != [] {
      var before, last := trace[..|trace| - 1], trace[|trace| - 1];
      assert trace == before + [last];
      ReachedFlags(cfg, before);
      ReachedInv(cfg, before);
      ReachedMore(cfg, before, last);
      StepFlags(Reached(cfg, before), last);
    }
  }

  /** So the reference count is zero exactly when the loop is idle, over every run. */
  lemma ReachedLiveness(cfg: Config, trace: seq<Step>)
    ensures Liveness(Reached(cfg, trace)) == 0 <==> Idle(Reached(cfg, trace))
  {
    hide Reached, Inv, Idle, Liveness;
    ReachedInv(cfg, trace);
    ReachedFlags(cfg, trace);
    NamesLive(Reached(cfg, trace));
    LivenessExact(Reached(cfg, trace));
  }

  // ------------------------------------------------------------------- events

  /** What an event of a live operation that nobody asked to end is reported as: the backend's own
      result, the new handle if there was a slot and the backend adopted the transport, or why not. */
  lemma EventReports(m: Model, e: Event)
    requires Inv(m) && Honest(m, e) && Count(Class(NATIVE_EVENTS), m.stream, m.out) < m.cfg.eventsPerTurn
    requires e.op in m.ops && !m.ops[e.op].cancel && !m.ops[e.op].fs
    ensures
      var m', n, o := AcceptEvent(m, e), |m.stream|, m.ops[e.op];
      var result :=
        match e.outcome
        case Done(result) => result
        case Transport(conn, taken) =>
          if o.multishot && m.free - HeldCount(m.ops) < 1 then Failed(ResourceLimit)
          else if taken then Housed(conn)
          else Failed(Other(1));
      && n < |m'.stream| && m'.stream[..n] == m.stream
      && m'.stream[n].completion == Completion(o.token, Some(e.op), o.handle, e.terminal, result)
      && (result.Housed? && e.outcome.Transport? ==>
            result.conn in m'.handles && m'.handles[result.conn] == Handle(Socket, false, true, None, false, []))
  {
    hide Inv, Finish, Emit, House, HeldCount, Count, HouseResult;
    var k, o := e.op, m.ops[e.op];
    SourceAt(m, k);
    if e.outcome.Done? {
      FinishReports(m, k, e.outcome.result);
      EmitReports(m, k, e.outcome.result);
    } else {
      TransportReports(m, e);
    }
  }

  lemma TransportReports(m: Model, e: Event)
    requires Inv(m) && Honest(m, e) && Count(Class(NATIVE_EVENTS), m.stream, m.out) < m.cfg.eventsPerTurn && Connects(m, e)
    ensures
      var n, o, conn := |m.stream|, m.ops[e.op], e.outcome.conn;
      var result :=
        if o.multishot && m.free - HeldCount(m.ops) < 1 then Failed(ResourceLimit)
        else if e.outcome.taken then Housed(conn)
        else Failed(Other(1));
      var m1 := House(m, e.op, conn, e.outcome.taken);
      && e.op in m1.ops && HouseResult(m, e.op, conn, e.outcome.taken) == result
      && var m' := Report(m1, e, result);
         && n < |m'.stream| && m'.stream[..n] == m.stream
         && m'.stream[n].completion == Completion(o.token, Some(e.op), o.handle, e.terminal, result)
         && (result.Housed? ==> conn in m'.handles && m'.handles[conn] == Handle(Socket, false, true, None, false, []))
  {
    hide Inv, Finish, Emit, House, HeldCount, Count, Room, Release;
    var k, o, conn, taken := e.op, m.ops[e.op], e.outcome.conn, e.outcome.taken;
    ConnectionHasRoom(m, e);
    HouseConn(m, k, conn, taken);
    HouseKeeps(m, k, conn, taken);
    var m1 := House(m, k, conn, taken);
    SourceAt(m1, k);
    var result := HouseResult(m, k, conn, taken);
    FinishReports(m1, k, result);
    Basics(m);
    ListedOp(m, k);
    if result.Housed? { FinishOthers(m1, k, result, conn); }
    EmitReports(m1, k, result);
  }

  /** Housing keeps the operation's identity, and a housed transport is a new referenced socket. */
  lemma HouseKeeps(m: Model, k: Key, conn: Key, taken: bool)
    requires Inv(m) && k in m.ops && conn !in m.issuedHandles
    ensures
      var m' := House(m, k, conn, taken);
      && k in m'.ops && m'.ops[k] == m.ops[k].(held := m'.ops[k].held) && m'.stream == m.stream && m'.out == m.out
      && (forall h :: h in m.handles ==> h in m'.handles && m'.handles[h] == m.handles[h])
      && (taken && Room(Release(m, k)) ==>
            m'.free == m.free - 1 && conn in m'.handles && m'.handles[conn] == Handle(Socket, false, true, None, false, []))
      && (!m.ops[k].multishot ==> !m'.ops[k].held)
  {
    hide Inv, House, Place, Release, Room;
    HouseReferences(m, k, conn, taken);
    HouseEffect(m, k, conn, taken);
    ReleaseKeeps(m, k);
    if taken && Room(Release(m, k)) { HousePlaces(m, k, conn, taken); }
  }

  lemma ReleaseKeeps(m: Model, k: Key)
    requires k in m.ops
    ensures k in Release(m, k).ops && Release(m, k).ops[k] == m.ops[k].(held := Release(m, k).ops[k].held)
    ensures (!m.ops[k].multishot ==> !Release(m, k).ops[k].held) && Release(m, k).free == m.free
  {
    if m.ops[k].multishot { assert Release(m, k).ops == m.ops; }
    else { assert Release(m, k).ops == m.ops[k := m.ops[k].(held := false)]; }
  }

  lemma HousePlaces(m: Model, k: Key, conn: Key, taken: bool)
    requires k in m.ops && taken && Room(Release(m, k))
    ensures
      var m' := House(m, k, conn, taken);
      m'.free == m.free - 1 && conn in m'.handles && m'.handles[conn] == Handle(Socket, false, true, None, false, [])
  {
    ReleaseKeeps(m, k);
    RoomIs(Release(m, k));
    hide Room, Refill, Release;
    RefillHandles(Place(Release(m, k), conn, taken));
  }

  /** Ending an operation leaves every other handle as it was. */
  lemma FinishOthers(m: Model, k: Key, result: OpResult, h: Key)
    requires Inv(m) && k in m.ops && m.ops[k].handle != Some(h) && h in m.handles
    ensures h in Finish(m, k, result).handles && Finish(m, k, result).handles[h] == m.handles[h]
  {
    hide Inv, Settle, Without, ArmedCount, EndEntry;
    ListedOp(m, k);
    if m.ops[k].handle.Some? {
      UnsettledOp(m, k);
      SettleIs(End(m, k, result), m.ops[k].handle.value, result);
    }
  }

  /** An event of an operation that was asked to end acknowledges that if it is the last, and is
      dropped otherwise; a stale event changes nothing. */
  lemma EventAcknowledges(m: Model, e: Event)
    requires Inv(m) && Honest(m, e)
    ensures e.op !in m.ops ==> AcceptEvent(m, e) == m
    ensures
      e.op in m.ops && m.ops[e.op].cancel ==>
        if !e.terminal then AcceptEvent(m, e) == m
        else
          var m', n, o := AcceptEvent(m, e), |m.stream|, m.ops[e.op];
          && n < |m'.stream| && m'.stream[..n] == m.stream
          && m'.stream[n].completion.token == o.token && m'.stream[n].completion.op == Some(e.op) && m'.stream[n].completion.terminal
          && m'.stream[n].completion.result ==
               if o.fs then Cancelled else if o.timedOut then Failed(TimedOut) else if o.stop then Stopped else Cancelled
  {
    hide Inv, Finish;
    if e.op in m.ops && m.ops[e.op].cancel && e.terminal {
      FinishReports(m, e.op, if m.ops[e.op].fs then Cancelled else Verdict(m.ops[e.op]));
    }
  }

  /** A filesystem request reports the backend's answer; a handle it was opening is named only if the
      open succeeded. */
  lemma FsReports(m: Model, e: Event)
    requires Inv(m) && Honest(m, e) && e.op in m.ops && m.ops[e.op].fs && !m.ops[e.op].cancel
    ensures m.ops[e.op].handle.Some? ==> m.ops[e.op].handle.value in m.handles
    ensures
      var m', n, o := AcceptEvent(m, e), |m.stream|, m.ops[e.op];
      var result := match e.outcome case Done(result) => result case Transport(_, _) => Failed(Other(0));
      var opening := o.handle.Some? && m.handles[o.handle.value].hidden;
      && n < |m'.stream| && m'.stream[..n] == m.stream
      && m'.stream[n].completion ==
           Completion(o.token, Some(e.op), if opening && !result.Opened? then None else o.handle, true, result)
  {
    hide Inv, Finish;
    FinishReports(m, e.op, FsResult(m.ops[e.op], e));
  }

  lemma {:induction false} AcceptSplit(m: Model, events: seq<Event>, j: nat)
    requires j <= |events|
    ensures AcceptAll(m, events) == AcceptAll(AcceptAll(m, events[..j]), events[j..])
    decreases j
  {
    hide AcceptEvent;
    if j > 0 {
      AcceptSplit(AcceptEvent(m, events[0]), events[1..], j - 1);
      assert events[..j][0] == events[0] && events[..j][1..] == events[1..][..j - 1] && events[1..][j - 1..] == events[j..];
    } else {
      assert events[..0] == [] && events[0..] == events;
    }
  }

  /** After part of a batch, the rest is still one, and operations it left are untouched. */
  lemma {:induction false} BatchPart(m: Model, events: seq<Event>, j: nat)
    requires Inv(m) && Batch(m, events) && Spends(m, events) <= Budget(m) && j <= |events|
    ensures
      var m' := AcceptAll(m, events[..j]);
      && Inv(m') && Batch(m', events[j..]) && Spends(m', events[j..]) <= Budget(m')
      && forall k :: k in m'.ops ==> k in m.ops && m'.ops[k] == m.ops[k]
    decreases j
  {
    hide Inv, AcceptEvent, Budget, Count, Honest;
    if j == 0 {
      assert events[..0] == [] && events[0..] == events;
    } else {
      var e := events[0];
      var m1 := AcceptEvent(m, e);
      assert Honest(m, e);
      EventSettles(m, e);
      BatchRest(m, events, m1);
      Survivors(m, m1, events);
      assert Spends(m1, events[1..]) <= Budget(m1);
      BatchPart(m1, events[1..], j - 1);
      assert events[..j][0] == e && events[..j][1..] == events[1..][..j - 1] && events[1..][j - 1..] == events[j..];
    }
  }

  /** In a whole batch, each event whose operation is still live at its turn and was not asked to end
      is reported as itself, with the token and handle the operation had before the poll. */
  lemma BatchReports(m: Model, events: seq<Event>, j: nat)
    requires Inv(m) && Batch(m, events) && Spends(m, events) <= Budget(m) && j < |events|
    requires
      var k, mj := events[j].op, AcceptAll(m, events[..j]);
      k in mj.ops && !mj.ops[k].cancel && !mj.ops[k].fs
    ensures
      var e, mj, m' := events[j], AcceptAll(m, events[..j]), AcceptAll(m, events);
      && e.op in m.ops && |mj.stream| < |m'.stream|
      && m'.stream[|mj.stream|].completion ==
           Completion(m.ops[e.op].token, Some(e.op), m.ops[e.op].handle, e.terminal,
             match e.outcome
             case Done(result) => result
             case Transport(conn, taken) => if taken then Housed(conn) else Failed(Other(1)))
  {
    hide Inv, AcceptEvent, AcceptAll, Batch, Spends, Budget, Extends, AllHoused;
    var e, mj := events[j], AcceptAll(m, events[..j]);
    BatchPart(m, events, j);
    BatchHead(mj, events[j..]);
    EventReports(mj, e);
    AcceptSplit(m, events, j);
    AcceptSplit(mj, events[j..], 1);
    var m1 := AcceptEvent(mj, e);
    assert AcceptAll(mj, events[j..][..1]) == m1 by { AcceptOne(mj, events[j..]); }
    BatchPart(mj, events[j..], 1);
    BatchHoused(m1, events[j..][1..]);
    assert Extended(m1, AcceptAll(m, events)) by { ExtendedBy(m1, AcceptAll(m, events)); }
  }

  ghost predicate Extended(m: Model, m': Model) {
    |m.stream| <= |m'.stream| && forall i :: 0 <= i < |m.stream| ==> m'.stream[i].completion == m.stream[i].completion
  }

  lemma ExtendedBy(m: Model, m': Model)
    requires Extends(m, m')
    ensures Extended(m, m')
  {}

  lemma AcceptOne(m: Model, events: seq<Event>)
    requires events != []
    ensures AcceptAll(m, events[..1]) == AcceptEvent(m, events[0])
  {
    hide AcceptEvent;
    assert events[..1][0] == events[0] && events[..1][1..] == [];
  }

  /** The first event of a batch is honest, there is room to report it, and its connection has a slot. */
  lemma BatchHead(m: Model, events: seq<Event>)
    requires Batch(m, events) && events != [] && Spends(m, events) <= Budget(m)
    ensures Honest(m, events[0]) && Count(Class(NATIVE_EVENTS), m.stream, m.out) < m.cfg.eventsPerTurn
    ensures events[0].outcome.Transport? && events[0].op in m.ops && m.ops[events[0].op].multishot ==> m.free - HeldCount(m.ops) >= 1
  {
    hide Honest, Count, HeldCount;
  }

  // ------------------------------------------------------------------- timers

  /** A due timer reports that it fired: for the last time if it does not repeat, and otherwise once
      more, armed again one period after `now`. One whose next time the clock cannot express ends with
      an error. */
  lemma FireReports(m: Model, h: Key, now: Instant)
    requires Inv(m) && h in m.timers
    ensures h in m.handles && m.handles[h].kind.Timer? && |m.handles[h].ops| == 1 && m.handles[h].ops[0] in m.ops
    ensures
      var m', n, k, repeat := Fire(m, h, now), |m.stream|, m.handles[h].ops[0], m.handles[h].kind.repeat;
      var again := repeat.Some? && now + repeat.value <= m.cfg.horizon;
      && n < |m'.stream| && m'.stream[..n] == m.stream
      && m'.stream[n].completion ==
           Completion(m.ops[k].token, Some(k), Some(h), !again, if repeat.None? || again then Fired else Failed(InvalidInput))
      && (h in m'.timers <==> again) && (again ==> m'.timers[h] == now + repeat.value)
      && (k in m'.ops <==> again)
  {
    hide Inv, Finish;
    TimerAt(m, h);
    Basics(m);
    var k := m.handles[h].ops[0];
    FinishReports(m, k, Fired);
    FinishReports(m, k, Failed(InvalidInput));
    FinishTimers(m, k, h, Fired);
    FinishTimers(m, k, h, Failed(InvalidInput));
    FinishExtends(m, k, Fired);
    FinishExtends(m, k, Failed(InvalidInput));
  }

  /** Firing one timer is `FiredOnce`, and leaves every other timer as it was. */
  lemma FireOnce(m: Model, h: Key, now: Instant)
    requires Inv(m) && h in m.timers
    ensures h in m.handles && m.handles[h].kind.Timer? && m.handles[h].ops != [] && m.handles[h].ops[0] in m.ops
    ensures
      var m' := Fire(m, h, now);
      && m'.cfg == m.cfg && |m.stream| <= |m'.stream| && FiredOnce(m, m', h, now)
      && (forall n :: 0 <= n < |m.stream| ==> m'.stream[n] == m.stream[n])
      && (forall x :: x != h ==> (x in m'.timers <==> x in m.timers))
      && (forall x :: x != h && x in m'.timers ==> m'.timers[x] == m.timers[x] && Untouched(m, m', x))
  {
    hide Inv, Fire, Untouched;
    FireReports(m, h, now);
    FireDeadlines(m, h, now);
    var m' := Fire(m, h, now);
    assert forall n :: 0 <= n < |m.stream| ==> m'.stream[n] == m'.stream[..|m.stream|][n];
    forall x | x != h && x in m'.timers ensures Untouched(m, m', x) { FireUntouched(m, h, now, x); }
    FireConfig(m, h, now);
  }

  lemma FireConfig(m: Model, h: Key, now: Instant)
    requires Inv(m) && h in m.timers && h in m.handles && m.handles[h].kind.Timer? && m.handles[h].ops != [] && m.handles[h].ops[0] in m.ops
    ensures Fire(m, h, now).cfg == m.cfg
  {
    hide Inv, Finish;
    FinishExtends(m, m.handles[h].ops[0], Fired);
    FinishExtends(m, m.handles[h].ops[0], Failed(InvalidInput));
  }

  lemma FireUntouched(m: Model, h: Key, now: Instant, x: Key)
    requires Inv(m) && h in m.timers && x in m.timers && x != h
    requires h in m.handles && m.handles[h].kind.Timer? && m.handles[h].ops != [] && m.handles[h].ops[0] in m.ops
    ensures Untouched(m, Fire(m, h, now), x)
  {
    hide Inv, Finish;
    TimerAt(m, h);
    TimerAt(m, x);
    var k := m.handles[h].ops[0];
    FinishOthers(m, k, Fired, x);
    FinishOthers(m, k, Failed(InvalidInput), x);
    FinishExtends(m, k, Fired);
    FinishExtends(m, k, Failed(InvalidInput));
  }

  lemma TimersWhole(m: Model)
    requires Inv(m)
    ensures forall x :: x in m.timers ==> Untouched(m, m, x)
  {
    hide Inv;
    forall x | x in m.timers ensures Untouched(m, m, x) { TimerAt(m, x); }
  }

  /** Cancelling or stopping a timer ends it at once and reports just that. */
  lemma TimerEndReports(m: Model, k: Key, stop: bool)
    requires Inv(m) && k in m.ops && IsTimer(m.handles, m.ops[k])
    ensures
      var m', n := Finish(m, k, CancelledAs(stop)), |m.stream|;
      && n < |m'.stream| && m'.stream[..n] == m.stream
      && m'.stream[n].completion ==
           Completion(m.ops[k].token, Some(k), m.ops[k].handle, true, if stop then Stopped else Cancelled)
  {
    hide Inv, Finish;
    KeptAt(m, m.ops[k].handle.value);
    FinishReports(m, k, CancelledAs(stop));
  }

  // ------------------------------------------------------------------ workers

  /** A published result is reported as it is, or as the cancellation it came too late for. */
  lemma JobReports(m: Model, i: nat)
    requires Inv(m) && i < |m.ring|
    ensures m.ring[i].op in m.ops
    ensures m.ops[m.ring[i].op].handle.Some? ==> m.ops[m.ring[i].op].handle.value in m.handles
    ensures
      var k, n := m.ring[i].op, |m.stream|;
      var o := m.ops[k];
      var m' := Collect(m, i, WorkResult(o, m.ring[i].result));
      var result :=
        if o.cancel then (if o.stop && !o.fs then Stopped else Cancelled)
        else if m.ring[i].result.Closed? || m.ring[i].result.Posted? then Failed(Other(0))
        else m.ring[i].result;
      var opening := o.handle.Some? && m.handles[o.handle.value].hidden;
      && n < |m'.stream| && m'.stream[..n] == m.stream && k !in m'.ops && m'.ring == m.ring[..i] + m.ring[i + 1..]
      && m'.stream[n].completion ==
           Completion(o.token, Some(k), if opening && !result.Opened? then None else o.handle, true, result)
  {
    hide Inv, Finish;
    PortHere(m, i);
    FinishReports(m, m.ring[i].op, WorkResult(m.ops[m.ring[i].op], m.ring[i].result));
    FinishExtends(m, m.ring[i].op, WorkResult(m.ops[m.ring[i].op], m.ring[i].result));
  }

  /** Over every run, whatever is in the ring is what its worker published. */
  lemma {:induction false} RingCaused(cfg: Config, trace: seq<Step>)
    ensures var ring := Reached(cfg, trace).ring; forall i :: 0 <= i < |ring| ==> PublishS(ring[i].op, ring[i].result) in trace
    decreases |trace|
  {
    hide Apply, Inv;
    if trace != [] {
      var before, last := trace[..|trace| - 1], trace[|trace| - 1];
      assert trace == before + [last];
      RingCaused(cfg, before);
      ReachedInv(cfg, before);
      ReachedMore(cfg, before, last);
      StepRing(Reached(cfg, before), last);
    }
  }

  /** Only a publication adds to the ring. */
  lemma StepRing(m: Model, s: Step)
    requires Inv(m)
    ensures forall w :: w in Apply(m, s).ring ==> w in m.ring || s == PublishS(w.op, w.result)
  {
    hide Inv, Room, CanSubmit, Count, PortCount, ArmedCount, Outstanding, Verdict, WorkResult, Unmentioned, Exhausted;
    hide Finish, House, BeginClose, SetRef, Deliver;
    if Enabled(m, s) {
      match s
      case FinishS(k, result) => FinishExtends(m, k, result);
      case CollectS(i, result) => FinishExtends(m, m.ring[i].op, result);
      case HouseS(k, conn, taken) => HouseEffect(m, k, conn, taken);
      case DeliverS => DeliverRing(m);
      case RefS(h, referenced) => RefRing(m, h, referenced);
      case CloseS(h, token) => CloseRing(m, h, token);
      case _ =>
    }
  }

  lemma DeliverRing(m: Model)
    requires m.out < |m.stream|
    ensures Deliver(m).ring == m.ring
  {
    hide Exhausted;
  }

  lemma RefRing(m: Model, h: Key, referenced: bool)
    requires h in m.handles
    ensures SetRef(m, h, referenced).ring == m.ring
  {}

  lemma CloseRing(m: Model, h: Key, token: Token)
    requires h in m.handles
    ensures BeginClose(m, h, token).ring == m.ring
  {}

  /** A result stays in the ring until the loop collects it, which ends its operation. */
  lemma RingStays(m: Model, s: Step, w: Work)
    requires Inv(m) && w in m.ring
    ensures w in Apply(m, s).ring || w.op !in Apply(m, s).ops
  {
    hide Inv, Room, CanSubmit, Count, PortCount, ArmedCount, Outstanding, Verdict, WorkResult, Unmentioned, Exhausted;
    hide Finish, House, BeginClose, SetRef, Deliver;
    if Enabled(m, s) {
      match s
      case FinishS(k, result) => FinishExtends(m, k, result);
      case CollectS(i, result) =>
        FinishExtends(m, m.ring[i].op, result);
        var j :| 0 <= j < |m.ring| && m.ring[j] == w;
        var rest := m.ring[..i] + m.ring[i + 1..];
        if j < i { assert rest[j] == w; } else if j > i { assert rest[j - 1] == w; }
      case HouseS(k, conn, taken) => HouseEffect(m, k, conn, taken);
      case DeliverS => DeliverRing(m);
      case RefS(h, referenced) => RefRing(m, h, referenced);
      case CloseS(h, token) => CloseRing(m, h, token);
      case PublishS(k, result) => assert forall x :: x in m.ring ==> x in m.ring + [Work(k, result)];
      case _ =>
    }
  }

  /** Work for the ring reports nothing but what is collected from it. */
  lemma StepJob(m: Model, s: Step, k: Key, i: nat)
    requires Inv(m) && k in m.ops && m.ops[k].port
    requires |m.stream| <= i < |Apply(m, s).stream| && Apply(m, s).stream[i].completion.op == Some(k)
    ensures s.CollectS? && s.i < |m.ring| && m.ring[s.i].op == k && i == |m.stream| && Enabled(m, s)
  {
    hide Inv, Room, CanSubmit, Count, PortCount, ArmedCount, Outstanding, Verdict, WorkResult, Unmentioned;
    hide PutHandle, DropHandle, PutOp, ArmTimer, PutHidden, Reject, Finish, House;
    hide MarkCancel, Expire, Publish, Deliver, SetRef, BeginClose;
    if Enabled(m, s) {
      match s
      case AddS(h, kind) => PutHandleStream(m, h, NewHandle(kind));
      case RemoveS(h) => DropHandleStream(m, h);
      case SubmitS(k', o) => PutOpStream(m, k', o);
      case ArmS(h, k', token, at) => ArmStream(m, h, k', token, at);
      case OpenS(h, kind, k', o) => OpenStream(m, h, kind, k', o);
      case RejectS(k', kept) => PlainStream(m, k', kept, Fired);
      case FinishS(k', result) => FinishStream(m, k', result);
      case CollectS(j, result) => FinishStream(m, m.ring[j].op, result);
      case EmitS(k', result) => SourceAt(m, k');
      case HouseS(k', conn, taken) => HouseStream(m, k', conn, taken);
      case CancelS(k', stop) => FlagStream(m, k', stop);
      case ExpireS(k') => FlagStream(m, k', false);
      case RepeatS(h, at) => TimerAt(m, h);
      case PublishS(k', result) => PlainStream(m, k', false, result);
      case DeliverS => DeliverStream(m);
      case RefS(h, referenced) => RefStream(m, h, referenced);
      case CloseS(h, token) => CloseStream(m, h, token);
      case _ =>
    }
  }

  lemma CloseStream(m: Model, h: Key, token: Token)
    requires h in m.handles
    ensures
      var s := BeginClose(m, h, token).stream;
      s == m.stream || (|s| == |m.stream| + 1 && s[|m.stream|].completion.op.None?)
  {
    hide MaybeClosed;
    ClosedStream(m.(handles := m.handles[h := m.handles[h].(closing := Some(token))]), h);
  }

  /** Over any run, work whose result was published and which nobody asked to end reports exactly the
      result its worker published, once, under its own token. */
  lemma {:induction false} JobReported(cfg: Config, trace: seq<Step>, k: Key, result: OpResult, rest: seq<Step>, i: nat)
    requires k in Reached(cfg, trace).ops && Work(k, result) in Reached(cfg, trace).ring && OpOutcome(result)
    requires forall s :: s in trace + rest ==> s != ExpireS(k) && !(s.CancelS? && s.k == k)
    requires |Reached(cfg, trace).stream| <= i < |After(Reached(cfg, trace), rest).stream|
    requires After(Reached(cfg, trace), rest).stream[i].completion.op == Some(k)
    ensures
      var c, o := After(Reached(cfg, trace), rest).stream[i].completion, Reached(cfg, trace).ops[k];
      c.token == o.token && c.terminal && c.result == result
    decreases |rest|
  {
    hide Apply, Reached, Inv, Extends;
    var m := Reached(cfg, trace);
    if rest != [] {
      var before, last := rest[..|rest| - 1], rest[|rest| - 1];
      var mid := After(m, before);
      assert After(m, rest) == AfterLast(m, rest) == Apply(mid, last);
      assert forall s :: s in trace + before ==> s in trace + rest;
      if i < |mid.stream| {
        ReachedInv(cfg, trace);
        RunSafe(m, before);
        StepSafe(mid, last);
        ExtendedBy(mid, After(m, rest));
        JobReported(cfg, trace, k, result, before, i);
      } else {
        JobLast(cfg, trace, k, result, before, last, i);
      }
    }
  }

  lemma JobLast(cfg: Config, trace: seq<Step>, k: Key, result: OpResult, before: seq<Step>, last: Step, i: nat)
    requires k in Reached(cfg, trace).ops && Work(k, result) in Reached(cfg, trace).ring && OpOutcome(result)
    requires forall s :: s in trace + before ==> s != ExpireS(k) && !(s.CancelS? && s.k == k)
    requires
      var mid := After(Reached(cfg, trace), before);
      |mid.stream| <= i < |Apply(mid, last).stream| && Apply(mid, last).stream[i].completion.op == Some(k)
    ensures
      var c := Apply(After(Reached(cfg, trace), before), last).stream[i].completion;
      c.token == Reached(cfg, trace).ops[k].token && c.terminal && c.result == result
  {
    hide Reached, Inv, Apply, Enabled, Collect, WorkResult, Extends, After;
    var m := Reached(cfg, trace);
    var mid := After(m, before);
    ReachedInv(cfg, trace);
    RunSafe(m, before);
    StillSpoken(m, mid, last, k, i);
    WorkStays(cfg, trace, before, k, result);
    IdentityStands(cfg, trace, before, k);
    var j :| 0 <= j < |mid.ring| && mid.ring[j] == Work(k, result);
    PortHere(mid, j);
    StepJob(mid, last, k, i);
    assert last.i == j by { RingOnce(mid, last.i, j); }
    JobReports(mid, j);
    CollectedAs(mid, last);
    NeverAsked(cfg, trace, before, k);
  }

  lemma StillSpoken(m: Model, mid: Model, last: Step, k: Key, i: nat)
    requires Inv(m) && Inv(mid) && Extends(m, mid) && k in m.ops
    requires |mid.stream| <= i < |Apply(mid, last).stream| && Apply(mid, last).stream[i].completion.op == Some(k)
    ensures k in mid.ops
  {
    hide Inv, Apply;
    StepSafe(mid, last);
    Basics(m);
    assert Speaks(mid, Apply(mid, last).stream[i].completion);
  }

  lemma RingOnce(m: Model, i: nat, j: nat)
    requires Inv(m) && i < |m.ring| && j < |m.ring| && m.ring[i].op == m.ring[j].op
    ensures i == j
  {
    hide InvCore;
  }

  lemma CollectedAs(m: Model, s: Step)
    requires s.CollectS? && Enabled(m, s)
    ensures s.i < |m.ring| && m.ring[s.i].op in m.ops
    ensures Apply(m, s) == Collect(m, s.i, WorkResult(m.ops[m.ring[s.i].op], m.ring[s.i].result))
  {
    hide Collect, WorkResult;
  }

  lemma NeverAsked(cfg: Config, trace: seq<Step>, before: seq<Step>, k: Key)
    requires forall s :: s in trace + before ==> s != ExpireS(k) && !(s.CancelS? && s.k == k)
    ensures var mid := After(Reached(cfg, trace), before); k in mid.ops ==> !mid.ops[k].cancel
  {
    hide Apply;
    AfterConcat(Init(cfg), trace, before);
    var mid := Reached(cfg, trace + before);
    if k in mid.ops && mid.ops[k].cancel { VerdictCaused(cfg, trace + before, k); }
  }

  lemma {:induction false} WorkStays(cfg: Config, trace: seq<Step>, before: seq<Step>, k: Key, result: OpResult)
    requires k in Reached(cfg, trace).ops && Work(k, result) in Reached(cfg, trace).ring
    ensures var mid := After(Reached(cfg, trace), before); k in mid.ops ==> Work(k, result) in mid.ring
    decreases |before|
  {
    hide Apply, Reached, Inv, Extends;
    var m := Reached(cfg, trace);
    if before != [] {
      var mid, last := After(m, before[..|before| - 1]), before[|before| - 1];
      WorkStays(cfg, trace, before[..|before| - 1], k, result);
      ReachedInv(cfg, trace);
      RunSafe(m, before[..|before| - 1]);
      assert After(m, before) == AfterLast(m, before) == Apply(mid, last);
      if k in After(m, before).ops {
        StillLive(cfg, trace, before, k);
        RingStays(mid, last, Work(k, result));
      }
    }
  }

  // -------------------------------------------------------------- slots, handles

  /** A refilled pool is as full as it can be: every armed accept has a slot, or no free slot is left
      that nobody was promised. */
  lemma RefillMaximal(m: Model)
    requires HeldCount(m.ops) + m.promised <= m.free && m.promised <= ArmedCount(m.ops)
    ensures
      var m' := Refill(m);
      && m' == m.(promised := m'.promised) && m.promised <= m'.promised <= ArmedCount(m.ops)
      && HeldCount(m.ops) + m'.promised <= m.free
      && (m'.promised == ArmedCount(m.ops) || HeldCount(m.ops) + m'.promised == m.free)
  {}

  /** A new handle is visible, referenced, open and has no operation; it takes one free slot. */
  lemma HandleStarts(m: Model, h: Key, kind: Kind)
    requires m.free > 0
    ensures
      var m' := PutHandle(m, h, NewHandle(kind));
      && m'.handles == m.handles[h := Handle(kind, false, true, None, false, [])] && m'.free == m.free - 1
      && m' == m.(handles := m'.handles, free := m'.free, issuedHandles := m.issuedHandles + {h})
  {}

  /** A handle that goes leaves its slot free, unless that was the slot's last generation. */
  lemma HandleGoes(m: Model, h: Key)
    ensures
      DropHandle(m, h) == m.(handles := m.handles - {h}, free := m.free + (if h / 0x1_0000_0000 >= 0xFFFF_FFFF then 0 else 1))
  {}

  /** An operation that is entered stands last in its handle's list; a multishot accept adds a slot to
      the pool and work for the ring is owed. */
  lemma OpStarts(m: Model, k: Key, o: Op)
    requires o.handle.Some? ==> o.handle.value in m.handles
    ensures
      var m' := PutOp(m, k, o);
      && m'.ops == m.ops[k := o] && m'.issuedOps == m.issuedOps + {k}
      && m'.promised == m.promised + (if o.multishot then 1 else 0)
      && m'.inflight == (if o.port then m.inflight + {k} else m.inflight)
      && m'.handles.Keys == m.handles.Keys
      && (forall h :: h in m.handles ==>
            m'.handles[h] == m.handles[h].(ops := if o.handle == Some(h) then m.handles[h].ops + [k] else m.handles[h].ops))
      && m' == m.(ops := m'.ops, issuedOps := m'.issuedOps, promised := m'.promised, inflight := m'.inflight, handles := m'.handles)
  {}

  /** A timer is armed for just the time asked for, with the token given. */
  lemma TimerStarts(m: Model, h: Key, k: Key, token: Token, at: Instant)
    requires h in m.handles
    ensures
      var m' := ArmTimer(m, h, k, token, at);
      && m'.timers == m.timers[h := at]
      && m'.ops == m.ops[k := Op(Some(h), token, false, false, false, false, false, false, false, false)]
      && h in m'.handles && m'.handles[h] == m.handles[h].(ops := m.handles[h].ops + [k])
  {}

  /** A socket or file that is there and referenced keeps the loop alive by itself. */
  lemma HandleAlive(m: Model, h: Key)
    requires h in m.handles && m.handles[h].referenced && (!m.handles[h].kind.Timer? || m.handles[h].closing.Some?)
    ensures !Idle(m)
  {}

  /** Changing a handle's reference changes just that, and what is queued of it follows. */
  lemma ReferenceReports(m: Model, h: Key, referenced: bool)
    requires h in m.handles
    ensures
      var m' := SetRef(m, h, referenced);
      && m'.handles == m.handles[h := m.handles[h].(referenced := referenced)] && |m'.stream| == |m.stream|
      && m' == m.(handles := m'.handles, stream := m'.stream)
      && forall i :: 0 <= i < |m.stream| ==> m'.stream[i].completion == m.stream[i].completion
  {
    if m.handles[h].referenced == referenced { assert m.handles[h := m.handles[h].(referenced := referenced)] == m.handles; }
  }
}
