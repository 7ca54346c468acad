/** Whole runs of the loop: any sequence of steps, whatever the backend, the workers
    and the host do. A step that is not enabled changes nothing. */
module LoopRuns {
  import opened Types
  import opened LoopModel
  import opened LoopSteps

  datatype Step =
    | AddS(h: Key, kind: Kind)
    | RemoveS(h: Key)
    | SubmitS(k: Key, o: Op)
    | ArmS(h: Key, k: Key, token: Token, at: Instant)
    | OpenS(h: Key, kind: Kind, k: Key, o: Op)
    | RejectS(k: Key, kept: bool)
    | FinishS(k: Key, result: OpResult)
    | CollectS(i: nat, result: OpResult)
    | EmitS(k: Key, result: OpResult)
    | HouseS(k: Key, conn: Key, taken: bool)
    | CancelS(k: Key, stop: bool)
    | ExpireS(k: Key)
    | DeadlineS(k: Key, at: Instant)
    | ResetS(h: Key, at: Instant)
    | RepeatS(h: Key, at: Instant)
    | PublishS(k: Key, result: OpResult)
    | PostS(token: Token, payload: nat)
    | DeliverS
    | RefS(h: Key, referenced: bool)
    | CloseS(h: Key, token: Token)

  ghost predicate Enabled(m: Model, s: Step) {
    match s
    case AddS(h, kind) => Room(m) && h !in m.issuedHandles && kind != Timer(Some(0))
    case RemoveS(h) =>
      && h in m.handles && m.handles[h].ops == [] && m.handles[h].closing.None?
      && Unmentioned(m.stream, m.out, h)
    case SubmitS(k, o) => k !in m.issuedOps && CanSubmit(m, o)
    case ArmS(h, k, _, _) =>
      && k !in m.issuedOps && Outstanding(m) < m.cfg.maxOperations
      && h in m.handles && m.handles[h].kind.Timer? && m.handles[h].ops == [] && m.handles[h].closing.None?
    case OpenS(h, kind, k, o) =>
      && Room(m) && h !in m.issuedHandles && k !in m.issuedOps && Outstanding(m) < m.cfg.maxOperations
      && !kind.Timer?
      && o == Op(Some(h), o.token, false, false, false, true, false, false, kind.Socket?, kind.File?)
      && (o.port ==> PortCount(m.ops) < m.cfg.maxUndelivered)
    case RejectS(k, kept) => k !in m.issuedOps && (kept ==> Room(m) && m.promised < ArmedCount(m.ops))
    case FinishS(k, result) =>
      k in m.ops && OpOutcome(result) && !m.ops[k].port && Acknowledges(m.ops[k], result)
    case CollectS(i, result) => i < |m.ring| && m.ring[i].op in m.ops && result == WorkResult(m.ops[m.ring[i].op], m.ring[i].result)
    case EmitS(k, result) =>
      && k in m.ops && m.ops[k].native && OpOutcome(result) && !Hidden(m.handles, m.ops[k]) && !m.ops[k].cancel
      && Count(Class(if result.Fired? then TIMER_EVENTS else NATIVE_EVENTS), m.stream, m.out) < m.cfg.eventsPerTurn
    case HouseS(k, conn, _) => k in m.ops && !m.ops[k].cancel && conn !in m.issuedHandles
    case CancelS(k, _) => k in m.ops && !m.ops[k].cancel && !IsTimer(m.handles, m.ops[k])
    case ExpireS(k) => k in m.connects && k in m.ops
    case DeadlineS(k, _) => k in m.ops && m.ops[k].native && !m.ops[k].cancel && m.ops[k].handle.Some?
    case ResetS(h, _) => h in m.timers
    case RepeatS(h, _) =>
      && h in m.timers && h in m.handles && m.handles[h].ops != [] && m.handles[h].ops[0] in m.ops
      && Count(Class(TIMER_EVENTS), m.stream, m.out) < m.cfg.eventsPerTurn
    case PublishS(k, _) => k in m.inflight
    case PostS(_, _) => Count(Class(POST_EVENTS), m.stream, m.out) < m.cfg.eventsPerTurn
    case DeliverS => m.out < |m.stream|
    case RefS(h, _) => h in m.handles && !m.handles[h].hidden
    case CloseS(h, _) => h in m.handles && !m.handles[h].hidden && m.handles[h].closing.None?
  }

  ghost function Apply(m: Model, s: Step): Model {
    if !Enabled(m, s) then m else
    match s
    case AddS(h, kind) => PutHandle(m, h, NewHandle(kind))
    case RemoveS(h) => DropHandle(m, h)
    case SubmitS(k, o) => PutOp(m, k, o)
    case ArmS(h, k, token, at) => ArmTimer(m, h, k, token, at)
    case OpenS(h, kind, k, o) => PutHidden(m, h, kind, k, o)
    case RejectS(k, kept) => Reject(m, k, kept)
    case FinishS(k, result) => Finish(m, k, result)
    case CollectS(i, result) => Collect(m, i, result)
    case EmitS(k, result) => Emit(m, k, result)
    case HouseS(k, conn, taken) => House(m, k, conn, taken)
    case CancelS(k, stop) => MarkCancel(m, k, stop)
    case ExpireS(k) => Expire(m, k)
    case DeadlineS(k, at) => m.(connects := m.connects[k := at])
    case ResetS(h, at) => m.(timers := m.timers[h := at])
    case RepeatS(h, at) => Repeat(m, h, m.handles[h].ops[0], at)
    case PublishS(k, result) => Publish(m, k, result)
    case PostS(token, payload) => Post(m, token, payload)
    case DeliverS => Deliver(m)
    case RefS(h, referenced) => SetRef(m, h, referenced)
    case CloseS(h, token) => BeginClose(m, h, token)
  }

  ghost function After(m: Model, trace: seq<Step>): Model
    decreases |trace|, 1
  {
    if trace == [] then m else AfterLast(m, trace)
  }

  ghost function AfterLast(m: Model, trace: seq<Step>): Model
    requires trace != []
    decreases |trace|, 0
  {
    Apply(After(m, trace[..|trace| - 1]), trace[|trace| - 1])
  }

  lemma InitInv(cfg: Config)
    ensures Inv(Init(cfg))
  {
    hide HeldCount, ArmedCount, PortCount, ClosedCount;
    NothingCounted();
  }

  lemma NothingCounted()
    ensures HeldCount(map[]) == ArmedCount(map[]) == PortCount(map[]) == ClosedCount(map[]) == NativeCount(map[]) == 0
    ensures RefOpCount(map[], map[]) == RefHandleCount(map[]) == 0
  {
    var ops: map<Key, Op>, handles: map<Key, Handle> := map[], map[];
    assert Held(ops) == {} && Armed(ops) == {} && Ports(ops) == {} && Natives(ops) == {} && ClosedQueued(handles) == {};
    assert RefOps(handles, ops) == {} && RefHandles(handles) == {};
  }

  lemma StepSafe(m: Model, s: Step)
    requires Inv(m)
    ensures Inv(Apply(m, s)) && Extends(m, Apply(m, s))
  {
    hide Inv, Extends, Room, CanSubmit, Unmentioned, Count, PortCount, ArmedCount, Outstanding;
    if !Enabled(m, s) { Still(m); return; }
    match s
    case AddS(h, kind) => AddHandle(m, h, NewHandle(kind));
    case RemoveS(h) => RemoveHandle(m, h);
    case SubmitS(k, o) => Submit(m, k, o);
    case ArmS(h, k, token, at) => Arm(m, h, k, token, at);
    case OpenS(h, kind, k, o) => OpenHidden(m, h, kind, k, o);
    case RejectS(k, kept) => RejectOp(m, k, kept);
    case FinishS(k, result) => FinishOp(m, k, result);
    case CollectS(i, result) => CollectWork(m, i, result);
    case EmitS(k, result) => EmitEvent(m, k, result);
    case HouseS(k, conn, taken) => HouseConn(m, k, conn, taken);
    case CancelS(k, stop) => CancelOp(m, k, stop);
    case ExpireS(k) => ExpireOp(m, k);
    case DeadlineS(k, at) => SetDeadline(m, k, at);
    case ResetS(h, at) => ResetTimer(m, h, at);
    case RepeatS(h, at) => RepeatTimer(m, h, at);
    case PublishS(k, result) => PublishWork(m, k, result);
    case PostS(token, payload) => PostEvent(m, token, payload);
    case DeliverS => DeliverNext(m);
    case RefS(h, referenced) => SetReference(m, h, referenced);
    case CloseS(h, token) => StartClose(m, h, token);
  }

  lemma {:induction false} RunSafe(m: Model, trace: seq<Step>)
    requires Inv(m)
    ensures Inv(After(m, trace)) && Extends(m, After(m, trace))
  {
    hide Inv, Extends, Apply;
    if trace == [] { Still(m); }
    else {
      var mid := After(m, trace[..|trace| - 1]);
      RunSafe(m, trace[..|trace| - 1]);
      StepSafe(mid, trace[|trace| - 1]);
      assert After(m, trace) == AfterLast(m, trace) == Apply(mid, trace[|trace| - 1]);
      ExtendsTrans(m, mid, After(m, trace));
    }
  }

  /** Only a delivery moves the delivered prefix. */
  lemma KeepsOut(m: Model, s: Step)
    requires !s.DeliverS?
    ensures Apply(m, s).out == m.out
  {
    hide Finish, House, BeginClose, SetRef, Room, CanSubmit, Unmentioned, Count, PortCount, ArmedCount, Outstanding, Exhausted;
    if Enabled(m, s) {
      match s
      case FinishS(k, result) => FinishOut(m, k, result);
      case CollectS(i, result) => FinishOut(m, m.ring[i].op, result);
      case HouseS(k, conn, taken) => HouseOut(m, k, conn, taken);
      case RefS(h, referenced) => RefOut(m, h, referenced);
      case CloseS(h, token) => CloseOut(m, h, token);
      case _ =>
    }
  }

  lemma FinishOut(m: Model, k: Key, result: OpResult)
    requires k in m.ops
    ensures Finish(m, k, result).out == m.out
  {
    hide ArmedCount, WithoutOp, EndEntry, Settle;
    var m1, h := End(m, k, result), m.ops[k].handle;
    if h.Some? && h.value in m1.handles { SettleOut(m1, h.value, result); }
  }

  lemma SettleOut(m: Model, h: Key, result: OpResult)
    requires h in m.handles
    ensures Settle(m, h, result).out == m.out
  {
    hide Exhausted, ClosedEntry;
  }

  lemma HouseOut(m: Model, k: Key, conn: Key, taken: bool)
    requires k in m.ops
    ensures House(m, k, conn, taken).out == m.out
  {
    hide Place, Release, Refill;
    ReleaseOut(m, k);
    PlaceOut(Release(m, k), conn, taken);
    RefillOut(Place(Release(m, k), conn, taken));
  }

  lemma ReleaseOut(m: Model, k: Key)
    requires k in m.ops
    ensures Release(m, k).out == m.out
  {}

  lemma PlaceOut(m: Model, conn: Key, taken: bool)
    ensures Place(m, conn, taken).out == m.out
  {
    hide Room, Exhausted;
  }

  lemma RefillOut(m: Model)
    ensures Refill(m).out == m.out
  {
    hide Reserved, ArmedCount;
  }

  lemma RefOut(m: Model, h: Key, referenced: bool)
    requires h in m.handles
    ensures SetRef(m, h, referenced).out == m.out
  {}

  lemma CloseOut(m: Model, h: Key, token: Token)
    requires h in m.handles
    ensures BeginClose(m, h, token).out == m.out
  {}

  /** More steps, none of them a delivery. */
  ghost predicate Grows(t: seq<Step>, t': seq<Step>) {
    t <= t' && forall i :: |t| <= i < |t'| ==> !t'[i].DeliverS?
  }

  lemma {:induction false} GrowsOut(m: Model, t: seq<Step>, t': seq<Step>)
    requires Grows(t, t')
    ensures After(m, t').out == After(m, t).out
    decreases |t'|
  {
    hide Apply;
    if |t| < |t'| {
      var rest := t'[..|t'| - 1];
      GrowsOut(m, t, rest);
      KeepsOut(After(m, rest), t'[|t'| - 1]);
      assert After(m, t') == AfterLast(m, t') == Apply(After(m, rest), t'[|t'| - 1]);
    } else {
      assert t == t';
    }
  }

  lemma {:induction false} AfterConcat(m: Model, t: seq<Step>, t': seq<Step>)
    ensures After(m, t + t') == After(After(m, t), t')
  {
    hide Apply;
    if t' == [] {
      assert t + t' == t;
    } else {
      var rest, last := t'[..|t'| - 1], t'[|t'| - 1];
      AfterConcat(m, t, rest);
      assert (t + t')[..|t + t'| - 1] == t + rest;
      assert AfterLast(m, t + t') == Apply(After(m, t + rest), last);
      assert AfterLast(After(m, t), t') == Apply(After(After(m, t), rest), last);
    }
  }

  lemma AfterTwo(m: Model, a: Step, b: Step)
    ensures After(m, [a, b]) == Apply(Apply(m, a), b)
  {
    hide Apply;
    AfterOne(m, a);
    assert [a, b][..1] == [a];
    assert AfterLast(m, [a, b]) == Apply(After(m, [a]), b);
  }

  lemma AfterThree(m: Model, a: Step, b: Step, c: Step)
    ensures After(m, [a, b, c]) == Apply(Apply(Apply(m, a), b), c)
  {
    hide Apply;
    AfterTwo(m, a, b);
    assert [a, b, c][..2] == [a, b];
    assert AfterLast(m, [a, b, c]) == Apply(After(m, [a, b]), c);
  }

  lemma AfterOne(m: Model, a: Step)
    ensures After(m, [a]) == Apply(m, a)
  {
    hide Apply;
    assert [a][..0] == [];
    assert AfterLast(m, [a]) == Apply(After(m, []), a);
  }
}
