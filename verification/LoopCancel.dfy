/** How an operation was asked to end is settled once: by its user or by its deadline. */
module LoopCancel {
  import opened Types
  import opened LoopModel
  import opened LoopSteps
  import opened LoopRuns
  import opened LoopTheorems
  import opened LoopEvents

  /** The flags an acknowledgement reads. */
  predicate SameVerdict(o: Op, o': Op) {
    o'.cancel == o.cancel && o'.stop == o.stop && o'.timedOut == o.timedOut && o'.fs == o.fs
  }

  /** The step asks `k` to end: by its deadline, or by its user or its handle's stop. */
  predicate Asks(s: Step, k: Key, o: Op) {
    (s == ExpireS(k) && o.timedOut) || (s == CancelS(k, o.stop) && !o.timedOut)
  }

  /** Flags change only where the step asks, and an operation starts with none. */
  ghost predicate Stands(m: Model, s: Step, m': Model) {
    && (forall k :: k in m.ops && k in m'.ops ==> SameVerdict(m.ops[k], m'.ops[k]) || (!m.ops[k].cancel && Asks(s, k, m'.ops[k])))
    && (forall k :: k in m'.ops && k !in m.ops ==> !m'.ops[k].cancel)
    && (forall k :: k in m.ops && k in m'.ops ==> SameIdentity(m.ops[k], m'.ops[k]))
  }

  /** What an operation is, as opposed to how it is going. */
  predicate SameIdentity(o: Op, o': Op) {
    && o'.token == o.token && o'.handle == o.handle && o'.fs == o.fs
    && o'.native == o.native && o'.port == o.port && o'.multishot == o.multishot
  }

  lemma StepSettles(m: Model, s: Step)
    requires Inv(m)
    ensures Stands(m, s, Apply(m, s))
  {
    hide Inv, Stands, Room, CanSubmit, Unmentioned, Count, PortCount, ArmedCount, Outstanding;
    hide PutHandle, DropHandle, PutOp, ArmTimer, PutHidden, Reject, Finish, Collect, Emit;
    hide House, MarkCancel, Expire, Repeat, Publish, Post, Deliver, SetRef, BeginClose;
    Basics(m);
    SameSettles(m, s, m);
    if Enabled(m, s) {
      match s
      case AddS(h, kind) => PutHandleOps(m, h, NewHandle(kind)); SameSettles(m, s, Apply(m, s));
      case RemoveS(h) => DropHandleOps(m, h); SameSettles(m, s, Apply(m, s));
      case SubmitS(k, o) => Unasked(m, o); PutSettles(m, s, k, o);
      case ArmS(h, k, token, at) => ArmSettles(m, s, h, k, token, at);
      case OpenS(h, kind, k, o) => OpenSettles(m, s, h, kind, k, o);
      case RejectS(k, kept) => PlainOps(m, k, kept, 0); SameSettles(m, s, Apply(m, s));
      case FinishS(k, result) => FinishSettlesFlags(m, s, k, result);
      case CollectS(i, result) => CollectSettles(m, s, i, result);
      case EmitS(k, result) => EmitOps(m, k, result, 0, 0); SameSettles(m, s, Apply(m, s));
      case HouseS(k, conn, taken) => HouseSettles(m, s, k, conn, taken);
      case CancelS(k, stop) => CancelSettles(m, k, stop);
      case ExpireS(k) => ExpireSettles(m, k);
      case DeadlineS(k, at) => SameSettles(m, s, Apply(m, s));
      case ResetS(h, at) => SameSettles(m, s, Apply(m, s));
      case RepeatS(h, at) => EmitOps(m, m.handles[h].ops[0], Fired, h, at); SameSettles(m, s, Apply(m, s));
      case PublishS(k, result) => PublishOps(m, k, result); SameSettles(m, s, Apply(m, s));
      case PostS(token, payload) => PlainOps(m, token, false, payload); SameSettles(m, s, Apply(m, s));
      case DeliverS => DeliverOps(m); SameSettles(m, s, Apply(m, s));
      case RefS(h, referenced) => RefOps(m, h, referenced); SameSettles(m, s, Apply(m, s));
      case CloseS(h, token) => CloseOps(m, h, token); SameSettles(m, s, Apply(m, s));
    }
  }

  lemma SameSettles(m: Model, s: Step, m': Model)
    requires m'.ops == m.ops
    ensures Stands(m, s, m')
  {}

  lemma Unasked(m: Model, o: Op)
    requires CanSubmit(m, o)
    ensures !o.cancel
  {
    hide Room, Outstanding, PortCount, OneSource;
  }

  lemma PutSettles(m: Model, s: Step, k: Key, o: Op)
    requires k !in m.ops && !o.cancel
    ensures Stands(m, s, PutOp(m, k, o))
  {}

  lemma ArmSettles(m: Model, s: Step, h: Key, k: Key, token: Token, at: Instant)
    requires k !in m.ops
    ensures Stands(m, s, ArmTimer(m, h, k, token, at))
  {}

  lemma OpenSettles(m: Model, s: Step, h: Key, kind: Kind, k: Key, o: Op)
    requires k !in m.ops && !o.cancel
    ensures Stands(m, s, PutHidden(m, h, kind, k, o))
  {}

  lemma FinishSettlesFlags(m: Model, s: Step, k: Key, result: OpResult)
    requires Inv(m) && k in m.ops
    ensures Stands(m, s, Finish(m, k, result))
  {
    hide Inv, Finish;
    FinishExtends(m, k, result);
  }

  lemma CollectSettles(m: Model, s: Step, i: nat, result: OpResult)
    requires Inv(m) && i < |m.ring| && m.ring[i].op in m.ops
    ensures Stands(m, s, Collect(m, i, result))
  {
    hide Inv, Finish;
    FinishExtends(m, m.ring[i].op, result);
  }

  lemma HouseSettles(m: Model, s: Step, k: Key, conn: Key, taken: bool)
    requires Inv(m) && k in m.ops && conn !in m.issuedHandles
    ensures Stands(m, s, House(m, k, conn, taken))
  {
    hide Inv, House, Release, Stands;
    HouseEffect(m, k, conn, taken);
    ReleaseSettles(m, s, k);
    OpsSettle(m, s, Release(m, k), House(m, k, conn, taken));
  }

  lemma OpsSettle(m: Model, s: Step, m1: Model, m': Model)
    requires Stands(m, s, m1) && m'.ops == m1.ops
    ensures Stands(m, s, m')
  {}

  lemma ReleaseSettles(m: Model, s: Step, k: Key)
    requires k in m.ops
    ensures Stands(m, s, Release(m, k))
  {
    hide Stands;
    if m.ops[k].multishot { SameSettles(m, s, Release(m, k)); } else { HeldSettles(m, s, k, Release(m, k)); }
  }

  lemma HeldSettles(m: Model, s: Step, k: Key, m': Model)
    requires k in m.ops && m'.ops == m.ops[k := m.ops[k].(held := false)]
    ensures Stands(m, s, m')
  {
    forall x | x in m.ops ensures x in m'.ops && SameVerdict(m.ops[x], m'.ops[x]) && SameIdentity(m.ops[x], m'.ops[x]) {}
  }

  lemma CancelSettles(m: Model, k: Key, stop: bool)
    requires Inv(m) && k in m.ops && !m.ops[k].cancel
    ensures Stands(m, CancelS(k, stop), MarkCancel(m, k, stop))
  {
    hide Inv;
    SourceAt(m, k);
  }

  lemma ExpireSettles(m: Model, k: Key)
    requires Inv(m) && k in m.connects && k in m.ops
    ensures Stands(m, ExpireS(k), Expire(m, k))
  {
    hide Inv;
    ConnectAt(m, k);
  }

  lemma PlainOps(m: Model, k: Key, kept: bool, payload: nat)
    ensures Reject(m, k, kept).ops == m.ops && Post(m, k, payload).ops == m.ops
  {}

  lemma PublishOps(m: Model, k: Key, result: OpResult)
    ensures Publish(m, k, result).ops == m.ops
  {}

  lemma EmitOps(m: Model, k: Key, result: OpResult, h: Key, at: Instant)
    requires k in m.ops
    ensures Emit(m, k, result).ops == m.ops && Repeat(m, h, k, at).ops == m.ops
  {}

  lemma DeliverOps(m: Model)
    requires m.out < |m.stream|
    ensures Deliver(m).ops == m.ops
  {
    hide DropHandle;
    var c := m.stream[m.out].completion;
    if c.handle.Some? { DropHandleOps(m.(out := m.out + 1), c.handle.value); }
  }

  lemma RefOps(m: Model, h: Key, referenced: bool)
    requires h in m.handles
    ensures SetRef(m, h, referenced).ops == m.ops
  {}

  lemma CloseOps(m: Model, h: Key, token: Token)
    requires h in m.handles
    ensures BeginClose(m, h, token).ops == m.ops
  {}

  lemma PutHandleOps(m: Model, h: Key, r: Handle)
    ensures PutHandle(m, h, r).ops == m.ops
  {}

  lemma DropHandleOps(m: Model, h: Key)
    ensures DropHandle(m, h).ops == m.ops
  {
    hide Exhausted;
  }

  /** Once an operation has been asked to end, no later step changes how it will report that. */
  lemma {:induction false} VerdictStands(cfg: Config, trace: seq<Step>, rest: seq<Step>, k: Key)
    requires k in Reached(cfg, trace).ops && Reached(cfg, trace).ops[k].cancel
    ensures
      var m, m' := Reached(cfg, trace), After(Reached(cfg, trace), rest);
      k in m'.ops ==> m'.ops[k].cancel && Verdict(m'.ops[k]) == Verdict(m.ops[k])
    decreases |rest|
  {
    hide Apply, Reached, Inv, Extends;
    var m := Reached(cfg, trace);
    if rest != [] {
      var mid, last := After(m, rest[..|rest| - 1]), rest[|rest| - 1];
      VerdictStands(cfg, trace, rest[..|rest| - 1], k);
      ReachedInv(cfg, trace);
      RunSafe(m, rest[..|rest| - 1]);
      assert After(m, rest) == AfterLast(m, rest) == Apply(mid, last);
      StepSettles(mid, last);
      if k in After(m, rest).ops { StillLive(cfg, trace, rest, k); }
    }
  }

  /** How an operation was asked to end is on record: a timeout only by its deadline, anything else
      only by its user or its handle's stop. */
  lemma {:induction false} VerdictCaused(cfg: Config, trace: seq<Step>, k: Key)
    requires k in Reached(cfg, trace).ops && Reached(cfg, trace).ops[k].cancel
    ensures
      var o := Reached(cfg, trace).ops[k];
      if o.timedOut then ExpireS(k) in trace else CancelS(k, o.stop) in trace
    decreases |trace|
  {
    hide Apply, Reached, Inv;
    if trace == [] {
      StartsEmpty(cfg);
    } else {
      var before, last := trace[..|trace| - 1], trace[|trace| - 1];
      assert trace == before + [last];
      ReachedMore(cfg, before, last);
      ReachedInv(cfg, before);
      StepSettles(Reached(cfg, before), last);
      if k in Reached(cfg, before).ops && Reached(cfg, before).ops[k].cancel { VerdictCaused(cfg, before, k); }
    }
  }

  lemma StartsEmpty(cfg: Config)
    ensures Reached(cfg, []).ops == map[]
  {}

  /** An operation that is live later was live all along. */
  lemma StillLive(cfg: Config, trace: seq<Step>, rest: seq<Step>, k: Key)
    requires rest != [] && k in Reached(cfg, trace).ops && k in After(Reached(cfg, trace), rest).ops
    ensures k in After(Reached(cfg, trace), rest[..|rest| - 1]).ops
  {
    hide Apply, Reached, Inv;
    var m, mid := Reached(cfg, trace), After(Reached(cfg, trace), rest[..|rest| - 1]);
    ReachedInv(cfg, trace);
    RunSafe(m, rest[..|rest| - 1]);
    StepSafe(mid, rest[|rest| - 1]);
    assert After(m, rest) == AfterLast(m, rest) == Apply(mid, rest[|rest| - 1]);
    Basics(m);
  }

  // ------------------------------------------------------------ completions

  /** A completion carries its operation's token, and names its handle or none. One of an operation
      that was asked to end is its acknowledgement. */
  predicate Acknowledged(m: Model, c: Completion) {
    c.op.Some? && c.op.value in m.ops ==>
      var o := m.ops[c.op.value];
      && c.token == o.token && (c.handle == o.handle || c.handle.None?)
      && (o.cancel ==> c.terminal && c.result == Verdict(o))
  }

  ghost predicate Answers(m: Model, m': Model) {
    forall i :: |m.stream| <= i < |m'.stream| ==> Acknowledged(m, m'.stream[i].completion)
  }

  lemma StepAnswers(m: Model, s: Step)
    requires Inv(m)
    ensures Answers(m, Apply(m, s))
  {
    hide Inv, Answers, Room, CanSubmit, Unmentioned, Count, PortCount, ArmedCount, Outstanding, Verdict, WorkResult;
    hide PutHandle, DropHandle, PutOp, ArmTimer, PutHidden, Reject, Finish, Collect, Emit;
    hide House, MarkCancel, Expire, Repeat, Publish, Post, Deliver, SetRef, BeginClose;
    Basics(m);
    Quiet(m, m);
    if Enabled(m, s) {
      match s
      case AddS(h, kind) => PutHandleStream(m, h, NewHandle(kind)); Quiet(m, Apply(m, s));
      case RemoveS(h) => DropHandleStream(m, h); Quiet(m, Apply(m, s));
      case SubmitS(k, o) => PutOpStream(m, k, o); Quiet(m, Apply(m, s));
      case ArmS(h, k, token, at) => ArmStream(m, h, k, token, at); Quiet(m, Apply(m, s));
      case OpenS(h, kind, k, o) => OpenStream(m, h, kind, k, o); Quiet(m, Apply(m, s));
      case RejectS(k, kept) => PlainStream(m, k, kept, Fired); Quiet(m, Apply(m, s));
      case FinishS(k, result) => FinishAnswers(m, k, result);
      case CollectS(i, result) => CollectAnswers(m, i);
      case EmitS(k, result) => EmitAnswers(m, k, result);
      case HouseS(k, conn, taken) => HouseStream(m, k, conn, taken); Quiet(m, Apply(m, s));
      case CancelS(k, stop) => FlagStream(m, k, stop); Quiet(m, Apply(m, s));
      case ExpireS(k) => FlagStream(m, k, false); Quiet(m, Apply(m, s));
      case DeadlineS(k, at) => Quiet(m, Apply(m, s));
      case ResetS(h, at) => Quiet(m, Apply(m, s));
      case RepeatS(h, at) => RepeatAnswers(m, h, at);
      case PublishS(k, result) => PlainStream(m, k, false, result); Quiet(m, Apply(m, s));
      case PostS(token, payload) => PostAnswers(m, token, payload);
      case DeliverS => DeliverStream(m); Quiet(m, Apply(m, s));
      case RefS(h, referenced) => RefStream(m, h, referenced); Quiet(m, Apply(m, s));
      case CloseS(h, token) => CloseAnswers(m, h, token);
    }
  }

  lemma Quiet(m: Model, m': Model)
    requires |m'.stream| == |m.stream|
    ensures Answers(m, m')
  {}

  lemma PutHandleStream(m: Model, h: Key, r: Handle)
    ensures PutHandle(m, h, r).stream == m.stream
  {}

  lemma DropHandleStream(m: Model, h: Key)
    ensures DropHandle(m, h).stream == m.stream
  {
    hide Exhausted;
  }

  lemma PutOpStream(m: Model, k: Key, o: Op)
    ensures PutOp(m, k, o).stream == m.stream
  {}

  lemma ArmStream(m: Model, h: Key, k: Key, token: Token, at: Instant)
    ensures ArmTimer(m, h, k, token, at).stream == m.stream
  {}

  lemma OpenStream(m: Model, h: Key, kind: Kind, k: Key, o: Op)
    ensures PutHidden(m, h, kind, k, o).stream == m.stream
  {}

  lemma PlainStream(m: Model, k: Key, kept: bool, result: OpResult)
    ensures Reject(m, k, kept).stream == m.stream && Publish(m, k, result).stream == m.stream
  {}

  lemma FlagStream(m: Model, k: Key, stop: bool)
    requires k in m.ops
    ensures MarkCancel(m, k, stop).stream == m.stream && Expire(m, k).stream == m.stream
  {}

  lemma HouseStream(m: Model, k: Key, conn: Key, taken: bool)
    requires Inv(m) && k in m.ops && conn !in m.issuedHandles
    ensures House(m, k, conn, taken).stream == m.stream
  {
    hide Inv, House;
    HouseEffect(m, k, conn, taken);
  }

  lemma DeliverStream(m: Model)
    requires m.out < |m.stream|
    ensures Deliver(m).stream == m.stream
  {
    hide DropHandle;
    var c := m.stream[m.out].completion;
    if c.handle.Some? { DropHandleStream(m.(out := m.out + 1), c.handle.value); }
  }

  lemma RefStream(m: Model, h: Key, referenced: bool)
    requires h in m.handles
    ensures |SetRef(m, h, referenced).stream| == |m.stream|
  {}

  /** What `MaybeClosed` adds, if anything, belongs to no operation. */
  lemma ClosedStream(m: Model, h: Key)
    ensures
      var s := MaybeClosed(m, h).stream;
      s == m.stream || (|s| == |m.stream| + 1 && s[..|m.stream|] == m.stream && s[|m.stream|].completion.op.None?)
  {}

  lemma CloseAnswers(m: Model, h: Key, token: Token)
    requires h in m.handles
    ensures Answers(m, BeginClose(m, h, token))
  {
    hide MaybeClosed;
    ClosedStream(m.(handles := m.handles[h := m.handles[h].(closing := Some(token))]), h);
  }

  lemma PostAnswers(m: Model, token: Token, payload: nat)
    ensures Answers(m, Post(m, token, payload))
  {}

  lemma EmitAnswers(m: Model, k: Key, result: OpResult)
    requires k in m.ops && !m.ops[k].cancel
    ensures Answers(m, Emit(m, k, result))
  {}

  lemma RepeatAnswers(m: Model, h: Key, at: Instant)
    requires Inv(m) && h in m.timers && h in m.handles && m.handles[h].ops != [] && m.handles[h].ops[0] in m.ops
    ensures Answers(m, Repeat(m, h, m.handles[h].ops[0], at))
  {
    hide Inv;
    TimerAt(m, h);
    SourceAt(m, m.handles[h].ops[0]);
  }

  /** Finishing adds the terminal completion, and perhaps one that belongs to no operation. */
  lemma FinishStream(m: Model, k: Key, result: OpResult)
    requires k in m.ops
    ensures
      var s, n := Finish(m, k, result).stream, |m.stream|;
      && n < |s| <= n + 2 && s[..n] == m.stream && s[n] == EndEntry(m, k, result)
      && (|s| == n + 2 ==> s[n + 1].completion.op.None?)
  {
    hide ArmedCount, WithoutOp, EndEntry, MaybeClosed, DropHandle, Exhausted;
    var m1 := End(m, k, result);
    assert m1.stream == m.stream + [EndEntry(m, k, result)];
    if m.ops[k].handle.Some? {
      ClosedStream(m1, m.ops[k].handle.value);
      DropHandleStream(m1, m.ops[k].handle.value);
    }
  }

  lemma FinishAnswers(m: Model, k: Key, result: OpResult)
    requires k in m.ops && Acknowledges(m.ops[k], result)
    ensures Answers(m, Finish(m, k, result))
  {
    hide Finish, Verdict;
    FinishStream(m, k, result);
  }

  lemma CollectAnswers(m: Model, i: nat)
    requires Inv(m) && i < |m.ring| && m.ring[i].op in m.ops
    ensures
      var k := m.ring[i].op;
      Answers(m, Collect(m, i, WorkResult(m.ops[k], m.ring[i].result)))
  {
    hide Inv, Finish;
    var k := m.ring[i].op;
    SourceAt(m, k);
    PortHere(m, i);
    FinishAnswers(m, k, WorkResult(m.ops[k], m.ring[i].result));
  }

  /** Nothing but the acknowledgement follows a request to end: over any run, every completion an
      operation produces after it was cancelled, stopped or timed out is terminal and reports that. */
  lemma {:induction false} VerdictDelivered(cfg: Config, trace: seq<Step>, rest: seq<Step>, k: Key, i: nat)
    requires k in Reached(cfg, trace).ops && Reached(cfg, trace).ops[k].cancel
    requires |Reached(cfg, trace).stream| <= i < |After(Reached(cfg, trace), rest).stream|
    requires After(Reached(cfg, trace), rest).stream[i].completion.op == Some(k)
    ensures
      var c := After(Reached(cfg, trace), rest).stream[i].completion;
      c.terminal && c.result == Verdict(Reached(cfg, trace).ops[k])
    decreases |rest|
  {
    hide Apply, Reached, Inv, Verdict;
    var m, m' := Reached(cfg, trace), After(Reached(cfg, trace), rest);
    if rest != [] {
      var mid, last := After(m, rest[..|rest| - 1]), rest[|rest| - 1];
      ReachedInv(cfg, trace);
      RunSafe(m, rest[..|rest| - 1]);
      StepSafe(mid, last);
      assert m' == AfterLast(m, rest) == Apply(mid, last);
      if i < |mid.stream| {
        VerdictDelivered(cfg, trace, rest[..|rest| - 1], k, i);
      } else {
        Basics(m);
        assert Speaks(mid, m'.stream[i].completion);
        VerdictStands(cfg, trace, rest[..|rest| - 1], k);
        StepAnswers(mid, last);
      }
    }
  }

  /** Over any run every completion of an operation carries the token it was submitted with, and names
      its handle or none. */
  lemma {:induction false} TokensCarried(cfg: Config, trace: seq<Step>, rest: seq<Step>, k: Key, i: nat)
    requires k in Reached(cfg, trace).ops
    requires |Reached(cfg, trace).stream| <= i < |After(Reached(cfg, trace), rest).stream|
    requires After(Reached(cfg, trace), rest).stream[i].completion.op == Some(k)
    ensures
      var c, o := After(Reached(cfg, trace), rest).stream[i].completion, Reached(cfg, trace).ops[k];
      c.token == o.token && (c.handle == o.handle || c.handle.None?)
    decreases |rest|
  {
    hide Apply, Reached, Inv, Verdict;
    var m, m' := Reached(cfg, trace), After(Reached(cfg, trace), rest);
    if rest != [] {
      var mid, last := After(m, rest[..|rest| - 1]), rest[|rest| - 1];
      ReachedInv(cfg, trace);
      RunSafe(m, rest[..|rest| - 1]);
      StepSafe(mid, last);
      assert m' == AfterLast(m, rest) == Apply(mid, last);
      if i < |mid.stream| {
        TokensCarried(cfg, trace, rest[..|rest| - 1], k, i);
      } else {
        Basics(m);
        assert Speaks(mid, m'.stream[i].completion);
        IdentityStands(cfg, trace, rest[..|rest| - 1], k);
        StepAnswers(mid, last);
      }
    }
  }

  /** What an operation is never changes while it lives. */
  lemma {:induction false} IdentityStands(cfg: Config, trace: seq<Step>, rest: seq<Step>, k: Key)
    requires k in Reached(cfg, trace).ops
    ensures
      var m, m' := Reached(cfg, trace), After(Reached(cfg, trace), rest);
      k in m'.ops ==> SameIdentity(m.ops[k], m'.ops[k])
    decreases |rest|
  {
    hide Apply, Reached, Inv, Extends;
    var m := Reached(cfg, trace);
    if rest != [] {
      var mid, last := After(m, rest[..|rest| - 1]), rest[|rest| - 1];
      IdentityStands(cfg, trace, rest[..|rest| - 1], k);
      ReachedInv(cfg, trace);
      RunSafe(m, rest[..|rest| - 1]);
      assert After(m, rest) == AfterLast(m, rest) == Apply(mid, last);
      StepSettles(mid, last);
      if k in After(m, rest).ops { StillLive(cfg, trace, rest, k); }
    }
  }

  /** What a user cancelled or stopped reports just that, whatever happens next: a connect never a
      timeout, a pool job never its result. A filesystem request reports only that it was cancelled. */
  lemma UserCancelReported(cfg: Config, trace: seq<Step>, k: Key, stop: bool, rest: seq<Step>, i: nat)
    requires Enabled(Reached(cfg, trace), CancelS(k, stop))
    requires
      var m' := Reached(cfg, trace + [CancelS(k, stop)] + rest);
      |Reached(cfg, trace).stream| <= i < |m'.stream| && m'.stream[i].completion.op == Some(k)
    ensures
      var c := Reached(cfg, trace + [CancelS(k, stop)] + rest).stream[i].completion;
      c.terminal && c.result == if stop && !Reached(cfg, trace).ops[k].fs then Stopped else Cancelled
  {
    hide Inv, Enabled;
    var m, t := Reached(cfg, trace), trace + [CancelS(k, stop)];
    assert Reached(cfg, t) == MarkCancel(m, k, stop) && k in m.ops && !m.ops[k].cancel by {
      ReachedMore(cfg, trace, CancelS(k, stop));
      assert Enabled(m, CancelS(k, stop));
      CancelApplies(m, k, stop);
    }
    ReachedInv(cfg, trace);
    SourceAt(m, k);
    AfterConcat(Init(cfg), t, rest);
    VerdictDelivered(cfg, t, rest, k, i);
  }

  lemma CancelApplies(m: Model, k: Key, stop: bool)
    requires Enabled(m, CancelS(k, stop))
    ensures k in m.ops && !m.ops[k].cancel && Apply(m, CancelS(k, stop)) == MarkCancel(m, k, stop)
  {}

  /** And one whose deadline passed reports exactly that. */
  lemma ExpiryReported(cfg: Config, trace: seq<Step>, k: Key, rest: seq<Step>, i: nat)
    requires Enabled(Reached(cfg, trace), ExpireS(k))
    requires
      var m' := Reached(cfg, trace + [ExpireS(k)] + rest);
      |Reached(cfg, trace).stream| <= i < |m'.stream| && m'.stream[i].completion.op == Some(k)
    ensures
      var c := Reached(cfg, trace + [ExpireS(k)] + rest).stream[i].completion;
      c.terminal && c.result == if Reached(cfg, trace).ops[k].fs then Cancelled else Failed(TimedOut)
  {
    hide Inv, Enabled;
    var m, t := Reached(cfg, trace), trace + [ExpireS(k)];
    assert Reached(cfg, t) == Expire(m, k) && k in m.ops by {
      ReachedMore(cfg, trace, ExpireS(k));
      ExpireApplies(m, k);
    }
    AfterConcat(Init(cfg), t, rest);
    VerdictDelivered(cfg, t, rest, k, i);
  }

  lemma ExpireApplies(m: Model, k: Key)
    requires Enabled(m, ExpireS(k))
    ensures k in m.ops && Apply(m, ExpireS(k)) == Expire(m, k)
  {}
}
