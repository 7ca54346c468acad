/** What the driver's public calls promise, and the facts each of them relies on. */
module DriverCalls {
  import opened Types
  import opened LoopModel
  import opened LoopSteps
  import opened LoopRuns
  import opened LoopTheorems
  import opened LoopEvents
  import opened LoopTimers
  import opened LoopReports
  import opened DriverLinks
  import opened DriverState
  import opened DriverSteps

  /** A handle or operation identity, as the host holds it. */
  datatype Id = Id(owner: nat, key: Key)

  /** The handle slot a submission reserves: none, its own, or one of the slots that
      multishot accepts share. */
  datatype Claim = NoSlot | OwnSlot | PooledSlot

  function SocketOp(h: Key, token: Token, claim: Claim): Op {
    Op(Some(h), token, false, false, false, false, claim.OwnSlot?, claim.PooledSlot?, true, false)
  }

  /** Why `submit` turns a request away before the backend sees it. */
  function SubmitError(m: Model, owner: nat, h: Id, claim: Claim): Option<ErrorKind> {
    if h.owner != owner || !Visible(m, h.key) then Some(NotFound)
    else if m.handles[h.key].closing.Some? || !m.handles[h.key].kind.Socket? then Some(InvalidInput)
    else if !claim.NoSlot? && !Room(m) then Some(ResourceLimit)
    else if Outstanding(m) >= m.cfg.maxOperations then Some(ResourceLimit)
    else None
  }

  /** Nothing changed that anyone can see: the key of `h` is spent, and its slot too if
      it was the last generation. */
  ghost predicate Unaffected(m: Model, m': Model, h: Key) {
    && m'.handles == m.handles && m'.ops == m.ops && m'.stream == m.stream && m'.out == m.out
    && m'.timers == m.timers && m'.connects == m.connects && m'.promised == m.promised && m'.ring == m.ring
    && m'.inflight == m.inflight
    && (m'.free == m.free || (m'.free == m.free - 1 && Exhausted(h)))
  }

  lemma UndoneHandle(m: Model, m': Model, h: Key, kind: Kind)
    requires h !in m.handles && (m' == m || (m.free > 0 && m' == DropHandle(PutHandle(m, h, LoopModel.NewHandle(kind)), h)))
    ensures Unaffected(m, m', h)
  {
    hide Exhausted;
    if m.free > 0 { RefusedHandle(m, h, kind); }
  }

  lemma RefusedConnect(m: Model, m': Model, h: Key, k: Key, kind: Kind)
    requires h !in m.handles && m.free > 0
    requires
      var m1 := PutHandle(m, h, LoopModel.NewHandle(kind));
      m' == DropHandle(m1, h) || m' == DropHandle(Reject(m1, k, false), h)
    ensures Unaffected(m, m', h)
  {
    hide Exhausted;
    RefusedHandle(m, h, kind);
  }

  /** A new socket takes a connect whenever the operation table has room. */
  lemma FreshSocket(m: Model, owner: nat, h: Key, k: Key, token: Token)
    requires h !in m.handles && k !in m.issuedOps
    ensures
      var m1, o := PutHandle(m, h, LoopModel.NewHandle(Socket)), SocketOp(h, token, NoSlot);
      && k !in m1.issuedOps && m1.stream == m.stream && m1.out == m.out && h in m1.handles
      && m1.handles[h] == LoopModel.NewHandle(Socket)
      && SubmitError(m1, owner, Id(owner, h), NoSlot) == (if Outstanding(m) >= m.cfg.maxOperations then Some(ResourceLimit) else None)
      && !Keeps(m1, o)
      && var m2, m3 := PutOp(m1, k, o), Reject(m1, k, false);
         && k in m2.ops && m2.ops[k] == o
         && h in m3.handles && m3.handles[h] == m1.handles[h] && m3.stream == m.stream && m3.out == m.out
  {
    hide Size, Count;
  }

  /** Exactly the connects that lost their deadline are timed out, each of them due. */
  ghost predicate TimedOutBy(m: Model, m': Model, now: Instant) {
    && m' == m.(ops := m'.ops, connects := m'.connects) && m'.ops.Keys == m.ops.Keys
    && (forall k :: k in m'.connects ==> k in m.connects && m'.connects[k] == m.connects[k])
    && (forall k :: k in m.connects && k !in m'.connects ==> m.connects[k] <= now)
    && (forall k :: k in m.ops ==>
          m'.ops[k] == if k in m.connects && k !in m'.connects then m.ops[k].(cancel := true, timedOut := true) else m.ops[k])
  }

  lemma NoneTimedOut(m: Model, now: Instant)
    ensures TimedOutBy(m, m, now)
  {}

  lemma TimedOutMore(m: Model, m': Model, now: Instant, k: Key)
    requires TimedOutBy(m, m', now) && k in m'.connects && m'.connects[k] <= now
    ensures k in m'.ops ==> TimedOutBy(m, Expire(m', k), now)
  {
    if k in m'.ops {
      var o := m'.ops[k].(cancel := true, timedOut := true);
      assert Expire(m', k) == m.(ops := m'.ops[k := o], connects := m'.connects - {k});
    }
  }

  /** The entry a deadline queue yields at `now`, if any is due. */
  method Earliest(queue: map<Key, Instant>, now: Instant) returns (k: Option<Key>)
    ensures
      k.Some? ==>
        && k.value in queue && queue[k.value] <= now
        && forall x :: x in queue ==> queue[k.value] < queue[x] || (queue[k.value] == queue[x] && k.value <= x)
    ensures k.None? ==> forall x :: x in queue ==> queue[x] > now
  {
    if |queue| == 0 {
      return None;
    }
    var rest := queue.Keys;
    var best :| best in rest;
    rest := rest - {best};
    while rest != {}
      invariant best in queue && rest <= queue.Keys
      invariant forall x :: x in queue && x !in rest ==> Precedes(queue, best, x)
      decreases |rest|
    {
      var x :| x in rest;
      if !Precedes(queue, best, x) {
        best := x;
      }
      rest := rest - {x};
    }
    return if queue[best] <= now then Some(best) else None;
  }

  lemma NextEvent(cfg: Config, trace: seq<Step>, m: Model, events: seq<Event>)
    requires m == Reached(cfg, trace) && Batch(m, events) && events != []
    ensures Honest(m, events[0]) && Count(Class(NATIVE_EVENTS), m.stream, m.out) < m.cfg.eventsPerTurn
    ensures Batch(LoopEvents.AcceptEvent(m, events[0]), events[1..])
    ensures AcceptAll(m, events) == AcceptAll(LoopEvents.AcceptEvent(m, events[0]), events[1..])
  {
    hide Inv, Reached, LoopEvents.AcceptEvent, Settles, LoopModel.Budget, Extends, Count;
    ReachedInv(cfg, trace);
    EventSettles(m, events[0]);
    BatchRest(m, events, LoopEvents.AcceptEvent(m, events[0]));
  }

  lemma OutAt(cfg: Config, trace: seq<Step>)
    ensures Reached(cfg, trace).out <= |Reached(cfg, trace).stream|
  {
    hide Inv, Reached;
    ReachedInv(cfg, trace);
    Basics(Reached(cfg, trace));
  }

  lemma PostsFit(cfg: Config, trace: seq<Step>)
    ensures var m := Reached(cfg, trace); Count(Class(POST_EVENTS), m.stream, m.out) <= cfg.eventsPerTurn
  {
    hide Reached, Count;
    ReachedInv(cfg, trace);
  }

  lemma PostCounts(m: Model, token: Token, payload: nat)
    requires m.out <= |m.stream|
    ensures
      var m' := LoopModel.Post(m, token, payload);
      Count(Class(POST_EVENTS), m'.stream, m'.out) == Count(Class(POST_EVENTS), m.stream, m.out) + 1
  {
    CountPush(Class(POST_EVENTS), m.stream, m.out, Entry(Completion(token, None, None, true, Posted(payload)), false));
  }

  lemma DeliverOut(m: Model)
    requires m.out < |m.stream|
    ensures LoopModel.Deliver(m).stream == m.stream && LoopModel.Deliver(m).out == m.out + 1
  {
    hide DropHandle;
    var c := m.stream[m.out].completion;
    if c.handle.Some? { DropKeeps(m.(out := m.out + 1), c.handle.value); }
  }

  lemma TimerRoom(cfg: Config, trace: seq<Step>, m: Model, h: Key, now: Instant)
    requires m == Reached(cfg, trace) && h in m.timers
    ensures m.cfg == cfg && Count(Class(TIMER_EVENTS), m.stream, m.out) <= cfg.eventsPerTurn
    ensures h in m.handles && m.handles[h].kind.Timer? && m.handles[h].ops != [] && m.handles[h].ops[0] in m.ops
    ensures !FireStep(m, h, now).DeliverS?
    ensures
      var m' := Fire(m, h, now);
      && m'.cfg == m.cfg && |m.stream| <= |m'.stream| && FiredOnce(m, m', h, now)
      && (forall n :: 0 <= n < |m.stream| ==> m'.stream[n] == m.stream[n])
      && (forall x :: x != h ==> (x in m'.timers <==> x in m.timers))
      && (forall x :: x != h && x in m'.timers ==> m'.timers[x] == m.timers[x] && Untouched(m, m', x))
  {
    hide Inv, Reached, Fire, Count, FiredOnce, Untouched;
    ReachedInv(cfg, trace);
    FireOnce(m, h, now);
    TimersFit(m);
  }

  lemma TimersFit(m: Model)
    requires Inv(m)
    ensures Count(Class(TIMER_EVENTS), m.stream, m.out) <= m.cfg.eventsPerTurn
  {
    hide Shape, OpHistory, HandleHistory, Housing, Credit, Sized, Settled, Count;
  }

  lemma GrewOut(cfg: Config, t: seq<Step>, t': seq<Step>)
    requires Grows(t, t')
    ensures Reached(cfg, t').out == Reached(cfg, t).out <= |Reached(cfg, t').stream|
  {
    GrowsOut(Init(cfg), t, t');
    OutAt(cfg, t');
  }

  lemma AliveAt(f: State, cfg: Config, trace: seq<Step>, m: Model)
    requires Steady(f, m) && m == Reached(cfg, trace)
    ensures f.counters.refs == 0 <==> Idle(m)
  {
    hide Linked, SameQueue, Active, Weight, Idle, Reached;
    ReachedLiveness(cfg, trace);
  }

  /** What the fields of a driver keep between calls, over every run: every reservation is backed by
      a free slot, and neither queue nor ring outgrows its capacity. */
  lemma FieldsSafe(f: State, cfg: Config, trace: seq<Step>)
    requires Steady(f, Reached(cfg, trace))
    ensures
      && f.counters.pooled <= f.counters.armed && f.counters.pooled <= f.counters.reserved <= f.free
      && f.counters.native <= |f.ops| <= f.counters.outstanding <= cfg.maxOperations
      && |f.ring| + |f.inflight| == f.counters.undelivered <= Min(cfg.maxUndelivered, cfg.maxOperations) <= RingCapacity(cfg)
      && |f.queued| <= CompletionCapacity(cfg) && |f.handles| + f.free <= cfg.maxHandles
      && |f.counters.buffered| == 3 && (forall c :: 0 <= c < 3 ==> f.counters.buffered[c] <= cfg.eventsPerTurn)
      && (f.counters.refs == 0 <==> Idle(Reached(cfg, trace)))
  {
    hide Reached, Inv, Idle, Steady, ArmedCount, HeldCount, PortCount;
    var m := Reached(cfg, trace);
    ReachedInv(cfg, trace);
    AliveAt(f, cfg, trace, m);
    QueueBounded(cfg, trace);
    RingHasRoom(cfg, trace);
    PromisesAreFree(cfg, trace);
    CountersAt(f, m);
    QueueAt(f, m);
  }

  lemma CountersAt(f: State, m: Model)
    requires Steady(f, m)
    ensures
      && f.counters.refs >= 0 && f.counters.pooled == m.promised && f.counters.armed == ArmedCount(m.ops)
      && f.counters.reserved == Reserved(m) && f.free == m.free && f.ring == m.ring && f.inflight == m.inflight
      && f.counters.undelivered == PortCount(m.ops) && |f.handles| == Size(m.handles)
      && f.counters.native <= |f.ops| == Size(m.ops) <= f.counters.outstanding
  {
    hide Weight, ArmedCount, HeldCount, PortCount, Chains, SameResource, Active, SameQueue, Count;
    assert |f.handles.Keys| == |m.handles.Keys| && |f.ops.Keys| == |m.ops.Keys|;
    assert Natives(m.ops) <= m.ops.Keys;
    Subset(Natives(m.ops), m.ops.Keys);
  }

  lemma QueueAt(f: State, m: Model)
    requires Steady(f, m) && Inv(m)
    ensures
      && |f.queued| == |m.stream| - m.out && f.counters.outstanding <= m.cfg.maxOperations
      && |f.counters.buffered| == 3 && forall c :: 0 <= c < 3 ==> f.counters.buffered[c] <= m.cfg.eventsPerTurn
  {
    hide Linked, Counted, Active, Count, Shape, Settled, Sized, OpHistory, HandleHistory, Housing, Credit;
  }

  /** Timing connects out does not change what a poll may bring. */
  lemma ExpiredBatch(m: Model, m': Model, now: Instant, events: seq<Event>)
    requires TimedOutBy(m, m', now)
    ensures Count(Class(NATIVE_EVENTS), m'.stream, m'.out) == Count(Class(NATIVE_EVENTS), m.stream, m.out)
    ensures
      Batch(m, events) && Spends(m, events) <= LoopModel.Budget(m) ==>
        Batch(m', events) && Spends(m', events) <= LoopModel.Budget(m')
  {
    hide Count;
    assert Held(m'.ops) == Held(m.ops);
    SameSpends(m, m', events);
    if Batch(m, events) {
      forall i | 0 <= i < |events| ensures Honest(m', events[i]) { assert Honest(m, events[i]); }
    }
  }

  lemma {:induction false} SameSpends(m: Model, m': Model, events: seq<Event>)
    requires m'.ops.Keys == m.ops.Keys && forall k :: k in m.ops ==> m'.ops[k].multishot == m.ops[k].multishot
    ensures Spends(m', events) == Spends(m, events)
  {
    if events != [] { SameSpends(m, m', events[1..]); }
  }

  /** Why `close` turns a request away. */
  function CloseError(m: Model, owner: nat, h: Id, notReady: Option<ErrorKind>): Option<ErrorKind> {
    if h.owner != owner || !Visible(m, h.key) then Some(NotFound)
    else if m.handles[h.key].closing.Some? then Some(InvalidInput)
    else if !m.handles[h.key].kind.File? then notReady
    else None
  }

  /** Why `detach` turns a request away. */
  function DetachError(m: Model, owner: nat, h: Id): Option<ErrorKind> {
    if h.owner != owner || !Visible(m, h.key) then Some(NotFound)
    else if m.handles[h.key].closing.Some? || !m.handles[h.key].kind.Socket? then Some(InvalidInput)
    else None
  }

  lemma CancellingList(m: Model, m': Model, h: Key, list: seq<Key>, i: nat, stop: bool, refused: set<Key>)
    requires h in m.handles && i <= |list| && Cancelling(m, m', h, list, i, stop, refused)
    ensures h in m'.handles && m'.handles[h].closing == m.handles[h].closing && m'.handles[h].hidden == m.handles[h].hidden
    ensures i < |list| || !m.handles[h].kind.Timer? ==> m'.handles[h].ops == list
  {}

  lemma BeginCloseHas(m: Model, h: Key, token: Token)
    requires h in m.handles
    ensures h in BeginClose(m, h, token).handles
  {}

  lemma StoppedAll(
    cfg: Config, trace1: seq<Step>, m: Model, m1: Model, m': Model, h: Key, token: Token, list: seq<Key>,
    refused: set<Key>, refusedLater: set<Key>)
    requires h in m.handles && list == m.handles[h].ops && Cancelling(m, m1, h, list, |list|, true, refused)
    requires m1 == Reached(cfg, trace1) && h in m1.handles && m1.handles[h].closing.None?
    requires h in BeginClose(m1, h, token).handles
    requires Cancelling(BeginClose(m1, h, token), m', h, m1.handles[h].ops, |m1.handles[h].ops|, false, refusedLater)
    ensures forall k :: k in list && k in m'.ops && k in m.ops && !m.ops[k].cancel && k !in refused ==>
              m'.ops[k].cancel && m'.ops[k].stop
  {
    hide BeginClose, Inv, Reached;
    ReachedInv(cfg, trace1);
    KeptAt(m1, h);
    BeginCloseAt(m1, h, token);
    forall k | k in list && k in m'.ops && k in m.ops && !m.ops[k].cancel && k !in refused ensures m'.ops[k].cancel && m'.ops[k].stop {
      var j :| 0 <= j < |list| && list[j] == k;
      assert k in m1.ops && m1.ops[k].cancel && m1.ops[k].stop;
      assert m1.handles[h].ops == list;
    }
  }

  lemma RefFacts(f: State, cfg: Config, trace: seq<Step>, m: Model, h: Key, referenced: bool)
    requires Steady(f, m) && m == Reached(cfg, trace)
    ensures Inv(m) && SameQueue(f.queued, f.counters.buffered, m.stream, m.out)
    ensures (h in f.handles && !f.handles[h].hidden) <==> Visible(m, h)
    ensures
      Visible(m, h) ==>
        && f.handles[h].referenced == m.handles[h].referenced
        && Apply(m, RefS(h, referenced)) == LoopModel.SetRef(m, h, referenced)
        && (m.handles[h].referenced == referenced ==> LoopModel.SetRef(m, h, referenced) == m)
  {
    hide Inv, Linked, Counted, SameQueue, Active, Reached, Apply;
    ReachedInv(cfg, trace);
    VisibleAt(f, m, h);
    if Visible(m, h) { RefApplies(m, h, referenced); }
  }
  /** Who serves typed filesystem requests. */
  datatype Filesystem = NoFiles | PoolFiles | BackendFiles

  /** A handle on which `service` cannot serve a request. */
  predicate Unsuited(r: Handle, service: Filesystem) { r.closing.Some? || r.kind != KindOf(FileKindOf(service.PoolFiles?)) }

  /** Why `fs` turns a request away before it is offered to anyone. */
  function FsError(m: Model, owner: nat, service: Filesystem, target: Option<Id>, opens: bool): Option<ErrorKind> {
    if service.NoFiles? then Some(Unsupported)
    else if service.PoolFiles? && PortCount(m.ops) >= m.cfg.maxUndelivered then Some(ResourceLimit)
    else if target.Some? && (target.value.owner != owner || !Visible(m, target.value.key)) then Some(NotFound)
    else if target.Some? && Unsuited(m.handles[target.value.key], service) then Some(InvalidInput)
    else if opens && !Room(m) then Some(ResourceLimit)
    else if Outstanding(m) >= m.cfg.maxOperations then Some(ResourceLimit)
    else None
  }

  lemma FsFacts(f: State, cfg: Config, trace: seq<Step>, m: Model, target: Option<Id>, h: Key, k: Key, pooled: bool)
    requires Steady(f, m) && m == Reached(cfg, trace) && h !in m.issuedHandles
    ensures m.cfg == cfg && f.counters.undelivered == PortCount(m.ops)
    ensures
      target.Some? ==>
        && ((target.value.key in f.handles && !f.handles[target.value.key].hidden) <==> Visible(m, target.value.key))
        && (Visible(m, target.value.key) ==> SameResource(f.handles[target.value.key], m.handles[target.value.key]))
    ensures Unaffected(m, m, h) && Unaffected(m, Reject(m, k, false), h)
    ensures Room(m) ==> Unaffected(m, Dropped(m, h, pooled), h) && Unaffected(m, Reject(Dropped(m, h, pooled), k, false), h)
  {
    hide Inv, Steady, Reached, PortCount, Exhausted;
    ConfigAt(cfg, trace);
    CreditAt(f, m);
    ForgetFresh(cfg, trace, m, h);
    if target.Some? { VisibleAt(f, m, target.value.key); }
    if Room(m) { RefusedHandle(m, h, KindOf(FileKindOf(pooled))); }
  }

  lemma NotKept(m: Model, o: Op)
    requires !o.multishot
    ensures !Keeps(m, o)
  {}

  lemma OpenSteps(cfg: Config, trace: seq<Step>, m: Model, h: Key, k: Key, pooled: bool)
    requires m == Reached(cfg, trace) && Room(m) && h !in m.issuedHandles && k !in m.issuedOps
    ensures After(m, [AddS(h, KindOf(FileKindOf(pooled))), RemoveS(h)]) == Dropped(m, h, pooled)
    ensures After(m, [AddS(h, KindOf(FileKindOf(pooled))), RemoveS(h), RejectS(k, false)]) == Reject(Dropped(m, h, pooled), k, false)
  {
    hide Inv, Reached, Room, Dropped, Reject;
    ReachedInv(cfg, trace);
    DroppedSteps(m, h, k, pooled);
  }
  /** A descriptor of a child: a pipe whose parent end takes the handle `key`, or a handle of
      this loop that it inherits. */
  datatype Pipe = Fresh(key: Key) | Inherit(source: Id)

  function PipeKeys(pipes: seq<Pipe>): seq<Key> {
    if pipes == [] then []
    else PipeKeys(pipes[..|pipes| - 1]) + (match pipes[|pipes| - 1] case Fresh(key) => [key] case Inherit(_) => [])
  }

  lemma PipeNext(pipes: seq<Pipe>, i: nat)
    requires i < |pipes|
    ensures PipeKeys(pipes[..i + 1]) == PipeKeys(pipes[..i]) + (match pipes[i] case Fresh(key) => [key] case Inherit(_) => [])
    ensures forall x :: x in PipeKeys(pipes[..i]) ==> x in PipeKeys(pipes)
    ensures
      pipes[i].Fresh? ==>
        pipes[i].key in PipeKeys(pipes) && (Distinct(PipeKeys(pipes)) ==> pipes[i].key !in PipeKeys(pipes[..i]))
  {
    assert pipes[..i + 1][..i] == pipes[..i];
    var before, all := PipeKeys(pipes[..i]), PipeKeys(pipes);
    PipePrefix(pipes, i + 1);
    PipePrefix(pipes, i);
    InPrefix(before, all, if pipes[i].Fresh? then pipes[i].key else 0);
  }

  lemma PipeNone()
    ensures PipeKeys([]) == []
  {}

  lemma InPrefix(before: seq<Key>, all: seq<Key>, key: Key)
    requires before <= all
    ensures forall x :: x in before ==> x in all
    ensures before + [key] <= all ==> key in all && (Distinct(all) ==> key !in before)
  {
    assert forall i :: 0 <= i < |before| ==> before[i] == all[i];
    if before + [key] <= all { assert (before + [key])[|before|] == all[|before|]; }
  }

  lemma {:induction false} PipePrefix(pipes: seq<Pipe>, i: nat)
    requires i <= |pipes|
    ensures PipeKeys(pipes[..i]) <= PipeKeys(pipes)
    decreases |pipes| - i
  {
    if i == |pipes| {
      assert pipes[..i] == pipes;
    } else {
      PipePrefix(pipes, i + 1);
      assert pipes[..i + 1][..i] == pipes[..i];
    }
  }

  /** `m` is `m0` with the sockets `keys` added. A slot is missing only for a spent key of
      the last generation. */
  ghost predicate Created(m0: Model, m: Model, keys: seq<Key>) {
    && Distinct(keys)
    && m == m0.(handles := m.handles, free := m.free, issuedHandles := m.issuedHandles, issuedOps := m.issuedOps, refused := m.refused)
    && (forall x :: x in keys ==>
          && x !in m0.handles && x !in m0.issuedHandles && x in m.issuedHandles
          && x in m.handles && m.handles[x] == LoopModel.NewHandle(Socket))
    && (forall x :: x in m.handles ==> x in m0.handles || x in keys)
    && (forall x :: x in m0.handles ==> x in m.handles && m.handles[x] == m0.handles[x])
    && (forall x :: x in m0.issuedHandles ==> x in m.issuedHandles)
    && m.free + |keys| <= m0.free
    && ((forall x :: x in m.issuedHandles && x !in m0.issuedHandles ==> !Exhausted(x)) ==> m.free + |keys| == m0.free)
  }

  /** The first descriptor that cannot be set up, once the sockets `made` are there. */
  function PipeError(m: Model, owner: nat, made: seq<Key>, pipes: seq<Pipe>): Option<ErrorKind>
    decreases |pipes|
  {
    if pipes == [] then None
    else match pipes[0]
      case Inherit(source) =>
        if source.owner != owner || !(Visible(m, source.key) || source.key in made) then Some(NotFound)
        else PipeError(m, owner, made, pipes[1..])
      case Fresh(key) =>
        if Reserved(m) + |made| >= m.free then Some(ResourceLimit) else PipeError(m, owner, made + [key], pipes[1..])
  }

  /** Why `spawn` fails, if it does. */
  function SpawnError(m: Model, owner: nat, h: Key, pipes: seq<Pipe>, refusal: Option<ErrorKind>): Option<ErrorKind> {
    if !Room(m) then Some(ResourceLimit)
    else if PipeError(m, owner, [h], pipes).Some? then PipeError(m, owner, [h], pipes)
    else if Outstanding(m) >= m.cfg.maxOperations then Some(ResourceLimit)
    else refusal
  }

  lemma CreatedAt(m0: Model, m: Model, keys: seq<Key>, x: Key)
    requires Created(m0, m, keys)
    ensures m.free + |keys| == m0.free ==> (Room(m) <==> Reserved(m0) + |keys| < m0.free)
    ensures Outstanding(m) == Outstanding(m0) && m.cfg == m0.cfg
    ensures Visible(m, x) <==> Visible(m0, x) || x in keys
  {
    hide Exhausted, Distinct, HeldCount, Count;
  }

  /** The child's handles exist and its operation is pending on the first of them. */
  ghost predicate Spawned(m0: Model, m: Model, keys: seq<Key>, k: Key, o: Op) {
    exists m1 :: Created(m0, m1, keys) && m == PutOp(m1, k, o)
  }

  lemma CreatedNone(m: Model)
    ensures Created(m, m, [])
  {
    hide Exhausted;
  }

  lemma CreatedMore(m0: Model, m: Model, keys: seq<Key>, h: Key)
    requires Created(m0, m, keys) && h !in m.issuedHandles
    ensures
      m0.handles.Keys <= m0.issuedHandles && Room(m) ==>
        Created(m0, PutHandle(m, h, LoopModel.NewHandle(Socket)), keys + [h])
    ensures Room(m) ==> PutHandle(m, h, LoopModel.NewHandle(Socket)).free + 1 == m.free
  {
    hide Exhausted;
  }

  lemma CreatedLess(m0: Model, m: Model, keys: seq<Key>)
    requires Created(m0, m, keys) && keys != []
    ensures keys[0] in m.handles && m.handles[keys[0]] == LoopModel.NewHandle(Socket) && m.stream == m0.stream
    ensures m.out == m0.out
    ensures Created(m0, DropHandle(m, keys[0]), keys[1..])
  {
    hide Exhausted;
  }

  lemma CreatedStill(m0: Model, m: Model, keys: seq<Key>, k: Key)
    requires Created(m0, m, keys)
    ensures Created(m0, Reject(m, k, false), keys)
  {
    hide Exhausted;
  }

  lemma CreatedSocket(m0: Model, m: Model, keys: seq<Key>, h: Key, token: Token)
    requires Created(m0, m, keys) && h in keys
    ensures Admissible(m, SocketOp(h, token, NoSlot))
  {
    hide Exhausted;
  }

  lemma SpawnedBy(m0: Model, m: Model, keys: seq<Key>, k: Key, o: Op)
    requires Created(m0, m, keys)
    ensures Spawned(m0, PutOp(m, k, o), keys, k, o)
  {
    hide Created, PutOp;
  }

  lemma AllFresh(cfg: Config, trace: seq<Step>, m: Model)
    requires m == Reached(cfg, trace)
    ensures m.handles.Keys <= m.issuedHandles && forall x :: x !in m.issuedHandles ==> Unmentioned(m.stream, m.out, x)
  {
    hide Inv, Reached, Unmentioned;
    ReachedInv(cfg, trace);
    Basics(m);
    forall x | x !in m.issuedHandles ensures Unmentioned(m.stream, m.out, x) { FreshUnmentioned(m, x); }
  }

  lemma IssuedHere(m: Model, h: Key)
    ensures
      var m' := PutHandle(m, h, LoopModel.NewHandle(Socket));
      m'.issuedHandles == m.issuedHandles + {h} && m'.issuedOps == m.issuedOps
  {}

  /** Everything the loop still owes: handles, operations and work in flight. */
  function Owns(m: Model): set<Key> { m.handles.Keys + m.ops.Keys + m.inflight }

  /** Nothing is owned or undelivered, and every handle slot is still usable. */
  ghost predicate Quiet(m: Model, cfg: Config) { Owns(m) == {} && m.out == |m.stream| && m.ring == [] && m.free == cfg.maxHandles }

  lemma RebuildFacts(f: State, cfg: Config, trace: seq<Step>, m: Model)
    requires Steady(f, m) && m == Reached(cfg, trace)
    ensures f.free == m.free && f.ring == m.ring && (f.queued == [] <==> m.out == |m.stream|)
    ensures f.free == cfg.maxHandles ==> m.handles == map[]
    ensures f.queued == [] && f.counters.outstanding == 0 ==> m.ops == map[] && m.inflight == {}
    ensures m.ops == map[] && m.out == |m.stream| ==> f.counters.outstanding == 0
    ensures m.handles == map[] && m.ops == map[] && m.inflight == {} <==> Owns(m) == {}
  {
    hide Shape, OpHistory, HandleHistory, Bounded, Housing, Settled, Reached, Linked, Counted, Active, HeldCount, PortCount;
    ReachedInv(cfg, trace);
    if f.queued == [] { assert Count(Terminal, m.stream, m.out) == 0; }
    if m.ops == map[] { assert forall k :: k in m.inflight ==> k in m.ops; }
    assert m.handles.Keys <= Owns(m) && m.ops.Keys <= Owns(m) && m.inflight <= Owns(m);
  }

  lemma QueuedAt(f: State, m: Model)
    requires Steady(f, m)
    ensures m.out + |f.queued| == |m.stream| && forall i :: 0 <= i < |f.queued| ==> f.queued[i] == QueuedOf(m.stream[m.out + i])
  {
    hide Linked, Counted, Active;
  }

  lemma MentionAt(f: State, m: Model, h: Key)
    requires Steady(f, m)
    ensures Unmentioned(m.stream, m.out, h) <==> !exists i :: 0 <= i < |f.queued| && f.queued[i].completion.handle == Some(h)
  {
    hide Steady;
    QueuedAt(f, m);
    if !Unmentioned(m.stream, m.out, h) {
      var i :| m.out <= i < |m.stream| && m.stream[i].completion.handle == Some(h);
      assert f.queued[i - m.out] == QueuedOf(m.stream[m.out + (i - m.out)]);
    }
  }

  function JobOp(token: Token): Op { Op(None, token, false, false, false, false, false, false, false, true) }

  function LookupOp(token: Token): Op { Op(None, token, false, false, false, false, false, false, true, false) }

  lemma ConfigAt(cfg: Config, trace: seq<Step>)
    ensures Reached(cfg, trace).cfg == cfg
  {
    ReachedInv(cfg, trace);
  }

  lemma CreditAt(f: State, m: Model)
    requires Steady(f, m)
    ensures f.counters.undelivered == PortCount(m.ops)
  {}

  lemma AttemptFacts(f: State, cfg: Config, trace: seq<Step>, m: Model, k: Key, o: Op)
    requires Steady(f, m) && m == Reached(cfg, trace) && k !in m.issuedOps && Admissible(m, o)
    ensures
      o.handle.Some? ==>
        o.handle.value in f.handles && (f.handles[o.handle.value].tail.Some? ==> f.handles[o.handle.value].tail.value in f.ops)
    ensures f.counters.outstanding == Outstanding(m) <= cfg.maxOperations
    ensures
      Outstanding(m) < cfg.maxOperations ==>
        && Steady(Admitted(f, k, o), PutOp(m, k, o)) && Apply(m, SubmitS(k, o)) == PutOp(m, k, o)
        && Apply(m, RejectS(k, Keeps(m, o))) == Reject(m, k, Keeps(m, o))
        && Spliceable(Admitted(f, k, o), k, o) && Steady(Undone(Admitted(f, k, o), k), Reject(m, k, Keeps(m, o)))
  {
    hide Inv, Represents, Active, Size, Count, Reached, Apply, PutOp, Reject, Room, Keeps, Admitted, Undone, Spliceable, Steady;
    ReachedInv(cfg, trace);
    OutstandingAt(f, m);
    if o.handle.Some? { SteadyTail(f, m, o.handle.value); }
    if Outstanding(m) < m.cfg.maxOperations {
      DoSubmit(f, m, k, o);
      RejectApplies(m, k, o);
      DoReject(f, m, k, o);
    }
  }

  // ------------------------------------------------------------------- a turn

  // ---------------------------------------------------------------- the turn

  /** What other threads do while a turn runs: the results they publish before it decides to poll,
      by the end of its poll, and before each result it collects; the posts that arrive in time; and
      whether one of them has announced an entry that is not there yet when the turn decides. */
  datatype Meanwhile = Meanwhile(
    early: seq<Work>, announced: bool, polled: seq<Work>, later: seq<seq<Work>>, posts: seq<(Token, nat)>)

  /** A worker publishes a result it owes. */
  function ArriveOne(m: Model, w: Work): Model { if w.op in m.inflight then LoopModel.Publish(m, w.op, w.result) else m }

  function ArriveAll(m: Model, works: seq<Work>): Model {
    if works == [] then m else ArriveOne(ArriveAll(m, works[..|works| - 1]), works[|works| - 1])
  }

  lemma ArriveMore(m: Model, works: seq<Work>, i: nat)
    requires i < |works|
    ensures ArriveAll(m, works[..i + 1]) == ArriveOne(ArriveAll(m, works[..i]), works[i])
  {
    hide ArriveOne;
    assert works[..i + 1][..i] == works[..i];
  }

  /** Only the ring and what is still owed change. */
  lemma {:induction false} ArriveIs(m: Model, works: seq<Work>)
    ensures var m' := ArriveAll(m, works); m' == m.(inflight := m'.inflight, ring := m'.ring)
  {
    if works != [] { ArriveIs(m, works[..|works| - 1]); }
  }

  lemma ArriveBatch(m: Model, works: seq<Work>, events: seq<Event>)
    requires Batch(m, events) && Spends(m, events) <= LoopModel.Budget(m)
    ensures var m' := ArriveAll(m, works); Batch(m', events) && Spends(m', events) <= LoopModel.Budget(m')
  {
    hide Count;
    ArriveIs(m, works);
    var m' := ArriveAll(m, works);
    SameSpends(m, m', events);
    forall i | 0 <= i < |events| ensures Honest(m', events[i]) { assert Honest(m, events[i]); }
  }

  /** The loop polls when no native result is still queued and either nothing else is waiting or
      native work is pending. */
  ghost predicate Polls(m: Model, posts: seq<(Token, nat)>, announced: bool) {
    && Count(Class(NATIVE_EVENTS), m.stream, m.out) == 0
    && ((m.out == |m.stream| && posts == [] && m.ring == [] && !announced) || NativeCount(m.ops) != 0)
  }

  ghost predicate NoneDue(m: Model, now: Instant) { forall k :: k in m.connects ==> m.connects[k] > now }

  /** Connects time out, one poll's events are taken with every connection housed, and what fell due
      meanwhile times out. */
  ghost predicate Discovered(
    m: Model, p: Phases, m': Model, start: Instant, now: Instant, events: seq<Event>, posts: seq<(Token, nat)>, w: Meanwhile)
  {
    && TimedOutBy(m, p.expired, start) && NoneDue(p.expired, start)
    && p.ready == ArriveAll(p.expired, w.early) && p.polled == ArriveAll(p.ready, w.polled)
    && (if Polls(p.ready, posts, w.announced) then p.accepted == AcceptAll(p.polled, events) && AllHoused(p.polled, events)
        else p.accepted == p.polled)
    && TimedOutBy(p.accepted, m', now) && NoneDue(m', now)
  }

  /** Timers fired in order; one that is due is left only if the turn's share or the timer reserve is used up. */
  ghost predicate FiredShare(m: Model, m': Model, fired: seq<Key>, now: Instant, share: nat) {
    && FiredBy(m, m', fired, now) && |fired| <= share
    && (|fired| == share || Count(Class(TIMER_EVENTS), m'.stream, m'.out) == share || forall x :: x in m'.timers ==> m'.timers[x] > now)
  }

  function CollectOne(m: Model, i: nat): Model {
    if i < |m.ring| && m.ring[i].op in m.ops then Collect(m, i, WorkResult(m.ops[m.ring[i].op], m.ring[i].result)) else m
  }

  function Arrivals(later: seq<seq<Work>>, i: nat): seq<Work> { if i < |later| then later[i] else [] }

  /** Published results are finished, in whatever order the ring yields them, while more arrive. */
  function CollectAll(m: Model, later: seq<seq<Work>>, picks: seq<nat>): Model {
    if picks == [] then m
    else
      var n := |picks| - 1;
      CollectOne(ArriveAll(CollectAll(m, later, picks[..n]), Arrivals(later, n)), picks[n])
  }

  /** A turn's share of results is collected, or all there are when the ring is found empty. */
  ghost predicate Collected(m: Model, m': Model, later: seq<seq<Work>>, picks: seq<nat>, share: nat) {
    && |picks| <= share
    && (if |picks| == share then m' == CollectAll(m, later, picks)
        else m' == ArriveAll(CollectAll(m, later, picks), Arrivals(later, |picks|)) && m'.ring == [])
  }

  function PostEntry(post: (Token, nat)): Entry { Entry(Completion(post.0, None, None, true, Posted(post.1)), false) }

  function PostAll(m: Model, posts: seq<(Token, nat)>): Model {
    m.(stream := m.stream + seq(|posts|, i requires 0 <= i < |posts| => PostEntry(posts[i])))
  }

  function DeliverAll(m: Model, n: nat): Model {
    if n == 0 then m
    else
      var m1 := DeliverAll(m, n - 1);
      if m1.out < |m1.stream| then LoopModel.Deliver(m1) else m1
  }
  /** What a turn went through. */
  datatype Phases = Phases(
    expired: Model, ready: Model, polled: Model, accepted: Model, discovered: Model,
    timers: seq<Key>, fired: Model, picks: seq<nat>, collected: Model, posted: Model)

  /** A whole turn, and what others did meanwhile: discover, fire, collect, take posts, deliver. */
  ghost predicate Turned(
    m: Model, p: Phases, m': Model, start: Instant, now: Instant, events: seq<Event>, posts: seq<(Token, nat)>,
    w: Meanwhile, taken: nat, delivered: nat)
  {
    var share, all := m.cfg.eventsPerTurn, posts + w.posts;
    && Discovered(m, p, p.discovered, start, now, events, posts, w)
    && FiredShare(p.discovered, p.fired, p.timers, now, share)
    && Collected(p.fired, p.collected, w.later, p.picks, share)
    && taken <= |all| && p.posted == PostAll(p.collected, all[..taken])
    && taken + Count(Class(POST_EVENTS), p.collected.stream, p.collected.out) ==
       Min(|all| + Count(Class(POST_EVENTS), p.collected.stream, p.collected.out), share)
    && m' == DeliverAll(p.posted, delivered)
  }

  /** Timing connects out and publishing results do not change what a poll may bring. */
  lemma PollBatch(m: Model, p: Phases, start: Instant, events: seq<Event>, w: Meanwhile)
    requires TimedOutBy(m, p.expired, start) && p.ready == ArriveAll(p.expired, w.early)
    requires p.polled == ArriveAll(p.ready, w.polled)
    requires Count(Class(NATIVE_EVENTS), m.stream, m.out) == 0 ==> Batch(m, events) && Spends(m, events) <= LoopModel.Budget(m)
    ensures
      Count(Class(NATIVE_EVENTS), p.ready.stream, p.ready.out) == 0 ==>
        Batch(p.polled, events) && Spends(p.polled, events) <= LoopModel.Budget(p.polled)
  {
    hide Batch, Spends, LoopModel.Budget, ArriveAll, TimedOutBy, Count;
    ExpiredBatch(m, p.expired, start, events);
    ArriveIs(p.expired, w.early);
    if Count(Class(NATIVE_EVENTS), p.ready.stream, p.ready.out) == 0 {
      ArriveBatch(p.expired, w.early, events);
      ArriveBatch(p.ready, w.polled, events);
    }
  }

  /** The later phases do not matter to the first one. */
  lemma DiscoveredBy(
    m: Model, p: Phases, m': Model, start: Instant, now: Instant, events: seq<Event>, posts: seq<(Token, nat)>, w: Meanwhile,
    timers: seq<Key>, fired: Model, picks: seq<nat>, collected: Model, posted: Model)
    requires Discovered(m, p, m', start, now, events, posts, w)
    ensures
      var p' := p.(discovered := m', timers := timers, fired := fired, picks := picks, collected := collected, posted := posted);
      Discovered(m, p', m', start, now, events, posts, w)
  {
    hide TimedOutBy, NoneDue, ArriveAll, Polls, AcceptAll, AllHoused;
  }

  lemma PostMore(m: Model, posts: seq<(Token, nat)>, i: nat)
    requires i < |posts|
    ensures LoopModel.Post(PostAll(m, posts[..i]), posts[i].0, posts[i].1) == PostAll(m, posts[..i + 1])
  {
    var a, b := PostAll(m, posts[..i]), PostAll(m, posts[..i + 1]);
    assert b.stream == a.stream + [PostEntry(posts[i])];
  }

  lemma PostNone(m: Model, posts: seq<(Token, nat)>)
    ensures PostAll(m, posts[..0]) == m
  {
    assert PostAll(m, posts[..0]).stream == m.stream;
  }

  lemma CollectMore(m: Model, later: seq<seq<Work>>, picks: seq<nat>, i: nat)
    ensures
      CollectAll(m, later, picks + [i]) == CollectOne(ArriveAll(CollectAll(m, later, picks), Arrivals(later, |picks|)), i)
  {
    hide CollectOne, ArriveAll, Arrivals;
    assert (picks + [i])[..|picks|] == picks;
  }

  lemma CollectNone(m: Model, later: seq<seq<Work>>)
    ensures CollectAll(m, later, []) == m
  {}

  /** The counters decide as the model does. */
  lemma PollsAt(f: State, m: Model, posts: seq<(Token, nat)>, announced: bool)
    requires Steady(f, m)
    ensures |f.counters.buffered| == 3
    ensures
      var waiting := f.queued != [] || posts != [] || f.ring != [] || announced;
      (f.counters.buffered[NATIVE_EVENTS] == 0 && (!waiting || f.counters.native != 0)) <==> Polls(m, posts, announced)
    ensures Polls(m, posts, announced) ==> Count(Class(NATIVE_EVENTS), m.stream, m.out) == 0
  {
    hide Linked, Active, Size, Count, HeldCount, ArmedCount, PortCount, NativeCount, Weight;
  }

  // --------------------------------------------- what the contracts amount to

  /** What each kind of request enters: its token and handle, nobody has asked it to end, and who will
      answer it. */
  lemma RequestShapes(h: Key, handle: Option<Key>, token: Token, claim: Claim, pooled: bool)
    ensures SocketOp(h, token, claim) == Op(Some(h), token, false, false, false, false, claim == OwnSlot, claim == PooledSlot, true, false)
    ensures JobOp(token) == Op(None, token, false, false, false, false, false, false, false, true)
    ensures LookupOp(token) == Op(None, token, false, false, false, false, false, false, true, false)
    ensures FsOp(handle, token, pooled) == Op(handle, token, false, false, false, true, false, false, !pooled, pooled)
    ensures KindOf(FileKindOf(pooled)) == if pooled then File else Socket
  {}

  /** The handle of an open request is hidden, referenced and has just that operation. */
  lemma HiddenStarts(m: Model, h: Key, kind: Kind, k: Key, o: Op)
    requires o.handle == Some(h) && m.free > 0
    ensures
      var m' := PutHidden(m, h, kind, k, o);
      && m'.handles == m.handles[h := Handle(kind, true, true, None, false, [k])] && m'.ops == m.ops[k := o]
      && m'.free == m.free - 1 && m'.stream == m.stream
  {
    assert [] + [k] == [k];
  }

  predicate Reachable(m: Model, owner: nat, h: Id) { h.owner == owner && h.key in m.handles && !m.handles[h.key].hidden }

  /** A socket request is refused exactly for a handle the host cannot use, a kind or state that takes
      none, a slot that is not to be had, or a full table, in that order. */
  lemma SubmitRefusals(m: Model, owner: nat, h: Id, claim: Claim)
    ensures SubmitError(m, owner, h, claim) == Some(NotFound) <==> h.owner != owner || h.key !in m.handles || m.handles[h.key].hidden
    ensures SubmitError(m, owner, h, claim) == Some(InvalidInput) <==>
              Reachable(m, owner, h) && (m.handles[h.key].closing.Some? || m.handles[h.key].kind != Socket)
    ensures SubmitError(m, owner, h, claim).None? <==>
              && Reachable(m, owner, h) && m.handles[h.key].closing.None? && m.handles[h.key].kind == Socket
              && (claim == NoSlot || HeldCount(m.ops) + m.promised < m.free)
              && Size(m.ops) + Count(Terminal, m.stream, m.out) < m.cfg.maxOperations
    ensures SubmitError(m, owner, h, claim).Some? ==> SubmitError(m, owner, h, claim).value in {NotFound, InvalidInput, ResourceLimit}
  {
    hide Count, HeldCount, Size;
  }

  lemma CloseRefusals(m: Model, owner: nat, h: Id, notReady: Option<ErrorKind>)
    ensures !Reachable(m, owner, h) ==> CloseError(m, owner, h, notReady) == Some(NotFound)
    ensures Reachable(m, owner, h) && m.handles[h.key].closing.Some? ==> CloseError(m, owner, h, notReady) == Some(InvalidInput)
    ensures CloseError(m, owner, h, notReady).None? <==>
              Reachable(m, owner, h) && m.handles[h.key].closing.None? && (m.handles[h.key].kind == File || notReady.None?)
  {}

  lemma DetachRefusals(m: Model, owner: nat, h: Id)
    ensures DetachError(m, owner, h) == Some(NotFound) <==> h.owner != owner || h.key !in m.handles || m.handles[h.key].hidden
    ensures DetachError(m, owner, h).None? <==>
              Reachable(m, owner, h) && m.handles[h.key].closing.None? && m.handles[h.key].kind == Socket
    ensures DetachError(m, owner, h).Some? ==> DetachError(m, owner, h).value in {NotFound, InvalidInput}
  {}

  /** A filesystem request is accepted exactly if somebody serves it, the pool has credit for its
      result, its target is an open file of that service, and the tables have room. */
  lemma FsRefusals(m: Model, owner: nat, service: Filesystem, target: Option<Id>, opens: bool)
    ensures FsError(m, owner, service, target, opens) == Some(Unsupported) <==> service == NoFiles
    ensures FsError(m, owner, service, target, opens).None? <==>
              && service != NoFiles && (service == PoolFiles ==> PortCount(m.ops) < m.cfg.maxUndelivered)
              && (target.Some? ==>
                    && Reachable(m, owner, target.value) && m.handles[target.value.key].closing.None?
                    && m.handles[target.value.key].kind == if service == PoolFiles then File else Socket)
              && (opens ==> HeldCount(m.ops) + m.promised < m.free)
              && Size(m.ops) + Count(Terminal, m.stream, m.out) < m.cfg.maxOperations
  {
    hide Count, HeldCount, PortCount, Size;
  }

  /** The descriptors of a child can all be set up exactly if there is a slot for every pipe and every
      handle it inherits is there by then. */
  lemma {:induction false} PipesFit(m: Model, owner: nat, made: seq<Key>, pipes: seq<Pipe>)
    ensures PipeError(m, owner, made, pipes).None? <==>
              && (Pipes(pipes) > 0 ==> Reserved(m) + |made| + Pipes(pipes) <= m.free)
              && InheritsAll(m, owner, made, pipes)
    ensures PipeError(m, owner, made, pipes).Some? ==> PipeError(m, owner, made, pipes).value in {NotFound, ResourceLimit}
    decreases |pipes|
  {
    hide Reserved;
    if pipes != [] {
      var p, rest := pipes[0], pipes[1..];
      PipesFit(m, owner, if p.Fresh? then made + [p.key] else made, rest);
      InheritsMore(m, owner, made, pipes);
    }
  }

  function Pipes(pipes: seq<Pipe>): nat
    decreases |pipes|
  {
    if pipes == [] then 0 else One(pipes[0].Fresh?) + Pipes(pipes[1..])
  }

  /** Every inherited handle belongs to this loop and was there before, or was made for an earlier pipe. */
  ghost predicate InheritsAll(m: Model, owner: nat, made: seq<Key>, pipes: seq<Pipe>) {
    forall i :: 0 <= i < |pipes| && pipes[i].Inherit? ==> Inherits(m, owner, made, pipes, i)
  }

  ghost predicate Inherits(m: Model, owner: nat, made: seq<Key>, pipes: seq<Pipe>, i: nat)
    requires i < |pipes| && pipes[i].Inherit?
  {
    var h := pipes[i].source;
    && h.owner == owner
    && ((h.key in m.handles && !m.handles[h.key].hidden) || h.key in made || exists j :: 0 <= j < i && pipes[j] == Fresh(h.key))
  }

  lemma InheritsMore(m: Model, owner: nat, made: seq<Key>, pipes: seq<Pipe>)
    requires pipes != []
    ensures
      var p, rest := pipes[0], pipes[1..];
      var made' := if p.Fresh? then made + [p.key] else made;
      InheritsAll(m, owner, made, pipes) <==>
        (p.Inherit? ==> Inherits(m, owner, made, pipes, 0)) && InheritsAll(m, owner, made', rest)
  {
    var p, rest := pipes[0], pipes[1..];
    var made' := if p.Fresh? then made + [p.key] else made;
    forall i | 0 <= i < |rest| && rest[i].Inherit?
      ensures Inherits(m, owner, made', rest, i) <==> Inherits(m, owner, made, pipes, i + 1)
    {
      InheritsShift(m, owner, made, pipes, i);
    }
    if InheritsAll(m, owner, made, pipes) {
      forall i | 0 <= i < |rest| && rest[i].Inherit? ensures Inherits(m, owner, made', rest, i) {
        assert pipes[i + 1].Inherit?;
      }
    }
    if (p.Inherit? ==> Inherits(m, owner, made, pipes, 0)) && InheritsAll(m, owner, made', rest) {
      forall i | 0 <= i < |pipes| && pipes[i].Inherit? ensures Inherits(m, owner, made, pipes, i) {
        if i > 0 { assert rest[i - 1].Inherit?; }
      }
    }
  }

  lemma InheritsShift(m: Model, owner: nat, made: seq<Key>, pipes: seq<Pipe>, i: nat)
    requires pipes != [] && i < |pipes[1..]| && pipes[1..][i].Inherit?
    ensures
      var made' := if pipes[0].Fresh? then made + [pipes[0].key] else made;
      Inherits(m, owner, made', pipes[1..], i) <==> Inherits(m, owner, made, pipes, i + 1)
  {
    var rest, key := pipes[1..], pipes[i + 1].source.key;
    if j :| 0 <= j < i && rest[j] == Fresh(key) { assert pipes[j + 1] == Fresh(key); }
    if j :| 0 <= j < i + 1 && pipes[j] == Fresh(key) && j > 0 { assert rest[j - 1] == Fresh(key); }
    if pipes[0] == Fresh(key) { assert 0 <= 0 < i + 1; }
  }

  /** The loop polls exactly when no native result is queued and either native work is pending or
      nothing at all waits for the host. */
  lemma PollsExactly(m: Model, posts: seq<(Token, nat)>, announced: bool)
    ensures Polls(m, posts, announced) <==>
              && Count(Class(NATIVE_EVENTS), m.stream, m.out) == 0
              && (NativeCount(m.ops) > 0 || (m.out == |m.stream| && m.ring == [] && posts == [] && !announced))
  {
    hide Count, NativeCount;
  }

  /** A connect that lost its deadline was due and is asked to end for it; every other is as it was. */
  lemma TimedOutMeans(m: Model, m': Model, now: Instant, k: Key)
    requires TimedOutBy(m, m', now) && k in m.ops
    ensures k in m'.ops && m'.stream == m.stream && m'.handles == m.handles
    ensures
      if k in m.connects && k !in m'.connects then
        m.connects[k] <= now && m'.ops[k] == m.ops[k].(cancel := true, timedOut := true)
      else m'.ops[k] == m.ops[k] && (k in m.connects <==> k in m'.connects) && (k in m.connects ==> m'.connects[k] == m.connects[k])
  {}

  /** An operation of a handle that was walked is asked to end as the walk asks, unless it already was
      or the backend refuses. */
  lemma WalkAsks(m: Model, m': Model, h: Key, list: seq<Key>, j: nat, stop: bool, refused: set<Key>)
    requires h in m.handles && Cancelling(m, m', h, list, |list|, stop, refused) && j < |list| && list[j] in m.ops && list[j] in m'.ops
    ensures
      var o, o' := m.ops[list[j]], m'.ops[list[j]];
      if !o.cancel && !(o.native && list[j] in refused) then o'.cancel && o'.stop == stop && o'.token == o.token
      else o'.cancel == o.cancel && o'.stop == o.stop
  {}

  /** A turn collects its share of results, or as many as it finds. */
  lemma CollectedMeans(m: Model, m': Model, later: seq<seq<Work>>, picks: seq<nat>, share: nat)
    requires Collected(m, m', later, picks, share)
    ensures |picks| <= share && (|picks| < share ==> m'.ring == [])
  {}

  /** Timers fire in the order of their deadlines and, among equals, of their keys; one that is due is
      left only if the turn's share or the timer reserve is used up. */
  lemma FiredMeans(m: Model, m': Model, fired: seq<Key>, now: Instant, share: nat)
    requires FiredShare(m, m', fired, now, share)
    ensures |fired| <= share && forall i :: 0 <= i < |fired| ==> fired[i] in m.timers && m.timers[fired[i]] <= now
    ensures forall i, j :: 0 <= i < j < |fired| ==>
              fired[i] != fired[j] &&
              (m.timers[fired[i]] < m.timers[fired[j]] || (m.timers[fired[i]] == m.timers[fired[j]] && fired[i] <= fired[j]))
    ensures |fired| < share && Count(Class(TIMER_EVENTS), m'.stream, m'.out) < share ==> forall x :: x in m'.timers ==> m'.timers[x] > now
    ensures forall x :: x in m.timers && x !in fired ==> x in m'.timers && m'.timers[x] == m.timers[x]
  {
    hide Count, FiredOnce, Untouched;
  }

  /** Posts are reported in order, each with its token and payload. */
  lemma PostsReported(m: Model, posts: seq<(Token, nat)>, i: nat)
    requires i < |posts|
    ensures
      var m' := PostAll(m, posts);
      && |m'.stream| == |m.stream| + |posts| && m'.stream[..|m.stream|] == m.stream
      && m'.stream[|m.stream| + i] == Entry(Completion(posts[i].0, None, None, true, Posted(posts[i].1)), false)
  {}

  /** A loop that may be rebuilt owns nothing at all. */
  lemma QuietMeans(m: Model, cfg: Config)
    ensures Quiet(m, cfg) <==>
              && m.handles == map[] && m.ops == map[] && m.inflight == {} && m.ring == []
              && m.out == |m.stream| && m.free == cfg.maxHandles
  {
    assert m.handles.Keys <= Owns(m) && m.ops.Keys <= Owns(m) && m.inflight <= Owns(m);
    if Quiet(m, cfg) { assert m.handles.Keys == {} && m.ops.Keys == {}; }
  }
}
