/** The driver as it is written: tables of linked records, a deque of completions and
    its counters, each updated in place. Every public call is proved to be a
    sequence of steps of the loop model. */
module LoopDriver {
  import opened Types
  import opened LoopModel
  import opened LoopSteps
  import opened LoopRuns
  import opened LoopTheorems
  import opened LoopEvents
  import opened LoopTimers
  import opened LoopReports
  import opened DriverLinks
  import opened DriverState
  import opened DriverSteps
  import opened DriverCalls

  class Driver {
    const cfg: Config
    const owner: nat
    var handles: map<Key, Resource>
    var freeHandles: nat
    var ops: map<Key, Node>
    var timers: map<Key, Instant>
    var connects: map<Key, Instant>
    var queued: seq<Queued>
    var counters: Counters
    /** Results published by workers. */
    var ring: seq<Work>
    /** Operations whose result a worker still owes. */
    var inflight: set<Key>
    ghost var m: Model
    ghost var trace: seq<Step>

    ghost function Now(): State
      reads this
    {
      State(handles, freeHandles, ops, timers, connects, queued, counters, ring, inflight)
    }

    /** The fields represent the model state `m`, which the model reaches by `trace`. */
    ghost predicate Valid()
      reads this
    {
      Steady(Now(), m) && m == Reached(cfg, trace)
    }

    constructor (config: Config, id: nat)
      ensures Valid() && cfg == config && owner == id && trace == []
    {
      hide Steady;
      cfg := config;
      owner := id;
      handles, freeHandles, ops, timers, connects := map[], config.maxHandles, map[], map[], map[];
      queued, counters, ring, inflight := [], Counters(0, 0, 0, 0, 0, 0, 0, [0, 0, 0]), [], {};
      m, trace := Init(config), [];
      new;
      SteadyInit(config);
    }

    /** Record a step whose effect the fields already represent. */
    ghost method Commit(step: Step, after: Model)
      requires m == Reached(cfg, trace) && after == Apply(m, step) && Steady(Now(), after)
      modifies this`m, this`trace
      ensures Valid() && m == after && trace == old(trace) + [step]
    {
      hide Steady, Apply;
      m, trace := after, trace + [step];
      ReachedMore(cfg, old(trace), step);
    }

    /** Record several steps at once, when only their end is represented. */
    ghost method CommitAll(steps: seq<Step>, after: Model)
      requires m == Reached(cfg, trace) && after == After(m, steps) && Steady(Now(), after)
      modifies this`m, this`trace
      ensures Valid() && m == after && trace == old(trace) + steps
    {
      hide Steady;
      m, trace := after, trace + steps;
      AfterConcat(Init(cfg), old(trace), steps);
    }

    // ---------------------------------------------------------------- handles

    /** Take a handle slot that no armed accept has been promised. */
    method NewHandle(kind: ResourceKind, h: Key) returns (ok: bool)
      requires Valid() && h !in m.issuedHandles
      requires kind.TimerKind? ==> kind.op.None? && kind.repeat != Some(0)
      modifies this
      ensures Valid() && (ok <==> Room(old(m)))
      ensures m == (if ok then PutHandle(old(m), h, LoopModel.NewHandle(KindOf(kind))) else old(m))
      ensures trace == old(trace) + (if ok then [AddS(h, KindOf(kind))] else [])
    {
      hide Inv, Steady, Reached, Apply, PutHandle, Room, KindOf;
      ReachedInv(cfg, trace);
      RoomAt(Now(), m);
      if freeHandles <= counters.reserved {
        return false;
      }
      DoAdd(Now(), m, h, kind);
      handles := handles[h := NewResource(kind)];
      freeHandles := freeHandles - 1;
      if !kind.TimerKind? {
        counters := counters.(refs := counters.refs + 1);
      }
      Commit(AddS(h, KindOf(kind)), PutHandle(m, h, LoopModel.NewHandle(KindOf(kind))));
      ok := true;
    }

    /** Free the slot of a handle, unless its key was the slot's last. */
    method Drop(h: Key)
      requires Droppable(Now(), h)
      modifies this`handles, this`freeHandles, this`counters
      ensures Now() == Removed(old(Now()), h)
    {
      hide Exhausted;
      if Leaves(handles[h]) {
        counters := counters.(refs := counters.refs - 1);
      }
      handles := handles - {h};
      if !Exhausted(h) {
        freeHandles := freeHandles + 1;
      }
    }

    /** Take back a handle that owns nothing: an undone open, or a detach. */
    method Forget(h: Key)
      requires Valid() && h in m.handles && m.handles[h].ops == [] && m.handles[h].closing.None?
      requires Unmentioned(m.stream, m.out, h)
      modifies this
      ensures Valid() && m == DropHandle(old(m), h) && trace == old(trace) + [RemoveS(h)]
    {
      hide Inv, Steady, Reached, Apply, DropHandle, Unmentioned, Removed;
      ReachedInv(cfg, trace);
      DoRemove(Now(), m, h);
      Drop(h);
      Commit(RemoveS(h), DropHandle(m, h));
    }

    // ------------------------------------------------------------- operations

    /** Append an operation to its handle's list, with the reservation or the result
        credit its submission claims, if the table has room. */
    method NewOp(k: Key, o: Op) returns (ok: bool)
      requires
        o.handle.Some? ==>
          o.handle.value in handles && (handles[o.handle.value].tail.Some? ==> handles[o.handle.value].tail.value in ops)
      modifies this`handles, this`ops, this`counters, this`inflight
      ensures ok <==> old(counters.outstanding) != cfg.maxOperations
      ensures Now() == if ok then Admitted(old(Now()), k, o) else old(Now())
    {
      hide Grown;
      if counters.outstanding == cfg.maxOperations {
        return false;
      }
      var previous := if o.handle.Some? then handles[o.handle.value].tail else None;
      counters := Charged(counters, o, o.handle.Some? ==> handles[o.handle.value].referenced);
      ops := ops[k := Node(o, previous, None)];
      if previous.Some? {
        ops := ops[previous.value := ops[previous.value].(next := Some(k))];
      }
      if o.handle.Some? {
        handles := handles[o.handle.value := Grown(handles[o.handle.value], k)];
      }
      inflight := if o.port then inflight + {k} else inflight;
      ok := true;
    }

    /** Close the gap an operation leaves in its handle's list. */
    method Unlink(k: Key)
      requires k in ops
      requires ops[k].previous.Some? ==> ops[k].previous.value in ops && ops[k].previous.value != k
      requires ops[k].next.Some? ==> ops[k].next.value in ops && ops[k].next.value != k
      modifies this`ops
      ensures ops == Spliced(old(ops), k)
    {
      var n := ops[k];
      ops := ops - {k};
      if n.previous.Some? {
        ops := ops[n.previous.value := ops[n.previous.value].(next := n.next)];
      }
      if n.next.Some? {
        ops := ops[n.next.value := ops[n.next.value].(previous := n.previous)];
      }
    }

    /** Take what an operation holds out of the counters, one at a time. */
    static method Uncharge(c: Counters, o: Op, referenced: bool) returns (c': Counters)
      requires Backs(c, o, referenced)
      ensures c' == Credited(c, o, referenced) && c'.outstanding == c.outstanding
    {
      c' := c;
      if referenced {
        c' := c'.(refs := c'.refs - 1);
      }
      if o.native {
        c' := c'.(native := c'.native - 1);
      }
      if o.port {
        c' := c'.(undelivered := c'.undelivered - 1);
      }
      if o.held {
        c' := c'.(reserved := c'.reserved - 1);
      }
      if o.multishot {
        c' := c'.(armed := c'.armed - 1);
        if c'.pooled > c'.armed {
          c' := c'.(pooled := c'.pooled - 1, reserved := c'.reserved - 1);
        }
      }
    }

    /** One operation fewer in a handle's list. */
    static method Shorten(r: Resource, k: Key, n: Node) returns (r': Resource)
      requires r.pending >= 1
      ensures r' == Shrunk(r, k, n)
    {
      r' := r.(pending := r.pending - 1);
      if r.head == Some(k) {
        r' := r'.(head := n.next);
      }
      if r.tail == Some(k) {
        r' := r'.(tail := n.previous);
      }
    }

    /** Unlink an operation and release what it held. */
    method Retire(k: Key)
      requires Retirable(Now(), k)
      modifies this`handles, this`ops, this`connects, this`counters, this`inflight
      ensures Now() == Retired(old(Now()), k) && counters.outstanding == old(counters.outstanding)
    {
      hide Shrunk, Idled, Credited, Spliced, Backs;
      var n, h := ops[k], ops[k].op.handle;
      Unlink(k);
      connects := connects - {k};
      inflight := inflight - {k};
      counters := Uncharge(counters, n.op, h.Some? ==> handles[h.value].referenced);
      if h.Some? {
        var r := Shorten(handles[h.value], k, n);
        handles := handles[h.value := Idled(r)];
      }
    }

    /** Retire an operation that the backend or a worker pool refused; nothing is owed for it. */
    method Undo(k: Key, ghost o: Op)
      requires Spliceable(Now(), k, o)
      modifies this`handles, this`ops, this`connects, this`counters, this`inflight
      ensures Now() == Undone(old(Now()), k)
    {
      hide Retired;
      Retire(k);
      counters := counters.(outstanding := counters.outstanding - 1);
    }

    /** Queue a completion; the bounds the driver asserts hold at every call. */
    method Enqueue(completion: Completion, referenced: bool)
      requires |counters.buffered| == 3 && |queued| < CompletionCapacity(cfg)
      requires EventClass(completion).Some? ==> counters.buffered[EventClass(completion).value] < cfg.eventsPerTurn
      modifies this`queued, this`counters
      ensures Now() == Enqueued(old(Now()), Entry(completion, referenced))
    {
      var eventClass := EventClass(completion);
      if eventClass.Some? {
        counters := counters.(buffered := counters.buffered[eventClass.value := counters.buffered[eventClass.value] + 1]);
      }
      counters := counters.(refs := counters.refs + One(referenced));
      queued := queued + [Queued(completion, referenced, eventClass)];
    }

    /** Queue `Closed` for a closing handle whose last operation is gone. */
    method MaybeClosed(h: Key)
      requires |counters.buffered| == 3
      requires MayClose(Now(), h) != Now() ==> |queued| < CompletionCapacity(cfg)
      modifies this`handles, this`queued, this`counters
      ensures Now() == MayClose(old(Now()), h)
    {
      if h in handles {
        var r := handles[h];
        if r.pending == 0 && !r.closedQueued && r.closing.Some? {
          handles := handles[h := r.(closedQueued := true)];
          Enqueue(Completion(r.closing.value, None, Some(h), true, Closed), false);
        }
      }
    }

    /** Queue the terminal result of an operation, retire it and maybe close its handle. */
    method Finish(k: Key, result: OpResult)
      requires Retirable(Now(), k) && OpOutcome(result) && |counters.buffered| == 3
      requires |Completed(Now(), k, PlainEntry(Now(), k, result)).queued| <= CompletionCapacity(cfg)
      modifies this`handles, this`ops, this`connects, this`counters, this`inflight, this`queued
      ensures Now() == Completed(old(Now()), k, PlainEntry(old(Now()), k, result))
    {
      hide Retired;
      var o := ops[k].op;
      ghost var e := PlainEntry(Now(), k, result);
      RetiredQueue(Enqueued(Now(), e), k);
      Enqueue(Completion(o.token, Some(k), o.handle, true, result), o.handle.Some? ==> handles[o.handle.value].referenced);
      Retire(k);
      if o.handle.Some? {
        MaybeClosed(o.handle.value);
      }
    }

    /** Deliver a terminal result, publishing or discarding a handle that was being opened. */
    method FinishFs(k: Key, result: OpResult)
      requires m == Reached(cfg, trace) && k in m.ops && OpOutcome(result) && Steady(Now(), Poised(m, k, ring))
      modifies this`handles, this`freeHandles, this`ops, this`connects, this`counters, this`inflight, this`queued
      ensures Steady(Now(), LoopModel.Finish(m, k, result).(ring := ring))
    {
      hide Inv, Steady, Reached, LoopModel.Finish, Poised, Completed, Finished, PlainEntry, Removed;
      FinishFacts(Now(), cfg, trace, m, k, ring, result);
      var h := ops[k].op.handle;
      if h.None? || !handles[h.value].hidden {
        Finish(k, result);
        return;
      }
      if result.Opened? {
        handles := handles[h.value := handles[h.value].(hidden := false)];
        Finish(k, result);
        return;
      }
      Finish(k, result);
      var last := |queued| - 1;
      queued := queued[last := queued[last].(completion := queued[last].completion.(handle := None))];
      Drop(h.value);
    }

    // ------------------------------------------------------------- submission

    /** Enter an operation and offer it to whoever serves it; `refusal` is the answer. */
    method Attempt(k: Key, o: Op, refusal: Option<ErrorKind>) returns (r: Result<Key>)
      requires Valid() && k !in m.issuedOps && Admissible(m, o)
      modifies this
      ensures Valid()
      ensures
        if Outstanding(old(m)) >= cfg.maxOperations then r == Err(ResourceLimit) && m == old(m) && trace == old(trace)
        else if refusal.None? then r == Ok(k) && m == PutOp(old(m), k, o) && trace == old(trace) + [SubmitS(k, o)]
        else r == Err(refusal.value) && m == Reject(old(m), k, Keeps(old(m), o)) && trace == old(trace) + [RejectS(k, Keeps(old(m), o))]
    {
      hide Inv, Steady, Reached, Apply, PutOp, Reject, Keeps, Outstanding, Admitted, Undone, Spliceable, Admissible;
      AttemptFacts(Now(), cfg, trace, m, k, o);
      var ok := NewOp(k, o);
      if !ok {
        return Err(ResourceLimit);
      }
      if refusal.Some? {
        Undo(k, o);
        Commit(RejectS(k, Keeps(m, o)), Reject(m, k, Keeps(m, o)));
        return Err(refusal.value);
      }
      Commit(SubmitS(k, o), PutOp(m, k, o));
      return Ok(k);
    }

    /** Ask the backend for an operation on a socket; `refusal` is its answer. */
    method Submit(h: Id, claim: Claim, token: Token, k: Key, refusal: Option<ErrorKind>) returns (r: Result<Key>)
      requires Valid() && k !in m.issuedOps
      modifies this
      ensures Valid()
      ensures
        var o := SocketOp(h.key, token, claim);
        match SubmitError(old(m), owner, h, claim)
        case Some(e) => r == Err(e) && m == old(m) && trace == old(trace)
        case None =>
          if refusal.None? then r == Ok(k) && m == PutOp(old(m), k, o) && trace == old(trace) + [SubmitS(k, o)]
          else r == Err(refusal.value) && m == Reject(old(m), k, Keeps(old(m), o)) && trace == old(trace) + [RejectS(k, Keeps(old(m), o))]
    {
      hide Inv, Steady, Reached, PutOp, Reject, Room, Keeps, Outstanding;
      VisibleAt(Now(), m, h.key);
      RoomAt(Now(), m);
      ConfigAt(cfg, trace);
      if h.owner != owner || h.key !in handles || handles[h.key].hidden {
        return Err(NotFound);
      }
      if handles[h.key].closing.Some? || !handles[h.key].kind.SocketKind? {
        return Err(InvalidInput);
      }
      if !claim.NoSlot? && freeHandles < counters.reserved + 1 {
        return Err(ResourceLimit);
      }
      r := Attempt(k, SocketOp(h.key, token, claim), refusal);
    }

    /** Hand a job, a lookup or a wait to the shared pool, charging its result to the ring. */
    method SubmitJob(token: Token, k: Key, refusal: Option<ErrorKind>) returns (r: Result<Key>)
      requires Valid() && k !in m.issuedOps
      modifies this
      ensures Valid()
      ensures
        var o := JobOp(token);
        if PortCount(old(m).ops) >= cfg.maxUndelivered || Outstanding(old(m)) >= cfg.maxOperations then
          r == Err(ResourceLimit) && m == old(m) && trace == old(trace)
        else if refusal.None? then r == Ok(k) && m == PutOp(old(m), k, o) && trace == old(trace) + [SubmitS(k, o)]
        else r == Err(refusal.value) && m == Reject(old(m), k, false) && trace == old(trace) + [RejectS(k, false)]
    {
      hide Inv, Steady, Reached, PutOp, Reject, Outstanding, PortCount;
      CreditAt(Now(), m);
      ConfigAt(cfg, trace);
      if counters.undelivered >= cfg.maxUndelivered {
        return Err(ResourceLimit);
      }
      r := Attempt(k, JobOp(token), refusal);
    }

    /** Look a name up through the host's resolver, or through the pool if it has none. */
    method Resolve(
      token: Token, k: Key, refusal: Option<ErrorKind>, k': Key, refusal': Option<ErrorKind>)
      returns (r: Result<Key>)
      requires Valid() && k !in m.issuedOps && k' !in m.issuedOps && k != k'
      modifies this
      ensures Valid()
      ensures
        var m1 := Reject(old(m), k, false);
        if Outstanding(old(m)) >= cfg.maxOperations then r == Err(ResourceLimit) && m == old(m) && trace == old(trace)
        else if refusal.None? then
          r == Ok(k) && m == PutOp(old(m), k, LookupOp(token)) && trace == old(trace) + [SubmitS(k, LookupOp(token))]
        else if refusal != Some(Unsupported) then
          r == Err(refusal.value) && m == m1 && trace == old(trace) + [RejectS(k, false)]
        else if PortCount(old(m).ops) >= cfg.maxUndelivered then
          r == Err(ResourceLimit) && m == m1 && trace == old(trace) + [RejectS(k, false)]
        else if refusal'.None? then
          r == Ok(k') && m == PutOp(m1, k', JobOp(token)) && trace == old(trace) + [RejectS(k, false), SubmitS(k', JobOp(token))]
        else r == Err(refusal'.value) && m == Reject(m1, k', false) && trace == old(trace) + [RejectS(k, false), RejectS(k', false)]
    {
      hide Inv, Steady, Reached, PortCount, Size, Count, PutOp;
      r := Attempt(k, LookupOp(token), refusal);
      if r == Err(Unsupported) && refusal.Some? {
        r := SubmitJob(token, k', refusal');
      }
    }

    // ------------------------------------------------------ opening, deadlines

    /** Create a socket handle; the backend opens it or `refusal` undoes it. */
    method Open(h: Key, refusal: Option<ErrorKind>) returns (r: Result<Id>)
      requires Valid() && h !in m.issuedHandles
      modifies this
      ensures Valid()
      ensures
        var m1 := PutHandle(old(m), h, LoopModel.NewHandle(Socket));
        if !Room(old(m)) then r == Err(ResourceLimit) && m == old(m) && trace == old(trace)
        else if refusal.None? then r == Ok(Id(owner, h)) && m == m1 && trace == old(trace) + [AddS(h, Socket)]
        else r == Err(refusal.value) && m == DropHandle(m1, h) && trace == old(trace) + [AddS(h, Socket), RemoveS(h)]
    {
      hide Inv, Steady, Reached, Room, DropHandle, Unmentioned;
      ForgetFresh(cfg, trace, m, h);
      var ok := NewHandle(SocketKind, h);
      if !ok {
        return Err(ResourceLimit);
      }
      if refusal.Some? {
        Forget(h);
        return Err(refusal.value);
      }
      return Ok(Id(owner, h));
    }

    /** Create a timer and its one operation; a repeat must be nonzero. */
    method Timer(at: Instant, repeat: Option<nat>, token: Token, h: Key, k: Key) returns (r: Result<Id>)
      requires Valid() && h !in m.issuedHandles && k !in m.issuedOps
      modifies this
      ensures Valid()
      ensures
        var kind := LoopModel.Timer(repeat);
        var m1 := PutHandle(old(m), h, LoopModel.NewHandle(kind));
        if repeat == Some(0) then r == Err(InvalidInput) && m == old(m) && trace == old(trace)
        else if !Room(old(m)) then r == Err(ResourceLimit) && m == old(m) && trace == old(trace)
        else if Outstanding(old(m)) >= cfg.maxOperations then
          r == Err(ResourceLimit) && m == DropHandle(m1, h) && trace == old(trace) + [AddS(h, kind), RemoveS(h)]
        else r == Ok(Id(owner, h)) && m == ArmTimer(m1, h, k, token, at) && trace == old(trace) + [AddS(h, kind), ArmS(h, k, token, at)]
    {
      hide Inv, Steady, Reached, Room, DropHandle, Unmentioned, Apply;
      hide ArmTimer, Appended, Grown, Charged, Size, Count, WithActive;
      if repeat == Some(0) {
        return Err(InvalidInput);
      }
      ForgetFresh(cfg, trace, m, h);
      var ok := NewHandle(TimerKind(None, repeat), h);
      if !ok {
        return Err(ResourceLimit);
      }
      TimerFacts(Now(), cfg, trace, m, h, k, token, at);
      ok := NewOp(k, TimerOp(h, token));
      if !ok {
        Forget(h);
        return Err(ResourceLimit);
      }
      handles := handles[h := WithActive(handles[h], k)];
      timers := timers[h := at];
      Commit(ArmS(h, k, token, at), ArmTimer(m, h, k, token, at));
      return Ok(Id(owner, h));
    }

    /** Move the deadline of a live timer. */
    method TimerReset(h: Id, at: Instant) returns (ok: bool)
      requires Valid()
      modifies this
      ensures Valid()
      ensures ok <==> h.owner == owner && Visible(old(m), h.key) && old(m).handles[h.key].closing.None? && h.key in old(m).timers
      ensures m == if ok then old(m).(timers := old(m).timers[h.key := at]) else old(m)
      ensures trace == old(trace) + if ok then [ResetS(h.key, at)] else []
    {
      hide Inv, Steady, Reached, Apply;
      ResetFacts(Now(), cfg, trace, m, h.key, at);
      if h.owner != owner || h.key !in handles || handles[h.key].hidden {
        return false;
      }
      var r := handles[h.key];
      if r.closing.Some? || !r.kind.TimerKind? || r.kind.op.None? {
        return false;
      }
      timers := timers[h.key := at];
      Commit(ResetS(h.key, at), m.(timers := m.timers[h.key := at]));
      return true;
    }

    /** Open a stream and connect it, by a deadline if one is given. A refusal at either
        point leaves nothing behind but the keys it spent. */
    method Connect(
      h: Key, k: Key, deadline: Option<Instant>, token: Token, noOpen: Option<ErrorKind>, noConnect: Option<ErrorKind>)
      returns (r: Result<Id>)
      requires Valid() && h !in m.issuedHandles && k !in m.issuedOps
      modifies this
      ensures Valid()
      ensures r.Ok? <==> Room(old(m)) && noOpen.None? && Outstanding(old(m)) < cfg.maxOperations && noConnect.None?
      ensures
        var m1 := PutOp(PutHandle(old(m), h, LoopModel.NewHandle(Socket)), k, SocketOp(h, token, NoSlot));
        var steps := [AddS(h, Socket), SubmitS(k, SocketOp(h, token, NoSlot))];
        r.Ok? ==>
          && r.value == Id(owner, h)
          && m == (if deadline.Some? then m1.(connects := m1.connects[k := deadline.value]) else m1)
          && trace == old(trace) + steps + (if deadline.Some? then [DeadlineS(k, deadline.value)] else [])
      ensures r.Err? ==> Unaffected(old(m), m, h)
      ensures
        r.Err? ==>
          r == if Room(old(m)) && noOpen.Some? then Err(noOpen.value)
               else if Room(old(m)) && Outstanding(old(m)) < cfg.maxOperations && noConnect.Some? then Err(noConnect.value)
               else Err(ResourceLimit)
    {
      hide Inv, Steady, Reached, Room, DropHandle, PutHandle, PutOp, Reject, SubmitError, Unmentioned, Outstanding, Unaffected;
      ForgetFresh(cfg, trace, m, h);
      ConfigAt(cfg, trace);
      r := Open(h, noOpen);
      if r.Err? {
        UndoneHandle(old(m), m, h, Socket);
        return;
      }
      FreshSocket(old(m), owner, h, k, token);
      var op := Submit(Id(owner, h), NoSlot, token, k, noConnect);
      if op.Err? {
        Forget(h);
        RefusedConnect(old(m), m, h, k, Socket);
        return Err(op.error);
      }
      if deadline.Some? {
        ConnectBy(k, deadline.value);
      }
    }

    method ConnectBy(k: Key, at: Instant)
      requires Valid() && k in m.ops && m.ops[k].native && !m.ops[k].cancel && m.ops[k].handle.Some?
      modifies this
      ensures Valid() && m == old(m).(connects := old(m).connects[k := at]) && trace == old(trace) + [DeadlineS(k, at)]
    {
      hide Inv, Steady, Reached, Apply;
      DoDeadline(Now(), m, k, at);
      ConnectsAt(Now(), m);
      connects := connects[k := at];
      Commit(DeadlineS(k, at), m.(connects := m.connects[k := at]));
    }

    /** Time out every connect whose deadline has passed. If the backend refuses to cancel
        one, its deadline stays and nothing is reported for it. */
    method ExpireConnects(now: Instant, refused: set<Key>) returns (ok: bool)
      requires Valid()
      modifies this
      ensures Valid() && Grows(old(trace), trace) && TimedOutBy(old(m), m, now)
      ensures ok ==> NoneDue(m, now)
      ensures !ok ==> exists k :: k in m.connects && m.connects[k] <= now && k in refused
    {
      hide Inv, Steady, Reached, Apply, TimedOutBy, Expire;
      NoneTimedOut(m, now);
      while true
        invariant Valid() && Grows(old(trace), trace) && TimedOutBy(old(m), m, now)
        decreases |connects|
      {
        ConnectsAt(Now(), m);
        var next := Earliest(connects, now);
        if next.None? {
          return true;
        }
        var k := next.value;
        if k in refused {
          return false;
        }
        TimedOutMore(old(m), m, now, k);
        MapDrop(connects, k);
        ExpireFacts(Now(), cfg, trace, m, k);
        ops := ops[k := ops[k].(op := ops[k].op.(cancel := true, timedOut := true))];
        connects := connects - {k};
        Commit(ExpireS(k), Expire(m, k));
      }
    }

    // ----------------------------------------------------------------- results

    /** A worker publishes the result of an operation. By the count of results owed and published the
        ring is not full. */
    method Publish(k: Key, result: OpResult)
      requires Valid() && k in m.inflight
      modifies this
      ensures Valid() && m == LoopModel.Publish(old(m), k, result) && trace == old(trace) + [PublishS(k, result)]
      ensures |old(ring)| < RingCapacity(cfg)
    {
      hide Inv, Steady, Reached, Apply, LoopModel.Publish;
      PublishFacts(Now(), cfg, trace, m, k, result);
      ring := ring + [Work(k, result)];
      inflight := inflight - {k};
      Commit(PublishS(k, result), LoopModel.Publish(m, k, result));
    }

    /** Workers publish results they owe, while a call is under way. */
    method Arrive(works: seq<Work>)
      requires Valid()
      modifies this
      ensures Valid() && Grows(old(trace), trace) && m == ArriveAll(old(m), works)
    {
      hide Inv, Steady, Reached, LoopModel.Publish;
      for i := 0 to |works|
        invariant Valid() && Grows(old(trace), trace) && m == ArriveAll(old(m), works[..i])
      {
        ArriveMore(old(m), works, i);
        ConnectsAt(Now(), m);
        if works[i].op in inflight {
          Publish(works[i].op, works[i].result);
        }
      }
      assert works[..|works|] == works;
    }

    /** Queue a nonterminal result. */
    method Emit(k: Key, result: OpResult)
      requires Valid() && k in m.ops && m.ops[k].native && OpOutcome(result) && !Hidden(m.handles, m.ops[k]) && !m.ops[k].cancel
      requires Count(Class(if result.Fired? then TIMER_EVENTS else NATIVE_EVENTS), m.stream, m.out) < m.cfg.eventsPerTurn
      modifies this
      ensures Valid() && m == LoopModel.Emit(old(m), k, result) && trace == old(trace) + [EmitS(k, result)]
    {
      hide Inv, Steady, Reached, Apply, LoopModel.Emit, Enqueued, Count;
      EmitFacts(Now(), cfg, trace, m, k, result);
      var o := ops[k].op;
      Enqueue(Completion(o.token, Some(k), o.handle, false, result), false);
      Commit(EmitS(k, result), LoopModel.Emit(m, k, result));
    }

    /** Put a transport under a new handle if an unpromised slot is free. */
    method Adopt(conn: Key, taken: bool) returns (result: OpResult)
      requires conn !in handles
      modifies this`handles, this`freeHandles, this`counters
      ensures Now() == Placed(old(Now()), conn, taken)
      ensures
        result == if old(freeHandles <= counters.reserved) then Failed(ResourceLimit)
                  else if taken then Housed(conn)
                  else Failed(Other(1))
    {
      hide Exhausted;
      if freeHandles <= counters.reserved {
        return Failed(ResourceLimit);
      }
      if taken {
        handles := handles[conn := NewResource(SocketKind)];
        freeHandles := freeHandles - 1;
        counters := counters.(refs := counters.refs + 1);
        return Housed(conn);
      }
      handles := handles[conn := NewResource(SocketKind)] - {conn};
      freeHandles := freeHandles - 1 + One(!Exhausted(conn));
      return Failed(Other(1));
    }

    /** Top the pool of promised slots up, one slot at a time. */
    method Refill()
      modifies this`counters
      ensures Now() == Refilled(old(Now()))
    {
      ghost var n := 0;
      while counters.pooled < counters.armed && freeHandles > counters.reserved
        invariant counters == old(counters).(pooled := old(counters).pooled + n, reserved := old(counters).reserved + n)
        invariant 0 <= n && (n > 0 ==> counters.pooled <= counters.armed && counters.reserved <= freeHandles)
        decreases counters.armed - counters.pooled
      {
        counters := counters.(pooled := counters.pooled + 1, reserved := counters.reserved + 1);
        n := n + 1;
      }
    }

    /** Give up the slot an operation reserved. */
    method GiveUp(k: Key)
      requires k in ops && Freeable(counters, ops[k].op)
      modifies this`ops, this`counters
      ensures Now() == Freed(old(Now()), k)
    {
      if ops[k].op.multishot {
        if counters.pooled != 0 {
          counters := counters.(pooled := counters.pooled - 1, reserved := counters.reserved - 1);
        }
      } else {
        counters := counters.(reserved := counters.reserved - One(ops[k].op.held));
        ops := ops[k := ops[k].(op := ops[k].op.(held := false))];
      }
    }

    /** House a transport that an accept or a handle receive produced, spending the slot it
        reserved; a multishot accept spends a pooled one and the pool is refilled. */
    method AttachReserved(k: Key, conn: Key, taken: bool) returns (result: OpResult)
      requires Valid() && k in m.ops && !m.ops[k].cancel && conn !in m.issuedHandles
      modifies this
      ensures Valid() && m == House(old(m), k, conn, taken) && trace == old(trace) + [HouseS(k, conn, taken)]
      ensures result == HouseResult(old(m), k, conn, taken)
    {
      hide Inv, Steady, Reached, Apply, House, Freed, Placed, Refilled, Room, Release;
      HouseFacts(Now(), cfg, trace, m, k, conn, taken);
      var multishot := ops[k].op.multishot;
      GiveUp(k);
      result := Adopt(conn, taken);
      if multishot {
        Refill();
      }
      Commit(HouseS(k, conn, taken), House(m, k, conn, taken));
    }

    /** Deliver the terminal result of native work. */
    method Complete(k: Key, result: OpResult)
      requires Valid() && k in m.ops && OpOutcome(result) && m.ops[k].native && Acknowledges(m.ops[k], result)
      modifies this
      ensures Valid() && m == LoopModel.Finish(old(m), k, result) && trace == old(trace) + [FinishS(k, result)]
    {
      hide Inv, Steady, Reached, Apply, LoopModel.Finish, Poised;
      CompleteFacts(Now(), cfg, trace, m, k, result);
      FinishFs(k, result);
      Commit(FinishS(k, result), LoopModel.Finish(m, k, result));
    }

    method Report(e: Event, result: OpResult)
      requires Valid() && e.op in m.ops && OpOutcome(result) && !result.Fired? && m.ops[e.op].native
      requires (m.ops[e.op].fs ==> e.terminal)
      requires !m.ops[e.op].cancel
      requires Count(Class(NATIVE_EVENTS), m.stream, m.out) < m.cfg.eventsPerTurn
      modifies this
      ensures Valid() && m == LoopEvents.Report(old(m), e, result) && Grows(old(trace), trace)
    {
      hide Inv, Steady, Reached, LoopModel.Finish, LoopModel.Emit, Count;
      if e.terminal {
        Complete(e.op, result);
      } else {
        EventFacts(cfg, trace, m, e.op);
        Emit(e.op, result);
      }
    }

    /** React to one backend event; one for another loop or for finished work changes nothing. */
    method AcceptEvent(source: nat, e: Event)
      requires Valid() && Honest(m, e) && Count(Class(NATIVE_EVENTS), m.stream, m.out) < m.cfg.eventsPerTurn
      modifies this
      ensures Valid() && Grows(old(trace), trace)
      ensures m == if source == owner then LoopEvents.AcceptEvent(old(m), e) else old(m)
      ensures
        source == owner && e.outcome.Done? && e.op in old(m).ops && !old(m).ops[e.op].cancel && !old(m).ops[e.op].fs ==>
          && |old(m).stream| < |m.stream|
          && m.stream[|old(m).stream|].completion ==
               Completion(old(m).ops[e.op].token, Some(e.op), old(m).ops[e.op].handle, e.terminal, e.outcome.result)
    {
      hide Inv, Steady, Reached, LoopModel.Finish, LoopEvents.Report, House, Count, Room, Release;
      ReachedInv(cfg, trace);
      if e.op in m.ops && !m.ops[e.op].cancel && !m.ops[e.op].fs { EventReports(m, e); }
      SteadyNode(Now(), m, e.op);
      if source != owner || e.op !in ops {
        return;
      }
      var o := ops[e.op].op;
      if o.fs && e.terminal {
        Complete(e.op, FsResult(o, e));
        return;
      }
      if o.cancel {
        if e.terminal {
          Complete(e.op, Verdict(o));
        }
        return;
      }
      match e.outcome
      case Done(result) =>
        Report(e, result);
      case Transport(conn, taken) =>
        HousedOp(cfg, trace, m, e.op, conn, taken);
        var result := AttachReserved(e.op, conn, taken);
        Report(e, result);
    }

    // -------------------------------------------------------------- one turn

    /** How many multishot connections the next poll may bring. */
    method Budget() returns (accepts: int)
      requires Valid()
      ensures accepts == LoopModel.Budget(m) && accepts >= 0
    {
      hide Inv, Reached, Active, Linked, SameQueue, Weight, HeldCount, ArmedCount, NativeCount, PortCount;
      ReachedInv(cfg, trace);
      HousingAt(m);
      return freeHandles - (counters.reserved - counters.pooled);
    }

    /** React to the events of one poll: each connection within the budget is housed. */
    method AcceptEvents(events: seq<Event>)
      requires Valid() && Batch(m, events) && Spends(m, events) <= LoopModel.Budget(m)
      modifies this
      ensures Valid() && Grows(old(trace), trace)
      ensures m == AcceptAll(old(m), events) && AllHoused(old(m), events)
    {
      hide Inv, Steady, Reached, LoopEvents.AcceptEvent, Batch, Settles, Spends, LoopModel.Budget, AllHoused, Count;
      ReachedInv(cfg, trace);
      BatchHoused(m, events);
      for i := 0 to |events|
        invariant Valid() && Grows(old(trace), trace)
        invariant Batch(m, events[i..]) && AcceptAll(m, events[i..]) == AcceptAll(old(m), events)
      {
        var rest := events[i..];
        NextEvent(cfg, trace, m, rest);
        assert rest[1..] == events[i + 1..];
        AcceptEvent(owner, events[i]);
      }
    }

    /** Fire a timer that is due. */
    method FireTimer(h: Key, now: Instant)
      requires Valid() && h in m.timers && Count(Class(TIMER_EVENTS), m.stream, m.out) < m.cfg.eventsPerTurn
      modifies this
      ensures Valid() && h in old(m).handles && old(m).handles[h].kind.Timer? && old(m).handles[h].ops != []
      ensures old(m).handles[h].ops[0] in old(m).ops
      ensures m == Fire(old(m), h, now) && trace == old(trace) + [FireStep(old(m), h, now)]
    {
      hide Inv, Steady, Reached, Apply, LoopModel.Finish, Repeat, Poised, Count;
      FireFacts(Now(), cfg, trace, m, h, now);
      var kind := handles[h].kind;
      var k := kind.op.value;
      timers := timers - {h};
      if kind.repeat.None? {
        FinishFs(k, Fired);
      } else if now + kind.repeat.value <= cfg.horizon {
        timers := timers[h := now + kind.repeat.value];
        assert timers == old(timers)[h := now + kind.repeat.value];
        Enqueue(Completion(ops[k].op.token, Some(k), ops[k].op.handle, false, Fired), false);
      } else {
        FinishFs(k, Failed(InvalidInput));
      }
      Commit(FireStep(m, h, now), Fire(m, h, now));
    }

    /** Finish an operation whose result a worker published. */
    method Collect(i: nat)
      requires Valid() && i < |m.ring|
      modifies this
      ensures Valid() && old(m).ring[i].op in old(m).ops
      ensures
        var work := old(m).ring[i];
        var result := WorkResult(old(m).ops[work.op], work.result);
        m == LoopModel.Collect(old(m), i, result) && trace == old(trace) + [CollectS(i, result)]
    {
      hide Inv, Steady, Reached, Apply, LoopModel.Finish, LoopModel.Collect, Poised, WorkResult;
      CollectFacts(Now(), cfg, trace, m, i);
      var work := ring[i];
      var result := WorkResult(ops[work.op].op, work.result);
      ring := ring[..i] + ring[i + 1..];
      FinishFs(work.op, result);
      Commit(CollectS(i, result), LoopModel.Collect(m, i, result));
    }

    method Post(token: Token, payload: nat)
      requires Valid() && Count(Class(POST_EVENTS), m.stream, m.out) < cfg.eventsPerTurn
      modifies this
      ensures Valid() && m == LoopModel.Post(old(m), token, payload) && trace == old(trace) + [PostS(token, payload)]
    {
      hide Inv, Steady, Reached, Apply, LoopModel.Post, Enqueued, Count;
      PostFacts(Now(), cfg, trace, m, token, payload);
      Enqueue(Completion(token, None, None, true, Posted(payload)), false);
      Commit(PostS(token, payload), LoopModel.Post(m, token, payload));
    }

    /** Hand the oldest queued completion to the host. */
    method Deliver() returns (c: Completion)
      requires Valid() && m.out < |m.stream|
      modifies this
      ensures Valid() && m == LoopModel.Deliver(old(m)) && trace == old(trace) + [DeliverS]
      ensures c == old(m).stream[old(m).out].completion
    {
      hide Inv, Steady, Reached, Apply, LoopModel.Deliver, Dequeued, Removed;
      DeliverFacts(Now(), cfg, trace, m);
      c := queued[0].completion;
      Dequeue();
      if c.result.Closed? && c.handle.Some? && c.handle.value in handles {
        Drop(c.handle.value);
      }
      Commit(DeliverS, LoopModel.Deliver(m));
    }

    method Dequeue()
      requires queued != [] && Payable(counters, queued[0])
      requires
        queued[0].eventClass.Some? ==>
          queued[0].eventClass.value < |counters.buffered| && counters.buffered[queued[0].eventClass.value] > 0
      modifies this`queued, this`counters
      ensures Now() == Dequeued(old(Now()))
    {
      var q := queued[0];
      queued := queued[1..];
      counters := counters.(refs := counters.refs - One(q.referenced));
      if q.eventClass.Some? {
        counters := counters.(buffered := counters.buffered[q.eventClass.value := counters.buffered[q.eventClass.value] - 1]);
      }
      if q.completion.terminal && q.completion.op.Some? {
        counters := counters.(outstanding := counters.outstanding - 1);
      }
    }

    /** Fire what is due, at most a turn's worth and never beyond the timer reserve. */
    method FireTimers(now: Instant) returns (ghost fired: seq<Key>)
      requires Valid()
      modifies this
      ensures Valid() && Grows(old(trace), trace) && FiredShare(old(m), m, fired, now, cfg.eventsPerTurn)
    {
      hide Inv, Steady, Reached, FiredBy, Fire, FireStep, Count, FiredOnce, Untouched;
      fired := [];
      ReachedInv(cfg, trace);
      TimersWhole(m);
      FiredNone(m, now);
      for i := 0 to cfg.eventsPerTurn
        invariant Valid() && Grows(old(trace), trace) && FiredBy(old(m), m, fired, now) && |fired| == i
      {
        BufferedAt(Now(), m);
        ConnectsAt(Now(), m);
        if counters.buffered[TIMER_EVENTS] == cfg.eventsPerTurn {
          return;
        }
        var next := Earliest(timers, now);
        if next.None? {
          return;
        }
        TimerRoom(cfg, trace, m, next.value, now);
        ghost var m1 := m;
        FireTimer(next.value, now);
        FiredMore(old(m), m1, fired, now, next.value, m);
        fired := fired + [next.value];
      }
    }

    /** Finish what workers have published, at most a turn's worth; `later` is what they publish
        before each look at the ring. */
    method CollectResults(later: seq<seq<Work>>) returns (ghost picks: seq<nat>)
      requires Valid()
      modifies this
      ensures Valid() && Grows(old(trace), trace) && Collected(old(m), m, later, picks, cfg.eventsPerTurn)
    {
      hide Inv, Steady, Reached, WorkResult, LoopModel.Finish, CollectAll, ArriveAll;
      picks := [];
      CollectNone(m, later);
      for i := 0 to cfg.eventsPerTurn
        invariant Valid() && Grows(old(trace), trace) && m == CollectAll(old(m), later, picks) && |picks| == i
      {
        Arrive(Arrivals(later, i));
        ConnectsAt(Now(), m);
        if ring == [] {
          return;
        }
        var next :| 0 <= next < |ring|;
        CollectMore(old(m), later, picks, next);
        Collect(next);
        picks := picks + [next];
      }
    }

    /** Queue what other threads have posted, at most a turn's worth and never beyond the
        post reserve; `taken` of the posts are consumed, in order. */
    method TakePosts(posts: seq<(Token, nat)>) returns (taken: nat)
      requires Valid()
      modifies this
      ensures Valid() && Grows(old(trace), trace) && taken <= |posts| && m == PostAll(old(m), posts[..taken])
      ensures
        var queued := Count(Class(POST_EVENTS), old(m).stream, old(m).out);
        taken + queued == Min(|posts| + queued, cfg.eventsPerTurn)
    {
      hide Inv, Steady, Reached, Count, PostAll, LoopModel.Post;
      BufferedAt(Now(), m);
      PostsFit(cfg, trace);
      PostNone(m, posts);
      taken := 0;
      for i := 0 to cfg.eventsPerTurn
        invariant Valid() && Grows(old(trace), trace) && taken == i <= |posts| && m == PostAll(old(m), posts[..i])
        invariant i <= cfg.eventsPerTurn - old(Count(Class(POST_EVENTS), m.stream, m.out))
        invariant Count(Class(POST_EVENTS), m.stream, m.out) == old(Count(Class(POST_EVENTS), m.stream, m.out)) + i
      {
        BufferedAt(Now(), m);
        if counters.buffered[POST_EVENTS] == cfg.eventsPerTurn || i == |posts| {
          return;
        }
        OutAt(cfg, trace);
        PostCounts(m, posts[i].0, posts[i].1);
        PostMore(old(m), posts, i);
        Post(posts[i].0, posts[i].1);
        taken := taken + 1;
      }
    }

    /** Hand over what the host has room for, oldest first. */
    method Drain(capacity: nat) returns (out: seq<Completion>)
      requires Valid()
      modifies this
      ensures Valid() && old(trace) <= trace && m == DeliverAll(old(m), |out|)
      ensures m.stream == old(m).stream && |out| == m.out - old(m).out == Min(capacity, |old(m).stream| - old(m).out)
      ensures forall i :: 0 <= i < |out| ==> out[i] == m.stream[old(m).out + i].completion
    {
      hide Inv, Steady, Reached, LoopModel.Deliver;
      out := [];
      OutAt(cfg, trace);
      while |out| < capacity
        invariant Valid() && old(trace) <= trace && m.stream == old(m).stream && m == DeliverAll(old(m), |out|)
        invariant |out| == m.out - old(m).out <= capacity && m.out <= |m.stream|
        invariant forall i :: 0 <= i < |out| ==> out[i] == m.stream[old(m).out + i].completion
      {
        QueueShape(Now(), m);
        if queued == [] {
          return;
        }
        DeliverOut(m);
        var c := Deliver();
        out := out + [c];
      }
    }

    /** Expire connects, and poll for native events when that cannot starve queued work. */
    method Discover(
      start: Instant, now: Instant, refused: set<Key>, refusedLater: set<Key>, pollError: Option<ErrorKind>,
      events: seq<Event>, posts: seq<(Token, nat)>, w: Meanwhile)
      returns (r: Result<bool>, ghost p: Phases)
      requires Valid()
      requires
        Count(Class(NATIVE_EVENTS), m.stream, m.out) == 0 ==>
          Batch(m, events) && Spends(m, events) <= LoopModel.Budget(m)
      modifies this
      ensures Valid() && Grows(old(trace), trace)
      ensures r.Ok? ==> Discovered(old(m), p, m, start, now, events, posts, w) && r.value == Polls(p.ready, posts, w.announced)
    {
      hide Inv, Steady, Reached, Batch, Spends, LoopModel.Budget, TimedOutBy;
      hide AllHoused, Count, AcceptAll, ArriveAll, Polls, NoneDue;
      var ok := ExpireConnects(start, refused);
      p := Phases(m, m, m, m, m, [], m, [], m, m);
      if !ok {
        return Err(Other(2)), p;
      }
      Arrive(w.early);
      p := p.(ready := m);
      var waiting := queued != [] || posts != [] || ring != [] || w.announced;
      PollsAt(Now(), m, posts, w.announced);
      var polls := counters.buffered[NATIVE_EVENTS] == 0 && (!waiting || counters.native != 0);
      Arrive(w.polled);
      p := p.(polled := m, accepted := m);
      if polls {
        if pollError.Some? {
          return Err(pollError.value), p;
        }
        PollBatch(old(m), p, start, events, w);
        AcceptEvents(events);
        p := p.(accepted := m);
      }
      ok := ExpireConnects(now, refusedLater);
      return if ok then Ok(polls) else Err(Other(2)), p;
    }

    /** One turn: discover native events, fire timers, collect results and posts, and deliver
        what the host has room for. The backend's answers are parameters: the events of the
        poll and what it refuses; `w` is what other threads do meanwhile. */
    method Turn(
      start: Instant, now: Instant, refused: set<Key>, refusedLater: set<Key>, pollError: Option<ErrorKind>,
      events: seq<Event>, posts: seq<(Token, nat)>, w: Meanwhile, capacity: nat)
      returns (r: Result<bool>, out: seq<Completion>, taken: nat, ghost p: Phases)
      requires Valid()
      requires
        Count(Class(NATIVE_EVENTS), m.stream, m.out) == 0 ==>
          Batch(m, events) && Spends(m, events) <= LoopModel.Budget(m)
      modifies this
      ensures Valid() && old(trace) <= trace && taken <= |posts + w.posts|
      ensures r.Ok? ==> Turned(old(m), p, m, start, now, events, posts, w, taken, |out|)
      ensures |out| == m.out - old(m).out <= capacity && m.out <= |m.stream|
      ensures forall i :: 0 <= i < |out| ==> out[i] == m.stream[old(m).out + i].completion
      ensures r.Ok? && |out| < capacity ==> m.out == |m.stream|
      ensures r.Ok? ==> (r.value <==> !Idle(m))
      ensures r.Err? ==> out == [] && Grows(old(trace), trace)
    {
      hide Inv, Steady, Reached, Batch, Spends, LoopModel.Budget, Discovered, FiredShare, Collected;
      hide CollectAll, ArriveAll, PostAll, DeliverAll, Idle, Count;
      ConfigAt(cfg, trace);
      r, p := Discover(start, now, refused, refusedLater, pollError, events, posts, w);
      if r.Err? {
        GrewOut(cfg, old(trace), trace);
        return r, [], 0, p;
      }
      ghost var discovered := m;
      ghost var timers := FireTimers(now);
      ghost var fired := m;
      ghost var picks := CollectResults(w.later);
      ghost var collected := m;
      taken := TakePosts(posts + w.posts);
      DiscoveredBy(old(m), p, discovered, start, now, events, posts, w, timers, fired, picks, collected, m);
      p := p.(discovered := discovered, timers := timers, fired := fired, picks := picks, collected := collected, posted := m);
      GrewOut(cfg, old(trace), trace);
      out := Drain(capacity);
      AliveAt(Now(), cfg, trace, m);
      return Ok(counters.refs != 0), out, taken, p;
    }

    // ----------------------------------------------------------- cancellation

    /** Ask for an operation to end. A timer ends at once; anything else ends when its
        source acknowledges. `refused` is the backend's answer for native work. */
    method Cancel(id: Id, stop: bool, refused: bool) returns (done: bool)
      requires Valid()
      modifies this
      ensures Valid()
      ensures
        var k := id.key;
        if id.owner != owner || k !in old(m).ops || old(m).ops[k].cancel then !done && m == old(m) && trace == old(trace)
        else if IsTimer(old(m).handles, old(m).ops[k]) then
          var result: OpResult := if stop then OpResult.Stopped else Cancelled;
          && done && m == LoopModel.Finish(old(m), k, result) && trace == old(trace) + [FinishS(k, result)]
          && |old(m).stream| < |m.stream|
          && m.stream[|old(m).stream|].completion == Completion(old(m).ops[k].token, Some(k), old(m).ops[k].handle, true, result)
        else if old(m).ops[k].native && refused then !done && m == old(m) && trace == old(trace)
        else done && m == MarkCancel(old(m), k, stop) && trace == old(trace) + [CancelS(k, stop)]
    {
      hide Inv, Steady, Reached, Apply, LoopModel.Finish, MarkCancel, Poised;
      var k := id.key;
      CancelFacts(Now(), cfg, trace, m, k, stop);
      if id.owner != owner || k !in ops || ops[k].op.cancel {
        return false;
      }
      var o := ops[k].op;
      if o.handle.Some? && handles[o.handle.value].kind.TimerKind? {
        ReachedInv(cfg, trace);
        TimerEndReports(m, k, stop);
        timers := timers - {o.handle.value};
        FinishFs(k, CancelledAs(stop));
        Commit(FinishS(k, CancelledAs(stop)), LoopModel.Finish(m, k, CancelledAs(stop)));
        return true;
      }
      if o.native && refused {
        return false;
      }
      ops := ops[k := ops[k].(op := o.(cancel := true, stop := stop))];
      connects := connects - {k};
      Commit(CancelS(k, stop), MarkCancel(m, k, stop));
      return true;
    }

    /** Ask every operation of a handle to end, walking its list while timers leave it. */
    method CancelAll(h: Key, stop: bool, refused: set<Key>)
      requires Valid() && h in m.handles
      modifies this
      ensures Valid() && Grows(old(trace), trace)
      ensures Cancelling(old(m), m, h, old(m).handles[h].ops, |old(m).handles[h].ops|, stop, refused)
      ensures old(m).handles[h].ops == [] ==> m == old(m) && trace == old(trace)
    {
      hide Inv, Steady, Reached, Cancelling, LoopModel.Finish, MarkCancel, IsTimer;
      ghost var list, i := m.handles[h].ops, 0;
      CancellingNone(cfg, trace, m, h, stop, refused);
      WalkAt(Now(), m, h, 0);
      var next := handles[h].head;
      while next.Some?
        invariant Valid() && Grows(old(trace), trace)
        invariant i <= |list| && next == At(list, i) && Cancelling(old(m), m, h, list, i, stop, refused)
        invariant i == 0 ==> m == old(m) && trace == old(trace)
        decreases |list| - i
      {
        var k := next.value;
        CancellingList(old(m), m, h, list, i, stop, refused);
        WalkAt(Now(), m, h, i);
        next := ops[k].next;
        ghost var m1, trace1 := m, trace;
        var done := Cancel(Id(owner, k), stop, k in refused);
        CancellingMore(cfg, trace1, old(m), m1, h, list, i, stop, refused, m);
        i := i + 1;
      }
    }

    /** Begin closing a handle: its operations are asked to end, and `Closed` follows the last of
        them, at once if there is none. `notReady` is the backend's answer for a native handle. */
    method Close(h: Id, token: Token, notReady: Option<ErrorKind>, refused: set<Key>) returns (r: Result<bool>)
      requires Valid()
      modifies this
      ensures Valid() && Grows(old(trace), trace)
      ensures
        var error := CloseError(old(m), owner, h, notReady);
        if error.Some? then r == Err(error.value) && m == old(m) && trace == old(trace)
        else
          && r.Ok? && h.key in m.handles && m.handles[h.key].closing == Some(token)
          && Cancelling(BeginClose(old(m), h.key, token), m, h.key, old(m).handles[h.key].ops, |old(m).handles[h.key].ops|, false, refused)
    {
      hide Inv, Steady, Reached, Cancelling, BeginClose;
      VisibleAt(Now(), m, h.key);
      if h.owner != owner || h.key !in handles || handles[h.key].hidden {
        return Err(NotFound);
      }
      if handles[h.key].closing.Some? {
        return Err(InvalidInput);
      }
      if !handles[h.key].kind.FileKind? && notReady.Some? {
        return Err(notReady.value);
      }
      BeginClosing(h.key, token);
      CancelAll(h.key, false, refused);
      CancellingList(BeginClose(old(m), h.key, token), m, h.key, old(m).handles[h.key].ops, |old(m).handles[h.key].ops|, false, refused);
      return Ok(true);
    }

    /** Mark a handle as closing. A timer has no reference of its own, so closing one adds a
        reference until `Closed` is delivered. */
    method MarkClosing(h: Key, token: Token)
      requires h in handles && handles[h].closing.None?
      modifies this`handles, this`counters
      ensures Now() == CloseMarked(old(Now()), h, token) && counters.buffered == old(counters.buffered)
    {
      var r := handles[h];
      handles := handles[h := r.(closing := Some(token))];
      if r.kind.TimerKind? && r.referenced {
        counters := counters.(refs := counters.refs + 1);
      }
    }

    method BeginClosing(h: Key, token: Token)
      requires Valid() && Visible(m, h) && m.handles[h].closing.None?
      modifies this
      ensures Valid() && m == BeginClose(old(m), h, token) && trace == old(trace) + [CloseS(h, token)]
      ensures h in m.handles && m.handles[h].ops == old(m).handles[h].ops && m.handles[h].closing == Some(token)
    {
      hide Inv, Steady, Reached, Apply, BeginClose, MayClose, CloseMarked;
      CloseFacts(Now(), cfg, trace, m, h, token);
      var idle := handles[h].head.None?;
      MarkClosing(h, token);
      if idle {
        MaybeClosed(h);
      }
      Commit(CloseS(h, token), BeginClose(m, h, token));
    }

    /** End a subscription with `Stopped` and then `Closed`. */
    method SignalStop(h: Id, token: Token, notReady: Option<ErrorKind>, refused: set<Key>, refusedLater: set<Key>)
      returns (r: Result<bool>, ghost stopped: Model)
      requires Valid()
      modifies this
      ensures Valid() && Grows(old(trace), trace)
      ensures
        if h.owner != owner || !Visible(old(m), h.key) then r == Err(NotFound) && m == old(m) && trace == old(trace)
        else
          var ops := old(m).handles[h.key].ops;
          var error := CloseError(stopped, owner, h, notReady);
          && Cancelling(old(m), stopped, h.key, ops, |ops|, true, refused)
          && if error.Some? then r == Err(error.value) && m == stopped
             else
               && r.Ok? && h.key in stopped.handles
               && var left := stopped.handles[h.key].ops;
                  Cancelling(BeginClose(stopped, h.key, token), m, h.key, left, |left|, false, refusedLater)
      ensures r.Ok? ==> h.key in old(m).handles && h.key in m.handles && m.handles[h.key].closing == Some(token)
      ensures
        r.Ok? ==>
          forall k :: k in old(m).handles[h.key].ops && k in m.ops && k in old(m).ops && !old(m).ops[k].cancel && k !in refused ==>
            m.ops[k].cancel && m.ops[k].stop
    {
      hide Inv, Steady, Reached, Cancelling, BeginClose;
      stopped := m;
      VisibleAt(Now(), m, h.key);
      if h.owner != owner || h.key !in handles || handles[h.key].hidden {
        return Err(NotFound), m;
      }
      CancelAll(h.key, true, refused);
      stopped := m;
      ghost var m1, trace1 := m, trace;
      CancellingList(old(m), m, h.key, old(m).handles[h.key].ops, |old(m).handles[h.key].ops|, true, refused);
      BeginCloseHas(m, h.key, token);
      r := Close(h, token, notReady, refusedLater);
      if r.Ok? {
        StoppedAll(cfg, trace1, old(m), m1, m, h.key, token, old(m).handles[h.key].ops, refused, refusedLater);
      }
    }

    /** Take a transport out of the loop, which succeeds exactly when nothing of it is pending or
        queued; otherwise its operations are asked to end and the host must turn and retry. */
    method Detach(h: Id, refused: set<Key>, notDetached: Option<ErrorKind>) returns (r: Result<bool>)
      requires Valid()
      modifies this
      ensures Valid() && Grows(old(trace), trace)
      ensures
        var error := DetachError(old(m), owner, h);
        if error.Some? then r == Err(error.value) && m == old(m) && trace == old(trace)
        else if old(m).handles[h.key].ops != [] || !Unmentioned(old(m).stream, old(m).out, h.key) then
          r == Err(WouldBlock) && Cancelling(old(m), m, h.key, old(m).handles[h.key].ops, |old(m).handles[h.key].ops|, false, refused)
        else if notDetached.Some? then r == Err(notDetached.value) && m == old(m) && trace == old(trace)
        else r.Ok? && m == DropHandle(old(m), h.key) && trace == old(trace) + [RemoveS(h.key)]
    {
      hide Inv, Steady, Reached, Cancelling, Unmentioned, DropHandle;
      VisibleAt(Now(), m, h.key);
      if h.owner != owner || h.key !in handles || handles[h.key].hidden {
        return Err(NotFound);
      }
      if handles[h.key].closing.Some? || !handles[h.key].kind.SocketKind? {
        return Err(InvalidInput);
      }
      CancelAll(h.key, false, refused);
      CancellingList(old(m), m, h.key, old(m).handles[h.key].ops, |old(m).handles[h.key].ops|, false, refused);
      WalkAt(Now(), m, h.key, 0);
      MentionAt(Now(), m, h.key);
      if handles[h.key].pending != 0 || exists i :: 0 <= i < |queued| && queued[i].completion.handle == Some(h.key) {
        return Err(WouldBlock);
      }
      if notDetached.Some? {
        return Err(notDetached.value);
      }
      Forget(h.key);
      return Ok(true);
    }

    // ---------------------------------------------------------------- liveness

    /** Let the queued results of a handle follow its reference. */
    method Follow(h: Key, referenced: bool, ghost stream: seq<Entry>, ghost out: nat)
      requires SameQueue(queued, counters.buffered, stream, out)
      requires counters.refs >= Count(Referenced, stream, out)
      modifies this`queued, this`counters
      ensures SameQueue(queued, counters.buffered, Retold(stream, out, |old(queued)|, h, referenced), out)
      ensures Count(Terminal, Retold(stream, out, |old(queued)|, h, referenced), out) == Count(Terminal, stream, out)
      ensures counters == old(counters).(refs := counters.refs)
      ensures
        var stream' := Retold(stream, out, |old(queued)|, h, referenced);
        counters.refs - old(counters.refs) == Count(Referenced, stream', out) - Count(Referenced, stream, out)
    {
      hide Retold, Count;
      RetoldNone(stream, out, h, referenced);
      var i := 0;
      while i < |queued|
        invariant 0 <= i <= |queued| == |old(queued)| && |Retold(stream, out, i, h, referenced)| == |stream|
        invariant forall j :: 0 <= j < |queued| ==> queued[j] == QueuedOf(Retold(stream, out, i, h, referenced)[out + j])
        invariant counters == old(counters).(refs := counters.refs)
        invariant
          var stream' := Retold(stream, out, i, h, referenced);
          counters.refs - old(counters.refs) == Count(Referenced, stream', out) - Count(Referenced, stream, out)
      {
        RetoldMore(stream, out, i, h, referenced);
        var q := queued[i];
        if q.completion.handle == Some(h) && q.completion.terminal && q.completion.op.Some? && q.referenced != referenced {
          counters := counters.(refs := if referenced then counters.refs + 1 else counters.refs - 1);
          queued := queued[i := q.(referenced := referenced)];
        }
        i := i + 1;
      }
      RetoldQueue(old(queued), old(counters).buffered, stream, out, i, h, referenced, queued);
    }

    /** Move a handle's own weight, its pending operations and its queued results into or out of
        loop liveness. */
    method Rereference(h: Key, referenced: bool)
      requires Valid() && Visible(m, h) && m.handles[h].referenced != referenced
      modifies this
      ensures Valid() && m == LoopModel.SetRef(old(m), h, referenced) && trace == old(trace) + [RefS(h, referenced)]
    {
      hide Inv, Steady, Reached, Apply, LoopModel.SetRef, Retold, Count, SameQueue;
      RefFacts(Now(), cfg, trace, m, h, referenced);
      ghost var f := Now();
      ReachedInv(cfg, trace);
      if !referenced { RefBacked(f, m, h); } else { RefsAt(f, m); }
      var r := handles[h];
      var weight := r.pending + One(!r.kind.TimerKind? || r.closing.Some?);
      counters := counters.(refs := if referenced then counters.refs + weight else counters.refs - weight);
      handles := handles[h := r.(referenced := referenced)];
      Follow(h, referenced, m.stream, m.out);
      DoRef(f, m, h, referenced, Now());
      Commit(RefS(h, referenced), LoopModel.SetRef(m, h, referenced));
    }

    /** Include a handle, its pending operations and its queued results in loop liveness, or
        exclude them. */
    method SetRef(h: Id, referenced: bool) returns (r: Result<bool>)
      requires Valid()
      modifies this
      ensures Valid()
      ensures
        if h.owner != owner || !Visible(old(m), h.key) then r == Err(NotFound) && m == old(m) && trace == old(trace)
        else
          && r.Ok? && m == LoopModel.SetRef(old(m), h.key, referenced)
          && trace == old(trace) + if old(m).handles[h.key].referenced != referenced then [RefS(h.key, referenced)] else []
    {
      hide Inv, Steady, Reached, Apply, LoopModel.SetRef;
      RefFacts(Now(), cfg, trace, m, h.key, referenced);
      if h.owner != owner || h.key !in handles || handles[h.key].hidden {
        return Err(NotFound);
      }
      if handles[h.key].referenced != referenced {
        Rereference(h.key, referenced);
      }
      return Ok(true);
    }

    /** Whether anything referenced is left to wait for. */
    method Alive() returns (alive: bool)
      requires Valid()
      ensures alive <==> !Idle(m)
    {
      hide Steady, Reached, Idle;
      AliveAt(Now(), cfg, trace, m);
      return counters.refs != 0;
    }

    // ------------------------------------------------------------------- files

    /** Enter an open request: its handle stays hidden until the open succeeds. */
    method OpenFile(pooled: bool, token: Token, h: Key, k: Key, refusal: Option<ErrorKind>) returns (r: Result<Key>)
      requires Valid() && h !in m.issuedHandles && k !in m.issuedOps && (pooled ==> PortCount(m.ops) < m.cfg.maxUndelivered)
      modifies this
      ensures Valid() && Grows(old(trace), trace)
      ensures
        var kind := KindOf(FileKindOf(pooled));
        if !Room(old(m)) then r == Err(ResourceLimit) && m == old(m)
        else if Outstanding(old(m)) >= cfg.maxOperations then r == Err(ResourceLimit) && m == Dropped(old(m), h, pooled)
        else if refusal.Some? then r == Err(refusal.value) && m == Reject(Dropped(old(m), h, pooled), k, false)
        else r == Ok(k) && m == PutHidden(old(m), h, kind, k, FsOp(Some(h), token, pooled))
    {
      hide Inv, Steady, Reached, Apply, Room, Outstanding, PutHidden, Dropped, Reject, PortCount;
      hide Admitted, Added, Undone, Spliceable, Removed, After, KindOf, HiddenResource;
      RoomAt(Now(), m);
      if freeHandles <= counters.reserved {
        return Err(ResourceLimit);
      }
      OpenFacts(Now(), cfg, trace, m, h, k, token, pooled);
      OpenSteps(cfg, trace, m, h, k, pooled);
      AddHidden(h, pooled);
      var o := FsOp(Some(h), token, pooled);
      var ok := NewOp(k, o);
      if !ok {
        Drop(h);
        CommitAll([AddS(h, KindOf(FileKindOf(pooled))), RemoveS(h)], Dropped(m, h, pooled));
        return Err(ResourceLimit);
      }
      if refusal.Some? {
        Undo(k, o);
        Drop(h);
        CommitAll([AddS(h, KindOf(FileKindOf(pooled))), RemoveS(h), RejectS(k, false)], Reject(Dropped(m, h, pooled), k, false));
        return Err(refusal.value);
      }
      Commit(OpenS(h, KindOf(FileKindOf(pooled)), k, o), PutHidden(m, h, KindOf(FileKindOf(pooled)), k, o));
      return Ok(k);
    }

    method AddHidden(h: Key, pooled: bool)
      requires freeHandles > 0
      modifies this`handles, this`freeHandles, this`counters
      ensures Now() == Added(old(Now()), h, HiddenResource(pooled)) && counters.outstanding == old(counters.outstanding)
    {
      handles := handles[h := HiddenResource(pooled)];
      freeHandles := freeHandles - 1;
      counters := counters.(refs := counters.refs + 1);
    }

    /** Submit a typed filesystem request on a path, on an open handle, or opening one. */
    method Fs(
      service: Filesystem, target: Option<Id>, opens: bool, token: Token, h: Key, k: Key, refusal: Option<ErrorKind>)
      returns (r: Result<Key>)
      requires Valid() && h !in m.issuedHandles && k !in m.issuedOps && (opens ==> target.None?)
      modifies this
      ensures Valid() && Grows(old(trace), trace)
      ensures
        var error := FsError(old(m), owner, service, target, opens);
        if error.Some? then r == Err(error.value) else r == if refusal.Some? then Err(refusal.value) else Ok(k)
      ensures r.Err? ==> Unaffected(old(m), m, h)
      ensures
        var pooled := service.PoolFiles?;
        r.Ok? ==>
          if opens then m == PutHidden(old(m), h, KindOf(FileKindOf(pooled)), k, FsOp(Some(h), token, pooled))
          else m == PutOp(old(m), k, FsOp(if target.Some? then Some(target.value.key) else None, token, pooled))
    {
      hide Inv, Steady, Reached, Room, Outstanding, PutHidden, Dropped, Reject, PortCount, PutOp, Unaffected, Keeps;
      FsFacts(Now(), cfg, trace, m, target, h, k, service.PoolFiles?);
      if service.NoFiles? {
        return Err(Unsupported);
      }
      var pooled := service.PoolFiles?;
      if pooled && counters.undelivered >= cfg.maxUndelivered {
        return Err(ResourceLimit);
      }
      if target.Some? {
        var t := target.value;
        if t.owner != owner || t.key !in handles || handles[t.key].hidden {
          return Err(NotFound);
        }
        if handles[t.key].closing.Some? || handles[t.key].kind != FileKindOf(pooled) {
          return Err(InvalidInput);
        }
      }
      if opens {
        r := OpenFile(pooled, token, h, k, refusal);
        return;
      }
      ghost var o := FsOp(if target.Some? then Some(target.value.key) else None, token, pooled);
      NotKept(m, o);
      r := Attempt(k, FsOp(if target.Some? then Some(target.value.key) else None, token, pooled), refusal);
    }

    // --------------------------------------------------------------- processes

    /** Create a handle for every pipe of a child, and look up every handle it inherits. */
    method MakePipes(made0: seq<Key>, pipes: seq<Pipe>, ghost m0: Model) returns (made: seq<Key>, error: Option<ErrorKind>)
      requires Valid() && Created(m0, m, made0) && m0.handles.Keys <= m0.issuedHandles && m.free + |made0| == m0.free
      requires Distinct(PipeKeys(pipes)) && forall x :: x in PipeKeys(pipes) ==> x !in m.issuedHandles
      modifies this
      ensures Valid() && Grows(old(trace), trace) && Created(m0, m, made) && m.issuedOps == old(m).issuedOps
      ensures forall x :: x in made ==> x in made0 || x in PipeKeys(pipes)
      ensures error == PipeError(m0, owner, made0, pipes)
      ensures error.None? ==> made == made0 + PipeKeys(pipes)
    {
      hide Inv, Steady, Reached, Created, Room, PutHandle, PipeKeys, Visible, Reserved;
      PipeNone();
      made, error := made0, None;
      for i := 0 to |pipes|
        invariant Valid() && Grows(old(trace), trace) && Created(m0, m, made) && m.issuedOps == old(m).issuedOps
        invariant made == made0 + PipeKeys(pipes[..i]) && m.free + |made| == m0.free
        invariant PipeError(m0, owner, made0, pipes) == PipeError(m0, owner, made, pipes[i..])
        invariant forall x :: x in m.issuedHandles ==> x in old(m).issuedHandles || x in PipeKeys(pipes[..i])
      {
        PipeNext(pipes, i);
        var p := pipes[i];
        assert pipes[i..][0] == p && pipes[i..][1..] == pipes[i + 1..];
        CreatedAt(m0, m, made, if p.Inherit? then p.source.key else p.key);
        if p.Inherit? {
          VisibleAt(Now(), m, p.source.key);
          if p.source.owner != owner || p.source.key !in handles || handles[p.source.key].hidden {
            error := Some(NotFound);
            return;
          }
        } else {
          CreatedMore(m0, m, made, p.key);
          IssuedHere(m, p.key);
          var ok := NewHandle(SocketKind, p.key);
          if !ok {
            error := Some(ResourceLimit);
            return;
          }
          made := made + [p.key];
        }
      }
      assert pipes[..|pipes|] == pipes;
    }

    /** Remove handles that were created together, oldest first. */
    method RollBack(made: seq<Key>, ghost m0: Model)
      requires Valid() && Created(m0, m, made) && forall x :: x in made ==> Unmentioned(m0.stream, m0.out, x)
      modifies this
      ensures Valid() && Grows(old(trace), trace) && Created(m0, m, [])
    {
      hide Inv, Steady, Reached, Unmentioned, DropHandle, Created;
      for i := 0 to |made|
        invariant Valid() && Grows(old(trace), trace) && Created(m0, m, made[i..])
      {
        assert made[i..][0] == made[i] && made[i..][1..] == made[i + 1..];
        CreatedLess(m0, m, made[i..]);
        Forget(made[i]);
      }
      assert made[|made|..] == [];
    }

    /** Spawn a child: a handle for it, one for each of its pipes, and the operation that reports
        its exit. On failure nothing is created. */
    method Spawn(h: Key, pipes: seq<Pipe>, token: Token, k: Key, refusal: Option<ErrorKind>) returns (r: Result<Id>)
      requires Valid() && k !in m.issuedOps
      requires Distinct(PipeKeys(pipes)) && h !in m.issuedHandles && h !in PipeKeys(pipes)
      requires forall x :: x in PipeKeys(pipes) ==> x !in m.issuedHandles
      modifies this
      ensures Valid() && Grows(old(trace), trace)
      ensures
        var error := SpawnError(old(m), owner, h, pipes, refusal);
        r == if error.Some? then Err(error.value) else Ok(Id(owner, h))
      ensures r.Err? ==> Created(old(m), m, [])
      ensures r.Ok? ==> Spawned(old(m), m, [h] + PipeKeys(pipes), k, SocketOp(h, token, NoSlot))
    {
      hide Inv, Steady, Reached, Unmentioned, Created, Room, PutOp, PutHandle, Reject, Outstanding, Keeps, Spawned, PipeError;
      ConfigAt(cfg, trace);
      CreatedNone(m);
      AllFresh(cfg, trace, m);
      CreatedMore(m, m, [], h);
      var ok := NewHandle(SocketKind, h);
      if !ok {
        return Err(ResourceLimit);
      }
      assert [] + [h] == [h];
      IssuedHere(old(m), h);
      var made, error := MakePipes([h], pipes, old(m));
      if error.Some? {
        RollBack(made, old(m));
        return Err(error.value);
      }
      CreatedSocket(old(m), m, made, h, token);
      CreatedAt(old(m), m, made, h);
      NotKept(m, SocketOp(h, token, NoSlot));
      ghost var m1 := m;
      var op := Attempt(k, SocketOp(h, token, NoSlot), refusal);
      if op.Err? {
        CreatedStill(old(m), m1, made, k);
        RollBack(made, old(m));
        return Err(op.error);
      }
      SpawnedBy(old(m), m1, made, k, SocketOp(h, token, NoSlot));
      return Ok(Id(owner, h));
    }

    /** Replace the loop by a new one, if it owns nothing the new one could not deliver. A slot that
        was retired with its last generation counts as owned for good, so a loop that retired one
        can never be rebuilt. */
    method Rebuild(config: Config, id: nat, posts: seq<(Token, nat)>) returns (r: Result<Driver>)
      requires Valid()
      ensures r.Ok? <==> Quiet(m, cfg) && posts == [] && ValidConfig(config)
      ensures r.Err? ==> r.error == if Quiet(m, cfg) && posts == [] then InvalidInput else WouldBlock
      ensures r.Ok? ==> fresh(r.value) && r.value.Valid() && r.value.cfg == config && r.value.owner == id && r.value.trace == []
    {
      hide Inv, Steady, Reached, Owns;
      RebuildFacts(Now(), cfg, trace, m);
      if counters.outstanding != 0 || freeHandles != cfg.maxHandles || queued != [] || posts != [] || ring != [] {
        return Err(WouldBlock);
      }
      if !ValidConfig(config) {
        return Err(InvalidInput);
      }
      var next := new Driver(config, id);
      return Ok(next);
    }
  }
}
