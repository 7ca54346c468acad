/** The driver's fields as one value, what it means for them to represent a state of
    the loop model, and how each in-place update keeps them representing one. */
module DriverState {
  import opened Types
  import opened LoopModel
  import opened LoopSteps
  import opened DriverLinks
  import opened DriverCounts

  datatype Queued = Queued(completion: Completion, referenced: bool, eventClass: Option<nat>)

  /** The driver's counters. `reserved` counts the handle slots promised to armed
      accepts, `pooled` those of them that multishot accepts share, and `buffered`
      the queued completions of each bounded class. */
  datatype Counters = Counters(
    refs: nat, outstanding: nat, reserved: nat, armed: nat, pooled: nat, native: nat, undelivered: nat, buffered: seq<nat>)

  /** Subtraction where the driver subtracts; its methods show that nothing is cut off. */
  function Less(n: nat, k: nat): nat { if k <= n then n - k else 0 }

  /** `inflight` is what workers still owe. */
  datatype State = State(
    handles: map<Key, Resource>, free: nat, ops: map<Key, Node>, timers: map<Key, Instant>, connects: map<Key, Instant>,
    queued: seq<Queued>, counters: Counters, ring: seq<Work>, inflight: set<Key>)

  function QueuedOf(e: Entry): Queued { Queued(e.completion, e.referenced, EventClass(e.completion)) }

  /** The queue is the undelivered part of the stream, and each reserve is counted. */
  ghost predicate SameQueue(queued: seq<Queued>, buffered: seq<nat>, stream: seq<Entry>, out: nat) {
    && out + |queued| == |stream|
    && (forall i :: 0 <= i < |queued| ==> queued[i] == QueuedOf(stream[out + i]))
    && |buffered| == 3 && buffered[NATIVE_EVENTS] == Count(Class(NATIVE_EVENTS), stream, out)
    && buffered[TIMER_EVENTS] == Count(Class(TIMER_EVENTS), stream, out)
    && buffered[POST_EVENTS] == Count(Class(POST_EVENTS), stream, out)
  }

  /** The fields represent `s`: the linked records are its tables, the queue its
      undelivered stream, and every counter the number it stands for. */
  ghost predicate Represents(f: State, s: Model) {
    && Linked(f.handles, f.ops, s.handles, s.ops) && f.free == s.free
    && f.timers == s.timers && f.connects == s.connects && f.ring == s.ring && f.inflight == s.inflight
    && SameQueue(f.queued, f.counters.buffered, s.stream, s.out)
    && Counted(f.counters, s.handles, s.ops, s.stream, s.out, s.promised)
  }

  ghost predicate Counted(c: Counters, handles: map<Key, Handle>, ops: map<Key, Op>, stream: seq<Entry>, out: nat, promised: nat) {
    && c.refs == Weight(handles, ops, stream, out)
    && c.reserved == HeldCount(ops) + promised && c.armed == ArmedCount(ops) && c.pooled == promised
    && c.native == NativeCount(ops) && c.undelivered == PortCount(ops)
  }

  /** A timer record names its one operation. */
  ghost predicate Active(resources: map<Key, Resource>) {
    forall h :: h in resources && resources[h].kind.TimerKind? ==> resources[h].kind.op == resources[h].head
  }

  /** Between calls, `outstanding` counts live operations and undelivered terminal results. */
  ghost predicate Steady(f: State, s: Model) {
    Represents(f, s) && Active(f.handles) && f.counters.outstanding == Size(s.ops) + Count(Terminal, s.stream, s.out)
  }

  function KindOf(kind: ResourceKind): Kind {
    match kind
    case SocketKind => Socket
    case FileKind => File
    case TimerKind(_, repeat) => Timer(repeat)
  }

  function NewResource(kind: ResourceKind): Resource { Resource(kind, false, true, 0, None, false, None, None) }

  predicate Leaves(r: Resource) { r.referenced && (!r.kind.TimerKind? || r.closing.Some?) }

  // ---------------------------------------------------------------- handles

  function Added(f: State, h: Key, r: Resource): State {
    f.(handles := f.handles[h := r], free := if f.free == 0 then 0 else f.free - 1,
       counters := f.counters.(refs := f.counters.refs + One(Leaves(r))))
  }

  lemma RepAdd(f: State, s: Model, h: Key, r: Resource, a: Handle)
    requires Represents(f, s) && Lists(s.handles, s.ops) && h !in s.handles && SameResource(r, a) && a.ops == []
    ensures Represents(Added(f, h, r), PutHandle(s, h, a))
  {
    hide Linked, Lists, SameQueue, Weight, HeldCount, ArmedCount, NativeCount, PortCount;
    WeightPutHandle(s.handles, s.ops, s.stream, s.out, h, a);
    LinkedPut(f.handles, f.ops, s.handles, s.ops, h, r, a);
  }

  function Removed(f: State, h: Key): State
    requires h in f.handles
  {
    f.(handles := f.handles - {h}, free := f.free + One(!Exhausted(h)),
       counters := f.counters.(refs := Less(f.counters.refs, One(Leaves(f.handles[h])))))
  }

  lemma RepRemove(f: State, s: Model, h: Key)
    requires Represents(f, s) && Lists(s.handles, s.ops) && h in s.handles && s.handles[h].ops == []
    ensures h in f.handles && Represents(Removed(f, h), DropHandle(s, h))
  {
    hide Linked, Lists, SameQueue, Weight, HeldCount, ArmedCount, NativeCount, PortCount, Exhausted;
    RecordAt(f.handles, f.ops, s.handles, s.ops, h);
    WeightDropHandle(s.handles, s.ops, s.stream, s.out, h);
    LinkedDrop(f.handles, f.ops, s.handles, s.ops, h);
  }

  /** The count has the handle's own reference to take. */
  predicate Droppable(f: State, h: Key) { h in f.handles && (Leaves(f.handles[h]) ==> f.counters.refs >= 1) }

  lemma RepDroppable(f: State, s: Model, h: Key)
    requires Represents(f, s) && h in s.handles
    ensures Droppable(f, h)
  {
    hide Linked, SameQueue, RefOpCount, HeldCount, ArmedCount, NativeCount, PortCount, Count;
    RecordAt(f.handles, f.ops, s.handles, s.ops, h);
    if Leaves(f.handles[h]) { assert h in RefHandles(s.handles); }
  }

  function Flagged(f: State, h: Key, r: Resource): State
    requires h in f.handles
  {
    f.(handles := f.handles[h := r], counters := f.counters.(refs := Less(f.counters.refs + One(Leaves(r)), One(Leaves(f.handles[h])))))
  }

  /** Any change of a handle's flags, but for `referenced`. */
  lemma RepFlag(f: State, s: Model, h: Key, r: Resource, a: Handle)
    requires Represents(f, s) && h in s.handles && SameResource(r, a) && a.ops == s.handles[h].ops
    requires a.referenced == s.handles[h].referenced
    ensures h in f.handles
    ensures Represents(Flagged(f, h, r), s.(handles := s.handles[h := a]))
  {
    hide Linked, SameQueue, Weight, HeldCount, ArmedCount, NativeCount, PortCount;
    RecordAt(f.handles, f.ops, s.handles, s.ops, h);
    WeightPatchHandle(s.handles, s.ops, s.stream, s.out, h, a);
    LinkedPut(f.handles, f.ops, s.handles, s.ops, h, r, a);
  }

  // ------------------------------------------------------------- operations

  /** `new_op`, with the reservation or credit its submission claims. */
  function Admitted(f: State, k: Key, o: Op): State
    requires o.handle.Some? ==> o.handle.value in f.handles
  {
    var tail := if o.handle.Some? then f.handles[o.handle.value].tail else None;
    f.(ops := Appended(f.ops, tail, k, o),
       handles := if o.handle.Some? then f.handles[o.handle.value := Grown(f.handles[o.handle.value], k)] else f.handles,
       counters := Charged(f.counters, o, o.handle.Some? ==> f.handles[o.handle.value].referenced),
       inflight := if o.port then f.inflight + {k} else f.inflight)
  }

  function Charged(c: Counters, o: Op, referenced: bool): Counters {
    c.(refs := c.refs + One(referenced), outstanding := c.outstanding + 1, native := c.native + One(o.native),
       undelivered := c.undelivered + One(o.port), reserved := c.reserved + One(o.held || o.multishot),
       armed := c.armed + One(o.multishot), pooled := c.pooled + One(o.multishot))
  }

  lemma RepAdmit(f: State, s: Model, k: Key, o: Op)
    requires Represents(f, s) && Lists(s.handles, s.ops) && k !in s.ops && !(o.held && o.multishot)
    requires o.handle.Some? ==> o.handle.value in s.handles
    ensures o.handle.Some? ==> o.handle.value in f.handles
    ensures Represents(Admitted(f, k, o), PutOp(s, k, o))
  {
    hide Lists, SameQueue, Weight, HeldCount, ArmedCount, NativeCount, PortCount, Rows, Chains, Data, Appended, Grown;
    if o.handle.Some? { RecordAt(f.handles, f.ops, s.handles, s.ops, o.handle.value); }
    WeightPutOp(s.handles, s.ops, s.stream, s.out, k, o);
    OpsChange(s.ops, s.ops[k := o], k);
    AppendChains(f.ops, s.handles, s.ops, k, o);
    AppendRows(f.handles, s.handles, o.handle, k);
  }

  /** `retire` */
  function Retired(f: State, k: Key): State
    requires k in f.ops && (f.ops[k].op.handle.Some? ==> f.ops[k].op.handle.value in f.handles)
  {
    var n, h := f.ops[k], f.ops[k].op.handle;
    f.(ops := Spliced(f.ops, k), connects := f.connects - {k}, inflight := f.inflight - {k},
       handles := if h.Some? then f.handles[h.value := Idled(Shrunk(f.handles[h.value], k, n))] else f.handles,
       counters := Credited(f.counters, n.op, h.Some? ==> f.handles[h.value].referenced))
  }

  function Credited(c: Counters, o: Op, referenced: bool): Counters {
    var surplus := One(o.multishot && c.pooled > c.armed - 1);
    c.(refs := Less(c.refs, One(referenced)), native := Less(c.native, One(o.native)), undelivered := Less(c.undelivered, One(o.port)),
       reserved := Less(c.reserved, One(o.held) + surplus), armed := Less(c.armed, One(o.multishot)), pooled := Less(c.pooled, surplus))
  }

  /** Each counter has what retiring the operation takes from it. */
  predicate Backs(c: Counters, o: Op, referenced: bool) {
    && (referenced ==> c.refs >= 1) && (o.native ==> c.native >= 1) && (o.port ==> c.undelivered >= 1)
    && (o.multishot ==> c.armed >= 1)
    && c.reserved >= One(o.held) + One(o.multishot && c.pooled > c.armed - 1)
  }

  lemma RepBacks(f: State, s: Model, k: Key)
    requires Represents(f, s) && k in s.ops && !(s.ops[k].held && s.ops[k].multishot)
    ensures Backs(f.counters, s.ops[k], Counts(s.handles, s.ops[k]))
  {
    hide Linked, SameQueue, RefHandleCount, Count;
    var o := s.ops[k];
    if o.native { assert k in Natives(s.ops); }
    if o.port { assert k in Ports(s.ops); }
    if o.held { assert k in Held(s.ops); }
    if o.multishot { assert k in Armed(s.ops); }
    if Counts(s.handles, o) { assert k in RefOps(s.handles, s.ops); }
  }

  /** An operation can be taken out: its neighbours are there, its handle counts it, and so do the counters. */
  predicate Retirable(f: State, k: Key) {
    && k in f.ops
    && (f.ops[k].op.handle.Some? ==>
          f.ops[k].op.handle.value in f.handles && f.handles[f.ops[k].op.handle.value].pending >= 1)
    && (f.ops[k].previous.Some? ==> f.ops[k].previous.value in f.ops && f.ops[k].previous.value != k)
    && (f.ops[k].next.Some? ==> f.ops[k].next.value in f.ops && f.ops[k].next.value != k)
    && Backs(f.counters, f.ops[k].op, f.ops[k].op.handle.Some? ==> f.handles[f.ops[k].op.handle.value].referenced)
  }

  function Idled(r: Resource): Resource { if r.kind.TimerKind? then r.(kind := TimerKind(None, r.kind.repeat)) else r }

  lemma RepRetire(f: State, s: Model, k: Key)
    requires Represents(f, s) && Lists(s.handles, s.ops) && k in s.ops
    requires IsTimer(s.handles, s.ops[k]) ==> s.ops[k].handle.value !in s.timers
    ensures k in f.ops && f.ops[k].op == s.ops[k]
    ensures (s.ops[k].handle.Some? ==> s.ops[k].handle.value in f.handles && s.ops[k].handle.value in s.handles)
    ensures Represents(Retired(f, k), Unlist(s, k))
  {
    hide Lists, SameQueue, Weight, HeldCount, ArmedCount, NativeCount, PortCount, Linked, Spliced, Shrunk, WithoutOp, Idled;
    LinkedRetire(f.handles, f.ops, s.handles, s.ops, k);
    var h := s.ops[k].handle;
    if h.Some? { RecordAt(f.handles, f.ops, s.handles, s.ops, h.value); }
    WeightUnlist(s.handles, s.ops, s.stream, s.out, k);
    OpsChange(s.ops, s.ops - {k}, k);
    assert IsTimer(s.handles, s.ops[k]) ==> s.timers - {h.value} == s.timers;
  }

  lemma LinkedRetire(resources: map<Key, Resource>, nodes: map<Key, Node>, handles: map<Key, Handle>, ops: map<Key, Op>, k: Key)
    requires Linked(resources, nodes, handles, ops) && Lists(handles, ops) && k in ops
    ensures k in nodes && nodes[k].op == ops[k]
    ensures ops[k].handle.Some? ==> ops[k].handle.value in resources && ops[k].handle.value in handles
    ensures
      var h := ops[k].handle;
      var resources' := if h.Some? then resources[h.value := Idled(Shrunk(resources[h.value], k, nodes[k]))] else resources;
      Linked(resources', Spliced(nodes, k), WithoutOp(handles, h, k), ops - {k})
  {
    hide Lists, Rows, Chains, Data, Spliced, Shrunk, Without, Idled;
    NodeAt(resources, nodes, handles, ops, k);
    ListedAt(handles, ops, k);
    var h := ops[k].handle;
    if h.Some? {
      RecordAt(resources, nodes, handles, ops, h.value);
      ListAt(handles, ops, h.value);
    }
    SpliceChains(nodes, handles, ops, k);
    SpliceRows(resources, nodes, handles, h, k);
    if h.Some? { IdleRows(resources, Shrunk(resources[h.value], k, nodes[k]), WithoutOp(handles, h, k), h.value); }
  }

  lemma IdleRows(resources: map<Key, Resource>, r: Resource, handles: map<Key, Handle>, h: Key)
    requires Rows(resources[h := r], handles)
    ensures Rows(resources[h := Idled(r)], handles)
  {
    assert resources[h := r].Keys == resources[h := Idled(r)].Keys;
    forall x | x in handles ensures SameResource(resources[h := Idled(r)][x], handles[x]) {
      assert SameResource(resources[h := r][x], handles[x]);
    }
  }

  function Patched(f: State, k: Key, o: Op): State
    requires k in f.ops
  {
    f.(ops := f.ops[k := f.ops[k].(op := o)],
       counters := f.counters.(reserved := Less(f.counters.reserved + One(o.held), One(f.ops[k].op.held))))
  }

  /** Change an operation's flags; its list, its class of work and its port stay. */
  lemma RepPatch(f: State, s: Model, k: Key, o: Op)
    requires Represents(f, s) && k in s.ops && o.handle == s.ops[k].handle
    requires o.native == s.ops[k].native && o.port == s.ops[k].port && o.multishot == s.ops[k].multishot
    ensures k in f.ops
    ensures Represents(Patched(f, k, o), s.(ops := s.ops[k := o]))
  {
    hide Linked, SameQueue, Weight, HeldCount, ArmedCount, NativeCount, PortCount;
    WeightPatchOp(s.handles, s.ops, s.stream, s.out, k, o);
    OpsChange(s.ops, s.ops[k := o], k);
    LinkedPatch(f.handles, f.ops, s.handles, s.ops, k, o);
    NodeAt(f.handles, f.ops, s.handles, s.ops, k);
  }

  // ------------------------------------------------------------------ queue

  function Bumped(buffered: seq<nat>, c: Option<nat>, delta: int): seq<nat> {
    if c.Some? && c.value < |buffered| && buffered[c.value] + delta >= 0 then buffered[c.value := buffered[c.value] + delta] else buffered
  }

  /** `enqueue` */
  function Enqueued(f: State, e: Entry): State {
    f.(queued := f.queued + [QueuedOf(e)],
       counters := f.counters.(buffered := Bumped(f.counters.buffered, EventClass(e.completion), 1),
                               refs := f.counters.refs + One(e.referenced)))
  }

  lemma RepPush(f: State, s: Model, e: Entry)
    requires Represents(f, s) && s.out <= |s.stream|
    ensures Represents(Enqueued(f, e), Push(s, e))
  {
    hide Linked, Weight, HeldCount, ArmedCount, NativeCount, PortCount, Count;
    WeightPush(s.handles, s.ops, s.stream, s.out, e);
    QueuePush(f.queued, f.counters.buffered, s.stream, s.out, e);
  }

  lemma QueuePush(queued: seq<Queued>, buffered: seq<nat>, stream: seq<Entry>, out: nat, e: Entry)
    requires SameQueue(queued, buffered, stream, out)
    ensures SameQueue(queued + [QueuedOf(e)], Bumped(buffered, EventClass(e.completion), 1), stream + [e], out)
  {
    hide Count;
    CountPush(Class(NATIVE_EVENTS), stream, out, e);
    CountPush(Class(TIMER_EVENTS), stream, out, e);
    CountPush(Class(POST_EVENTS), stream, out, e);
  }

  /** The counters have what a delivered completion takes from them. */
  predicate Payable(c: Counters, q: Queued) {
    c.refs >= One(q.referenced) && c.outstanding >= One(IsTerminal(q.completion))
  }

  /** `drain`, one completion */
  function Dequeued(f: State): State
    requires f.queued != []
  {
    var q := f.queued[0];
    var c := f.counters;
    f.(queued := f.queued[1..],
       counters := c.(buffered := Bumped(c.buffered, q.eventClass, -1), refs := Less(c.refs, One(q.referenced)),
                      outstanding := Less(c.outstanding, One(IsTerminal(q.completion)))))
  }

  lemma RepPop(f: State, s: Model)
    requires Represents(f, s) && s.out < |s.stream|
    ensures f.queued != [] && f.queued[0] == QueuedOf(s.stream[s.out]) && Represents(Dequeued(f), s.(out := s.out + 1))
    ensures Count(Terminal, s.stream, s.out) == Count(Terminal, s.stream, s.out + 1) + One(IsTerminal(s.stream[s.out].completion))
    ensures
      f.queued[0].eventClass.Some? ==>
        f.queued[0].eventClass.value < |f.counters.buffered| && f.counters.buffered[f.queued[0].eventClass.value] > 0
    ensures f.counters.refs >= One(f.queued[0].referenced)
  {
    hide Linked, RefHandleCount, RefOpCount, HeldCount, ArmedCount, NativeCount, PortCount, Count;
    CountPop(Terminal, s.stream, s.out);
    CountPop(Referenced, s.stream, s.out);
    QueuePop(f.queued, f.counters.buffered, s.stream, s.out);
  }

  lemma QueuePop(queued: seq<Queued>, buffered: seq<nat>, stream: seq<Entry>, out: nat)
    requires SameQueue(queued, buffered, stream, out) && out < |stream|
    ensures queued[0] == QueuedOf(stream[out])
    ensures SameQueue(queued[1..], Bumped(buffered, queued[0].eventClass, -1), stream, out + 1)
    ensures queued[0].eventClass.Some? ==> queued[0].eventClass.value < |buffered| && buffered[queued[0].eventClass.value] > 0
  {
    hide Count;
    CountPop(Class(NATIVE_EVENTS), stream, out);
    CountPop(Class(TIMER_EVENTS), stream, out);
    CountPop(Class(POST_EVENTS), stream, out);
    assert queued[0] == QueuedOf(stream[out + 0]);
  }

  // ----------------------------------------------------------------- finish

  /** `maybe_closed` */
  function MayClose(f: State, h: Key): State {
    if h in f.handles && f.handles[h].pending == 0 && !f.handles[h].closedQueued && f.handles[h].closing.Some? then
      Enqueued(f.(handles := f.handles[h := f.handles[h].(closedQueued := true)]), ClosedEntry(h, f.handles[h].closing.value))
    else f
  }

  lemma RepClosed(f: State, s: Model, h: Key)
    requires Represents(f, s) && s.out <= |s.stream| && h in s.handles
    ensures Represents(MayClose(f, h), MaybeClosed(s, h))
  {
    hide Linked, SameQueue, Weight, HeldCount, ArmedCount, NativeCount, PortCount, Enqueued, Represents;
    RowAt(f, s, h);
    var r, a := f.handles[h].(closedQueued := true), s.handles[h].(closedQueued := true);
    if s.handles[h].ops == [] && !s.handles[h].closedQueued && s.handles[h].closing.Some? {
      RepFlag(f, s, h, r, a);
      var f1, s1 := f.(handles := f.handles[h := r]), s.(handles := s.handles[h := a]);
      assert Flagged(f, h, r) == f1;
      RepPush(f1, s1, ClosedEntry(h, s.handles[h].closing.value));
      RepSame(MayClose(f, h), Push(s1, ClosedEntry(h, s.handles[h].closing.value)), MaybeClosed(s, h));
    }
  }

  lemma RowAt(f: State, s: Model, h: Key)
    requires Represents(f, s) && h in s.handles
    ensures h in f.handles && SameResource(f.handles[h], s.handles[h])
  {
    RecordAt(f.handles, f.ops, s.handles, s.ops, h);
  }

  /** Histories and issued keys are not represented. */
  lemma RepSame(f: State, s: Model, s': Model)
    requires Represents(f, s)
    requires s' == s.(
      cfg := s'.cfg, issuedHandles := s'.issuedHandles, issuedOps := s'.issuedOps, refused := s'.refused,
      ended := s'.ended, closedAt := s'.closedAt)
    ensures Represents(f, s')
  {
    hide Linked, SameQueue, Weight, HeldCount, ArmedCount, NativeCount, PortCount;
  }

  /** `finish` of a terminal result, once the completion is queued */
  function Ended(f: State, k: Key, e: Entry): State
    requires k in f.ops && (f.ops[k].op.handle.Some? ==> f.ops[k].op.handle.value in f.handles)
  {
    Retired(Enqueued(f, e), k)
  }

  lemma RepEnd(f: State, s: Model, k: Key, result: OpResult)
    requires Represents(f, s) && Lists(s.handles, s.ops) && k in s.ops && s.out <= |s.stream|
    requires IsTimer(s.handles, s.ops[k]) ==> s.ops[k].handle.value !in s.timers
    ensures k in f.ops && f.ops[k].op == s.ops[k]
    ensures (s.ops[k].handle.Some? ==> s.ops[k].handle.value in f.handles && s.ops[k].handle.value in s.handles)
    ensures Represents(Ended(f, k, EndEntry(s, k, result)), End(s, k, result))
  {
    hide Lists, Represents, Enqueued, Retired, IsTimer, EndEntry, WithoutOp, ArmedCount;
    var e := EndEntry(s, k, result);
    RepPush(f, s, e);
    RepRetire(Enqueued(f, e), Push(s, e), k);
    RepSame(Retired(Enqueued(f, e), k), Unlist(Push(s, e), k), End(s, k, result));
    EnqueuedTables(f, e);
  }

  lemma EnqueuedTables(f: State, e: Entry)
    ensures Enqueued(f, e).ops == f.ops && Enqueued(f, e).handles == f.handles
  {}

  /** `finish` and `finish_fs`: a successful open reveals its handle, a failed one
      discards it, and any other handle may now be closed. */
  function Finished(f: State, k: Key, result: OpResult): State
    requires k in f.ops && (f.ops[k].op.handle.Some? ==> f.ops[k].op.handle.value in f.handles)
  {
    var h, f1 := f.ops[k].op.handle, Ended(f, k, LastEntry(f, k, result));
    if h.None? then f1
    else if !f.handles[h.value].hidden then MayClose(f1, h.value)
    else if result.Opened? then f1.(handles := f1.handles[h.value := f1.handles[h.value].(hidden := false)])
    else Removed(f1, h.value)
  }

  function LastEntry(f: State, k: Key, result: OpResult): Entry
    requires k in f.ops && (f.ops[k].op.handle.Some? ==> f.ops[k].op.handle.value in f.handles)
  {
    var o, h := f.ops[k].op, f.ops[k].op.handle;
    Entry(Completion(o.token, Some(k), if h.Some? && f.handles[h.value].hidden && !result.Opened? then None else h, true, result),
          h.Some? ==> f.handles[h.value].referenced)
  }

  /** A hidden handle is that of its one pending open. */
  ghost predicate Opening(handles: map<Key, Handle>, o: Op, k: Key) {
    Hidden(handles, o) ==> handles[o.handle.value].closing.None? && handles[o.handle.value].ops == [k]
  }

  lemma RepFinish(f: State, s: Model, k: Key, result: OpResult)
    requires Represents(f, s) && Lists(s.handles, s.ops) && k in s.ops && s.out <= |s.stream| && Opening(s.handles, s.ops[k], k)
    requires IsTimer(s.handles, s.ops[k]) ==> s.ops[k].handle.value !in s.timers
    ensures k in f.ops && f.ops[k].op == s.ops[k]
    ensures (s.ops[k].handle.Some? ==> s.ops[k].handle.value in f.handles && s.ops[k].handle.value in s.handles)
    ensures Represents(Ended(f, k, LastEntry(f, k, result)), End(s, k, result))
    ensures Represents(Finished(f, k, result), Finish(s, k, result))
  {
    hide Lists, Represents, Ended, IsTimer, Unlist, Removed, MayClose, MaybeClosed, DropHandle;
    RepEnd(f, s, k, result);
    var o, s1, f1 := s.ops[k], End(s, k, result), Ended(f, k, LastEntry(f, k, result));
    if o.handle.Some? {
      var h := o.handle.value;
      RowAt(f, s, h);
      assert LastEntry(f, k, result) == EndEntry(s, k, result);
      UnlistAt(s, k, h);
      RowAt(f1, s1, h);
      if !s.handles[h].hidden { RepClosed(f1, s1, h); }
      else if result.Opened? {
        RepFlag(f1, s1, h, f1.handles[h].(hidden := false), s1.handles[h].(hidden := false));
      } else {
        UnlistLists(s, k);
        RepRemove(f1, s1, h);
      }
    } else {
      assert LastEntry(f, k, result) == EndEntry(s, k, result);
    }
  }

  lemma UnlistAt(s: Model, k: Key, h: Key)
    requires k in s.ops && s.ops[k].handle == Some(h) && h in s.handles
    ensures h in Unlist(s, k).handles && Unlist(s, k).handles[h] == s.handles[h].(ops := Without(s.handles[h].ops, k))
    ensures Unlist(s, k).stream == s.stream && Unlist(s, k).out == s.out
    ensures s.handles[h].ops == [k] ==> Unlist(s, k).handles[h].ops == []
  {
    hide ArmedCount;
  }

  lemma UnlistLists(s: Model, k: Key)
    requires Lists(s.handles, s.ops) && k in s.ops
    ensures Lists(Unlist(s, k).handles, Unlist(s, k).ops)
  {
    hide ArmedCount;
    ListsUnlist(s.handles, s.ops, k);
  }

  /** `finish`: queue the terminal result, retire the operation, maybe close its handle. */
  function Completed(f: State, k: Key, e: Entry): State
    requires k in f.ops && (f.ops[k].op.handle.Some? ==> f.ops[k].op.handle.value in f.handles)
  {
    var h := f.ops[k].op.handle;
    if h.Some? then MayClose(Ended(f, k, e), h.value) else Ended(f, k, e)
  }

  function PlainEntry(f: State, k: Key, result: OpResult): Entry
    requires k in f.ops && (f.ops[k].op.handle.Some? ==> f.ops[k].op.handle.value in f.handles)
  {
    var o, h := f.ops[k].op, f.ops[k].op.handle;
    Entry(Completion(o.token, Some(k), h, true, result), h.Some? ==> f.handles[h.value].referenced)
  }

  function Revealed(f: State, h: Key): State
    requires h in f.handles
  {
    f.(handles := f.handles[h := f.handles[h].(hidden := false)])
  }

  /** The last queued completion loses its handle, which is discarded. */
  function Withdrawn(f: State, h: Key): State
    requires h in f.handles && f.queued != []
  {
    var last := |f.queued| - 1;
    Removed(f.(queued := f.queued[last := f.queued[last].(completion := f.queued[last].completion.(handle := None))]), h)
  }

  /** `finish_fs` takes the same three ways as `Finished`, in the driver's order. */
  lemma FinishPlain(f: State, k: Key, result: OpResult)
    requires k in f.ops
    requires (f.ops[k].op.handle.Some? ==> f.ops[k].op.handle.value in f.handles && !f.handles[f.ops[k].op.handle.value].hidden)
    ensures Finished(f, k, result) == Completed(f, k, PlainEntry(f, k, result))
  {
    hide Ended, MayClose;
  }

  lemma FinishReveal(f: State, k: Key, h: Key)
    requires k in f.ops && f.ops[k].op.handle == Some(h) && h in f.handles && f.handles[h].hidden && f.handles[h].closing.None?
    ensures Finished(f, k, Opened) == Completed(Revealed(f, h), k, PlainEntry(Revealed(f, h), k, Opened))
  {
    hide Spliced, Credited;
    var e := LastEntry(f, k, Opened);
    assert Ended(Revealed(f, h), k, e) == Revealed(Ended(f, k, e), h);
  }

  lemma FinishWithdraw(f: State, k: Key, h: Key, result: OpResult)
    requires k in f.ops && f.ops[k].op.handle == Some(h) && h in f.handles && f.handles[h].hidden && f.handles[h].closing.None?
    requires !result.Opened? && OpOutcome(result)
    ensures
      var f1 := Completed(f, k, PlainEntry(f, k, result));
      h in f1.handles && f1.queued != [] && Finished(f, k, result) == Withdrawn(f1, h)
  {
    hide Spliced, Credited, Exhausted, Shrunk;
    var f1, f2 := Ended(f, k, PlainEntry(f, k, result)), Ended(f, k, LastEntry(f, k, result));
    assert f1.handles[h].closing.None? by {
      assert Shrunk(f.handles[h], k, f.ops[k]).closing.None? by { ShrunkKeeps(f.handles[h], k, f.ops[k]); }
    }
    var last := |f.queued|;
    assert f2.queued == f1.queued[last := f1.queued[last].(completion := f1.queued[last].completion.(handle := None))];
  }

  lemma ShrunkKeeps(r: Resource, k: Key, n: Node)
    ensures Shrunk(r, k, n).closing == r.closing
  {}
}
