/** The loop as its guarantees describe it: per-handle operation lists, one stream
    of completions, deadlines and reservations, with no counter and no link.
    `Driver` keeps counters and intrusive links instead and refines this model. */
module LoopModel {
  import opened Types

  datatype Kind = Socket | File | Timer(repeat: Option<nat>)

  datatype Handle = Handle(
    kind: Kind, hidden: bool, referenced: bool,
    closing: Option<Token>, closedQueued: bool, ops: seq<Key>)

  /** `native` operations answer through the backend, `port` operations through
      the result ring. `held` is the handle slot a single-shot accept or handle
      receive reserves; a multishot accept draws on the pooled `promised` slots. */
  datatype Op = Op(
    handle: Option<Key>, token: Token, cancel: bool, stop: bool, timedOut: bool,
    fs: bool, held: bool, multishot: bool, native: bool, port: bool)

  /** `stream` lists every completion ever produced; the first `out` of them have
      reached the host and the rest are the completion queue. `ended` and `closedAt`
      locate the terminal completion of an operation and the `Closed` of a handle. */
  datatype Model = Model(
    cfg: Config,
    handles: map<Key, Handle>, free: nat, ops: map<Key, Op>,
    stream: seq<Entry>, out: nat,
    timers: map<Key, Instant>, connects: map<Key, Instant>,
    promised: nat, inflight: set<Key>, ring: seq<Work>,
    issuedHandles: set<Key>, issuedOps: set<Key>, refused: set<Key>,
    ended: map<Key, nat>, closedAt: map<Key, nat>)

  function Init(cfg: Config): Model {
    Model(cfg, map[], cfg.maxHandles, map[], [], 0, map[], map[], 0, {}, [], {}, {}, {}, map[], map[])
  }

  // ---------------------------------------------------------------- measures

  function Held(ops: map<Key, Op>): set<Key> { set k | k in ops && ops[k].held }

  function Armed(ops: map<Key, Op>): set<Key> { set k | k in ops && ops[k].multishot }

  function Natives(ops: map<Key, Op>): set<Key> { set k | k in ops && ops[k].native }

  function Ports(ops: map<Key, Op>): set<Key> { set k | k in ops && ops[k].port }

  function HeldCount(ops: map<Key, Op>): nat { |Held(ops)| }

  function ArmedCount(ops: map<Key, Op>): nat { |Armed(ops)| }

  function NativeCount(ops: map<Key, Op>): nat { |Natives(ops)| }

  function PortCount(ops: map<Key, Op>): nat { |Ports(ops)| }

  function Size<V>(m: map<Key, V>): nat { |m| }

  predicate Weighs(r: Handle) { r.referenced && (!r.kind.Timer? || r.closing.Some?) }

  predicate Counts(handles: map<Key, Handle>, o: Op) {
    o.handle.None? || (o.handle.value in handles && handles[o.handle.value].referenced)
  }

  function RefHandles(handles: map<Key, Handle>): set<Key> { set h | h in handles && Weighs(handles[h]) }

  function RefOps(handles: map<Key, Handle>, ops: map<Key, Op>): set<Key> {
    set k | k in ops && Counts(handles, ops[k])
  }

  function ClosedQueued(handles: map<Key, Handle>): set<Key> { set h | h in handles && handles[h].closedQueued }

  function ClosedCount(handles: map<Key, Handle>): nat { |ClosedQueued(handles)| }

  function RefHandleCount(handles: map<Key, Handle>): nat { |RefHandles(handles)| }

  function RefOpCount(handles: map<Key, Handle>, ops: map<Key, Op>): nat { |RefOps(handles, ops)| }

  predicate IsTerminal(c: Completion) { c.terminal && c.op.Some? }

  /** The kinds of queued completion that are counted. */
  datatype Sort = Referenced | Terminal | Class(c: nat) | Closing

  predicate Picks(sort: Sort, e: Entry) {
    match sort
    case Referenced => e.referenced
    case Terminal => IsTerminal(e.completion)
    case Class(c) => EventClass(e.completion) == Some(c)
    case Closing => e.completion.result.Closed?
  }

  /** How many queued completions are of this sort. */
  function Count(sort: Sort, stream: seq<Entry>, out: nat): nat {
    if |stream| <= out then 0
    else Count(sort, stream[..|stream| - 1], out) + One(Picks(sort, stream[|stream| - 1]))
  }

  function RingOps(ring: seq<Work>): set<Key> { set i | 0 <= i < |ring| :: ring[i].op }

  function Outstanding(m: Model): nat { Size(m.ops) + Count(Terminal, m.stream, m.out) }

  function Reserved(m: Model): nat { HeldCount(m.ops) + m.promised }

  /** What keeps the loop alive. */
  function Liveness(m: Model): nat { Weight(m.handles, m.ops, m.stream, m.out) }

  function Weight(handles: map<Key, Handle>, ops: map<Key, Op>, stream: seq<Entry>, out: nat): nat {
    RefHandleCount(handles) + RefOpCount(handles, ops) + Count(Referenced, stream, out)
  }

  /** Slots a poll may spend on multishot accepts. */
  function Budget(m: Model): int { m.free - HeldCount(m.ops) }

  // --------------------------------------------------------------- invariant

  predicate Distinct(s: seq<Key>) { forall i, j :: 0 <= i < j < |s| ==> s[i] != s[j] }

  /** Each handle lists exactly its live operations. */
  ghost predicate Lists(handles: map<Key, Handle>, ops: map<Key, Op>) {
    && (forall h :: h in handles ==> ListOf(h, handles[h].ops, ops))
    && (forall k :: k in ops ==> Listed(k, ops[k].handle, handles))
  }

  ghost predicate ListOf(h: Key, s: seq<Key>, ops: map<Key, Op>) {
    && Distinct(s)
    && (forall i :: 0 <= i < |s| ==> s[i] in ops && ops[s[i]].handle == Some(h))
  }

  predicate Listed(k: Key, handle: Option<Key>, handles: map<Key, Handle>) {
    handle.Some? ==> handle.value in handles && k in handles[handle.value].ops
  }

  /** Each live operation has exactly one source that can complete it. */
  ghost predicate Sourced(handles: map<Key, Handle>, ops: map<Key, Op>) {
    && (forall k :: k in ops ==> OneSource(handles, ops[k]))
    && (forall k :: k in ops && Hidden(handles, ops[k]) ==> ops[k].fs)
  }

  predicate OneSource(handles: map<Key, Handle>, o: Op) {
    && !(o.native && o.port)
    && (o.handle.None? ==> o.native || o.port)
    && (o.handle.Some? && o.handle.value in handles ==>
          var r := handles[o.handle.value];
          && (r.kind.Socket? ==> o.native)
          && (r.kind.File? ==> o.port)
          && (r.kind.Timer? ==> !o.native && !o.port && !o.cancel))
    && (o.held || o.multishot ==> o.native && o.handle.Some?)
    && !(o.held && o.multishot)
    && (o.timedOut ==> o.cancel && !o.stop && o.native)
    && (o.stop ==> o.cancel)
  }

  predicate IsTimer(handles: map<Key, Handle>, o: Op) {
    o.handle.Some? && o.handle.value in handles && handles[o.handle.value].kind.Timer?
  }

  predicate Hidden(handles: map<Key, Handle>, o: Op) {
    o.handle.Some? && o.handle.value in handles && handles[o.handle.value].hidden
  }

  ghost predicate Settled(handles: map<Key, Handle>) { forall h :: h in handles ==> WellKept(handles[h]) }

  predicate WellKept(r: Handle) {
    && (r.closedQueued <==> r.closing.Some? && r.ops == [])
    && (r.hidden ==> r.closing.None? && r.referenced && !r.kind.Timer? && |r.ops| == 1)
    && (r.kind.Timer? ==> |r.ops| <= 1 && r.kind.repeat != Some(0))
  }

  ghost predicate Sized(handles: map<Key, Handle>, free: nat, issued: set<Key>, cfg: Config) {
    && handles.Keys <= issued
    && Size(handles) + free <= cfg.maxHandles
  }

  /** The shape of a completion. */
  predicate WellFormed(e: Entry) {
    var c := e.completion;
    && (c.result.Posted? ==> c.op.None? && c.handle.None? && c.terminal)
    && (c.result.Closed? ==> c.op.None? && c.handle.Some? && c.terminal)
    && (!c.result.Posted? && !c.result.Closed? ==> c.op.Some?)
    && (e.referenced ==> c.terminal && c.op.Some?)
  }

  /** Each issued operation is live, refused, or ended by the one terminal completion
      `ended` locates, after which it is silent. */
  ghost predicate OpHistory(
    live: set<Key>, issued: set<Key>, refused: set<Key>, ended: map<Key, nat>, stream: seq<Entry>)
  {
    && (forall k :: k in issued <==> k in live || k in ended || k in refused)
    && (forall k :: k in live ==> k !in ended && k !in refused)
    && (forall k :: k in ended ==> k !in refused)
    && (forall k :: k in ended ==>
          ended[k] < |stream| && stream[ended[k]].completion.op == Some(k) && stream[ended[k]].completion.terminal)
    && (forall i :: 0 <= i < |stream| && stream[i].completion.op.Some? ==>
          OpEntry(live, ended, i, stream[i].completion))
  }

  predicate OpEntry(live: set<Key>, ended: map<Key, nat>, i: nat, c: Completion)
    requires c.op.Some?
  {
    var k := c.op.value;
    && (k in live || k in ended)
    && (c.terminal ==> k in ended && ended[k] == i)
    && (k in ended ==> i <= ended[k])
  }

  /** `Closed` comes once and last for its handle, and a queued completion names a live handle. */
  ghost predicate HandleHistory(
    handles: map<Key, Handle>, issued: set<Key>, closedAt: map<Key, nat>, stream: seq<Entry>, out: nat)
  {
    && closedAt.Keys <= issued
    && (forall h :: h in closedAt ==>
          closedAt[h] < |stream| && stream[closedAt[h]].completion.result.Closed?
          && stream[closedAt[h]].completion.handle == Some(h)
          && (out <= closedAt[h] <==> h in handles))
    && (forall h :: h in handles ==> (handles[h].closedQueued <==> h in closedAt))
    && (forall i :: 0 <= i < |stream| && stream[i].completion.handle.Some? ==>
          HandleEntry(handles, issued, closedAt, out, i, stream[i].completion))
  }

  predicate HandleEntry(
    handles: map<Key, Handle>, issued: set<Key>, closedAt: map<Key, nat>, out: nat, i: nat, c: Completion)
    requires c.handle.Some?
  {
    var h := c.handle.value;
    && h in issued
    && (out <= i ==> h in handles)
    && (h in handles ==> !handles[h].hidden)
    && (c.result.Closed? ==> h in closedAt && closedAt[h] == i)
    && (h in closedAt ==> i <= closedAt[h])
  }

  /** The queue bounds. */
  ghost predicate Bounded(stream: seq<Entry>, out: nat, live: nat, closed: nat, cfg: Config) {
    && out <= |stream|
    && (forall i :: 0 <= i < |stream| ==> WellFormed(stream[i]))
    && live + Count(Terminal, stream, out) <= cfg.maxOperations
    && Count(Class(NATIVE_EVENTS), stream, out) <= cfg.eventsPerTurn
    && Count(Class(TIMER_EVENTS), stream, out) <= cfg.eventsPerTurn
    && Count(Class(POST_EVENTS), stream, out) <= cfg.eventsPerTurn
    && Count(Closing, stream, out) == closed
  }

  /** Promised handle slots are free ones. */
  ghost predicate Housing(ops: map<Key, Op>, promised: nat, free: nat) {
    && HeldCount(ops) + promised <= free
    && promised <= ArmedCount(ops)
  }

  /** A timer is armed exactly while it has an operation; a connect deadline
      belongs to a live operation nobody has cancelled. */
  ghost predicate Deadlines(
    handles: map<Key, Handle>, ops: map<Key, Op>, timers: map<Key, Instant>, connects: map<Key, Instant>)
  {
    && (forall h :: h in timers <==> h in handles && handles[h].kind.Timer? && handles[h].ops != [])
    && (forall k :: k in connects ==>
          k in ops && ops[k].native && !ops[k].cancel && ops[k].handle.Some?)
  }

  /** Each result-ring operation is in flight or has its one result in the ring. */
  ghost predicate Credit(ops: map<Key, Op>, inflight: set<Key>, ring: seq<Work>, limit: nat) {
    && (forall k :: k in ops && ops[k].port <==> k in inflight || k in RingOps(ring))
    && (forall k :: k in inflight ==> k !in RingOps(ring))
    && (forall i, j :: 0 <= i < j < |ring| ==> ring[i].op != ring[j].op)
    && PortCount(ops) <= limit
  }

  ghost predicate Shape(
    handles: map<Key, Handle>, ops: map<Key, Op>, timers: map<Key, Instant>, connects: map<Key, Instant>)
  {
    Lists(handles, ops) && Sourced(handles, ops) && Deadlines(handles, ops, timers, connects)
  }

  ghost predicate InvCore(m: Model) {
    && Shape(m.handles, m.ops, m.timers, m.connects)
    && Settled(m.handles)
    && Sized(m.handles, m.free, m.issuedHandles, m.cfg)
    && OpHistory(m.ops.Keys, m.issuedOps, m.refused, m.ended, m.stream)
    && HandleHistory(m.handles, m.issuedHandles, m.closedAt, m.stream, m.out)
    && Bounded(m.stream, m.out, Size(m.ops), ClosedCount(m.handles), m.cfg)
    && Housing(m.ops, m.promised, m.free)
  }

  ghost predicate Inv(m: Model) {
    InvCore(m) && Credit(m.ops, m.inflight, m.ring, m.cfg.maxUndelivered)
  }

  // ------------------------------------------------------------------- steps

  function IndexOf(s: seq<Key>, k: Key): (i: nat)
    requires k in s
    ensures i < |s| && s[i] == k
  {
    if s[0] == k then 0 else 1 + IndexOf(s[1..], k)
  }

  function Without(s: seq<Key>, k: Key): seq<Key> {
    if k in s then s[..IndexOf(s, k)] + s[IndexOf(s, k) + 1..] else s
  }

  function PutHandle(m: Model, h: Key, r: Handle): Model {
    m.(handles := m.handles[h := r], free := if m.free == 0 then 0 else m.free - 1,
       issuedHandles := m.issuedHandles + {h})
  }

  function DropHandle(m: Model, h: Key): Model {
    m.(handles := m.handles - {h}, free := m.free + (if Exhausted(h) then 0 else 1))
  }

  function WithOp(handles: map<Key, Handle>, handle: Option<Key>, k: Key): map<Key, Handle> {
    if handle.Some? && handle.value in handles then
      handles[handle.value := handles[handle.value].(ops := handles[handle.value].ops + [k])]
    else handles
  }

  function WithoutOp(handles: map<Key, Handle>, handle: Option<Key>, k: Key): map<Key, Handle> {
    if handle.Some? && handle.value in handles then
      handles[handle.value := handles[handle.value].(ops := Without(handles[handle.value].ops, k))]
    else handles
  }

  /** Append operation `k` to its handle's list. */
  function PutOp(m: Model, k: Key, o: Op): Model {
    m.(ops := m.ops[k := o],
       issuedOps := m.issuedOps + {k},
       promised := m.promised + (if o.multishot then 1 else 0),
       inflight := if o.port then m.inflight + {k} else m.inflight,
       handles := WithOp(m.handles, o.handle, k))
  }

  /** Take operation `k` out of its list, its deadlines and its reservation. */
  function Unlist(m: Model, k: Key): Model
    requires k in m.ops
  {
    var o := m.ops[k];
    var rest := m.ops - {k};
    m.(ops := rest,
       connects := m.connects - {k},
       timers := if IsTimer(m.handles, o) then m.timers - {o.handle.value} else m.timers,
       inflight := m.inflight - {k},
       promised := if o.multishot && m.promised > ArmedCount(rest) then m.promised - 1 else m.promised,
       handles := WithoutOp(m.handles, o.handle, k))
  }

  function Push(m: Model, e: Entry): Model { m.(stream := m.stream + [e]) }

  function ClosedEntry(h: Key, token: Token): Entry {
    Entry(Completion(token, None, Some(h), true, Closed), false)
  }

  /** Queue `Closed` once a closing handle has no operation left. */
  function MaybeClosed(m: Model, h: Key): Model {
    if h in m.handles && m.handles[h].ops == [] && !m.handles[h].closedQueued && m.handles[h].closing.Some? then
      Push(m, ClosedEntry(h, m.handles[h].closing.value)).(
        handles := m.handles[h := m.handles[h].(closedQueued := true)],
        closedAt := m.closedAt[h := |m.stream|])
    else m
  }

  /** Queue the terminal result of `k` and retire it. A failed or cancelled open
      names no handle in its completion. */
  function End(m: Model, k: Key, result: OpResult): Model
    requires k in m.ops
  {
    Push(Unlist(m, k), EndEntry(m, k, result)).(ended := m.ended[k := |m.stream|])
  }

  function EndEntry(m: Model, k: Key, result: OpResult): Entry
    requires k in m.ops
  {
    var o := m.ops[k];
    var handle := if Hidden(m.handles, o) && !result.Opened? then None else o.handle;
    Entry(Completion(o.token, Some(k), handle, true, result), Counts(m.handles, o))
  }

  /** What an ended operation leaves of its handle: a successful open reveals it,
      a failed one discards it, and a closing handle may now be closed. */
  function Settle(m: Model, h: Key, result: OpResult): Model
    requires h in m.handles
  {
    if !m.handles[h].hidden then MaybeClosed(m, h)
    else if result.Opened? then m.(handles := m.handles[h := m.handles[h].(hidden := false)])
    else DropHandle(m, h)
  }

  /** Deliver the terminal result of `k`. */
  function Finish(m: Model, k: Key, result: OpResult): Model
    requires k in m.ops
  {
    var o, m1 := m.ops[k], End(m, k, result);
    if o.handle.Some? && o.handle.value in m1.handles then Settle(m1, o.handle.value, result) else m1
  }

  /** Deliver a nonterminal result of `k`. */
  function Emit(m: Model, k: Key, result: OpResult): Model
    requires k in m.ops
  {
    Push(m, Entry(Completion(m.ops[k].token, Some(k), m.ops[k].handle, false, result), false))
  }

  /** Give up the slot `k` reserved, so that its connection can take it. */
  function Release(m: Model, k: Key): Model
    requires k in m.ops
  {
    if m.ops[k].multishot then m.(promised := if m.promised == 0 then 0 else m.promised - 1)
    else m.(ops := m.ops[k := m.ops[k].(held := false)])
  }

  predicate Room(m: Model) { Reserved(m) < m.free }

  function NewHandle(kind: Kind): Handle { Handle(kind, false, true, None, false, []) }

  /** Top the multishot pool up as far as the free slots allow. */
  function Refill(m: Model): Model {
    var spare := if m.free <= Reserved(m) then 0 else m.free - Reserved(m);
    var owed := if ArmedCount(m.ops) <= m.promised then 0 else ArmedCount(m.ops) - m.promised;
    m.(promised := m.promised + Min(spare, owed))
  }

  /** Put a transport under the fresh handle `conn` if an unpromised slot is free;
      `taken` says whether the backend adopted it. */
  function Place(m: Model, conn: Key, taken: bool): Model {
    if !Room(m) then m
    else if taken then PutHandle(m, conn, NewHandle(Socket))
    else DropHandle(PutHandle(m, conn, NewHandle(Socket)), conn)
  }

  /** House a transport that `k` produced, spending the slot it reserved. */
  function House(m: Model, k: Key, conn: Key, taken: bool): Model
    requires k in m.ops
  {
    var m' := Place(Release(m, k), conn, taken);
    if m.ops[k].multishot then Refill(m') else m'
  }

  /** The key `k` was spent on a refused submission. `kept` is the slot a refused
      multishot accept leaves in the pool. */
  function Reject(m: Model, k: Key, kept: bool): Model {
    m.(issuedOps := m.issuedOps + {k}, refused := m.refused + {k}, promised := m.promised + One(kept))
  }

  function ArmTimer(m: Model, h: Key, k: Key, token: Token, at: Instant): Model {
    PutOp(m, k, TimerOp(h, token)).(timers := m.timers[h := at])
  }

  function TimerOp(h: Key, token: Token): Op {
    Op(Some(h), token, false, false, false, false, false, false, false, false)
  }

  /** Create the handle of an open request, hidden until the open succeeds. */
  function PutHidden(m: Model, h: Key, kind: Kind, k: Key, o: Op): Model {
    PutOp(PutHandle(m, h, NewHandle(kind).(hidden := true)), k, o)
  }

  function MarkCancel(m: Model, k: Key, stop: bool): Model
    requires k in m.ops
  {
    m.(ops := m.ops[k := m.ops[k].(cancel := true, stop := stop)], connects := m.connects - {k})
  }

  function Expire(m: Model, k: Key): Model
    requires k in m.ops
  {
    m.(ops := m.ops[k := m.ops[k].(cancel := true, timedOut := true)], connects := m.connects - {k})
  }

  /** How an operation that was asked to end reports it: its user, its handle's stop or its deadline
      asked. A filesystem request reports only that it was cancelled. */
  function Verdict(o: Op): OpResult {
    if o.fs then Cancelled
    else if o.timedOut then Failed(TimedOut)
    else CancelledAs(o.stop)
  }

  predicate Acknowledges(o: Op, result: OpResult) { o.cancel ==> result == Verdict(o) }

  function CancelledAs(stop: bool): OpResult { if stop then Stopped else Cancelled }

  /** A result an operation can have. */
  predicate OpOutcome(result: OpResult) { !result.Closed? && !result.Posted? }

  /** What the loop reports for a published result. */
  function WorkResult(o: Op, result: OpResult): (r: OpResult)
    ensures OpOutcome(r)
  {
    if o.cancel then CancelledAs(o.stop && !o.fs) else if OpOutcome(result) then result else Failed(Other(0))
  }

  /** A repeating timer fires and is armed again at `at`. */
  function Repeat(m: Model, h: Key, k: Key, at: Instant): Model
    requires k in m.ops
  {
    Emit(m, k, Fired).(timers := m.timers[h := at])
  }

  /** A pool job or external wait publishes its one result. */
  function Publish(m: Model, k: Key, result: OpResult): Model {
    m.(inflight := m.inflight - {k}, ring := m.ring + [Work(k, result)])
  }

  /** The loop takes the ring's `i`-th result and finishes its operation with `result`. */
  function Collect(m: Model, i: nat, result: OpResult): Model
    requires i < |m.ring| && m.ring[i].op in m.ops
  {
    Finish(m, m.ring[i].op, result).(ring := m.ring[..i] + m.ring[i + 1..])
  }

  function Post(m: Model, token: Token, payload: nat): Model {
    Push(m, Entry(Completion(token, None, None, true, Posted(payload)), false))
  }

  function SetRef(m: Model, h: Key, referenced: bool): Model
    requires h in m.handles
  {
    if m.handles[h].referenced == referenced then m else
    m.(handles := m.handles[h := m.handles[h].(referenced := referenced)],
       stream := seq(|m.stream|, i requires 0 <= i < |m.stream| =>
         if m.out <= i && Follows(m.stream[i].completion, h)
         then m.stream[i].(referenced := referenced) else m.stream[i]))
  }

  /** A queued terminal result keeps its handle's reference through delivery. */
  predicate Follows(c: Completion, h: Key) { c.handle == Some(h) && IsTerminal(c) }

  function BeginClose(m: Model, h: Key, token: Token): Model
    requires h in m.handles
  {
    MaybeClosed(m.(handles := m.handles[h := m.handles[h].(closing := Some(token))]), h)
  }

  /** Hand the oldest queued completion to the host; `Closed` releases its handle. */
  function Deliver(m: Model): Model
    requires m.out < |m.stream|
  {
    var c := m.stream[m.out].completion;
    var m1 := m.(out := m.out + 1);
    if c.result.Closed? && c.handle.Some? && c.handle.value in m.handles then DropHandle(m1, c.handle.value) else m1
  }
}
