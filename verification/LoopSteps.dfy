/** Each step of the loop keeps the invariant and only extends the stream. */
module LoopSteps {
  import opened Types
  import opened LoopModel

  /** How a later state relates to an earlier one: what was produced stays produced,
      in order; what is gone stays gone; and a new completion names only what was
      live before, or what did not yet exist. */
  ghost predicate Extends(m: Model, m': Model) {
    && m.cfg == m'.cfg
    && |m.stream| <= |m'.stream| && m.out <= m'.out
    && (forall i :: 0 <= i < |m.stream| ==> m'.stream[i].completion == m.stream[i].completion)
    && m.issuedHandles <= m'.issuedHandles && m.issuedOps <= m'.issuedOps
    && (forall h :: h in m'.handles ==> h in m.handles || h !in m.issuedHandles)
    && (forall k :: k in m'.ops ==> k in m.ops || k !in m.issuedOps)
    && (forall i :: |m.stream| <= i < |m'.stream| ==> Speaks(m, m'.stream[i].completion))
  }

  predicate Speaks(m: Model, c: Completion) {
    && (c.handle.Some? ==> c.handle.value in m.handles || c.handle.value !in m.issuedHandles)
    && (c.op.Some? ==> c.op.value in m.ops || c.op.value !in m.issuedOps)
  }

  lemma ExtendsTrans(a: Model, b: Model, c: Model)
    requires Extends(a, b) && Extends(b, c)
    ensures Extends(a, c)
  {
    forall i | |a.stream| <= i < |c.stream| ensures Speaks(a, c.stream[i].completion) {
      if i < |b.stream| { assert Speaks(a, b.stream[i].completion); } else { assert Speaks(b, c.stream[i].completion); }
    }
  }

  // ------------------------------------------------------ measures, one change

  lemma MapPut<V>(m: map<Key, V>, k: Key, v: V)
    requires k !in m
    ensures m[k := v].Keys == m.Keys + {k} && Size(m[k := v]) == Size(m) + 1
  {
    assert m[k := v].Keys == m.Keys + {k};
  }

  lemma MapDrop<V>(m: map<Key, V>, k: Key)
    requires k in m
    ensures (m - {k}).Keys == m.Keys - {k} && Size(m - {k}) == Size(m) - 1
  {
    assert (m - {k}).Keys == m.Keys - {k};
  }

  lemma MapPatch<V>(m: map<Key, V>, k: Key, v: V)
    requires k in m
    ensures m[k := v].Keys == m.Keys && Size(m[k := v]) == Size(m)
  {
    assert m[k := v].Keys == m.Keys;
  }

  /** `s` and `t` agree except perhaps on `x`. */
  lemma CardChange<T>(s: set<T>, t: set<T>, x: T)
    requires forall y :: y != x ==> (y in s <==> y in t)
    ensures |t| == |s| - One(x in s) + One(x in t)
  {
    if x in s && x !in t { assert s == t + {x}; }
    else if x !in s && x in t { assert t == s + {x}; }
    else { assert s == t; }
  }

  /** The measures over the operation table when only `k` changes. */
  lemma OpsChange(ops: map<Key, Op>, ops': map<Key, Op>, k: Key)
    requires forall x :: x != k ==> (x in ops <==> x in ops')
    requires forall x :: x != k && x in ops ==> ops[x] == ops'[x]
    ensures HeldCount(ops') == HeldCount(ops) - One(k in ops && ops[k].held) + One(k in ops' && ops'[k].held)
    ensures ArmedCount(ops') == ArmedCount(ops) - One(k in ops && ops[k].multishot) + One(k in ops' && ops'[k].multishot)
    ensures NativeCount(ops') == NativeCount(ops) - One(k in ops && ops[k].native) + One(k in ops' && ops'[k].native)
    ensures PortCount(ops') == PortCount(ops) - One(k in ops && ops[k].port) + One(k in ops' && ops'[k].port)
  {
    CardChange(Held(ops), Held(ops'), k);
    CardChange(Armed(ops), Armed(ops'), k);
    CardChange(Natives(ops), Natives(ops'), k);
    CardChange(Ports(ops), Ports(ops'), k);
  }

  lemma ClosedChange(handles: map<Key, Handle>, handles': map<Key, Handle>, h: Key)
    requires forall x :: x != h ==> (x in handles <==> x in handles')
    requires forall x :: x != h && x in handles ==> handles[x] == handles'[x]
    ensures ClosedCount(handles') == ClosedCount(handles)
                                        - One(h in handles && handles[h].closedQueued)
                                        + One(h in handles' && handles'[h].closedQueued)
  {
    CardChange(ClosedQueued(handles), ClosedQueued(handles'), h);
  }

  lemma CountPush(sort: Sort, stream: seq<Entry>, out: nat, e: Entry)
    requires out <= |stream|
    ensures Count(sort, stream + [e], out) == Count(sort, stream, out) + One(Picks(sort, e))
  {
    assert (stream + [e])[..|stream|] == stream;
  }

  lemma {:induction false} CountPop(sort: Sort, stream: seq<Entry>, out: nat)
    requires out < |stream|
    ensures Count(sort, stream, out) == Count(sort, stream, out + 1) + One(Picks(sort, stream[out]))
  {
    if out + 1 < |stream| {
      CountPop(sort, stream[..|stream| - 1], out);
    }
  }

  // ------------------------------------------------- structure, one change

  lemma ShapePutHandle(
    handles: map<Key, Handle>, ops: map<Key, Op>, timers: map<Key, Instant>, connects: map<Key, Instant>, h: Key, r: Handle)
    requires Shape(handles, ops, timers, connects) && h !in handles && r.ops == []
    ensures Shape(handles[h := r], ops, timers, connects)
  {}

  lemma ShapeDropHandle(
    handles: map<Key, Handle>, ops: map<Key, Op>, timers: map<Key, Instant>, connects: map<Key, Instant>, h: Key)
    requires Shape(handles, ops, timers, connects) && h in handles && handles[h].ops == []
    ensures Shape(handles - {h}, ops, timers, connects)
  {}

  lemma ShapePatchHandle(
    handles: map<Key, Handle>, ops: map<Key, Op>, timers: map<Key, Instant>, connects: map<Key, Instant>, h: Key, r: Handle)
    requires Shape(handles, ops, timers, connects) && h in handles && r.ops == handles[h].ops && r.kind == handles[h].kind
    requires r.hidden ==> handles[h].hidden
    ensures Shape(handles[h := r], ops, timers, connects)
  {}

  /** Same handles, apart from their lists. */
  ghost predicate SameButLists(handles: map<Key, Handle>, handles': map<Key, Handle>) {
    && handles'.Keys == handles.Keys
    && (forall h :: h in handles ==> handles'[h] == handles[h].(ops := handles'[h].ops))
  }

  lemma SourcedFrame(handles: map<Key, Handle>, handles': map<Key, Handle>, ops: map<Key, Op>)
    requires SameButLists(handles, handles') && Sourced(handles, ops)
    ensures Sourced(handles', ops)
  {
    forall k | k in ops ensures OneSource(handles', ops[k]) && (Hidden(handles', ops[k]) ==> ops[k].fs) {
      assert OneSource(handles, ops[k]);
    }
  }

  lemma ListsPutOp(handles: map<Key, Handle>, ops: map<Key, Op>, k: Key, o: Op)
    requires Lists(handles, ops) && k !in ops && (o.handle.Some? ==> o.handle.value in handles)
    ensures Lists(WithOp(handles, o.handle, k), ops[k := o])
  {
    var handles', ops' := WithOp(handles, o.handle, k), ops[k := o];
    forall h | h in handles' ensures ListOf(h, handles'[h].ops, ops') {
      assert ListOf(h, handles[h].ops, ops);
    }
    forall x | x in ops' ensures Listed(x, ops'[x].handle, handles') {
      if x != k { assert Listed(x, ops[x].handle, handles); }
    }
  }

  lemma ShapePutOp(
    handles: map<Key, Handle>, ops: map<Key, Op>, timers: map<Key, Instant>, connects: map<Key, Instant>, k: Key, o: Op)
    requires Shape(handles, ops, timers, connects) && k !in ops && OneSource(handles, o) && (Hidden(handles, o) ==> o.fs)
    requires o.handle.Some? ==> o.handle.value in handles
    requires !IsTimer(handles, o)
    ensures Shape(WithOp(handles, o.handle, k), ops[k := o], timers, connects)
  {
    hide Lists;
    ListsPutOp(handles, ops, k, o);
    assert Sourced(handles, ops[k := o]);
    SourcedFrame(handles, WithOp(handles, o.handle, k), ops[k := o]);
  }

  lemma WithoutList(s: seq<Key>, k: Key)
    requires Distinct(s)
    ensures Distinct(Without(s, k))
    ensures forall x :: x in Without(s, k) <==> x in s && x != k
  {
    if k in s {
      var i := IndexOf(s, k);
      assert s == s[..i] + [k] + s[i + 1..];
    }
  }

  lemma ListsUnlist(handles: map<Key, Handle>, ops: map<Key, Op>, k: Key)
    requires Lists(handles, ops) && k in ops
    ensures Lists(WithoutOp(handles, ops[k].handle, k), ops - {k})
  {
    var handles', ops' := WithoutOp(handles, ops[k].handle, k), ops - {k};
    assert Listed(k, ops[k].handle, handles);
    forall h | h in handles' ensures ListOf(h, handles'[h].ops, ops') {
      assert ListOf(h, handles[h].ops, ops);
      WithoutList(handles[h].ops, k);
      forall i | 0 <= i < |handles'[h].ops| ensures handles'[h].ops[i] in ops' && ops'[handles'[h].ops[i]].handle == Some(h) {
        assert handles'[h].ops[i] in handles[h].ops;
      }
    }
    forall x | x in ops' ensures Listed(x, ops'[x].handle, handles') {
      assert Listed(x, ops[x].handle, handles);
      if ops[x].handle.Some? {
        assert ListOf(ops[x].handle.value, handles[ops[x].handle.value].ops, ops);
        WithoutList(handles[ops[x].handle.value].ops, k);
      }
    }
  }

  lemma DeadlinesUnlist(
    handles: map<Key, Handle>, ops: map<Key, Op>, timers: map<Key, Instant>, connects: map<Key, Instant>, k: Key)
    requires Deadlines(handles, ops, timers, connects) && k in ops
    requires IsTimer(handles, ops[k]) ==> handles[ops[k].handle.value].ops == [k]
    ensures Deadlines(WithoutOp(handles, ops[k].handle, k), ops - {k},
                      if IsTimer(handles, ops[k]) then timers - {ops[k].handle.value} else timers, connects - {k})
  {}

  lemma ShapeUnlist(
    handles: map<Key, Handle>, ops: map<Key, Op>, timers: map<Key, Instant>, connects: map<Key, Instant>, k: Key)
    requires Shape(handles, ops, timers, connects) && k in ops
    requires IsTimer(handles, ops[k]) ==> handles[ops[k].handle.value].ops == [k]
    ensures Shape(WithoutOp(handles, ops[k].handle, k), ops - {k},
                  if IsTimer(handles, ops[k]) then timers - {ops[k].handle.value} else timers, connects - {k})
  {
    hide Lists, Deadlines, Without;
    ListsUnlist(handles, ops, k);
    SourcedFrame(handles, WithoutOp(handles, ops[k].handle, k), ops - {k});
    DeadlinesUnlist(handles, ops, timers, connects, k);
  }

  // --------------------------------------------------- history, one change

  lemma OpHistoryPush(live: set<Key>, issued: set<Key>, refused: set<Key>, ended: map<Key, nat>, stream: seq<Entry>, e: Entry)
    requires OpHistory(live, issued, refused, ended, stream)
    requires e.completion.op.Some? ==> e.completion.op.value in live && !e.completion.terminal
    ensures OpHistory(live, issued, refused, ended, stream + [e])
  {}

  lemma OpHistoryEnd(
    live: set<Key>, issued: set<Key>, refused: set<Key>, ended: map<Key, nat>, stream: seq<Entry>, e: Entry, k: Key)
    requires OpHistory(live, issued, refused, ended, stream)
    requires k in live && e.completion.op == Some(k) && e.completion.terminal
    ensures OpHistory(live - {k}, issued, refused, ended[k := |stream|], stream + [e])
  {}

  lemma HandleHistoryPut(
    handles: map<Key, Handle>, issued: set<Key>, closedAt: map<Key, nat>, stream: seq<Entry>, out: nat, h: Key, r: Handle)
    requires HandleHistory(handles, issued, closedAt, stream, out) && h !in issued && !r.closedQueued
    ensures HandleHistory(handles[h := r], issued + {h}, closedAt, stream, out)
  {}

  ghost predicate Unmentioned(stream: seq<Entry>, out: nat, h: Key) {
    forall i :: out <= i < |stream| ==> stream[i].completion.handle != Some(h)
  }

  lemma HandleHistoryDrop(
    handles: map<Key, Handle>, issued: set<Key>, closedAt: map<Key, nat>, stream: seq<Entry>, out: nat, h: Key)
    requires HandleHistory(handles, issued, closedAt, stream, out) && h in handles && out <= |stream|
    requires h !in closedAt && Unmentioned(stream, out, h)
    ensures HandleHistory(handles - {h}, issued, closedAt, stream, out)
  {}

  lemma HandleHistoryPatch(
    handles: map<Key, Handle>, issued: set<Key>, closedAt: map<Key, nat>, stream: seq<Entry>, out: nat, h: Key, r: Handle)
    requires HandleHistory(handles, issued, closedAt, stream, out) && h in handles
    requires r.closedQueued == handles[h].closedQueued && (r.hidden ==> handles[h].hidden)
    ensures HandleHistory(handles[h := r], issued, closedAt, stream, out)
  {}

  lemma HandleHistoryPush(
    handles: map<Key, Handle>, issued: set<Key>, closedAt: map<Key, nat>, stream: seq<Entry>, out: nat, e: Entry)
    requires HandleHistory(handles, issued, closedAt, stream, out) && !e.completion.result.Closed?
    requires e.completion.handle.Some? ==>
               e.completion.handle.value in handles && !handles[e.completion.handle.value].hidden
               && !handles[e.completion.handle.value].closedQueued && e.completion.handle.value in issued
    ensures HandleHistory(handles, issued, closedAt, stream + [e], out)
  {}

  lemma HandleHistoryClose(
    handles: map<Key, Handle>, issued: set<Key>, closedAt: map<Key, nat>, stream: seq<Entry>, out: nat, h: Key, r: Handle,
    token: Token)
    requires HandleHistory(handles, issued, closedAt, stream, out) && h in handles && h in issued && out <= |stream|
    requires !handles[h].closedQueued && !handles[h].hidden && r.closedQueued && !r.hidden
    ensures HandleHistory(handles[h := r], issued, closedAt[h := |stream|], stream + [ClosedEntry(h, token)], out)
  {}

  lemma HandleHistoryPop(handles: map<Key, Handle>, issued: set<Key>, closedAt: map<Key, nat>, stream: seq<Entry>, out: nat)
    requires HandleHistory(handles, issued, closedAt, stream, out) && out < |stream| && WellFormed(stream[out])
    ensures
      var c := stream[out].completion;
      HandleHistory(if c.result.Closed? then handles - {c.handle.value} else handles, issued, closedAt, stream, out + 1)
      && (c.result.Closed? ==> c.handle.value in handles && handles[c.handle.value].closedQueued)
  {}

  lemma BoundedPush(stream: seq<Entry>, out: nat, live: nat, closed: nat, cfg: Config, e: Entry)
    requires Bounded(stream, out, live, closed, cfg) && WellFormed(e)
    requires IsTerminal(e.completion) ==> live > 0
    requires EventClass(e.completion).Some? ==> Count(Class(EventClass(e.completion).value), stream, out) < cfg.eventsPerTurn
    ensures Bounded(stream + [e], out, live - One(IsTerminal(e.completion)), closed + One(e.completion.result.Closed?), cfg)
  {
    CountPush(Terminal, stream, out, e);
    CountPush(Class(NATIVE_EVENTS), stream, out, e);
    CountPush(Class(TIMER_EVENTS), stream, out, e);
    CountPush(Class(POST_EVENTS), stream, out, e);
    CountPush(Closing, stream, out, e);
  }

  lemma BoundedPop(stream: seq<Entry>, out: nat, live: nat, closed: nat, cfg: Config)
    requires Bounded(stream, out, live, closed, cfg) && out < |stream|
    ensures closed >= One(stream[out].completion.result.Closed?)
    ensures Bounded(stream, out + 1, live, closed - One(stream[out].completion.result.Closed?), cfg)
  {
    CountPop(Terminal, stream, out);
    CountPop(Class(NATIVE_EVENTS), stream, out);
    CountPop(Class(TIMER_EVENTS), stream, out);
    CountPop(Class(POST_EVENTS), stream, out);
    CountPop(Closing, stream, out);
  }

  // ------------------------------------------------------------------ steps

  lemma SizedPut(handles: map<Key, Handle>, free: nat, issued: set<Key>, cfg: Config, h: Key, r: Handle)
    requires Sized(handles, free, issued, cfg) && h !in issued && free > 0
    ensures Sized(handles[h := r], free - 1, issued + {h}, cfg)
  {
    MapPut(handles, h, r);
  }

  lemma SizedDrop(handles: map<Key, Handle>, free: nat, issued: set<Key>, cfg: Config, h: Key)
    requires Sized(handles, free, issued, cfg) && h in handles
    ensures Sized(handles - {h}, free + 1, issued, cfg) && Sized(handles - {h}, free, issued, cfg)
  {
    MapDrop(handles, h);
  }

  lemma SizedPatch(handles: map<Key, Handle>, free: nat, issued: set<Key>, cfg: Config, h: Key, r: Handle)
    requires Sized(handles, free, issued, cfg) && h in handles
    ensures Sized(handles[h := r], free, issued, cfg)
  {
    MapPatch(handles, h, r);
  }

  lemma Basics(m: Model)
    requires Inv(m)
    ensures m.handles.Keys <= m.issuedHandles && m.ops.Keys <= m.issuedOps && m.out <= |m.stream|
    ensures forall h :: h in m.handles ==> (h in m.closedAt <==> m.handles[h].closedQueued)
  {
    hide Shape, Credit, Housing;
  }

  /** A fresh handle outside every list takes one free slot. */
  lemma AddHandle(m: Model, h: Key, r: Handle)
    requires Inv(m) && Room(m) && h !in m.issuedHandles
    requires r == NewHandle(r.kind) && r.kind != Timer(Some(0))
    ensures Inv(PutHandle(m, h, r)) && Extends(m, PutHandle(m, h, r))
  {
    hide Size, HeldCount, ArmedCount, PortCount, ClosedCount;
    hide Shape, HandleHistory, OpHistory, Bounded, Credit, Sized;
    Basics(m);
    ShapePutHandle(m.handles, m.ops, m.timers, m.connects, h, r);
    SizedPut(m.handles, m.free, m.issuedHandles, m.cfg, h, r);
    ClosedChange(m.handles, m.handles[h := r], h);
    HandleHistoryPut(m.handles, m.issuedHandles, m.closedAt, m.stream, m.out, h, r);
  }

  /** An idle handle nothing queued mentions can go. */
  lemma RemoveHandle(m: Model, h: Key)
    requires Inv(m) && h in m.handles && m.handles[h].ops == [] && m.handles[h].closing.None?
    requires Unmentioned(m.stream, m.out, h)
    ensures Inv(DropHandle(m, h)) && Extends(m, DropHandle(m, h))
  {
    hide Size, HeldCount, ArmedCount, PortCount, ClosedCount;
    hide Shape, HandleHistory, OpHistory, Bounded, Credit, Sized, Exhausted, Unmentioned;
    Basics(m);
    assert WellKept(m.handles[h]);
    ShapeDropHandle(m.handles, m.ops, m.timers, m.connects, h);
    SizedDrop(m.handles, m.free, m.issuedHandles, m.cfg, h);
    ClosedChange(m.handles, m.handles - {h}, h);
    HandleHistoryDrop(m.handles, m.issuedHandles, m.closedAt, m.stream, m.out, h);
  }

  /** What a submission demands: a visible open handle served by the right source, the
      slot or credit its result will need, and room in the operation table. */
  predicate Admissible(m: Model, o: Op) {
    && o == Op(o.handle, o.token, false, false, false, o.fs, o.held, o.multishot, o.native, o.port)
    && (o.handle.Some? ==>
          && o.handle.value in m.handles
          && !m.handles[o.handle.value].hidden
          && m.handles[o.handle.value].closing.None?
          && !m.handles[o.handle.value].kind.Timer?)
    && OneSource(m.handles, o)
    && (o.held || o.multishot ==> Room(m))
    && (o.port ==> PortCount(m.ops) < m.cfg.maxUndelivered)
  }

  predicate CanSubmit(m: Model, o: Op) { Admissible(m, o) && Outstanding(m) < m.cfg.maxOperations }

  lemma PutOpHandles(m: Model, k: Key, o: Op)
    requires Inv(m) && k !in m.issuedOps && OneSource(m.handles, o) && !Hidden(m.handles, o) && !IsTimer(m.handles, o)
    requires o.handle.Some? ==> o.handle.value in m.handles && m.handles[o.handle.value].closing.None?
    ensures
      var handles, ops := WithOp(m.handles, o.handle, k), m.ops[k := o];
      && Shape(handles, ops, m.timers, m.connects) && Settled(handles)
      && Sized(handles, m.free, m.issuedHandles, m.cfg)
      && ClosedCount(handles) == ClosedCount(m.handles)
      && HandleHistory(handles, m.issuedHandles, m.closedAt, m.stream, m.out)
      && handles.Keys == m.handles.Keys
  {
    hide Size, HeldCount, ArmedCount, PortCount, ClosedCount;
    hide Shape, HandleHistory, OpHistory, Bounded, Credit, Sized, Housing;
    Basics(m);
    ShapePutOp(m.handles, m.ops, m.timers, m.connects, k, o);
    if o.handle.Some? {
      var h, r := o.handle.value, WithOp(m.handles, o.handle, k)[o.handle.value];
      assert WellKept(m.handles[h]);
      SizedPatch(m.handles, m.free, m.issuedHandles, m.cfg, h, r);
      ClosedChange(m.handles, m.handles[h := r], h);
      HandleHistoryPatch(m.handles, m.issuedHandles, m.closedAt, m.stream, m.out, h, r);
    }
  }

  lemma OpHistoryPut(live: set<Key>, issued: set<Key>, refused: set<Key>, ended: map<Key, nat>, stream: seq<Entry>, k: Key)
    requires OpHistory(live, issued, refused, ended, stream) && k !in issued
    ensures OpHistory(live + {k}, issued + {k}, refused, ended, stream)
  {}

  lemma CreditPut(ops: map<Key, Op>, inflight: set<Key>, ring: seq<Work>, limit: nat, k: Key, o: Op)
    requires Credit(ops, inflight, ring, limit) && k !in ops && (o.port ==> PortCount(ops) < limit)
    ensures Credit(ops[k := o], if o.port then inflight + {k} else inflight, ring, limit)
  {
    hide PortCount;
    OpsChange(ops, ops[k := o], k);
  }

  lemma PutOpRest(m: Model, k: Key, o: Op)
    requires Inv(m) && k !in m.issuedOps && Outstanding(m) < m.cfg.maxOperations
    requires (o.held || o.multishot ==> Room(m)) && !(o.held && o.multishot)
    requires o.port ==> PortCount(m.ops) < m.cfg.maxUndelivered
    ensures
      var m' := PutOp(m, k, o);
      && OpHistory(m'.ops.Keys, m'.issuedOps, m'.refused, m'.ended, m'.stream)
      && Bounded(m.stream, m.out, Size(m'.ops), ClosedCount(m.handles), m.cfg)
      && Housing(m'.ops, m'.promised, m'.free)
      && Credit(m'.ops, m'.inflight, m'.ring, m'.cfg.maxUndelivered)
  {
    hide Size, HeldCount, ArmedCount, PortCount, ClosedCount;
    hide Shape, HandleHistory, Settled, Sized, OpHistory, Credit;
    Basics(m);
    OpHistoryPut(m.ops.Keys, m.issuedOps, m.refused, m.ended, m.stream, k);
    CreditPut(m.ops, m.inflight, m.ring, m.cfg.maxUndelivered, k, o);
    MapPut(m.ops, k, o);
    OpsChange(m.ops, m.ops[k := o], k);
  }

  lemma Submit(m: Model, k: Key, o: Op)
    requires Inv(m) && k !in m.issuedOps && CanSubmit(m, o)
    ensures Inv(PutOp(m, k, o)) && Extends(m, PutOp(m, k, o))
  {
    hide Size, HeldCount, ArmedCount, PortCount, ClosedCount;
    hide Shape, HandleHistory, OpHistory, Bounded, Credit, Sized, Housing, Settled;
    Basics(m);
    PutOpHandles(m, k, o);
    PutOpRest(m, k, o);
  }

  lemma Arm(m: Model, h: Key, k: Key, token: Token, at: Instant)
    requires Inv(m) && k !in m.issuedOps && Outstanding(m) < m.cfg.maxOperations
    requires h in m.handles && m.handles[h].kind.Timer? && m.handles[h].ops == [] && m.handles[h].closing.None?
    ensures Inv(ArmTimer(m, h, k, token, at)) && Extends(m, ArmTimer(m, h, k, token, at))
  {
    hide Size, HeldCount, ArmedCount, PortCount, ClosedCount;
    hide Shape, HandleHistory, OpHistory, Bounded, Credit, Sized, Housing, Settled;
    Basics(m);
    ArmHandles(m, h, k, TimerOp(h, token), at);
    PutOpRest(m, k, TimerOp(h, token));
  }

  lemma ArmHandles(m: Model, h: Key, k: Key, o: Op, at: Instant)
    requires Inv(m) && k !in m.issuedOps && o == TimerOp(h, o.token)
    requires h in m.handles && m.handles[h].kind.Timer? && m.handles[h].ops == [] && m.handles[h].closing.None?
    ensures
      var handles, ops := WithOp(m.handles, o.handle, k), m.ops[k := o];
      && Shape(handles, ops, m.timers[h := at], m.connects) && Settled(handles)
      && Sized(handles, m.free, m.issuedHandles, m.cfg)
      && ClosedCount(handles) == ClosedCount(m.handles)
      && HandleHistory(handles, m.issuedHandles, m.closedAt, m.stream, m.out)
      && handles.Keys == m.handles.Keys
  {
    hide Size, HeldCount, ArmedCount, PortCount, ClosedCount;
    hide Shape, HandleHistory, OpHistory, Bounded, Credit, Sized, Housing;
    Basics(m);
    assert WellKept(m.handles[h]);
    ShapeArm(m.handles, m.ops, m.timers, m.connects, h, k, o, at);
    var r := WithOp(m.handles, o.handle, k)[h];
    SizedPatch(m.handles, m.free, m.issuedHandles, m.cfg, h, r);
    ClosedChange(m.handles, m.handles[h := r], h);
    HandleHistoryPatch(m.handles, m.issuedHandles, m.closedAt, m.stream, m.out, h, r);
  }

  lemma ShapeArm(
    handles: map<Key, Handle>, ops: map<Key, Op>, timers: map<Key, Instant>, connects: map<Key, Instant>, h: Key, k: Key, o: Op,
    at: Instant)
    requires Shape(handles, ops, timers, connects) && k !in ops && OneSource(handles, o)
    requires o.handle == Some(h) && h in handles && handles[h].kind.Timer? && !handles[h].hidden
    ensures Shape(WithOp(handles, Some(h), k), ops[k := o], timers[h := at], connects)
  {
    hide Lists;
    ListsPutOp(handles, ops, k, o);
    assert Sourced(handles, ops[k := o]);
    SourcedFrame(handles, WithOp(handles, o.handle, k), ops[k := o]);
  }

  lemma OpenHidden(m: Model, h: Key, kind: Kind, k: Key, o: Op)
    requires Inv(m) && Room(m) && h !in m.issuedHandles && k !in m.issuedOps && Outstanding(m) < m.cfg.maxOperations
    requires kind.Socket? || kind.File?
    requires o == Op(Some(h), o.token, false, false, false, true, false, false, kind.Socket?, kind.File?)
    requires o.port ==> PortCount(m.ops) < m.cfg.maxUndelivered
    ensures Inv(PutHidden(m, h, kind, k, o)) && Extends(m, PutHidden(m, h, kind, k, o))
  {
    hide Size, HeldCount, ArmedCount, PortCount, ClosedCount, Count;
    hide Shape, HandleHistory, OpHistory, Bounded, Credit, Sized, Settled;
    Basics(m);
    assert [] + [k] == [k];
    assert m.handles[h := NewHandle(kind).(hidden := true)][h := HiddenHandle(kind, k)] == m.handles[h := HiddenHandle(kind, k)];
    OpenHandles(m, h, kind, k, o);
    PutOpRest(m, k, o);
    OpsChange(m.ops, m.ops[k := o], k);
  }

  function HiddenHandle(kind: Kind, k: Key): Handle { NewHandle(kind).(hidden := true, ops := [k]) }

  lemma OpenHandles(m: Model, h: Key, kind: Kind, k: Key, o: Op)
    requires Inv(m) && Room(m) && h !in m.issuedHandles && k !in m.issuedOps && !kind.Timer?
    requires o == Op(Some(h), o.token, false, false, false, true, false, false, kind.Socket?, kind.File?)
    ensures
      var handles := m.handles[h := HiddenHandle(kind, k)];
      && Shape(handles, m.ops[k := o], m.timers, m.connects) && Settled(handles)
      && Sized(handles, m.free - 1, m.issuedHandles + {h}, m.cfg) && ClosedCount(handles) == ClosedCount(m.handles)
      && HandleHistory(handles, m.issuedHandles + {h}, m.closedAt, m.stream, m.out)
  {
    hide Size, HeldCount, ArmedCount, PortCount, ClosedCount, Count;
    hide Shape, HandleHistory, OpHistory, Bounded, Credit, Sized;
    var r0, r := NewHandle(kind).(hidden := true), HiddenHandle(kind, k);
    Basics(m);
    assert [] + [k] == [k] && m.handles[h := r0][h := r] == m.handles[h := r];
    ShapePutHandle(m.handles, m.ops, m.timers, m.connects, h, r0);
    ShapePutOp(m.handles[h := r0], m.ops, m.timers, m.connects, k, o);
    SizedPut(m.handles, m.free, m.issuedHandles, m.cfg, h, r);
    ClosedChange(m.handles, m.handles[h := r], h);
    HandleHistoryPut(m.handles, m.issuedHandles, m.closedAt, m.stream, m.out, h, r);
  }

  // ------------------------------------------------------- terminal results

  ghost predicate SettledBut(handles: map<Key, Handle>, h: Option<Key>) {
    forall x :: x in handles && Some(x) != h ==> WellKept(handles[x])
  }

  lemma ListedOp(m: Model, k: Key)
    requires Inv(m) && k in m.ops
    ensures Listed(k, m.ops[k].handle, m.handles)
    ensures m.ops[k].handle.Some? ==>
              var r := m.handles[m.ops[k].handle.value];
              |Without(r.ops, k)| == |r.ops| - 1 && !r.closedQueued && WellKept(r) && (r.kind.Timer? ==> r.ops == [k])
  {
    hide Size, HeldCount, ArmedCount, PortCount, ClosedCount, HandleHistory, OpHistory;
    hide Bounded, Credit, Sized, Housing, Sourced, Deadlines;
    assert Listed(k, m.ops[k].handle, m.handles);
    if m.ops[k].handle.Some? { assert WellKept(m.handles[m.ops[k].handle.value]); }
  }

  lemma UnlistShape(m: Model, k: Key)
    requires Inv(m) && k in m.ops
    ensures
      var m' := Unlist(m, k);
      Shape(m'.handles, m'.ops, m'.timers, m'.connects) && SettledBut(m'.handles, m.ops[k].handle)
  {
    hide Size, HeldCount, ArmedCount, PortCount, ClosedCount, Without;
    hide Shape, HandleHistory, OpHistory, Bounded, Credit, Sized, Housing;
    ListedOp(m, k);
    ShapeUnlist(m.handles, m.ops, m.timers, m.connects, k);
  }

  lemma UnlistHandles(m: Model, k: Key)
    requires Inv(m) && k in m.ops
    ensures
      var handles := WithoutOp(m.handles, m.ops[k].handle, k);
      && Sized(handles, m.free, m.issuedHandles, m.cfg)
      && ClosedCount(handles) == ClosedCount(m.handles)
      && HandleHistory(handles, m.issuedHandles, m.closedAt, m.stream, m.out)
      && handles.Keys == m.handles.Keys
  {
    hide Size, HeldCount, ArmedCount, PortCount, ClosedCount, Without;
    hide Shape, HandleHistory, OpHistory, Bounded, Credit, Sized, Housing, Settled;
    ListedOp(m, k);
    if m.ops[k].handle.Some? {
      var h := m.ops[k].handle.value;
      var r := m.handles[h].(ops := Without(m.handles[h].ops, k));
      SizedPatch(m.handles, m.free, m.issuedHandles, m.cfg, h, r);
      ClosedChange(m.handles, m.handles[h := r], h);
      HandleHistoryPatch(m.handles, m.issuedHandles, m.closedAt, m.stream, m.out, h, r);
    }
  }

  lemma UnlistRest(m: Model, k: Key)
    requires Inv(m) && k in m.ops
    ensures
      var m' := Unlist(m, k);
      && m'.ops.Keys == m.ops.Keys - {k} && Size(m'.ops) == Size(m.ops) - 1
      && Housing(m'.ops, m'.promised, m'.free)
      && PortCount(m'.ops) <= m.cfg.maxUndelivered
  {
    hide Size, HeldCount, ArmedCount, PortCount, ClosedCount, Without, WithoutOp;
    hide Shape, HandleHistory, OpHistory, Bounded, Sized, Settled;
    MapDrop(m.ops, k);
    OpsChange(m.ops, m.ops - {k}, k);
  }

  /** What `Settle` may assume of a handle that just lost an operation. */
  predicate Unsettled(r: Handle) {
    && !r.closedQueued
    && (r.hidden ==> r.closing.None? && r.referenced && !r.kind.Timer? && r.ops == [])
    && (r.kind.Timer? ==> |r.ops| <= 1 && r.kind.repeat != Some(0))
  }

  predicate Closes(r: Handle) { !r.hidden && r.ops == [] && r.closing.Some? }

  lemma SettleHandles(m: Model, h: Key, result: OpResult)
    requires Shape(m.handles, m.ops, m.timers, m.connects) && SettledBut(m.handles, Some(h))
    requires Sized(m.handles, m.free, m.issuedHandles, m.cfg)
    requires h in m.handles && Unsettled(m.handles[h])
    ensures
      var m' := Settle(m, h, result);
      && Shape(m'.handles, m.ops, m.timers, m.connects) && Settled(m'.handles)
      && Sized(m'.handles, m'.free, m.issuedHandles, m.cfg)
      && ClosedCount(m'.handles) == ClosedCount(m.handles) + One(Closes(m.handles[h]))
      && m'.free >= m.free && m'.handles.Keys <= m.handles.Keys
  {
    hide Size, ClosedCount, Shape, Sized, Exhausted, Settle;
    var r := m.handles[h];
    SettleIs(m, h, result);
    if r.hidden && !result.Opened? {
      ShapeDropHandle(m.handles, m.ops, m.timers, m.connects, h);
      SizedDrop(m.handles, m.free, m.issuedHandles, m.cfg, h);
      ClosedChange(m.handles, m.handles - {h}, h);
    } else {
      var r' := SettledHandle(r);
      ShapePatchHandle(m.handles, m.ops, m.timers, m.connects, h, r');
      SizedPatch(m.handles, m.free, m.issuedHandles, m.cfg, h, r');
      ClosedChange(m.handles, m.handles[h := r'], h);
    }
  }

  function SettledHandle(r: Handle): Handle { if r.hidden then r.(hidden := false) else r.(closedQueued := Closes(r)) }

  lemma SettleIs(m: Model, h: Key, result: OpResult)
    requires h in m.handles && Unsettled(m.handles[h])
    ensures
      var m' := Settle(m, h, result);
      if m.handles[h].hidden && !result.Opened? then m'.handles == m.handles - {h} && m'.free == m.free + One(!Exhausted(h))
      else m'.handles == m.handles[h := SettledHandle(m.handles[h])] && m'.free == m.free
  {
    hide Exhausted, ClosedEntry;
    if !m.handles[h].hidden && !Closes(m.handles[h]) { assert m.handles[h := m.handles[h]] == m.handles; }
  }

  lemma SettleHistory(m: Model, h: Key, e: Entry, result: OpResult, ended: map<Key, nat>)
    requires HandleHistory(m.handles, m.issuedHandles, m.closedAt, m.stream, m.out) && m.out <= |m.stream|
    requires h in m.handles && Unsettled(m.handles[h]) && h in m.issuedHandles && !e.completion.result.Closed?
    requires e.completion.handle == if m.handles[h].hidden && !result.Opened? then None else Some(h)
    ensures
      var m' := Settle(Push(m, e).(ended := ended), h, result);
      HandleHistory(m'.handles, m'.issuedHandles, m'.closedAt, m'.stream, m'.out)
  {
    hide HandleHistory, Exhausted, Settle;
    var r, stream := m.handles[h], m.stream + [e];
    SettleIs(Push(m, e).(ended := ended), h, result);
    SettleFrame(Push(m, e).(ended := ended), h, result);
    if r.hidden && !result.Opened? {
      HandleHistoryPush(m.handles, m.issuedHandles, m.closedAt, m.stream, m.out, e);
      HiddenUnmentioned(m, h);
      HandleHistoryDrop(m.handles, m.issuedHandles, m.closedAt, stream, m.out, h);
    } else if r.hidden {
      HandleHistoryPatch(m.handles, m.issuedHandles, m.closedAt, m.stream, m.out, h, r.(hidden := false));
      HandleHistoryPush(m.handles[h := r.(hidden := false)], m.issuedHandles, m.closedAt, m.stream, m.out, e);
    } else {
      HandleHistoryPush(m.handles, m.issuedHandles, m.closedAt, m.stream, m.out, e);
      if Closes(r) {
        HandleHistoryClose(m.handles, m.issuedHandles, m.closedAt, stream, m.out, h, r.(closedQueued := true), r.closing.value);
      } else {
        assert m.handles[h := SettledHandle(r)] == m.handles;
      }
    }
  }

  lemma HiddenUnmentioned(m: Model, h: Key)
    requires HandleHistory(m.handles, m.issuedHandles, m.closedAt, m.stream, m.out)
    requires h in m.handles && m.handles[h].hidden && !m.handles[h].closedQueued
    ensures Unmentioned(m.stream, m.out, h) && h !in m.closedAt
  {}

  lemma EndFacts(m: Model, k: Key, result: OpResult)
    requires Inv(m) && k in m.ops && OpOutcome(result)
    ensures
      var m', e := End(m, k, result), EndEntry(m, k, result);
      && OpHistory(m'.ops.Keys, m'.issuedOps, m'.refused, m'.ended, m'.stream)
      && Bounded(m'.stream, m'.out, Size(m'.ops), ClosedCount(m.handles), m'.cfg)
      && WellFormed(e) && !e.completion.result.Closed?
  {
    hide Size, HeldCount, ArmedCount, PortCount, ClosedCount, Count;
    hide Shape, HandleHistory, OpHistory, Bounded, Credit, Sized, Housing, Settled, WithoutOp;
    Basics(m);
    var e := EndEntry(m, k, result);
    UnlistRest(m, k);
    OpHistoryEnd(m.ops.Keys, m.issuedOps, m.refused, m.ended, m.stream, e, k);
    BoundedPush(m.stream, m.out, Size(m.ops), ClosedCount(m.handles), m.cfg, e);
  }

  lemma UnsettledOp(m: Model, k: Key)
    requires Inv(m) && k in m.ops && m.ops[k].handle.Some?
    ensures
      var h := m.ops[k].handle.value;
      && h in m.handles && h in m.issuedHandles && Unsettled(Unlist(m, k).handles[h])
      && Unlist(m, k).handles[h].hidden == m.handles[h].hidden
  {
    hide Size, HeldCount, ArmedCount, PortCount, ClosedCount, Without;
    hide Shape, HandleHistory, OpHistory, Bounded, Credit, Sized, Housing, Settled;
    Basics(m);
    ListedOp(m, k);
    assert m.ops[k].handle.value in m.handles.Keys;
  }

  /** Everything but the ring's credit survives the end of an operation. */
  lemma FinishCore(m: Model, k: Key, result: OpResult)
    requires Inv(m) && k in m.ops && OpOutcome(result)
    ensures InvCore(Finish(m, k, result))
  {
    hide Size, HeldCount, ArmedCount, PortCount, ClosedCount, Count, Without, WithoutOp, Exhausted;
    hide Shape, HandleHistory, OpHistory, Bounded, Credit, Sized, Settled, SettledBut, Unsettled, Settle;
    Basics(m);
    var o, e, m0, m1 := m.ops[k], EndEntry(m, k, result), Unlist(m, k), End(m, k, result);
    UnlistShape(m, k);
    UnlistHandles(m, k);
    UnlistRest(m, k);
    EndFacts(m, k, result);
    if o.handle.Some? {
      var h := o.handle.value;
      UnsettledOp(m, k);
      SettleHandles(m1, h, result);
      SettleHistory(m0, h, e, result, m1.ended);
      SettleQueue(m1, h, result);
      SettleFrame(m1, h, result);
    } else {
      NoneSettled(m0.handles);
      HandleHistoryPush(m0.handles, m0.issuedHandles, m0.closedAt, m0.stream, m0.out, e);
    }
  }

  lemma SettleQueue(m: Model, h: Key, result: OpResult)
    requires h in m.handles && Unsettled(m.handles[h])
    requires OpHistory(m.ops.Keys, m.issuedOps, m.refused, m.ended, m.stream)
    requires Bounded(m.stream, m.out, Size(m.ops), ClosedCount(m.handles), m.cfg)
    ensures
      var m' := Settle(m, h, result);
      && OpHistory(m.ops.Keys, m.issuedOps, m.refused, m.ended, m'.stream)
      && Bounded(m'.stream, m.out, Size(m.ops), ClosedCount(m.handles) + One(Closes(m.handles[h])), m.cfg)
  {
    hide Size, ClosedCount, OpHistory, Bounded, Settle;
    SettleFrame(m, h, result);
    if Closes(m.handles[h]) {
      var c := ClosedEntry(h, m.handles[h].closing.value);
      OpHistoryPush(m.ops.Keys, m.issuedOps, m.refused, m.ended, m.stream, c);
      BoundedPush(m.stream, m.out, Size(m.ops), ClosedCount(m.handles), m.cfg, c);
    }
  }

  lemma SettleFrame(m: Model, h: Key, result: OpResult)
    requires h in m.handles && Unsettled(m.handles[h])
    ensures
      var r, m' := m.handles[h], Settle(m, h, result);
      && m'.stream == (if Closes(r) then m.stream + [ClosedEntry(h, r.closing.value)] else m.stream)
      && m'.closedAt == (if Closes(r) then m.closedAt[h := |m.stream|] else m.closedAt)
      && m'.ops == m.ops && m'.issuedOps == m.issuedOps && m'.refused == m.refused && m'.ended == m.ended
      && m'.out == m.out && m'.cfg == m.cfg && m'.promised == m.promised && m'.issuedHandles == m.issuedHandles
      && m'.timers == m.timers && m'.connects == m.connects
  {
    hide Exhausted, ClosedEntry;
  }

  lemma NoneSettled(handles: map<Key, Handle>)
    requires SettledBut(handles, None)
    ensures Settled(handles)
  {}

  lemma EndExtends(m: Model, k: Key, result: OpResult)
    requires Inv(m) && k in m.ops
    ensures Extends(m, End(m, k, result))
  {
    hide Size, HeldCount, ArmedCount, PortCount, ClosedCount, Count, Without;
    hide Shape, HandleHistory, OpHistory, Bounded, Credit, Sized, Settled, Housing;
    ListedOp(m, k);
  }

  lemma SettleExtends(m: Model, h: Key, result: OpResult)
    requires h in m.handles
    ensures Extends(m, Settle(m, h, result))
  {
    hide Exhausted, Extends;
    if m.handles[h].hidden { SameStream(m, Settle(m, h, result)); } else { ClosedExtends(m, h); }
  }

  lemma SameStream(m: Model, m': Model)
    requires m'.cfg == m.cfg && m'.stream == m.stream && m'.out == m.out && m'.issuedHandles == m.issuedHandles
    requires m'.issuedOps == m.issuedOps
    requires m'.handles.Keys <= m.handles.Keys && m'.ops == m.ops
    ensures Extends(m, m')
  {}

  lemma ClosedExtends(m: Model, h: Key)
    requires h in m.handles
    ensures Extends(m, MaybeClosed(m, h))
  {}

  lemma FinishExtends(m: Model, k: Key, result: OpResult)
    requires Inv(m) && k in m.ops
    ensures Extends(m, Finish(m, k, result))
    ensures Finish(m, k, result) == Finish(m, k, result).(ops := m.ops - {k}, inflight := m.inflight - {k}, ring := m.ring, cfg := m.cfg)
  {
    hide Inv, Extends, Exhausted, Without, WithoutOp, ArmedCount, EndEntry;
    EndExtends(m, k, result);
    var o, m1 := m.ops[k], End(m, k, result);
    if o.handle.Some? && o.handle.value in m1.handles {
      SettleExtends(m1, o.handle.value, result);
      ExtendsTrans(m, m1, Finish(m, k, result));
    }
  }

  /** The backend, or the loop itself, ends an operation. */
  lemma FinishOp(m: Model, k: Key, result: OpResult)
    requires Inv(m) && k in m.ops && OpOutcome(result) && !m.ops[k].port
    ensures Inv(Finish(m, k, result)) && Extends(m, Finish(m, k, result))
  {
    hide InvCore, Extends, Finish, PortCount;
    FinishCore(m, k, result);
    FinishExtends(m, k, result);
    OpsChange(m.ops, m.ops - {k}, k);
  }

  /** The loop takes a result from the ring and ends its operation. */
  lemma CollectWork(m: Model, i: nat, result: OpResult)
    requires Inv(m) && i < |m.ring| && OpOutcome(result)
    ensures m.ring[i].op in m.ops
    ensures Inv(Collect(m, i, result)) && Extends(m, Collect(m, i, result))
  {
    hide InvCore, Extends, Finish, PortCount, Credit;
    var k := m.ring[i].op;
    CreditTake(m.ops, m.inflight, m.ring, m.cfg.maxUndelivered, i);
    FinishCore(m, k, result);
    FinishExtends(m, k, result);
    SameCore(Finish(m, k, result), Collect(m, i, result));
    SameExtends(m, Finish(m, k, result), Collect(m, i, result));
  }

  lemma CreditTake(ops: map<Key, Op>, inflight: set<Key>, ring: seq<Work>, limit: nat, i: nat)
    requires Credit(ops, inflight, ring, limit) && i < |ring|
    ensures ring[i].op in ops
    ensures Credit(ops - {ring[i].op}, inflight - {ring[i].op}, ring[..i] + ring[i + 1..], limit)
  {
    hide PortCount;
    var k, rest := ring[i].op, ring[..i] + ring[i + 1..];
    assert k in RingOps(ring);
    forall x ensures x in RingOps(rest) <==> x in RingOps(ring) && x != k {
      if x in RingOps(ring) && x != k {
        var j :| 0 <= j < |ring| && ring[j].op == x;
        assert rest[if j < i then j else j - 1].op == x;
      }
      if x in RingOps(rest) {
        var j :| 0 <= j < |rest| && rest[j].op == x;
        assert ring[if j < i then j else j + 1].op == x;
      }
    }
    OpsChange(ops, ops - {k}, k);
  }

  lemma SameCore(m: Model, m': Model)
    requires InvCore(m) && m' == m.(ring := m'.ring)
    ensures InvCore(m')
  {
    hide Size, HeldCount, ArmedCount, PortCount, ClosedCount, Count;
    hide Shape, HandleHistory, OpHistory, Bounded, Sized, Settled, Housing;
  }

  lemma SameExtends(m: Model, m1: Model, m': Model)
    requires Extends(m, m1) && m' == m1.(ring := m'.ring)
    ensures Extends(m, m')
  {}

  // ----------------------------------------------------- nonterminal results

  lemma EmitEvent(m: Model, k: Key, result: OpResult)
    requires Inv(m) && k in m.ops && OpOutcome(result) && !Hidden(m.handles, m.ops[k])
    requires Count(Class(if result.Fired? then TIMER_EVENTS else NATIVE_EVENTS), m.stream, m.out) < m.cfg.eventsPerTurn
    ensures Inv(Emit(m, k, result)) && Extends(m, Emit(m, k, result))
  {
    hide Size, HeldCount, ArmedCount, PortCount, ClosedCount, Count, Without;
    hide Shape, HandleHistory, OpHistory, Bounded, Credit, Sized, Settled, Housing;
    Basics(m);
    ListedOp(m, k);
    var e := Emit(m, k, result).stream[|m.stream|];
    if m.ops[k].handle.Some? { assert m.ops[k].handle.value in m.handles.Keys; }
    OpHistoryPush(m.ops.Keys, m.issuedOps, m.refused, m.ended, m.stream, e);
    HandleHistoryPush(m.handles, m.issuedHandles, m.closedAt, m.stream, m.out, e);
    BoundedPush(m.stream, m.out, Size(m.ops), ClosedCount(m.handles), m.cfg, e);
  }

  lemma PostEvent(m: Model, token: Token, payload: nat)
    requires Inv(m) && Count(Class(POST_EVENTS), m.stream, m.out) < m.cfg.eventsPerTurn
    ensures Inv(Post(m, token, payload)) && Extends(m, Post(m, token, payload))
  {
    hide Size, HeldCount, ArmedCount, PortCount, ClosedCount, Count, Without;
    hide Shape, HandleHistory, OpHistory, Bounded, Credit, Sized, Settled, Housing;
    Basics(m);
    var e := Entry(Completion(token, None, None, true, Posted(payload)), false);
    OpHistoryPush(m.ops.Keys, m.issuedOps, m.refused, m.ended, m.stream, e);
    HandleHistoryPush(m.handles, m.issuedHandles, m.closedAt, m.stream, m.out, e);
    BoundedPush(m.stream, m.out, Size(m.ops), ClosedCount(m.handles), m.cfg, e);
  }

  // ---------------------------------------------------- reservations, flags

  /** A refused submission costs its key and, for a multishot accept, may fill the pool. */
  lemma RejectOp(m: Model, k: Key, kept: bool)
    requires Inv(m) && k !in m.issuedOps && (kept ==> Room(m) && m.promised < ArmedCount(m.ops))
    ensures Inv(Reject(m, k, kept)) && Extends(m, Reject(m, k, kept))
  {
    hide Size, HeldCount, ArmedCount, PortCount, ClosedCount, Count;
    hide Shape, HandleHistory, OpHistory, Bounded, Credit, Sized, Settled;
    Basics(m);
    OpHistoryRefuse(m.ops.Keys, m.issuedOps, m.refused, m.ended, m.stream, k);
  }

  lemma OpHistoryRefuse(live: set<Key>, issued: set<Key>, refused: set<Key>, ended: map<Key, nat>, stream: seq<Entry>, k: Key)
    requires OpHistory(live, issued, refused, ended, stream) && k !in issued
    ensures OpHistory(live, issued + {k}, refused + {k}, ended, stream)
  {}

  /** Changing the flags of an operation that keeps its source and its handle. */
  lemma PatchOp(m: Model, k: Key, o: Op, connects: map<Key, Instant>, promised: nat)
    requires Inv(m) && k in m.ops && OneSource(m.handles, o)
    requires o == m.ops[k].(cancel := o.cancel, stop := o.stop, timedOut := o.timedOut, held := o.held)
    requires (o.held ==> m.ops[k].held) && promised <= m.promised
    requires (connects == m.connects && (k in connects ==> !o.cancel)) || connects == m.connects - {k}
    ensures
      var m' := m.(ops := m.ops[k := o], connects := connects, promised := promised);
      Inv(m') && Extends(m, m') && Reserved(m') == Reserved(m) - One(m.ops[k].held && !o.held) - (m.promised - promised)
  {
    hide Size, HeldCount, ArmedCount, PortCount, ClosedCount, Count;
    hide Shape, HandleHistory, OpHistory, Bounded, Credit, Sized, Settled;
    Basics(m);
    ShapeFlags(m.handles, m.ops, m.timers, m.connects, k, o, connects);
    MapPatch(m.ops, k, o);
    OpsChange(m.ops, m.ops[k := o], k);
    CreditPatch(m.ops, m.inflight, m.ring, m.cfg.maxUndelivered, k, o);
  }

  lemma ShapeFlags(
    handles: map<Key, Handle>, ops: map<Key, Op>, timers: map<Key, Instant>, connects: map<Key, Instant>, k: Key, o: Op,
    connects': map<Key, Instant>)
    requires Shape(handles, ops, timers, connects) && k in ops && OneSource(handles, o)
    requires o.handle == ops[k].handle && o.native == ops[k].native && o.fs == ops[k].fs
    requires (connects' == connects && (k in connects ==> !o.cancel)) || connects' == connects - {k}
    ensures Shape(handles, ops[k := o], timers, connects')
  {}

  lemma CreditPatch(ops: map<Key, Op>, inflight: set<Key>, ring: seq<Work>, limit: nat, k: Key, o: Op)
    requires Credit(ops, inflight, ring, limit) && k in ops && o.port == ops[k].port
    ensures Credit(ops[k := o], inflight, ring, limit)
  {
    hide PortCount;
    OpsChange(ops, ops[k := o], k);
  }

  lemma SourceAt(m: Model, k: Key)
    requires Inv(m) && k in m.ops
    ensures OneSource(m.handles, m.ops[k]) && (Hidden(m.handles, m.ops[k]) ==> m.ops[k].fs)
    ensures Listed(k, m.ops[k].handle, m.handles)
  {
    hide Size, HeldCount, ArmedCount, PortCount, ClosedCount, Count;
    hide HandleHistory, OpHistory, Bounded, Credit, Sized, Settled, Deadlines;
  }

  /** The host cancels or stops an operation another party must acknowledge. */
  lemma CancelOp(m: Model, k: Key, stop: bool)
    requires Inv(m) && k in m.ops && !m.ops[k].cancel && !IsTimer(m.handles, m.ops[k])
    ensures Inv(MarkCancel(m, k, stop)) && Extends(m, MarkCancel(m, k, stop))
  {
    hide Inv, Extends;
    SourceAt(m, k);
    PatchOp(m, k, m.ops[k].(cancel := true, stop := stop), m.connects - {k}, m.promised);
  }

  /** A connect deadline passes: cancelled, and to be reported as timed out. */
  lemma ExpireOp(m: Model, k: Key)
    requires Inv(m) && k in m.connects
    ensures k in m.ops && !m.ops[k].cancel
    ensures Inv(Expire(m, k)) && Extends(m, Expire(m, k))
  {
    hide Inv, Extends;
    ConnectAt(m, k);
    SourceAt(m, k);
    PatchOp(m, k, m.ops[k].(cancel := true, timedOut := true), m.connects - {k}, m.promised);
  }

  lemma ConnectAt(m: Model, k: Key)
    requires Inv(m) && k in m.connects
    ensures k in m.ops && !m.ops[k].cancel && m.ops[k].native && !m.ops[k].stop
  {
    hide Size, HeldCount, ArmedCount, PortCount, ClosedCount, Count;
    hide HandleHistory, OpHistory, Bounded, Credit, Sized, Settled, Lists;
  }

  /** Releasing the reservation first is what makes it real: with it gone, the
      connection takes a slot no other promise covers. */
  lemma HouseConn(m: Model, k: Key, conn: Key, taken: bool)
    requires Inv(m) && k in m.ops && conn !in m.issuedHandles
    ensures Inv(House(m, k, conn, taken)) && Extends(m, House(m, k, conn, taken))
  {
    hide Inv, Extends, Release, Place, Refill;
    var m1 := Release(m, k);
    var m2 := Place(m1, conn, taken);
    ReleaseSlot(m, k);
    PlaceConn(m1, conn, taken);
    ExtendsTrans(m, m1, m2);
    RefillPool(m2);
    ExtendsTrans(m, m2, Refill(m2));
  }

  lemma PlaceConn(m: Model, conn: Key, taken: bool)
    requires Inv(m) && conn !in m.issuedHandles
    ensures Inv(Place(m, conn, taken)) && Extends(m, Place(m, conn, taken))
  {
    hide Inv, Extends, Room, Exhausted;
    if Room(m) {
      var m' := PutHandle(m, conn, NewHandle(Socket));
      AddHandle(m, conn, NewHandle(Socket));
      if !taken {
        FreshUnmentioned(m, conn);
        RemoveHandle(m', conn);
        ExtendsTrans(m, m', Place(m, conn, taken));
      }
    } else {
      Still(m);
    }
  }

  lemma Still(m: Model)
    requires Inv(m)
    ensures Extends(m, m)
  {
    hide Shape, OpHistory, HandleHistory, Bounded, Credit, Housing;
  }

  lemma ReleaseSlot(m: Model, k: Key)
    requires Inv(m) && k in m.ops
    ensures Inv(Release(m, k)) && Extends(m, Release(m, k))
    ensures Reserved(Release(m, k)) == Reserved(m) - (if m.ops[k].multishot then One(m.promised > 0) else One(m.ops[k].held))
    ensures Release(m, k) == m.(ops := Release(m, k).ops, promised := Release(m, k).promised)
  {
    hide Inv, Extends, HeldCount;
    SourceAt(m, k);
    if m.ops[k].multishot {
      PatchOp(m, k, m.ops[k], m.connects, if m.promised == 0 then 0 else m.promised - 1) by { ConnectLive(m, k); }
      assert m.ops[k := m.ops[k]] == m.ops;
    } else {
      PatchOp(m, k, m.ops[k].(held := false), m.connects, m.promised) by { ConnectLive(m, k); }
    }
  }

  lemma ConnectLive(m: Model, k: Key)
    requires Inv(m) && k in m.ops
    ensures k in m.connects ==> !m.ops[k].cancel
  {
    if k in m.connects { ConnectAt(m, k); }
  }

  lemma FreshUnmentioned(m: Model, h: Key)
    requires Inv(m) && h !in m.issuedHandles
    ensures Unmentioned(m.stream, m.out, h)
  {
    hide Size, HeldCount, ArmedCount, PortCount, ClosedCount, Count;
    hide Shape, OpHistory, Bounded, Credit, Settled;
  }

  lemma RefillPool(m: Model)
    requires Inv(m)
    ensures Inv(Refill(m)) && Extends(m, Refill(m))
  {
    hide Size, HeldCount, ArmedCount, PortCount, ClosedCount, Count;
    hide Shape, HandleHistory, OpHistory, Bounded, Credit, Sized, Settled;
    Basics(m);
  }

  lemma SetDeadline(m: Model, k: Key, at: Instant)
    requires Inv(m) && k in m.ops && m.ops[k].native && !m.ops[k].cancel && m.ops[k].handle.Some?
    ensures var m' := m.(connects := m.connects[k := at]); Inv(m') && Extends(m, m')
  {
    hide Size, HeldCount, ArmedCount, PortCount, ClosedCount, Count;
    hide HandleHistory, OpHistory, Bounded, Credit, Sized, Settled, Lists, Sourced;
    Basics(m);
  }

  lemma ResetTimer(m: Model, h: Key, at: Instant)
    requires Inv(m) && h in m.timers
    ensures var m' := m.(timers := m.timers[h := at]); Inv(m') && Extends(m, m')
  {
    hide Size, HeldCount, ArmedCount, PortCount, ClosedCount, Count;
    hide HandleHistory, OpHistory, Bounded, Credit, Sized, Settled, Lists, Sourced;
    Basics(m);
  }

  /** An armed timer is a visible handle with exactly one operation, which is nobody else's. */
  lemma PortHere(m: Model, i: nat)
    requires Inv(m) && i < |m.ring|
    ensures m.ring[i].op in m.ops && m.ops[m.ring[i].op].port
  {
    hide InvCore;
    assert m.ring[i].op in RingOps(m.ring);
  }

  lemma TimerAt(m: Model, h: Key)
    requires Inv(m) && h in m.timers
    ensures h in m.handles && m.handles[h].kind.Timer? && |m.handles[h].ops| == 1 && !m.handles[h].hidden
    ensures
      var k := m.handles[h].ops[0];
      k in m.ops && m.ops[k].handle == Some(h) && !m.ops[k].port && !m.ops[k].native && !m.ops[k].cancel && !Hidden(m.handles, m.ops[k])
  {
    hide Size, HeldCount, ArmedCount, PortCount, ClosedCount, Count;
    hide HandleHistory, OpHistory, Bounded, Credit, Sized;
    assert WellKept(m.handles[h]) && ListOf(h, m.handles[h].ops, m.ops);
    assert OneSource(m.handles, m.ops[m.handles[h].ops[0]]);
  }

  lemma RepeatTimer(m: Model, h: Key, at: Instant)
    requires Inv(m) && h in m.timers && Count(Class(TIMER_EVENTS), m.stream, m.out) < m.cfg.eventsPerTurn
    ensures h in m.handles && m.handles[h].ops != [] && m.handles[h].ops[0] in m.ops
    ensures var m' := Repeat(m, h, m.handles[h].ops[0], at); Inv(m') && Extends(m, m')
  {
    hide Inv, Extends, Count;
    TimerAt(m, h);
    var k := m.handles[h].ops[0];
    EmitEvent(m, k, Fired);
    ResetTimer(Emit(m, k, Fired), h, at);
    ExtendsTrans(m, Emit(m, k, Fired), Repeat(m, h, k, at));
  }

  /** A worker publishes: the result moves from in flight to the ring. */
  lemma PublishWork(m: Model, k: Key, result: OpResult)
    requires Inv(m) && k in m.inflight
    ensures Inv(Publish(m, k, result)) && Extends(m, Publish(m, k, result))
  {
    hide Size, HeldCount, ArmedCount, PortCount, ClosedCount, Count;
    hide Shape, HandleHistory, OpHistory, Bounded, Sized, Settled, Housing, Credit;
    Basics(m);
    CreditPublish(m.ops, m.inflight, m.ring, m.cfg.maxUndelivered, k, result);
  }

  lemma CreditPublish(ops: map<Key, Op>, inflight: set<Key>, ring: seq<Work>, limit: nat, k: Key, result: OpResult)
    requires Credit(ops, inflight, ring, limit) && k in inflight
    ensures Credit(ops, inflight - {k}, ring + [Work(k, result)], limit)
  {
    hide PortCount;
    var ring' := ring + [Work(k, result)];
    forall x ensures x in RingOps(ring') <==> x in RingOps(ring) || x == k {
      if x in RingOps(ring) { var j :| 0 <= j < |ring| && ring[j].op == x; assert ring'[j].op == x; }
      assert ring'[|ring|].op == k;
    }
    forall i | 0 <= i < |ring| ensures ring[i].op != k { assert ring[i].op in RingOps(ring); }
  }

  // ------------------------------------------------ delivery, close, references

  /** The host takes the oldest completion; a delivered `Closed` frees its handle. */
  lemma DeliverNext(m: Model)
    requires Inv(m) && m.out < |m.stream|
    ensures Inv(Deliver(m)) && Extends(m, Deliver(m))
  {
    hide Size, HeldCount, ArmedCount, PortCount, ClosedCount, Count, Exhausted;
    hide Shape, HandleHistory, OpHistory, Bounded, Credit, Sized;
    Basics(m);
    FrontShape(m);
    HandleHistoryPop(m.handles, m.issuedHandles, m.closedAt, m.stream, m.out);
    BoundedPop(m.stream, m.out, Size(m.ops), ClosedCount(m.handles), m.cfg);
    var c := m.stream[m.out].completion;
    if c.result.Closed? {
      var h := c.handle.value;
      assert WellKept(m.handles[h]);
      ShapeDropHandle(m.handles, m.ops, m.timers, m.connects, h);
      SizedDrop(m.handles, m.free, m.issuedHandles, m.cfg, h);
      ClosedChange(m.handles, m.handles - {h}, h);
    }
  }

  lemma FrontShape(m: Model)
    requires Inv(m) && m.out < |m.stream|
    ensures WellFormed(m.stream[m.out])
  {
    hide Size, HeldCount, ArmedCount, PortCount, ClosedCount, Count;
    hide Shape, HandleHistory, OpHistory, Credit, Sized, Settled;
  }

  lemma StartClose(m: Model, h: Key, token: Token)
    requires Inv(m) && h in m.handles && !m.handles[h].hidden && m.handles[h].closing.None?
    ensures Inv(BeginClose(m, h, token)) && Extends(m, BeginClose(m, h, token))
  {
    hide Size, HeldCount, ArmedCount, PortCount, ClosedCount, Count;
    hide Shape, HandleHistory, OpHistory, Bounded, Credit, Sized, Settled;
    Basics(m);
    var r0, e := m.handles[h], ClosedEntry(h, token);
    KeptAt(m, h);
    var r := r0.(closing := Some(token), closedQueued := r0.ops == []);
    StartCloseHandles(m, h, r, token);
    assert BeginClose(m, h, token).handles == m.handles[h := r];
    if r0.ops == [] {
      OpHistoryPush(m.ops.Keys, m.issuedOps, m.refused, m.ended, m.stream, e);
      BoundedPush(m.stream, m.out, Size(m.ops), ClosedCount(m.handles), m.cfg, e);
    }
  }

  lemma KeptAt(m: Model, h: Key)
    requires Inv(m) && h in m.handles
    ensures WellKept(m.handles[h]) && ListOf(h, m.handles[h].ops, m.ops)
  {
    hide Size, HeldCount, ArmedCount, PortCount, ClosedCount, Count;
    hide HandleHistory, OpHistory, Bounded, Credit, Sized, Sourced, Deadlines;
  }

  lemma StartCloseHandles(m: Model, h: Key, r: Handle, token: Token)
    requires Inv(m) && h in m.handles && !m.handles[h].hidden && m.handles[h].closing.None?
    requires r == m.handles[h].(closing := Some(token), closedQueued := m.handles[h].ops == [])
    ensures
      var handles := m.handles[h := r];
      && Shape(handles, m.ops, m.timers, m.connects) && Settled(handles) && Sized(handles, m.free, m.issuedHandles, m.cfg)
      && ClosedCount(handles) == ClosedCount(m.handles) + One(r.closedQueued)
      && if r.closedQueued then
           HandleHistory(handles, m.issuedHandles, m.closedAt[h := |m.stream|], m.stream + [ClosedEntry(h, token)], m.out)
         else HandleHistory(handles, m.issuedHandles, m.closedAt, m.stream, m.out)
  {
    hide Size, HeldCount, ArmedCount, PortCount, ClosedCount, Count;
    hide Shape, HandleHistory, OpHistory, Bounded, Credit, Sized, Housing;
    Basics(m);
    assert WellKept(m.handles[h]) && h in m.handles.Keys;
    ShapePatchHandle(m.handles, m.ops, m.timers, m.connects, h, r);
    SizedPatch(m.handles, m.free, m.issuedHandles, m.cfg, h, r);
    ClosedChange(m.handles, m.handles[h := r], h);
    if r.closedQueued {
      HandleHistoryClose(m.handles, m.issuedHandles, m.closedAt, m.stream, m.out, h, r, token);
    } else {
      HandleHistoryPatch(m.handles, m.issuedHandles, m.closedAt, m.stream, m.out, h, r);
    }
  }

  /** Two streams that differ at most in what keeps the loop alive. */
  ghost predicate SameCompletions(s: seq<Entry>, t: seq<Entry>) {
    |s| == |t| && forall i :: 0 <= i < |s| ==> s[i].completion == t[i].completion
  }

  lemma {:induction false} CountSame(sort: Sort, s: seq<Entry>, t: seq<Entry>, out: nat)
    requires SameCompletions(s, t) && !sort.Referenced?
    ensures Count(sort, s, out) == Count(sort, t, out)
  {
    if out < |s| {
      CountSame(sort, s[..|s| - 1], t[..|t| - 1], out);
    }
  }

  lemma HistorySame(m: Model, t: seq<Entry>)
    requires OpHistory(m.ops.Keys, m.issuedOps, m.refused, m.ended, m.stream)
    requires HandleHistory(m.handles, m.issuedHandles, m.closedAt, m.stream, m.out)
    requires SameCompletions(m.stream, t)
    ensures OpHistory(m.ops.Keys, m.issuedOps, m.refused, m.ended, t)
    ensures HandleHistory(m.handles, m.issuedHandles, m.closedAt, t, m.out)
  {}

  lemma BoundedSame(stream: seq<Entry>, out: nat, live: nat, closed: nat, cfg: Config, t: seq<Entry>)
    requires Bounded(stream, out, live, closed, cfg) && SameCompletions(stream, t)
    requires forall i :: 0 <= i < |t| ==> WellFormed(t[i])
    ensures Bounded(t, out, live, closed, cfg)
  {
    CountSame(Terminal, stream, t, out);
    CountSame(Class(NATIVE_EVENTS), stream, t, out);
    CountSame(Class(TIMER_EVENTS), stream, t, out);
    CountSame(Class(POST_EVENTS), stream, t, out);
    CountSame(Closing, stream, t, out);
  }

  lemma SetReference(m: Model, h: Key, referenced: bool)
    requires Inv(m) && h in m.handles && !m.handles[h].hidden
    ensures Inv(SetRef(m, h, referenced)) && Extends(m, SetRef(m, h, referenced))
  {
    hide Size, HeldCount, ArmedCount, PortCount, ClosedCount, Count;
    hide Shape, HandleHistory, OpHistory, Bounded, Credit, Sized;
    if m.handles[h].referenced != referenced {
      Basics(m);
      var t, r := SetRef(m, h, referenced).stream, m.handles[h].(referenced := referenced);
      assert WellKept(m.handles[h]);
      SetRefStream(m, h, referenced);
      HistorySame(m, t);
      BoundedSame(m.stream, m.out, Size(m.ops), ClosedCount(m.handles), m.cfg, t);
      ShapePatchHandle(m.handles, m.ops, m.timers, m.connects, h, r);
      SizedPatch(m.handles, m.free, m.issuedHandles, m.cfg, h, r);
      ClosedChange(m.handles, m.handles[h := r], h);
      HandleHistoryPatch(m.handles, m.issuedHandles, m.closedAt, t, m.out, h, r);
    }
  }

  lemma SetRefStream(m: Model, h: Key, referenced: bool)
    requires Inv(m) && h in m.handles
    ensures
      var t := SetRef(m, h, referenced).stream;
      SameCompletions(m.stream, t) && forall i :: 0 <= i < |t| ==> WellFormed(t[i])
  {
    hide Size, HeldCount, ArmedCount, PortCount, ClosedCount, Count;
    hide Shape, HandleHistory, OpHistory, Credit, Sized, Settled;
  }
}
