/** What the loop promises its host, over every run. */
module LoopTheorems {
  import opened Types
  import opened LoopModel
  import opened LoopSteps
  import opened LoopRuns

  ghost function Reached(cfg: Config, trace: seq<Step>): Model { After(Init(cfg), trace) }

  lemma ReachedMore(cfg: Config, trace: seq<Step>, step: Step)
    ensures Reached(cfg, trace + [step]) == Apply(Reached(cfg, trace), step)
  {
    hide Apply;
    assert (trace + [step])[..|trace|] == trace;
    assert AfterLast(Init(cfg), trace + [step]) == Apply(Reached(cfg, trace), step);
  }

  lemma ReachedInv(cfg: Config, trace: seq<Step>)
    ensures Inv(Reached(cfg, trace)) && Reached(cfg, trace).cfg == cfg
  {
    hide Inv;
    InitInv(cfg);
    RunSafe(Init(cfg), trace);
  }

  predicate Ends(e: Entry, k: Key) { e.completion.op == Some(k) && e.completion.terminal }

  /** An operation the loop accepted is live, or has had exactly one terminal completion
      and nothing after it; a refused one never completes. */
  lemma ExactlyOnce(cfg: Config, trace: seq<Step>, k: Key)
    ensures
      var m := Reached(cfg, trace);
      && (k in m.issuedOps ==> One(k in m.ops) + One(k in m.refused) + One(k in m.ended) == 1)
      && (forall i, j :: 0 <= i < j < |m.stream| && Ends(m.stream[i], k) ==> m.stream[j].completion.op != Some(k))
      && ((exists i :: 0 <= i < |m.stream| && Ends(m.stream[i], k)) <==> k in m.ended)
      && (k in m.refused ==> forall i :: 0 <= i < |m.stream| ==> m.stream[i].completion.op != Some(k))
  {
    var m := Reached(cfg, trace);
    assert OpHistory(m.ops.Keys, m.issuedOps, m.refused, m.ended, m.stream) by { ReachedInv(cfg, trace); }
    hide Reached;
    if k in m.ended { assert Ends(m.stream[m.ended[k]], k); }
  }

  /** `Closed` comes at most once for a handle, and nothing for that handle follows it. */
  lemma ClosedLast(cfg: Config, trace: seq<Step>, i: nat, j: nat)
    ensures
      var m := Reached(cfg, trace);
      i < j < |m.stream| && m.stream[i].completion.result.Closed? ==>
        m.stream[j].completion.handle != m.stream[i].completion.handle
  {
    var m := Reached(cfg, trace);
    assert HandleHistory(m.handles, m.issuedHandles, m.closedAt, m.stream, m.out)
        && (forall x :: 0 <= x < |m.stream| ==> WellFormed(m.stream[x])) by { ReachedInv(cfg, trace); }
    hide Reached;
    if i < j < |m.stream| && m.stream[i].completion.result.Closed? { assert WellFormed(m.stream[i]); }
  }

  /** Once a handle is gone (closed, detached or discarded), whatever happens next
      the host hears nothing more about it. */
  lemma SilentAfterRelease(cfg: Config, trace: seq<Step>, rest: seq<Step>, h: Key)
    ensures
      var m, m' := Reached(cfg, trace), After(Reached(cfg, trace), rest);
      h in m.issuedHandles && h !in m.handles ==>
        h !in m'.handles &&
        forall i :: m.out <= i < |m'.stream| ==> m'.stream[i].completion.handle != Some(h)
  {
    var m, m' := Reached(cfg, trace), After(Reached(cfg, trace), rest);
    assert HandleHistory(m.handles, m.issuedHandles, m.closedAt, m.stream, m.out) && Extends(m, m') by {
      ReachedInv(cfg, trace);
      RunSafe(m, rest);
    }
    hide Reached, After;
    if h in m.issuedHandles && h !in m.handles {
      forall i | m.out <= i < |m'.stream| ensures m'.stream[i].completion.handle != Some(h) {
        if i < |m.stream| { assert m'.stream[i].completion == m.stream[i].completion; }
        else { assert Speaks(m, m'.stream[i].completion); }
      }
    }
  }

  /** The host receives completions in the order they were produced: a later state
      never reorders, changes or withdraws one. */
  lemma InOrder(cfg: Config, trace: seq<Step>, rest: seq<Step>)
    ensures
      var m, m' := Reached(cfg, trace), After(Reached(cfg, trace), rest);
      m.out <= m'.out <= |m'.stream| && |m.stream| <= |m'.stream| &&
      forall i :: 0 <= i < |m.stream| ==> m'.stream[i].completion == m.stream[i].completion
  {
    ReachedInv(cfg, trace);
    RunSafe(Reached(cfg, trace), rest);
  }

  // ------------------------------------------------------------------ bounds

  /** Every queued completion is charged to exactly one bound. */
  lemma {:induction false} QueueParts(stream: seq<Entry>, out: nat)
    requires out <= |stream| && forall i :: 0 <= i < |stream| ==> WellFormed(stream[i])
    ensures |stream| - out == Count(Terminal, stream, out) + Count(Closing, stream, out)
                              + Count(Class(NATIVE_EVENTS), stream, out) + Count(Class(TIMER_EVENTS), stream, out)
                              + Count(Class(POST_EVENTS), stream, out)
  {
    if out < |stream| {
      QueueParts(stream[..|stream| - 1], out);
      assert WellFormed(stream[|stream| - 1]);
    }
  }

  /** The completion queue never outgrows the capacity computed at construction. */
  lemma QueueBounded(cfg: Config, trace: seq<Step>)
    ensures |Reached(cfg, trace).stream| - Reached(cfg, trace).out <= CompletionCapacity(cfg)
  {
    var m := Reached(cfg, trace);
    QueueFits(m) by { ReachedInv(cfg, trace); }
    ReachedInv(cfg, trace);
  }

  lemma QueueFits(m: Model)
    requires InvCore(m)
    ensures |m.stream| - m.out <= CompletionCapacity(m.cfg)
  {
    hide Shape, OpHistory, HandleHistory, Housing, Settled;
    QueueParts(m.stream, m.out);
    assert ClosedQueued(m.handles) <= m.handles.Keys;
    Subset(ClosedQueued(m.handles), m.handles.Keys);
  }

  lemma Subset<T>(a: set<T>, b: set<T>)
    requires a <= b
    ensures |a| <= |b|
  {
    assert b == a + (b - a);
  }

  lemma {:induction false} RingCard(ring: seq<Work>)
    requires forall i, j :: 0 <= i < j < |ring| ==> ring[i].op != ring[j].op
    ensures |RingOps(ring)| == |ring|
  {
    if ring == [] {
      assert RingOps(ring) == {};
    } else {
      var rest, last := ring[..|ring| - 1], ring[|ring| - 1];
      RingCard(rest);
      forall x ensures x in RingOps(ring) <==> x in RingOps(rest) || x == last.op {
        if x in RingOps(rest) { var j :| 0 <= j < |rest| && rest[j].op == x; assert ring[j].op == x; }
        assert ring[|ring| - 1].op == last.op;
        if x in RingOps(ring) { var j :| 0 <= j < |ring| && ring[j].op == x; if j < |rest| { assert rest[j].op == x; } }
      }
      assert RingOps(ring) == RingOps(rest) + {last.op};
      assert last.op !in RingOps(rest);
    }
  }

  /** Ring occupancy plus work in flight is exactly the operations charged to the ring,
      which never exceed the credit it was sized by. */
  lemma RingCredit(m: Model)
    requires Inv(m)
    ensures |m.ring| + |m.inflight| == PortCount(m.ops) <= Min(m.cfg.maxUndelivered, m.cfg.maxOperations)
  {
    hide Shape, OpHistory, HandleHistory, Housing, Settled, Sized;
    RingCard(m.ring);
    assert Ports(m.ops) == m.inflight + RingOps(m.ring);
    assert m.inflight !! RingOps(m.ring);
    assert Ports(m.ops) <= m.ops.Keys;
    Subset(Ports(m.ops), m.ops.Keys);
  }

  /** Whatever is still in flight finds a free slot in the result ring. */
  lemma RingHasRoom(cfg: Config, trace: seq<Step>)
    ensures
      var m := Reached(cfg, trace);
      |m.ring| + |m.inflight| == PortCount(m.ops) <= Min(cfg.maxUndelivered, cfg.maxOperations) <= RingCapacity(cfg)
  {
    ReachedInv(cfg, trace);
    RingCredit(Reached(cfg, trace));
  }

  /** Promised slots are free ones, so an accept that was asked for can be housed. */
  lemma PromisesAreFree(cfg: Config, trace: seq<Step>)
    ensures
      var m := Reached(cfg, trace);
      Reserved(m) <= m.free && m.promised <= ArmedCount(m.ops) && Size(m.handles) + m.free <= cfg.maxHandles
  {
    ReachedInv(cfg, trace);
  }

  /** A deadline is armed exactly for the timers that have an operation, and a connect deadline
      only for live native work that nobody has cancelled. */
  lemma DeadlinesAgree(cfg: Config, trace: seq<Step>)
    ensures
      var m := Reached(cfg, trace);
      && (forall h :: h in m.timers <==> h in m.handles && m.handles[h].kind.Timer? && m.handles[h].ops != [])
      && (forall k :: k in m.connects ==> k in m.ops && m.ops[k].native && !m.ops[k].cancel && !m.ops[k].timedOut)
  {
    var m := Reached(cfg, trace);
    assert Deadlines(m.handles, m.ops, m.timers, m.connects) && Sourced(m.handles, m.ops) by { ReachedInv(cfg, trace); }
    hide Reached;
    forall k | k in m.connects ensures !m.ops[k].timedOut { assert OneSource(m.handles, m.ops[k]); }
  }

  // ---------------------------------------------------------------- liveness

  /** A queued terminal result keeps the loop alive exactly if it belongs to no handle, or to a
      referenced one. */
  ghost predicate Flags(m: Model) {
    forall i :: m.out <= i < |m.stream| && IsTerminal(m.stream[i].completion) ==>
      (m.stream[i].referenced <==> Awaited(m, m.stream[i].completion.handle))
  }

  predicate Awaited(m: Model, handle: Option<Key>) {
    handle.None? || (handle.value in m.handles && m.handles[handle.value].referenced)
  }

  /** Nothing is left to wait for: only idle timers are referenced, every operation is one of an
      unreferenced handle, and so is every operation's result that the host has not received. */
  ghost predicate Idle(m: Model) {
    && (forall h :: h in m.handles && m.handles[h].referenced ==> m.handles[h].kind.Timer? && m.handles[h].closing.None?)
    && (forall k :: k in m.ops ==>
          && m.ops[k].handle.Some?
          && (m.ops[k].handle.value in m.handles ==> !m.handles[m.ops[k].handle.value].referenced))
    && (forall i :: m.out <= i < |m.stream| && m.stream[i].completion.terminal && m.stream[i].completion.op.Some? ==>
          && m.stream[i].completion.handle.Some?
          && (m.stream[i].completion.handle.value in m.handles ==> !m.handles[m.stream[i].completion.handle.value].referenced))
  }

  lemma {:induction false} NoneReferenced(stream: seq<Entry>, out: nat)
    ensures Count(Referenced, stream, out) == 0 <==> forall i :: out <= i < |stream| ==> !stream[i].referenced
  {
    if out < |stream| {
      var rest := stream[..|stream| - 1];
      NoneReferenced(rest, out);
      assert forall i :: out <= i < |rest| ==> stream[i] == rest[i];
    }
  }

  /** The reference count is zero exactly when nothing referenced is left to wait for. */
  lemma LivenessExact(m: Model)
    requires Flags(m) && forall i :: 0 <= i < |m.stream| ==> WellFormed(m.stream[i])
    ensures Liveness(m) == 0 <==> Idle(m)
  {
    var hs, ks := RefHandles(m.handles), RefOps(m.handles, m.ops);
    NoneReferenced(m.stream, m.out);
    if Idle(m) {
      assert forall h :: h in m.handles ==> !Weighs(m.handles[h]);
      assert forall k :: k in m.ops ==> !Counts(m.handles, m.ops[k]);
      assert hs == {} && ks == {};
      forall i | m.out <= i < |m.stream| ensures !m.stream[i].referenced { assert WellFormed(m.stream[i]); }
    }
    if Liveness(m) == 0 {
      forall h | h in m.handles ensures !Weighs(m.handles[h]) { assert h !in hs; }
      forall k | k in m.ops ensures !Counts(m.handles, m.ops[k]) { assert k !in ks; }
    }
  }

  // ---------------------------------------------------------------- refusals

  /** A refused submission leaves no trace but its key, unless it was a multishot accept
      made while the pool of promised slots was short: then the pool keeps one slot. */
  lemma RefusalTrace(m: Model, k: Key, o: Op)
    requires Inv(m) && k !in m.issuedOps && (o.handle.Some? ==> o.handle.value in m.handles) && !IsTimer(m.handles, o)
    ensures
      var m' := Unlist(PutOp(m, k, o), k);
      && m' == Reject(m, k, o.multishot && m.promised < ArmedCount(m.ops)).(refused := m.refused)
      && (m' == m.(issuedOps := m.issuedOps + {k}) <==> !(o.multishot && m.promised < ArmedCount(m.ops)))
  {
    hide Inv, WithOp, WithoutOp, ArmedCount;
    NewKey(m, k);
    Restored(m, k, o.handle);
    assert m.ops[k := o] - {k} == m.ops;
    assert m.inflight + {k} - {k} == m.inflight - {k} == m.inflight;
    assert m.connects - {k} == m.connects;
  }

  lemma NewKey(m: Model, k: Key)
    requires Inv(m) && k !in m.issuedOps
    ensures k !in m.ops && k !in m.inflight && k !in m.connects && m.promised <= ArmedCount(m.ops)
  {
    hide Lists, Sourced, HandleHistory, Bounded, Sized, Settled, HeldCount, ArmedCount, PortCount;
  }

  lemma Restored(m: Model, k: Key, handle: Option<Key>)
    requires Inv(m) && k !in m.issuedOps && (handle.Some? ==> handle.value in m.handles)
    ensures WithoutOp(WithOp(m.handles, handle, k), handle, k) == m.handles
    ensures forall o: Op :: IsTimer(WithOp(m.handles, handle, k), o) == IsTimer(m.handles, o)
  {
    hide Inv, Without;
    NewKey(m, k);
    if handle.Some? {
      KeptAt(m, handle.value);
      WithoutLast(m.handles[handle.value].ops, k);
    }
  }

  lemma WithoutLast(s: seq<Key>, k: Key)
    requires k !in s
    ensures Without(s + [k], k) == s
  {
    var t := s + [k];
    assert t[|s|] == k && forall j :: 0 <= j < |s| ==> t[j] != k;
    assert IndexOf(t, k) == |s|;
  }

  /** A handle created for refused work is gone again; only a key of the last
      generation takes its slot with it. */
  lemma RefusedHandle(m: Model, h: Key, kind: Kind)
    requires h !in m.handles && m.free > 0
    ensures DropHandle(PutHandle(m, h, NewHandle(kind)), h)
         == m.(issuedHandles := m.issuedHandles + {h}, free := m.free - One(Exhausted(h)))
  {
    assert m.handles[h := NewHandle(kind)] - {h} == m.handles;
  }
}
