/** How the driver's counters follow the loop model, one change at a time. */
module DriverCounts {
  import opened Types
  import opened LoopModel
  import opened LoopSteps

  lemma RefOpsChange(handles: map<Key, Handle>, ops: map<Key, Op>, handles': map<Key, Handle>, ops': map<Key, Op>, k: Key)
    requires forall x :: x != k ==> (x in ops <==> x in ops')
    requires forall x :: x != k && x in ops ==> (Counts(handles, ops[x]) <==> Counts(handles', ops'[x]))
    ensures RefOpCount(handles', ops') == RefOpCount(handles, ops)
                                          - One(k in ops && Counts(handles, ops[k]))
                                          + One(k in ops' && Counts(handles', ops'[k]))
  {
    CardChange(RefOps(handles, ops), RefOps(handles', ops'), k);
  }

  lemma RefHandlesChange(handles: map<Key, Handle>, handles': map<Key, Handle>, h: Key)
    requires forall x :: x != h ==> (x in handles <==> x in handles')
    requires forall x :: x != h && x in handles ==> handles[x] == handles'[x]
    ensures RefHandleCount(handles') == RefHandleCount(handles)
                                        - One(h in handles && Weighs(handles[h]))
                                        + One(h in handles' && Weighs(handles'[h]))
  {
    CardChange(RefHandles(handles), RefHandles(handles'), h);
  }

  /** A handle without operations adds only its own weight. */
  lemma WeightPutHandle(handles: map<Key, Handle>, ops: map<Key, Op>, stream: seq<Entry>, out: nat, h: Key, r: Handle)
    requires Lists(handles, ops) && h !in handles
    ensures Weight(handles[h := r], ops, stream, out) == Weight(handles, ops, stream, out) + One(Weighs(r))
  {
    hide RefHandleCount, RefOpCount, Count;
    UnchangedRefs(handles, handles[h := r], ops);
    RefHandlesChange(handles, handles[h := r], h);
  }

  lemma UnchangedRefs(handles: map<Key, Handle>, handles': map<Key, Handle>, ops: map<Key, Op>)
    requires forall k :: k in ops ==> (Counts(handles, ops[k]) <==> Counts(handles', ops[k]))
    ensures RefOpCount(handles', ops) == RefOpCount(handles, ops)
  {
    assert RefOps(handles, ops) == RefOps(handles', ops);
  }

  lemma WeightDropHandle(handles: map<Key, Handle>, ops: map<Key, Op>, stream: seq<Entry>, out: nat, h: Key)
    requires Lists(handles, ops) && h in handles && handles[h].ops == []
    ensures Weight(handles - {h}, ops, stream, out) == Weight(handles, ops, stream, out) - One(Weighs(handles[h]))
  {
    hide RefHandleCount, RefOpCount, Count;
    forall k | k in ops ensures Counts(handles, ops[k]) <==> Counts(handles - {h}, ops[k]) {
      assert Listed(k, ops[k].handle, handles);
    }
    UnchangedRefs(handles, handles - {h}, ops);
    RefHandlesChange(handles, handles - {h}, h);
  }

  lemma WeightPutOp(handles: map<Key, Handle>, ops: map<Key, Op>, stream: seq<Entry>, out: nat, k: Key, o: Op)
    requires k !in ops
    ensures Weight(WithOp(handles, o.handle, k), ops[k := o], stream, out) == Weight(handles, ops, stream, out) + One(Counts(handles, o))
  {
    hide RefHandleCount, RefOpCount, Count;
    var handles' := WithOp(handles, o.handle, k);
    RefOpsChange(handles, ops, handles', ops[k := o], k);
    if o.handle.Some? { RefHandlesChange(handles, handles', o.handle.value); }
  }

  lemma WeightUnlist(handles: map<Key, Handle>, ops: map<Key, Op>, stream: seq<Entry>, out: nat, k: Key)
    requires k in ops
    ensures
      Weight(WithoutOp(handles, ops[k].handle, k), ops - {k}, stream, out) ==
        Weight(handles, ops, stream, out) - One(Counts(handles, ops[k]))
  {
    hide RefHandleCount, RefOpCount, Count, Without;
    var handles' := WithoutOp(handles, ops[k].handle, k);
    RefOpsChange(handles, ops, handles', ops - {k}, k);
    if ops[k].handle.Some? { RefHandlesChange(handles, handles', ops[k].handle.value); }
  }

  lemma WeightPush(handles: map<Key, Handle>, ops: map<Key, Op>, stream: seq<Entry>, out: nat, e: Entry)
    requires out <= |stream|
    ensures Weight(handles, ops, stream + [e], out) == Weight(handles, ops, stream, out) + One(e.referenced)
  {
    hide RefHandleCount, RefOpCount;
    CountPush(Referenced, stream, out, e);
  }

  /** Changing a handle's flags moves the count by the change in its own weight. */
  lemma WeightPatchHandle(handles: map<Key, Handle>, ops: map<Key, Op>, stream: seq<Entry>, out: nat, h: Key, r: Handle)
    requires h in handles && r.referenced == handles[h].referenced
    ensures Weight(handles[h := r], ops, stream, out) == Weight(handles, ops, stream, out) - One(Weighs(handles[h])) + One(Weighs(r))
  {
    hide RefHandleCount, RefOpCount, Count;
    UnchangedRefs(handles, handles[h := r], ops);
    RefHandlesChange(handles, handles[h := r], h);
  }

  lemma WeightPatchOp(handles: map<Key, Handle>, ops: map<Key, Op>, stream: seq<Entry>, out: nat, k: Key, o: Op)
    requires k in ops && o.handle == ops[k].handle
    ensures Weight(handles, ops[k := o], stream, out) == Weight(handles, ops, stream, out)
  {
    hide RefHandleCount, Count, RefOpCount;
    RefOpsChange(handles, ops, handles, ops[k := o], k);
  }

  // ------------------------------------------------------------ set_ref

  lemma {:induction false} SeqCard(s: seq<Key>)
    requires Distinct(s)
    ensures |set i | 0 <= i < |s| :: s[i]| == |s|
  {
    var all := set i | 0 <= i < |s| :: s[i];
    if s == [] {
      assert all == {};
    } else {
      var rest := s[..|s| - 1];
      SeqCard(rest);
      var fewer := set i | 0 <= i < |rest| :: rest[i];
      forall x ensures x in all <==> x in fewer || x == s[|s| - 1] {
        if x in fewer { var i :| 0 <= i < |rest| && rest[i] == x; assert s[i] == x; }
        assert s[|s| - 1] in all;
        if x in all { var i :| 0 <= i < |s| && s[i] == x; if i < |rest| { assert rest[i] == x; } }
      }
      assert all == fewer + {s[|s| - 1]};
      assert s[|s| - 1] !in fewer;
    }
  }

  /** Referencing or unreferencing a handle moves the count by its pending operations
      and by its own weight. */
  lemma ReferenceWeight(handles: map<Key, Handle>, ops: map<Key, Op>, h: Key)
    requires Lists(handles, ops) && h in handles
    ensures
      var on, off := handles[h := handles[h].(referenced := true)], handles[h := handles[h].(referenced := false)];
      && RefOpCount(on, ops) == RefOpCount(off, ops) + |handles[h].ops|
      && RefHandleCount(on) == RefHandleCount(off) + One(!handles[h].kind.Timer? || handles[h].closing.Some?)
  {
    hide RefHandleCount, Lists;
    var on, off := handles[h := handles[h].(referenced := true)], handles[h := handles[h].(referenced := false)];
    RefHandlesChange(on, off, h);
    var s := handles[h].ops;
    var mine := set i | 0 <= i < |s| :: s[i];
    ReferencedOps(handles, ops, h);
    SeqCard(s);
    assert RefOps(on, ops) == RefOps(off, ops) + mine;
    assert RefOps(off, ops) !! mine;
  }

  lemma ReferencedOps(handles: map<Key, Handle>, ops: map<Key, Op>, h: Key)
    requires Lists(handles, ops) && h in handles
    ensures
      var on, off := handles[h := handles[h].(referenced := true)], handles[h := handles[h].(referenced := false)];
      var s := handles[h].ops;
      && Distinct(s)
      && forall k :: (k in RefOps(on, ops) <==> k in RefOps(off, ops) || k in s) && !(k in RefOps(off, ops) && k in s)
  {
    var s := handles[h].ops;
    assert ListOf(h, s, ops);
    forall k ensures k in s <==> k in ops && ops[k].handle == Some(h) {
      if k in ops { assert Listed(k, ops[k].handle, handles); }
    }
  }

  lemma {:induction false} CountPatch(sort: Sort, stream: seq<Entry>, out: nat, j: nat, e: Entry)
    requires out <= j < |stream|
    ensures Count(sort, stream[j := e], out) == Count(sort, stream, out) - One(Picks(sort, stream[j])) + One(Picks(sort, e))
  {
    var n := |stream| - 1;
    if j == n {
      assert stream[j := e][..n] == stream[..n];
    } else {
      assert stream[j := e][..n] == stream[..n][j := e];
      CountPatch(sort, stream[..n], out, j, e);
    }
  }
}
