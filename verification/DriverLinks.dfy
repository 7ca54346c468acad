/** The driver's own records: intrusive per-handle operation lists, kept by
    `head`, `tail`, `previous` and `next`, against the lists of the loop model. */
module DriverLinks {
  import opened Types
  import opened LoopModel
  import opened LoopSteps

  datatype ResourceKind = SocketKind | FileKind | TimerKind(op: Option<Key>, repeat: Option<nat>)

  datatype Resource = Resource(
    kind: ResourceKind, hidden: bool, referenced: bool, pending: nat,
    closing: Option<Token>, closedQueued: bool, head: Option<Key>, tail: Option<Key>)

  /** One operation record: its data and its place in its handle's list. */
  datatype Node = Node(op: Op, previous: Option<Key>, next: Option<Key>)

  function At(s: seq<Key>, i: int): Option<Key> { if 0 <= i < |s| then Some(s[i]) else None }

  predicate SameKind(k: ResourceKind, a: Kind) {
    match a
    case Socket => k.SocketKind?
    case File => k.FileKind?
    case Timer(repeat) => k.TimerKind? && k.repeat == repeat
  }

  /** The record of a handle, but for the active operation of a timer. */
  predicate SameResource(r: Resource, a: Handle) {
    && SameKind(r.kind, a.kind)
    && r == Resource(r.kind, a.hidden, a.referenced, |a.ops|, a.closing, a.closedQueued, At(a.ops, 0), At(a.ops, |a.ops| - 1))
  }

  predicate LinkedAt(nodes: map<Key, Node>, s: seq<Key>, i: nat)
    requires i < |s|
  {
    s[i] in nodes && nodes[s[i]].previous == At(s, i - 1) && nodes[s[i]].next == At(s, i + 1)
  }

  ghost predicate LinkedList(nodes: map<Key, Node>, s: seq<Key>) {
    forall i :: 0 <= i < |s| ==> LinkedAt(nodes, s, i)
  }

  /** The records represent the model's tables: following `next` from `head` visits
      exactly the list, in order, and `previous` is its inverse. */
  ghost predicate Linked(
    resources: map<Key, Resource>, nodes: map<Key, Node>, handles: map<Key, Handle>, ops: map<Key, Op>)
  {
    Rows(resources, handles) && Chains(nodes, handles) && Data(nodes, ops)
  }

  // ------------------------------------------------------------------ append

  function Appended(nodes: map<Key, Node>, tail: Option<Key>, k: Key, o: Op): map<Key, Node> {
    var nodes1 := nodes[k := Node(o, tail, None)];
    if tail.Some? && tail.value in nodes then nodes1[tail.value := nodes1[tail.value].(next := Some(k))] else nodes1
  }

  function Grown(r: Resource, k: Key): Resource {
    r.(head := if r.head.None? then Some(k) else r.head, tail := Some(k), pending := r.pending + 1)
  }

  lemma AppendedAt(nodes: map<Key, Node>, tail: Option<Key>, k: Key, o: Op)
    requires k !in nodes && (tail.Some? ==> tail.value in nodes)
    ensures Appended(nodes, tail, k, o).Keys == nodes.Keys + {k}
    ensures Appended(nodes, tail, k, o)[k] == Node(o, tail, None)
    ensures forall x :: x in nodes ==>
              Appended(nodes, tail, k, o)[x] == if tail == Some(x) then nodes[x].(next := Some(k)) else nodes[x]
  {}

  lemma AppendList(nodes: map<Key, Node>, s: seq<Key>, k: Key, o: Op)
    requires LinkedList(nodes, s) && k !in nodes && Distinct(s)
    ensures s != [] ==> s[|s| - 1] in nodes
    ensures LinkedList(Appended(nodes, At(s, |s| - 1), k, o), s + [k])
  {
    hide Appended;
    if s != [] { assert LinkedAt(nodes, s, |s| - 1); }
    var nodes', t := Appended(nodes, At(s, |s| - 1), k, o), s + [k];
    AppendedAt(nodes, At(s, |s| - 1), k, o);
    forall i | 0 <= i < |t| ensures LinkedAt(nodes', t, i) {
      if i < |s| {
        assert LinkedAt(nodes, s, i);
        assert i < |s| - 1 ==> s[i] != s[|s| - 1];
      }
    }
  }

  lemma OtherList(nodes: map<Key, Node>, nodes': map<Key, Node>, s: seq<Key>)
    requires LinkedList(nodes, s) && forall i :: 0 <= i < |s| ==> s[i] in nodes' && s[i] in nodes && nodes'[s[i]] == nodes[s[i]]
    ensures LinkedList(nodes', s)
  {
    forall i | 0 <= i < |s| ensures LinkedAt(nodes', s, i) { assert LinkedAt(nodes, s, i); }
  }

  /** Records represent their handles, and every list is linked. */
  ghost predicate Rows(resources: map<Key, Resource>, handles: map<Key, Handle>) {
    resources.Keys == handles.Keys && forall h :: h in handles ==> SameResource(resources[h], handles[h])
  }

  ghost predicate Chains(nodes: map<Key, Node>, handles: map<Key, Handle>) {
    forall h :: h in handles ==> LinkedList(nodes, handles[h].ops)
  }

  ghost predicate Data(nodes: map<Key, Node>, ops: map<Key, Op>) {
    && nodes.Keys == ops.Keys
    && (forall k :: k in nodes ==> nodes[k].op == ops[k])
    && (forall k :: k in nodes && ops[k].handle.None? ==> nodes[k].previous.None? && nodes[k].next.None?)
  }

  lemma AppendChains(nodes: map<Key, Node>, handles: map<Key, Handle>, ops: map<Key, Op>, k: Key, o: Op)
    requires Chains(nodes, handles) && Data(nodes, ops) && Lists(handles, ops) && k !in ops
    requires o.handle.Some? ==> o.handle.value in handles
    ensures
      var tail := if o.handle.Some? then At(handles[o.handle.value].ops, |handles[o.handle.value].ops| - 1) else None;
      Chains(Appended(nodes, tail, k, o), WithOp(handles, o.handle, k)) && Data(Appended(nodes, tail, k, o), ops[k := o])
  {
    hide Appended, Lists;
    var s := if o.handle.Some? then handles[o.handle.value].ops else [];
    var nodes' := Appended(nodes, At(s, |s| - 1), k, o);
    if o.handle.Some? {
      ListAt(handles, ops, o.handle.value);
      AppendList(nodes, s, k, o);
    }
    AppendedAt(nodes, At(s, |s| - 1), k, o);
    forall h | h in handles && Some(h) != o.handle ensures LinkedList(nodes', handles[h].ops) {
      ListAt(handles, ops, h);
      assert LinkedList(nodes, handles[h].ops);
      OtherList(nodes, nodes', handles[h].ops);
    }
    if o.handle.None? { assert s == []; }
    else if s != [] { assert ops[s[|s| - 1]].handle.Some?; }
  }

  lemma ListAt(handles: map<Key, Handle>, ops: map<Key, Op>, h: Key)
    requires Lists(handles, ops) && h in handles
    ensures ListOf(h, handles[h].ops, ops)
  {}

  /** `new_op` appends at the tail. */
  lemma AppendRows(resources: map<Key, Resource>, handles: map<Key, Handle>, handle: Option<Key>, k: Key)
    requires Rows(resources, handles) && (handle.Some? ==> handle.value in handles)
    ensures
      var resources' := if handle.Some? then resources[handle.value := Grown(resources[handle.value], k)] else resources;
      Rows(resources', WithOp(handles, handle, k))
  {}

  // ------------------------------------------------------------------ splice

  function Spliced(nodes: map<Key, Node>, k: Key): map<Key, Node>
    requires k in nodes
  {
    var n, rest := nodes[k], nodes - {k};
    var rest1 :=
      if n.previous.Some? && n.previous.value in rest
      then rest[n.previous.value := rest[n.previous.value].(next := n.next)] else rest;
    if n.next.Some? && n.next.value in rest1 then rest1[n.next.value := rest1[n.next.value].(previous := n.previous)] else rest1
  }

  function Shrunk(r: Resource, k: Key, n: Node): Resource {
    r.(head := if r.head == Some(k) then n.next else r.head,
       tail := if r.tail == Some(k) then n.previous else r.tail,
       pending := if r.pending == 0 then 0 else r.pending - 1)
  }

  lemma SplicedAt(nodes: map<Key, Node>, k: Key)
    requires k in nodes
    requires nodes[k].previous.Some? ==> nodes[k].previous.value in nodes && nodes[k].previous.value != k
    requires nodes[k].next.Some? ==> nodes[k].next.value in nodes && nodes[k].next.value != k
    ensures Spliced(nodes, k).Keys == nodes.Keys - {k}
    ensures forall x :: x in nodes && x != k ==>
              Spliced(nodes, k)[x] == Node(nodes[x].op,
                if nodes[k].next == Some(x) then nodes[k].previous else nodes[x].previous,
                if nodes[k].previous == Some(x) then nodes[k].next else nodes[x].next)
  {}

  /** The neighbours of a linked operation are its list neighbours. */
  lemma Neighbours(nodes: map<Key, Node>, s: seq<Key>, k: Key)
    requires LinkedList(nodes, s) && k in s && Distinct(s)
    ensures
      var i := IndexOf(s, k);
      && k in nodes && nodes[k].previous == At(s, i - 1) && nodes[k].next == At(s, i + 1)
      && (i > 0 ==> s[i - 1] in nodes && s[i - 1] != k) && (i + 1 < |s| ==> s[i + 1] in nodes && s[i + 1] != k)
  {
    var i := IndexOf(s, k);
    assert LinkedAt(nodes, s, i);
    if i > 0 { assert LinkedAt(nodes, s, i - 1); }
    if i + 1 < |s| { assert LinkedAt(nodes, s, i + 1); }
  }

  lemma SpliceList(nodes: map<Key, Node>, s: seq<Key>, k: Key)
    requires LinkedList(nodes, s) && k in s && Distinct(s) && k in nodes
    ensures LinkedList(Spliced(nodes, k), Without(s, k))
  {
    hide Spliced, LinkedAt;
    forall j | 0 <= j < |Without(s, k)| ensures LinkedAt(Spliced(nodes, k), Without(s, k), j) {
      SpliceAt(nodes, s, k, j);
    }
  }

  lemma SpliceAt(nodes: map<Key, Node>, s: seq<Key>, k: Key, j: nat)
    requires LinkedList(nodes, s) && k in s && Distinct(s) && k in nodes && j < |Without(s, k)|
    ensures LinkedAt(Spliced(nodes, k), Without(s, k), j)
  {
    hide Spliced, Without, LinkedList, Distinct, IndexOf;
    var i := IndexOf(s, k);
    var x := if j < i then j else j + 1;
    NeighboursLeft(s, k, j);
    Neighbours(nodes, s, k);
    SplicedAt(nodes, k);
    assert LinkedAt(nodes, s, x) by { LinkAt(nodes, s, x); }
  }

  lemma LinkAt(nodes: map<Key, Node>, s: seq<Key>, i: nat)
    requires LinkedList(nodes, s) && i < |s|
    ensures LinkedAt(nodes, s, i)
  {}

  /** Who stands beside whom once `k` has left its list. */
  lemma NeighboursLeft(s: seq<Key>, k: Key, j: nat)
    requires k in s && Distinct(s) && j < |Without(s, k)|
    ensures
      var i, t := IndexOf(s, k), Without(s, k);
      var x := if j < i then j else j + 1;
      && |t| == |s| - 1 && t[j] == s[x] != k
      && (At(s, i + 1) == Some(s[x]) <==> x == i + 1)
      && (At(s, i - 1) == Some(s[x]) <==> x == i - 1)
      && At(t, j - 1) == At(s, if x == i + 1 then i - 1 else x - 1)
      && At(t, j + 1) == At(s, if x == i - 1 then i + 1 else x + 1)
  {
    hide IndexOf;
  }

  lemma SpliceData(nodes: map<Key, Node>, ops: map<Key, Op>, k: Key)
    requires Data(nodes, ops) && k in ops
    requires
      nodes[k].previous.Some? ==>
        nodes[k].previous.value in nodes && nodes[k].previous.value != k && ops[nodes[k].previous.value].handle.Some?
    requires
      nodes[k].next.Some? ==>
        nodes[k].next.value in nodes && nodes[k].next.value != k && ops[nodes[k].next.value].handle.Some?
    ensures Data(Spliced(nodes, k), ops - {k})
  {
    hide Spliced;
    SplicedAt(nodes, k);
  }

  lemma SpliceChains(nodes: map<Key, Node>, handles: map<Key, Handle>, ops: map<Key, Op>, k: Key)
    requires Chains(nodes, handles) && Data(nodes, ops) && Lists(handles, ops) && k in ops
    ensures Chains(Spliced(nodes, k), WithoutOp(handles, ops[k].handle, k)) && Data(Spliced(nodes, k), ops - {k})
    ensures nodes[k].previous.Some? ==> nodes[k].previous.value in nodes && nodes[k].previous.value != k
    ensures nodes[k].next.Some? ==> nodes[k].next.value in nodes && nodes[k].next.value != k
  {
    hide Spliced, Lists, Without;
    var h, nodes' := ops[k].handle, Spliced(nodes, k);
    ListedAt(handles, ops, k);
    if h.Some? {
      ListAt(handles, ops, h.value);
      assert LinkedList(nodes, handles[h.value].ops);
      Neighbours(nodes, handles[h.value].ops, k);
      SpliceList(nodes, handles[h.value].ops, k);
    }
    SpliceData(nodes, ops, k);
    SplicedAt(nodes, k);
    forall x | x in handles && Some(x) != h ensures LinkedList(nodes', handles[x].ops) {
      ListAt(handles, ops, x);
      assert LinkedList(nodes, handles[x].ops);
      OtherList(nodes, nodes', handles[x].ops);
    }
  }

  lemma ListedAt(handles: map<Key, Handle>, ops: map<Key, Op>, k: Key)
    requires Lists(handles, ops) && k in ops
    ensures Listed(k, ops[k].handle, handles)
  {}

  /** `retire` removes an operation from anywhere in its list. */
  lemma SpliceRows(resources: map<Key, Resource>, nodes: map<Key, Node>, handles: map<Key, Handle>, handle: Option<Key>, k: Key)
    requires Rows(resources, handles) && Chains(nodes, handles)
    requires handle.Some? ==> handle.value in handles && k in handles[handle.value].ops && Distinct(handles[handle.value].ops)
    requires k in nodes
    ensures
      var resources' := if handle.Some? then resources[handle.value := Shrunk(resources[handle.value], k, nodes[k])] else resources;
      Rows(resources', WithoutOp(handles, handle, k))
  {
    if handle.Some? {
      var s := handles[handle.value].ops;
      assert LinkedList(nodes, s) && SameResource(resources[handle.value], handles[handle.value]);
      Neighbours(nodes, s, k);
    }
  }

  // -------------------------------------------------- records, one change

  lemma LinkedPut(
    resources: map<Key, Resource>, nodes: map<Key, Node>, handles: map<Key, Handle>, ops: map<Key, Op>, h: Key, r: Resource,
    a: Handle)
    requires Linked(resources, nodes, handles, ops) && SameResource(r, a)
    requires if h in handles then a.ops == handles[h].ops else a.ops == []
    ensures Linked(resources[h := r], nodes, handles[h := a], ops)
  {
    hide Data, SameResource, LinkedList;
    if a.ops == [] { NoLinks(nodes); }
  }

  lemma NoLinks(nodes: map<Key, Node>)
    ensures LinkedList(nodes, [])
  {}

  lemma LinkedDrop(resources: map<Key, Resource>, nodes: map<Key, Node>, handles: map<Key, Handle>, ops: map<Key, Op>, h: Key)
    requires Linked(resources, nodes, handles, ops)
    ensures Linked(resources - {h}, nodes, handles - {h}, ops)
  {
    hide Data, SameResource, LinkedList;
  }

  lemma LinkedPatch(
    resources: map<Key, Resource>, nodes: map<Key, Node>, handles: map<Key, Handle>, ops: map<Key, Op>, k: Key, o: Op)
    requires Linked(resources, nodes, handles, ops) && k in ops && o.handle == ops[k].handle
    ensures k in nodes && Linked(resources, nodes[k := nodes[k].(op := o)], handles, ops[k := o])
  {
    hide Rows;
    var nodes' := nodes[k := nodes[k].(op := o)];
    forall h | h in handles ensures LinkedList(nodes', handles[h].ops) {
      assert LinkedList(nodes, handles[h].ops);
      forall i | 0 <= i < |handles[h].ops| ensures LinkedAt(nodes', handles[h].ops, i) {
        assert LinkedAt(nodes, handles[h].ops, i);
      }
    }
  }

  lemma RecordAt(resources: map<Key, Resource>, nodes: map<Key, Node>, handles: map<Key, Handle>, ops: map<Key, Op>, h: Key)
    requires Linked(resources, nodes, handles, ops)
    ensures h in resources <==> h in handles
    ensures h in handles ==> SameResource(resources[h], handles[h])
  {
    hide Chains, Data;
  }

  lemma NodeAt(resources: map<Key, Resource>, nodes: map<Key, Node>, handles: map<Key, Handle>, ops: map<Key, Op>, k: Key)
    requires Linked(resources, nodes, handles, ops)
    ensures k in nodes <==> k in ops
    ensures k in ops ==> nodes[k].op == ops[k]
  {
    hide Chains, Rows;
  }
}
