/** The deadline queue of the driver: a four-ary heap with an index of positions, against
    the finite map from keys to deadlines it stands for. */
module TimerHeap {
  import opened Types

  datatype Due = Due(at: Instant, id: Key)

  predicate Before(a: Due, b: Due) { a.at < b.at || (a.at == b.at && a.id <= b.id) }

  function Parent(i: int): int { (i - 1) / 4 }

  lemma ParentIs(i: int, p: int)
    requires i > 0
    ensures 0 <= Parent(i) < i && (Parent(i) == p <==> 4 * p + 1 <= i <= 4 * p + 4)
  {}

  ghost predicate Ordered(h: seq<Due>) { forall i :: 0 < i < |h| ==> 0 <= Parent(i) < |h| && Before(h[Parent(i)], h[i]) }

  /** Ordered but between `p` and its parent. */
  ghost predicate Rising(h: seq<Due>, p: nat) {
    && p < |h| && (forall i :: 0 < i < |h| ==> 0 <= Parent(i) < i)
    && (forall i :: 0 < i < |h| && i != p ==> Before(h[Parent(i)], h[i]))
    && (forall i :: 0 < i < |h| && Parent(i) == p && p > 0 ==> Before(h[Parent(p)], h[i]))
  }

  /** Ordered but between `p` and its children. */
  ghost predicate Sinking(h: seq<Due>, p: nat) {
    && p < |h| && (forall i :: 0 < i < |h| ==> 0 <= Parent(i) < i)
    && (forall i :: 0 < i < |h| && Parent(i) != p ==> Before(h[Parent(i)], h[i]))
    && (forall i :: 0 < i < |h| && Parent(i) == p && p > 0 ==> Before(h[Parent(p)], h[i]))
  }

  /** The index finds every entry, and the entries are the map. */
  ghost predicate Indexed(h: seq<Due>, positions: map<nat, nat>, contents: map<Key, Instant>) {
    && (forall i :: 0 <= i < |h| ==> Slot(h[i].id) in positions && positions[Slot(h[i].id)] == i)
    && (forall s :: s in positions ==> positions[s] < |h| && Slot(h[positions[s]].id) == s)
    && (forall i :: 0 <= i < |h| ==> h[i].id in contents && contents[h[i].id] == h[i].at)
    && (forall k :: k in contents ==> Slot(k) in positions && h[positions[Slot(k)]].id == k)
  }

  function Swapped(h: seq<Due>, a: nat, b: nat): seq<Due>
    requires a < |h| && b < |h|
  {
    h[a := h[b]][b := h[a]]
  }

  lemma IndexSwapped(h: seq<Due>, positions: map<nat, nat>, contents: map<Key, Instant>, a: nat, b: nat)
    requires Indexed(h, positions, contents) && a < |h| && b < |h|
    ensures Indexed(Swapped(h, a, b), positions[Slot(h[b].id) := a][Slot(h[a].id) := b], contents)
  {
    hide Slot;
  }

  lemma Rises(h: seq<Due>, p: nat)
    requires Rising(h, p) && p > 0 && !Before(h[Parent(p)], h[p])
    ensures Rising(Swapped(h, p, Parent(p)), Parent(p))
  {
    hide Parent;
  }

  lemma Sinks(h: seq<Due>, p: nat, best: nat)
    requires Sinking(h, p) && 0 < best < |h| && Parent(best) == p && !Before(h[p], h[best])
    requires forall i :: 0 < i < |h| && Parent(i) == p ==> Before(h[best], h[i])
    ensures Sinking(Swapped(h, p, best), best)
  {
    hide Parent;
  }

  /** The root precedes every entry. */
  lemma {:induction false} RootFirst(h: seq<Due>, i: nat)
    requires Ordered(h) && i < |h|
    ensures Before(h[0], h[i])
  {
    if i > 0 {
      ParentIs(i, 0);
      RootFirst(h, Parent(i));
    }
  }

  class Heap {
    var heap: seq<Due>
    var positions: map<nat, nat>
    ghost var contents: map<Key, Instant>

    ghost predicate Valid()
      reads this
    {
      Ordered(heap) && Indexed(heap, positions, contents)
    }

    constructor ()
      ensures Valid() && contents == map[]
    {
      heap, positions, contents := [], map[], map[];
    }

    method Swap(a: nat, b: nat)
      requires Indexed(heap, positions, contents) && a < |heap| && b < |heap|
      modifies this`heap, this`positions
      ensures Indexed(heap, positions, contents) && heap == Swapped(old(heap), a, b)
    {
      hide Indexed;
      IndexSwapped(heap, positions, contents, a, b);
      heap := Swapped(heap, a, b);
      positions := positions[Slot(heap[a].id) := a];
      positions := positions[Slot(heap[b].id) := b];
    }

    method Up(start: nat)
      requires Indexed(heap, positions, contents) && Rising(heap, start)
      modifies this`heap, this`positions
      ensures Valid() && |heap| == |old(heap)|
    {
      hide Indexed, Parent;
      var p: nat := start;
      while p > 0
        invariant Indexed(heap, positions, contents) && Rising(heap, p) && |heap| == |old(heap)|
      {
        ParentIs(p, 0);
        var parent := Parent(p);
        if Before(heap[parent], heap[p]) {
          return;
        }
        Rises(heap, p);
        Swap(p, parent);
        p := parent;
      }
    }

    method Down(start: nat)
      requires Indexed(heap, positions, contents) && Sinking(heap, start)
      modifies this`heap, this`positions
      ensures Valid() && |heap| == |old(heap)|
    {
      hide Indexed, Parent;
      var p: nat := start;
      while true
        invariant Indexed(heap, positions, contents) && Sinking(heap, p) && |heap| == |old(heap)|
        decreases |heap| - p
      {
        forall i | 0 < i < |heap| ensures Parent(i) == p <==> 4 * p + 1 <= i <= 4 * p + 4 { ParentIs(i, p); }
        var first := p * 4 + 1;
        if first >= |heap| {
          return;
        }
        var best := first;
        for c := first + 1 to Min(first + 4, |heap|)
          invariant first <= best < c && forall i :: first <= i < c ==> Before(heap[best], heap[i])
        {
          if !Before(heap[best], heap[c]) {
            best := c;
          }
        }
        if Before(heap[p], heap[best]) {
          assert Ordered(heap);
          return;
        }
        Sinks(heap, p, best);
        Swap(p, best);
        p := best;
      }
    }

    /** Arm a key at a deadline; its slot must not be armed. */
    method Insert(id: Key, at: Instant)
      requires Valid() && Slot(id) !in positions
      modifies this
      ensures Valid() && id !in old(contents) && contents == old(contents)[id := at]
    {
      hide Parent;
      var n := |heap|;
      IndexPushed(heap, positions, contents, Due(at, id));
      positions := positions[Slot(id) := n];
      heap := heap + [Due(at, id)];
      contents := contents[id := at];
      Pushed(old(heap), Due(at, id));
      Up(n);
    }

    /** Disarm a key; false if it is not armed, even if its slot is armed under another key. */
    method Cancel(id: Key) returns (ok: bool)
      requires Valid()
      modifies this
      ensures Valid() && (ok <==> id in old(contents)) && contents == old(contents) - {id}
    {
      hide Parent, Slot;
      if Slot(id) !in positions || heap[positions[Slot(id)]].id != id {
        assert id !in contents;
        assert contents - {id} == contents;
        return false;
      }
      RemoveAt(positions[Slot(id)]);
      return true;
    }

    method RemoveAt(p: nat)
      requires Valid() && p < |heap|
      modifies this
      ensures Valid() && contents == old(contents) - {old(heap)[p].id}
    {
      hide Parent, Slot, Indexed;
      var last := |heap| - 1;
      IndexRemoved(heap, positions, contents, p);
      contents := contents - {heap[p].id};
      positions := positions - {Slot(heap[p].id)};
      if p < last {
        positions := positions[Slot(heap[last].id) := p];
      }
      heap := heap[p := heap[last]][..last];
      if p < last {
        Replaced(old(heap), p);
        if p > 0 && !Before(heap[Parent(p)], heap[p]) {
          Up(p);
        } else {
          Down(p);
        }
      } else {
        Shortened(old(heap));
        assert heap == old(heap)[..last];
      }
    }

    /** Take the first entry in (deadline, key) order, if it is due. */
    method PopExpired(now: Instant) returns (r: Option<Due>)
      requires Valid()
      modifies this
      ensures Valid()
      ensures r.None? ==> contents == old(contents) && forall k :: k in contents ==> contents[k] > now
      ensures
        r.Some? ==>
          && r.value.at <= now && r.value.id in old(contents) && old(contents)[r.value.id] == r.value.at
          && contents == old(contents) - {r.value.id}
          && forall k :: k in old(contents) ==>
               r.value.at < old(contents)[k] || (r.value.at == old(contents)[k] && r.value.id <= k)
    {
      hide Parent, Slot;
      forall k | k in contents ensures heap != [] && Before(heap[0], Due(contents[k], k)) {
        RootFirst(heap, positions[Slot(k)]);
      }
      if heap == [] || heap[0].at > now {
        return None;
      }
      r := Some(heap[0]);
      RemoveAt(0);
    }

    method NextDeadline() returns (at: Option<Instant>)
      requires Valid()
      ensures at.None? <==> contents == map[]
      ensures
        at.Some? ==>
          (exists k :: k in contents && contents[k] == at.value) && forall k :: k in contents ==> at.value <= contents[k]
    {
      hide Parent, Slot;
      forall k | k in contents ensures heap != [] && Before(heap[0], Due(contents[k], k)) {
        RootFirst(heap, positions[Slot(k)]);
      }
      if heap == [] {
        assert contents == map[] by { assert forall k :: k !in contents; }
        return None;
      }
      assert heap[0].id in contents;
      return Some(heap[0].at);
    }
  }

  lemma IndexPushed(h: seq<Due>, positions: map<nat, nat>, contents: map<Key, Instant>, e: Due)
    requires Indexed(h, positions, contents) && Slot(e.id) !in positions
    ensures e.id !in contents && Indexed(h + [e], positions[Slot(e.id) := |h|], contents[e.id := e.at])
  {
    hide Slot;
  }

  lemma Pushed(h: seq<Due>, e: Due)
    requires Ordered(h)
    ensures Rising(h + [e], |h|)
  {
    forall i | 0 < i <= |h| ensures 0 <= Parent(i) < i { ParentIs(i, 0); }
    hide Parent;
  }

  lemma IndexRemoved(h: seq<Due>, positions: map<nat, nat>, contents: map<Key, Instant>, p: nat)
    requires Indexed(h, positions, contents) && p < |h|
    ensures
      var last := |h| - 1;
      var rest := positions - {Slot(h[p].id)};
      Indexed(h[p := h[last]][..last], if p < last then rest[Slot(h[last].id) := p] else rest, contents - {h[p].id})
  {
    hide Slot;
    var last := |h| - 1;
    var rest := positions - {Slot(h[p].id)};
    var h', positions' := h[p := h[last]][..last], if p < last then rest[Slot(h[last].id) := p] else rest;
    forall i | 0 <= i < last ensures Slot(h'[i].id) in positions' && positions'[Slot(h'[i].id)] == i && h'[i].id != h[p].id {
      assert positions[Slot(h[i].id)] == i && positions[Slot(h[last].id)] == last && positions[Slot(h[p].id)] == p;
    }
    forall s | s in positions' ensures positions'[s] < last && Slot(h'[positions'[s]].id) == s {
      assert s in positions && Slot(h[positions[s]].id) == s;
    }
    forall k | k in contents && k != h[p].id ensures Slot(k) in positions' && h'[positions'[Slot(k)]].id == k {
      assert h[positions[Slot(k)]].id == k;
    }
  }

  /** The last entry takes the place of a removed one: it may have to rise or to sink. */
  lemma Replaced(h: seq<Due>, p: nat)
    requires Ordered(h) && p < |h| - 1
    ensures
      var h' := h[p := h[|h| - 1]][..|h| - 1];
      && (p > 0 ==> 0 <= Parent(p) < p)
      && if p > 0 && !Before(h'[Parent(p)], h'[p]) then Rising(h', p) else Sinking(h', p)
  {
    forall i | 0 < i < |h| ensures 0 <= Parent(i) < i { ParentIs(i, 0); }
    hide Parent;
  }

  lemma Shortened(h: seq<Due>)
    requires Ordered(h) && h != []
    ensures Ordered(h[..|h| - 1])
  {
    forall i | 0 < i < |h| ensures 0 <= Parent(i) < i { ParentIs(i, 0); }
    hide Parent;
  }
}
