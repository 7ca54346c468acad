/** The generational table behind handle and operation keys: slots are reused, keys never. */
module SlotTable {
  import opened Types

  const PAGE: nat := 64

  datatype Cell<T> = Cell(generation: nat, value: Option<T>)

  function KeyOf(i: nat, generation: nat): Key { generation * GENERATION_SPAN + i }

  lemma KeyParts(i: nat, generation: nat)
    requires i < GENERATION_SPAN
    ensures Slot(KeyOf(i, generation)) == i && Generation(KeyOf(i, generation)) == generation
  {}

  lemma KeyUnique(k: Key, i: nat, generation: nat)
    requires Slot(k) == i && Generation(k) == generation
    ensures k == KeyOf(i, generation)
  {}

  /** Slots that are neither free nor occupied have used up their generations. */
  ghost predicate Built<T>(slots: seq<Cell<T>>, free: seq<nat>) {
    && (forall i :: 0 <= i < |slots| ==> 1 <= slots[i].generation <= LAST_GENERATION)
    && (forall i :: 0 <= i < |slots| && slots[i].value.None? && i !in free ==> slots[i].generation == LAST_GENERATION)
    && (forall j :: 0 <= j < |free| ==> free[j] < |slots| && slots[free[j]].value.None?)
    && (forall j, j' :: 0 <= j < j' < |free| ==> free[j] != free[j'])
  }

  ghost predicate Used<T>(slots: seq<Cell<T>>, free: seq<nat>, used: set<nat>) {
    forall i: nat :: i in used <==> i < |slots| && i !in free
  }

  predicate Holds<T>(slots: seq<Cell<T>>, k: Key) {
    Slot(k) < |slots| && slots[Slot(k)].generation == Generation(k) && slots[Slot(k)].value.Some?
  }

  /** The table as a finite map. */
  ghost predicate Maps<T>(slots: seq<Cell<T>>, contents: map<Key, T>) {
    && (forall k :: k in contents <==> Holds(slots, k))
    && (forall k :: k in contents ==> slots[Slot(k)].value == Some(contents[k]))
  }

  /** Whether a key was handed out: its generation is past, or current and in use. */
  predicate Spent<T>(slots: seq<Cell<T>>, free: seq<nat>, k: Key) {
    var i, g := Slot(k), Generation(k);
    i < |slots| && 1 <= g && (g < slots[i].generation || (g == slots[i].generation && i !in free))
  }

  ghost predicate Issues<T>(slots: seq<Cell<T>>, free: seq<nat>, issued: set<Key>) {
    forall k :: k in issued <==> Spent(slots, free, k)
  }

  class Table<T> {
    const ceiling: nat
    /** The built pages, in index order. */
    var slots: seq<Cell<T>>
    /** Reusable indices, the next one to hand out last. */
    var free: seq<nat>
    var live: nat
    ghost var used: set<nat>
    ghost var contents: map<Key, T>
    ghost var issued: set<Key>

    ghost predicate Valid()
      reads this
    {
      && ceiling < GENERATION_SPAN && |slots| <= ceiling
      && Built(slots, free) && Used(slots, free, used) && live == |used|
      && Maps(slots, contents) && Issues(slots, free, issued)
    }

    constructor (capacity: nat)
      requires capacity < GENERATION_SPAN
      ensures Valid() && ceiling == capacity && contents == map[] && issued == {} && live == 0
    {
      ceiling := capacity;
      slots, free, live, used, contents, issued := [], [], 0, {}, map[], {};
      new;
      Empty<T>();
      var grown := Grow();
    }

    /** Build the next page and offer its indices, lowest first. */
    method Grow() returns (grown: bool)
      requires Valid() && free == []
      modifies this`slots, this`free
      ensures Valid() && (grown <==> |old(slots)| < ceiling) && (grown ==> free != [])
    {
      hide Built, Used, Maps, Issues;
      var base := |slots|;
      if base >= ceiling {
        return false;
      }
      var len := Min(PAGE, ceiling - base);
      Page(slots, len, used, contents, issued);
      slots := slots + seq(len, _ => Cell(1, None));
      free := seq(len, j requires 0 <= j < len => base + (len - 1 - j));
      return true;
    }

    /** Store a value under a key that was never handed out before; refused at the ceiling. */
    method Insert(value: T) returns (k: Option<Key>)
      requires Valid()
      modifies this
      ensures Valid() && (k.None? <==> old(live) == ceiling)
      ensures k.None? ==> contents == old(contents) && issued == old(issued) && live == old(live)
      ensures k.Some? ==> k.value !in old(issued) && issued == old(issued) + {k.value} && live == old(live) + 1
      ensures k.Some? ==> contents == old(contents)[k.value := value]
    {
      hide Built, Used, Maps, Issues, KeyOf;
      if free == [] {
        Full(slots, used);
        var grown := Grow();
        if !grown {
          return None;
        }
      }
      var i := free[|free| - 1];
      Occupy(slots, free, used, contents, issued, value);
      free := free[..|free| - 1];
      live := live + 1;
      used := used + {i};
      var key := KeyOf(i, slots[i].generation);
      slots := slots[i := slots[i].(value := Some(value))];
      contents := contents[key := value];
      issued := issued + {key};
      return Some(key);
    }

    /** The value under a key; a key that was removed names nothing, whatever uses its slot now. */
    method Get(k: Key) returns (value: Option<T>)
      requires Valid()
      ensures value == if k in contents then Some(contents[k]) else None
    {
      hide Built, Used, Issues;
      var i := Slot(k);
      if i >= |slots| || slots[i].generation != Generation(k) {
        return None;
      }
      return slots[i].value;
    }

    /** Remove a value. Its slot is reused under the next generation, unless it was the last one:
        such a slot stays counted as live for good. */
    method Remove(k: Key) returns (value: Option<T>)
      requires Valid()
      modifies this
      ensures Valid() && issued == old(issued)
      ensures value == if k in old(contents) then Some(old(contents)[k]) else None
      ensures contents == old(contents) - {k}
      ensures live == old(live) - if k in old(contents) && !Exhausted(k) then 1 else 0
    {
      hide Built, Used, Maps, Issues;
      Find(slots, contents, k);
      var i := Slot(k);
      if i >= |slots| || slots[i].generation != Generation(k) || slots[i].value.None? {
        assert contents - {k} == contents;
        return None;
      }
      value := slots[i].value;
      Vacate(slots, free, used, contents, issued, k);
      contents := contents - {k};
      if slots[i].generation < LAST_GENERATION {
        slots := slots[i := Cell(slots[i].generation + 1, None)];
        free := free + [i];
        live := live - 1;
        used := used - {i};
      } else {
        slots := slots[i := Cell(slots[i].generation, None)];
      }
    }
  }

  // ------------------------------------------------------------------- proofs

  lemma Indices(n: nat, s: set<nat>)
    requires forall i: nat :: i in s <==> i < n
    ensures |s| == n
  {
    RangeIs(n);
    assert s == Range(n);
  }

  lemma Empty<T>()
    ensures Built<T>([], []) && Used<T>([], [], {}) && Maps<T>([], map[]) && Issues<T>([], [], {})
  {}

  lemma Full<T>(slots: seq<Cell<T>>, used: set<nat>)
    requires Used(slots, [], used)
    ensures |used| == |slots|
  {
    Indices(|slots|, used);
  }

  lemma Page<T>(slots: seq<Cell<T>>, len: nat, used: set<nat>, contents: map<Key, T>, issued: set<Key>)
    requires Built(slots, []) && Used(slots, [], used) && Maps(slots, contents) && Issues(slots, [], issued)
    ensures
      var slots', free' := slots + seq(len, _ => Cell(1, None)), seq(len, j requires 0 <= j < len => |slots| + (len - 1 - j));
      Built(slots', free') && Used(slots', free', used) && Maps(slots', contents) && Issues(slots', free', issued)
  {
    hide Slot, Generation;
    var slots', free' := slots + seq(len, _ => Cell(1, None)), seq(len, j requires 0 <= j < len => |slots| + (len - 1 - j));
    forall i ensures i in free' <==> |slots| <= i < |slots'| {
      if |slots| <= i < |slots'| { assert free'[len - 1 - (i - |slots|)] == i; }
    }
    forall k ensures Holds(slots, k) <==> Holds(slots', k) {}
    forall k ensures Spent(slots, [], k) <==> Spent(slots', free', k) {}
  }

  lemma Last(s: seq<nat>)
    requires s != [] && forall j, j' :: 0 <= j < j' < |s| ==> s[j] != s[j']
    ensures forall x :: x in s <==> x in s[..|s| - 1] || x == s[|s| - 1]
    ensures s[|s| - 1] !in s[..|s| - 1]
  {
    assert s == s[..|s| - 1] + [s[|s| - 1]];
  }

  /** The slot on top of the free list takes a value. */
  lemma Occupy<T>(slots: seq<Cell<T>>, free: seq<nat>, used: set<nat>, contents: map<Key, T>, issued: set<Key>, value: T)
    requires Built(slots, free) && Used(slots, free, used) && Maps(slots, contents) && Issues(slots, free, issued)
    requires free != [] && |slots| < GENERATION_SPAN
    ensures free[|free| - 1] < |slots| && |used| < |slots| && |used + {free[|free| - 1]}| == |used| + 1
    ensures
      var i := free[|free| - 1];
      var slots', key := slots[i := slots[i].(value := Some(value))], KeyOf(i, slots[i].generation);
      && key !in issued
      && Built(slots', free[..|free| - 1]) && Used(slots', free[..|free| - 1], used + {i})
      && Maps(slots', contents[key := value]) && Issues(slots', free[..|free| - 1], issued + {key})
  {
    hide Slot, Generation, KeyOf;
    var i := free[|free| - 1];
    var slots', key := slots[i := slots[i].(value := Some(value))], KeyOf(i, slots[i].generation);
    Last(free);
    KeyParts(i, slots[i].generation);
    Fewer(slots, free, used, i);
    forall k ensures Holds(slots', k) <==> Holds(slots, k) || k == key {
      if Slot(k) == i && Generation(k) == slots[i].generation { KeyUnique(k, i, slots[i].generation); }
    }
    forall k ensures Spent(slots', free[..|free| - 1], k) <==> Spent(slots, free, k) || k == key {
      if Slot(k) == i && Generation(k) == slots[i].generation { KeyUnique(k, i, slots[i].generation); }
    }
  }

  lemma Fewer<T>(slots: seq<Cell<T>>, free: seq<nat>, used: set<nat>, i: nat)
    requires Used(slots, free, used) && i in free && i < |slots|
    ensures |used| < |slots| && i !in used
  {
    RangeIs(|slots|);
    assert used + {i} <= Range(|slots|);
    Below(used + {i}, Range(|slots|));
  }

  function Range(n: nat): set<nat> { if n == 0 then {} else Range(n - 1) + {n - 1} }

  lemma {:induction false} RangeIs(n: nat)
    ensures |Range(n)| == n && forall i: nat :: i in Range(n) <==> i < n
  {
    if n > 0 { RangeIs(n - 1); }
  }

  lemma Below(a: set<nat>, b: set<nat>)
    requires a <= b
    ensures |a| <= |b|
  {
    assert b == a + (b - a);
  }

  lemma Find<T>(slots: seq<Cell<T>>, contents: map<Key, T>, k: Key)
    requires Maps(slots, contents)
    ensures k in contents <==> Holds(slots, k)
    ensures k in contents ==> slots[Slot(k)].value == Some(contents[k])
  {}

  lemma Vacate<T>(slots: seq<Cell<T>>, free: seq<nat>, used: set<nat>, contents: map<Key, T>, issued: set<Key>, k: Key)
    requires Built(slots, free) && Used(slots, free, used) && Maps(slots, contents) && Issues(slots, free, issued)
    requires Holds(slots, k)
    ensures Slot(k) in used && |used - {Slot(k)}| == |used| - 1
    ensures
      var i := Slot(k);
      if slots[i].generation < LAST_GENERATION then
        var slots' := slots[i := Cell(slots[i].generation + 1, None)];
        && Built(slots', free + [i]) && Used(slots', free + [i], used - {i})
        && Maps(slots', contents - {k}) && Issues(slots', free + [i], issued)
      else
        var slots' := slots[i := Cell(slots[i].generation, None)];
        Built(slots', free) && Used(slots', free, used) && Maps(slots', contents - {k}) && Issues(slots', free, issued)
  {
    hide Slot, Generation, KeyOf;
    var i := Slot(k);
    assert forall x :: x in free + [i] <==> x in free || x == i;
    assert i !in free;
    forall x ensures Holds(slots[i := Cell(slots[i].generation + 1, None)], x) <==> Holds(slots, x) && x != k {
      if Slot(x) == i && Generation(x) == slots[i].generation {
        KeyUnique(x, i, slots[i].generation);
        KeyUnique(k, i, slots[i].generation);
      }
    }
    forall x ensures Holds(slots[i := Cell(slots[i].generation, None)], x) <==> Holds(slots, x) && x != k {
      if Slot(x) == i && Generation(x) == slots[i].generation {
        KeyUnique(x, i, slots[i].generation);
        KeyUnique(k, i, slots[i].generation);
      }
    }
  }
}
