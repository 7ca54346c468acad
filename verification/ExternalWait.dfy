/** The external-wait service: registrations in a fixed table, one helper thread that scans
    it, and conditions whose generation counts notifications. Each method is one section
    under the service's lock, or one write by a host outside it. */
module ExternalWait {
  import opened Types

  datatype Id = Id(owner: nat, key: Key)
  type Name = nat
  /** The host's shared value, and how often it was notified. */
  datatype Condition = Condition(value: nat, generation: nat)
  datatype Wait = Wait(op: Id, condition: Name, generation: nat, expected: nat, deadline: Option<Instant>)
  datatype Reason = NotEqual | Notified | Expired | Withdrawn
  datatype Report = Report(op: Id, reason: Reason)

  /** Why a registered wait is over, if it is. */
  function Ready(w: Wait, conditions: map<Name, Condition>, now: Instant): Option<Reason> {
    if w.condition !in conditions then None
    else if conditions[w.condition].value != w.expected || conditions[w.condition].generation != w.generation then
      Some(Notified)
    else if w.deadline.Some? && w.deadline.value <= now then Some(Expired)
    else None
  }

  /** What one scan leaves registered, and what it reports, in table order. */
  function Kept(slot: Option<Wait>, conditions: map<Name, Condition>, now: Instant): Option<Wait> {
    if slot.Some? && Ready(slot.value, conditions, now).Some? then None else slot
  }

  /** The host stores values outside the lock; generations move only under it. */
  function Stored(conditions: map<Name, Condition>, values: map<Name, nat>): map<Name, Condition> {
    map c | c in conditions :: if c in values then conditions[c].(value := values[c]) else conditions[c]
  }

  /** The conditions as a scan sees them, once the host has made the stores before its `n`-th look. */
  function Seen(conditions: map<Name, Condition>, stores: seq<map<Name, nat>>, n: nat): map<Name, Condition> {
    if n == 0 then conditions else Stored(Seen(conditions, stores, n - 1), if n <= |stores| then stores[n - 1] else map[])
  }

  lemma {:induction false} SeenGenerations(conditions: map<Name, Condition>, stores: seq<map<Name, nat>>, n: nat)
    ensures Seen(conditions, stores, n).Keys == conditions.Keys
    ensures forall c :: c in conditions ==> Seen(conditions, stores, n)[c].generation == conditions[c].generation
  {
    if n > 0 { SeenGenerations(conditions, stores, n - 1); }
  }

  function Reports(waits: seq<Option<Wait>>, conditions: map<Name, Condition>, stores: seq<map<Name, nat>>, now: Instant): seq<Report> {
    if waits == [] then []
    else
      var slot, rest := waits[|waits| - 1], Reports(waits[..|waits| - 1], conditions, stores, now);
      var seen := Seen(conditions, stores, |waits|);
      if slot.Some? && Ready(slot.value, seen, now).Some? then rest + [Report(slot.value.op, Ready(slot.value, seen, now).value)] else rest
  }

  /** `waits'` has one more wait, in a slot that was free. */
  ghost predicate Joined(waits: seq<Option<Wait>>, waits': seq<Option<Wait>>, w: Wait) {
    exists i :: 0 <= i < |waits| && waits[i].None? && waits' == waits[i := Some(w)]
  }

  predicate Registered(waits: seq<Option<Wait>>, op: Id) { exists i :: 0 <= i < |waits| && waits[i].Some? && waits[i].value.op == op }

  predicate Reported(published: seq<Report>, op: Id) { exists i :: 0 <= i < |published| && published[i].op == op }

  /** No operation is registered twice, reported twice, or both. */
  ghost predicate Once(waits: seq<Option<Wait>>, published: seq<Report>) {
    && (forall i, j :: 0 <= i < j < |waits| && waits[i].Some? && waits[j].Some? ==> waits[i].value.op != waits[j].value.op)
    && (forall i, j :: 0 <= i < j < |published| ==> published[i].op != published[j].op)
    && (forall i, j :: 0 <= i < |waits| && waits[i].Some? && 0 <= j < |published| ==> waits[i].value.op != published[j].op)
  }

  /** Every registered wait has the current generation of its condition: none was notified unseen. */
  ghost predicate Current(waits: seq<Option<Wait>>, conditions: map<Name, Condition>) {
    forall i :: 0 <= i < |waits| && waits[i].Some? ==>
      waits[i].value.condition in conditions && waits[i].value.generation == conditions[waits[i].value.condition].generation
  }

  /** Conditions exist and generations never run ahead. */
  ghost predicate Known(waits: seq<Option<Wait>>, conditions: map<Name, Condition>) {
    forall i :: 0 <= i < |waits| && waits[i].Some? ==>
      waits[i].value.condition in conditions && waits[i].value.generation <= conditions[waits[i].value.condition].generation
  }

  /** A wait that was registered when its condition was notified is behind it for good. */
  ghost predicate Behind(waits: seq<Option<Wait>>, conditions: map<Name, Condition>, notified: set<Id>) {
    forall i :: 0 <= i < |waits| && waits[i].Some? && waits[i].value.op in notified ==>
      waits[i].value.condition in conditions && waits[i].value.generation < conditions[waits[i].value.condition].generation
  }

  function On(waits: seq<Option<Wait>>, c: Name): set<Id> {
    set i | 0 <= i < |waits| && waits[i].Some? && waits[i].value.condition == c :: waits[i].value.op
  }

  class Service {
    var waits: seq<Option<Wait>>
    var conditions: map<Name, Condition>
    /** Whether the helper waits for a signal. */
    var parked: bool
    ghost var published: seq<Report>
    /** Operations whose condition was notified since they were registered. */
    ghost var notified: set<Id>

    ghost predicate Valid()
      reads this
    {
      && Once(waits, published) && Known(waits, conditions) && Behind(waits, conditions, notified)
      && (parked ==> Current(waits, conditions))
    }

    constructor (capacity: nat)
      ensures Valid() && |waits| == capacity && published == [] && notified == {} && !parked
    {
      waits, conditions, parked, published, notified := seq(capacity, _ => None), map[], false, [], {};
    }

    /** A host creates a condition, or changes its value without telling the service. */
    method Set(c: Name, value: nat)
      requires Valid()
      modifies this`conditions
      ensures Valid()
      ensures conditions == old(conditions)[c := Condition(value, if c in old(conditions) then old(conditions)[c].generation else 0)]
    {
      conditions := conditions[c := Condition(value, if c in conditions then conditions[c].generation else 0)];
    }

    /** Wake the registrations of a condition, even if its value is what they expect. */
    method Notify(c: Name)
      requires Valid() && c in conditions
      modifies this`conditions, this`parked, this`notified
      ensures Valid() && !parked && notified == old(notified) + On(waits, c)
      ensures conditions == old(conditions)[c := old(conditions)[c].(generation := old(conditions)[c].generation + 1)]
    {
      notified := notified + On(waits, c);
      conditions := conditions[c := conditions[c].(generation := conditions[c].generation + 1)];
      parked := false;
    }

    /** Register a wait, or report at once that the value already differs. */
    method Submit(op: Id, c: Name, expected: nat, deadline: Option<Instant>) returns (ok: bool)
      requires Valid() && c in conditions && !Registered(waits, op) && !Reported(published, op)
      modifies this`waits, this`parked, this`published, this`notified
      ensures Valid() && |waits| == |old(waits)| && notified == old(notified) - {op}
      ensures
        conditions[c].value != expected ==>
          ok && published == old(published) + [Report(op, NotEqual)] && waits == old(waits)
      ensures conditions[c].value == expected ==> published == old(published) && (ok <==> None in old(waits))
      ensures
        conditions[c].value == expected && ok ==>
          !parked && Joined(old(waits), waits, Wait(op, c, conditions[c].generation, expected, deadline))
      ensures !ok ==> waits == old(waits)
    {
      notified := notified - {op};
      if conditions[c].value != expected {
        ReportOnce(waits, published, Report(op, NotEqual));
        published := published + [Report(op, NotEqual)];
        return true;
      }
      var i := FindFree(waits);
      if i == |waits| {
        return false;
      }
      var w := Wait(op, c, conditions[c].generation, expected, deadline);
      RegisterOnce(waits, published, i, w);
      waits := waits[i := Some(w)];
      parked := false;
      return true;
    }

    /** Withdraw a wait, reporting its cancellation if it was still registered. */
    method Cancel(op: Id)
      requires Valid()
      modifies this`waits, this`parked, this`published
      ensures Valid() && !Registered(waits, op) && |waits| == |old(waits)|
      ensures forall i :: 0 <= i < |waits| && !(old(waits)[i].Some? && old(waits)[i].value.op == op) ==>
                waits[i] == old(waits)[i]
      ensures published == if Registered(old(waits), op) then old(published) + [Report(op, Withdrawn)] else old(published)
    {
      var i := FindOp(waits, op);
      if i == |waits| {
        return;
      }
      WithdrawOnce(waits, published, i, Withdrawn);
      waits := waits[i := None];
      published := published + [Report(op, Withdrawn)];
      parked := false;
    }

    /** A loop is gone: its waits are dropped and nothing is reported for them. */
    method Close(owner: nat)
      requires Valid()
      modifies this`waits, this`parked
      ensures Valid() && |waits| == |old(waits)|
      ensures forall i :: 0 <= i < |waits| ==>
                waits[i] == if old(waits)[i].Some? && old(waits)[i].value.op.owner == owner then None else old(waits)[i]
    {
      for i := 0 to |waits|
        invariant Valid() && |waits| == |old(waits)|
        invariant forall j :: 0 <= j < |waits| ==>
                    waits[j] == if j < i && old(waits)[j].Some? && old(waits)[j].value.op.owner == owner then None else old(waits)[j]
      {
        if waits[i].Some? && waits[i].value.op.owner == owner {
          waits := waits[i := None];
        }
      }
      parked := false;
    }

    /** The helper wakes: a signal, a deadline, or for no reason. */
    method Wake()
      requires Valid()
      modifies this`parked
      ensures Valid() && !parked
    {
      parked := false;
    }

    /** The helper's scan: report every wait that is over and park until the earliest deadline left.
        The host may store values before each look. */
    method Scan(now: Instant, stores: seq<map<Name, nat>>) returns (earliest: Option<Instant>)
      requires Valid() && !parked
      modifies this`waits, this`parked, this`published, this`conditions
      ensures Valid() && parked && |waits| == |old(waits)| && conditions == Seen(old(conditions), stores, |waits|)
      ensures forall i :: 0 <= i < |waits| && waits[i].Some? ==> waits[i].value.op !in notified
      ensures published == old(published) + Reports(old(waits), old(conditions), stores, now)
      ensures forall i :: 0 <= i < |waits| ==> waits[i] == Kept(old(waits)[i], Seen(old(conditions), stores, i + 1), now)
      ensures forall i :: 0 <= i < |waits| && waits[i].Some? && waits[i].value.deadline.Some? ==>
                earliest.Some? && earliest.value <= waits[i].value.deadline.value
      ensures earliest.Some? ==> exists i :: 0 <= i < |waits| && waits[i].Some? && waits[i].value.deadline == earliest
      ensures forall i :: 0 <= i < |waits| && old(waits)[i].None? ==> waits[i].None?
      ensures forall i :: 0 <= i < |waits| && old(waits)[i].Some? ==>
                var w, seen := old(waits)[i].value, Seen(old(conditions), stores, i + 1);
                && w.condition in seen
                && var c := seen[w.condition];
                   if c.value != w.expected || c.generation != w.generation then
                     waits[i].None? && Report(w.op, Notified) in published
                   else if w.deadline.Some? && w.deadline.value <= now then
                     waits[i].None? && Report(w.op, Expired) in published
                   else waits[i] == old(waits)[i] && !Reported(published, w.op)
    {
      hide Once, Seen, Known, Behind, Current, Ready, Stored;
      earliest := None;
      SeenNone(conditions, stores);
      for i := 0 to |waits|
        invariant Once(waits, published) && Known(waits, conditions) && Behind(waits, conditions, notified)
        invariant |waits| == |old(waits)|
        invariant conditions == Seen(old(conditions), stores, i)
        invariant published == old(published) + Reports(old(waits)[..i], old(conditions), stores, now)
        invariant forall j :: 0 <= j < |waits| ==>
                    waits[j] == if j < i then Kept(old(waits)[j], Seen(old(conditions), stores, j + 1), now) else old(waits)[j]
        invariant forall j :: 0 <= j < i && waits[j].Some? && waits[j].value.deadline.Some? ==>
                    earliest.Some? && earliest.value <= waits[j].value.deadline.value
        invariant earliest.Some? ==> exists j :: 0 <= j < i && waits[j].Some? && waits[j].value.deadline == earliest
      {
        assert old(waits)[..i + 1][..i] == old(waits)[..i];
        SeenMore(old(conditions), stores, i);
        StoresKeep(waits, conditions, notified, if i < |stores| then stores[i] else map[]);
        conditions := Stored(conditions, if i < |stores| then stores[i] else map[]);
        if waits[i].Some? {
          var w := waits[i].value;
          var reason := Ready(w, conditions, now);
          if reason.Some? {
            WithdrawOnce(waits, published, i, reason.value);
            DropKeeps(waits, conditions, notified, i);
            waits := waits[i := None];
            published := published + [Report(w.op, reason.value)];
          } else if w.deadline.Some? {
            earliest := if earliest.Some? && earliest.value <= w.deadline.value then earliest else w.deadline;
          }
        }
      }
      assert old(waits)[..|waits|] == old(waits);
      ScanCurrent(old(waits), waits, old(conditions), stores, now);
      NoneBehind(waits, conditions, notified);
      forall i | 0 <= i < |waits| && old(waits)[i].Some?
        ensures Concluded(old(waits), old(conditions), stores, now, i, waits[i], published)
      {
        ScanConcludes(old(waits), old(conditions), stores, now, i, waits, old(published), published);
      }
      parked := true;
    }
  }

  /** How a scan deals with one registered wait: a condition whose value or generation is not what the
      wait knows ends it as notified, and a deadline that has passed as expired; any other wait stays,
      and nothing is reported for it. */
  ghost predicate Concluded(
    waits: seq<Option<Wait>>, conditions: map<Name, Condition>, stores: seq<map<Name, nat>>, now: Instant, i: nat,
    slot: Option<Wait>, published: seq<Report>)
    requires i < |waits| && waits[i].Some?
  {
    var w, seen := waits[i].value, Seen(conditions, stores, i + 1);
    && w.condition in seen
    && var c := seen[w.condition];
       if c.value != w.expected || c.generation != w.generation then slot.None? && Report(w.op, Notified) in published
       else if w.deadline.Some? && w.deadline.value <= now then slot.None? && Report(w.op, Expired) in published
       else slot == waits[i] && !Reported(published, w.op)
  }

  lemma ScanConcludes(
    waits: seq<Option<Wait>>, conditions: map<Name, Condition>, stores: seq<map<Name, nat>>, now: Instant, i: nat,
    waits': seq<Option<Wait>>, before: seq<Report>, published: seq<Report>)
    requires Known(waits, conditions) && i < |waits| == |waits'| && waits[i].Some? && Once(waits', published)
    requires waits'[i] == Kept(waits[i], Seen(conditions, stores, i + 1), now)
    requires published == before + Reports(waits, conditions, stores, now)
    ensures Concluded(waits, conditions, stores, now, i, waits'[i], published)
  {
    hide Seen;
    SeenGenerations(conditions, stores, i + 1);
    var w, seen := waits[i].value, Seen(conditions, stores, i + 1);
    if Ready(w, seen, now).Some? {
      ReportsAt(waits, conditions, stores, now, i);
      var reports := Reports(waits, conditions, stores, now);
      var r := Report(w.op, Ready(w, seen, now).value);
      var j :| 0 <= j < |reports| && reports[j] == r;
      assert published[|before| + j] == r;
    }
  }

  /** The value a look sees is the last one stored before it; generations do not move. */
  lemma SeenLatest(conditions: map<Name, Condition>, stores: seq<map<Name, nat>>, n: nat, c: Name)
    requires c in conditions
    ensures c in Seen(conditions, stores, n) && c in Seen(conditions, stores, n + 1) && Seen(conditions, stores, 0)[c] == conditions[c]
    ensures Seen(conditions, stores, n + 1)[c].generation == conditions[c].generation
    ensures
      Seen(conditions, stores, n + 1)[c].value ==
        if n < |stores| && c in stores[n] then stores[n][c] else Seen(conditions, stores, n)[c].value
  {
    SeenGenerations(conditions, stores, n);
    SeenGenerations(conditions, stores, n + 1);
  }

  lemma SeenNone(conditions: map<Name, Condition>, stores: seq<map<Name, nat>>)
    ensures Seen(conditions, stores, 0) == conditions
  {}

  lemma SeenMore(conditions: map<Name, Condition>, stores: seq<map<Name, nat>>, i: nat)
    ensures Seen(conditions, stores, i + 1) == Stored(Seen(conditions, stores, i), if i < |stores| then stores[i] else map[])
  {}

  lemma StoresKeep(waits: seq<Option<Wait>>, conditions: map<Name, Condition>, notified: set<Id>, values: map<Name, nat>)
    requires Known(waits, conditions) && Behind(waits, conditions, notified)
    ensures Known(waits, Stored(conditions, values)) && Behind(waits, Stored(conditions, values), notified)
  {}

  lemma DropKeeps(waits: seq<Option<Wait>>, conditions: map<Name, Condition>, notified: set<Id>, i: nat)
    requires Known(waits, conditions) && Behind(waits, conditions, notified) && i < |waits|
    ensures Known(waits[i := None], conditions) && Behind(waits[i := None], conditions, notified)
  {}

  /** A wait at the current generation was not notified since it was registered. */
  lemma NoneBehind(waits: seq<Option<Wait>>, conditions: map<Name, Condition>, notified: set<Id>)
    requires Behind(waits, conditions, notified) && Current(waits, conditions)
    ensures forall i :: 0 <= i < |waits| && waits[i].Some? ==> waits[i].value.op !in notified
  {}

  /** What a scan leaves has its condition's current generation. */
  lemma ScanCurrent(
    waits: seq<Option<Wait>>, waits': seq<Option<Wait>>, conditions: map<Name, Condition>, stores: seq<map<Name, nat>>, now: Instant)
    requires Known(waits, conditions) && |waits'| == |waits|
    requires forall i :: 0 <= i < |waits| ==> waits'[i] == Kept(waits[i], Seen(conditions, stores, i + 1), now)
    ensures Current(waits', Seen(conditions, stores, |waits|))
  {
    hide Seen;
    SeenGenerations(conditions, stores, |waits|);
    forall i | 0 <= i < |waits| && waits'[i].Some?
      ensures
        var w, seen := waits'[i].value, Seen(conditions, stores, |waits|);
        w.condition in seen && w.generation == seen[w.condition].generation
    {
      SeenGenerations(conditions, stores, i + 1);
      assert waits'[i] == Kept(waits[i], Seen(conditions, stores, i + 1), now);
    }
  }

  method FindFree(waits: seq<Option<Wait>>) returns (i: nat)
    ensures i <= |waits| && (i < |waits| ==> waits[i].None?) && (i == |waits| <==> None !in waits)
  {
    for j := 0 to |waits|
      invariant forall k :: 0 <= k < j ==> waits[k].Some?
    {
      if waits[j].None? {
        return j;
      }
    }
    return |waits|;
  }

  method FindOp(waits: seq<Option<Wait>>, op: Id) returns (i: nat)
    ensures i <= |waits| && (i < |waits| <==> Registered(waits, op))
    ensures i < |waits| ==> waits[i].Some? && waits[i].value.op == op
  {
    for j := 0 to |waits|
      invariant forall k :: 0 <= k < j && waits[k].Some? ==> waits[k].value.op != op
    {
      if waits[j].Some? && waits[j].value.op == op {
        return j;
      }
    }
    return |waits|;
  }

  lemma ReportOnce(waits: seq<Option<Wait>>, published: seq<Report>, r: Report)
    requires Once(waits, published) && !Registered(waits, r.op) && !Reported(published, r.op)
    ensures Once(waits, published + [r])
  {}

  lemma RegisterOnce(waits: seq<Option<Wait>>, published: seq<Report>, i: nat, w: Wait)
    requires Once(waits, published) && i < |waits| && waits[i].None? && !Registered(waits, w.op) && !Reported(published, w.op)
    ensures Once(waits[i := Some(w)], published)
  {}

  lemma WithdrawOnce(waits: seq<Option<Wait>>, published: seq<Report>, i: nat, reason: Reason)
    requires Once(waits, published) && i < |waits| && waits[i].Some?
    ensures Once(waits[i := None], published + [Report(waits[i].value.op, reason)])
    ensures !Registered(waits[i := None], waits[i].value.op)
  {}

  /** A notification is never lost: whatever else happens before the next scan, and whatever the host
      stores during it, it reports every wait that was registered when its condition was notified. */
  lemma NotifyReaches(
    waits: seq<Option<Wait>>, conditions: map<Name, Condition>, stores: seq<map<Name, nat>>, now: Instant, i: nat)
    requires i < |waits| && waits[i].Some? && waits[i].value.condition in conditions
    requires waits[i].value.generation != conditions[waits[i].value.condition].generation
    ensures Kept(waits[i], Seen(conditions, stores, i + 1), now).None?
    ensures Report(waits[i].value.op, Notified) in Reports(waits, conditions, stores, now)
  {
    hide Seen;
    SeenGenerations(conditions, stores, i + 1);
    ReportsAt(waits, conditions, stores, now, i);
  }

  lemma {:induction false} ReportsAt(
    waits: seq<Option<Wait>>, conditions: map<Name, Condition>, stores: seq<map<Name, nat>>, now: Instant, i: nat)
    requires i < |waits| && waits[i].Some? && Ready(waits[i].value, Seen(conditions, stores, i + 1), now).Some?
    ensures
      var reason := Ready(waits[i].value, Seen(conditions, stores, i + 1), now).value;
      Report(waits[i].value.op, reason) in Reports(waits, conditions, stores, now)
  {
    hide Seen;
    if i < |waits| - 1 { ReportsAt(waits[..|waits| - 1], conditions, stores, now, i); }
  }
}
