/** The executor's operation slots: tokens tagged with a generation, results routed back to
    the reservation that asked for them, and staging bytes that stay lent until the native
    operation has ended, even after the future that wanted it is gone. */
module ExecutorSlots {
  import opened Types

  const INDEX_SPAN: nat := 0x1_0000_0000
  const LAST_RESERVATION: nat := 0x7FFF_FFFF
  const TAG: nat := 0x8000_0000_0000_0000

  /** A reservation of a slot. */
  datatype Ticket = Ticket(index: nat, generation: nat)
  type OpId = nat
  type Handle = nat
  /** How an operation ended: bytes moved, end of input, the write side shut, and so on. */
  datatype Outcome = HandleClosed | Moved(n: nat) | Eof | Shut | Withdrawn | Broken(error: ErrorKind) | Other(value: nat)

  predicate Encodable(t: Ticket) { t.index < INDEX_SPAN && 1 <= t.generation <= LAST_RESERVATION }

  function TokenOf(t: Ticket): nat { TAG + t.generation * INDEX_SPAN + t.index }

  /** The top bit marks the executor's own tokens; the rest is a generation and an index. */
  predicate Claimed(token: nat) { token >= TAG }

  function TicketOf(token: nat): Ticket
    requires Claimed(token)
  {
    Ticket(token % INDEX_SPAN, (token - TAG) / INDEX_SPAN)
  }

  /** Tokens fit in 64 bits and decode to exactly the reservation they name. */
  lemma TokenRoundTrip(t: Ticket)
    requires Encodable(t)
    ensures Claimed(TokenOf(t)) && TokenOf(t) < 2 * TAG && TicketOf(TokenOf(t)) == t
  {}

  /** The token of closes nobody awaits names generation zero, which is never reserved. */
  lemma InternalMatchesNothing(t: Ticket)
    requires Encodable(t)
    ensures Claimed(TAG) && TicketOf(TAG) != t
  {}

  datatype IoSlot = IoSlot(
    generation: nat, used: bool, abandoned: bool, op: Option<OpId>, closing: Option<Handle>,
    result: Option<Outcome>, bytes: seq<nat>, offset: nat)

  /** The slot still belongs to this reservation. */
  predicate Holds(slots: seq<IoSlot>, t: Ticket) {
    t.index < |slots| && slots[t.index].used && slots[t.index].generation == t.generation
  }

  predicate LentBy(slot: IoSlot, op: OpId, bytes: seq<nat>) { slot.op == Some(op) && slot.result.None? && slot.bytes == bytes }

  /** Each native operation in flight still owns the slot, and the bytes, it was submitted with. */
  ghost predicate Lent(slots: seq<IoSlot>, flights: map<OpId, Ticket>, lent: map<OpId, seq<nat>>) {
    && lent.Keys == flights.Keys
    && (forall o :: o in flights ==> Encodable(flights[o]) && Holds(slots, flights[o]) && LentBy(slots[flights[o].index], o, lent[o]))
  }

  /** A used slot waits for an operation in flight exactly while it names one without a result. Its
      future can only be gone while it waits, and a slot that watches a close waits for no operation. */
  predicate Accounted(slot: IoSlot, i: nat, flights: map<OpId, Ticket>) {
    && (slot.op.Some? && slot.result.None? ==> slot.op.value in flights && flights[slot.op.value] == Ticket(i, slot.generation))
    && (slot.abandoned ==> slot.op.Some? && slot.result.None?)
    && (slot.closing.Some? ==> slot.op.None?)
  }

  ghost predicate Tracked(slots: seq<IoSlot>, flights: map<OpId, Ticket>) {
    forall i :: 0 <= i < |slots| && slots[i].used ==> Accounted(slots[i], i, flights)
  }

  function Freed(slot: IoSlot): IoSlot { slot.(used := false, op := None, closing := None, result := None) }

  predicate Cleared(slot: IoSlot) { slot.op.None? && slot.closing.None? && slot.result.None? }

  /** What is left in flight once the operation of `t` has ended. */
  ghost function Without(flights: map<OpId, Ticket>, t: Ticket): map<OpId, Ticket> {
    map o | o in flights && flights[o] != t :: flights[o]
  }

  /** Generations say which reservations were made; free slots are clear and a reservation that is
      over holds none. */
  ghost predicate Sound(slots: seq<IoSlot>, size: nat, issued: set<Ticket>, gone: set<Ticket>) {
    && (forall i :: 0 <= i < |slots| ==> Kept(slots[i], size))
    && (forall t :: t in gone ==> t in issued && !Holds(slots, t))
    && (forall t :: t in issued <==> t.index < |slots| && 1 <= t.generation <= slots[t.index].generation)
  }

  predicate Kept(slot: IoSlot, size: nat) {
    slot.generation <= LAST_RESERVATION && |slot.bytes| == size && if slot.used then slot.generation >= 1 else Cleared(slot)
  }

  /** A slot changes within its reservation, or is given back. */
  lemma SoundMove(slots: seq<IoSlot>, size: nat, issued: set<Ticket>, gone: set<Ticket>, i: nat, slot: IoSlot)
    requires Sound(slots, size, issued, gone) && i < |slots|
    requires slot.generation == slots[i].generation && Kept(slot, size) && (slot.used ==> slots[i].used)
    ensures Sound(slots[i := slot], size, issued, gone)
    ensures slots[i].used && !slot.used ==> Sound(slots[i := slot], size, issued, gone + {Ticket(i, slot.generation)})
  {
    hide Cleared;
    assert Kept(slots[i], size);
    forall t | t in gone ensures !Holds(slots[i := slot], t) { assert !Holds(slots, t); }
  }

  lemma KeptAt(slots: seq<IoSlot>, size: nat, issued: set<Ticket>, gone: set<Ticket>, i: nat)
    requires Sound(slots, size, issued, gone) && i < |slots|
    ensures Kept(slots[i], size)
  {}

  lemma GoneAt(slots: seq<IoSlot>, size: nat, issued: set<Ticket>, gone: set<Ticket>, t: Ticket)
    requires Sound(slots, size, issued, gone)
    ensures t in gone ==> !Holds(slots, t)
  {}

  /** A free slot is reserved again, for a reservation there never was. */
  lemma SoundReserve(slots: seq<IoSlot>, size: nat, issued: set<Ticket>, gone: set<Ticket>, i: nat)
    requires Sound(slots, size, issued, gone) && i < |slots| && !slots[i].used && slots[i].generation < LAST_RESERVATION
    ensures Ticket(i, slots[i].generation + 1) !in issued && Cleared(slots[i])
    ensures Sound(slots[i := Reserved(slots[i])], size, issued + {Ticket(i, slots[i].generation + 1)}, gone)
  {
    assert Kept(slots[i], size);
    forall t | t in gone ensures !Holds(slots[i := Reserved(slots[i])], t) { assert !Holds(slots, t); }
  }

  function Reserved(slot: IoSlot): IoSlot {
    slot.(generation := slot.generation + 1, used := true, abandoned := false, offset := 0)
  }

  ghost function Remaining(lent: map<OpId, seq<nat>>, rest: map<OpId, Ticket>): map<OpId, seq<nat>> {
    map o | o in lent && o in rest :: lent[o]
  }

  class Slots {
    const size: nat
    var slots: seq<IoSlot>
    /** Native operations whose terminal completion is still to come, with the reservation that
        submitted each and the bytes it lent. */
    ghost var flights: map<OpId, Ticket>
    ghost var lent: map<OpId, seq<nat>>
    ghost var issued: set<Ticket>
    /** Reservations whose slot has been given back. */
    ghost var gone: set<Ticket>

    ghost predicate Valid()
      reads this
    {
      |slots| <= INDEX_SPAN && Lent(slots, flights, lent) && Tracked(slots, flights) && Sound(slots, size, issued, gone)
    }

    constructor (operations: nat, bufferSize: nat)
      requires operations <= INDEX_SPAN
      ensures Valid() && |slots| == operations && size == bufferSize && flights == map[] && issued == gone == {}
    {
      size := bufferSize;
      slots := seq(operations, _ => IoSlot(0, false, false, None, None, None, seq(bufferSize, _ => 0), 0));
      flights, lent, issued, gone := map[], map[], {}, {};
    }

    /** Reserve the first slot that is free and still has a generation; the reservation is new,
        and no operation in flight has its slot. */
    method Reserve() returns (r: Option<Ticket>)
      requires Valid()
      modifies this`slots, this`issued
      ensures Valid()
      ensures
        r.None? ==>
          slots == old(slots) && forall i :: 0 <= i < |slots| ==> slots[i].used || slots[i].generation == LAST_RESERVATION
      ensures r.Some? ==> Encodable(r.value) && r.value !in old(issued) && Holds(slots, r.value)
      ensures r.Some? ==> forall o :: o in flights ==> flights[o].index != r.value.index
      ensures
        r.Some? ==>
          && Cleared(slots[r.value.index]) && issued == old(issued) + {r.value} && |slots| == |old(slots)|
          && !old(slots)[r.value.index].used && slots == old(slots)[r.value.index := Reserved(old(slots)[r.value.index])]
          && forall i :: 0 <= i < r.value.index ==> slots[i].used || slots[i].generation == LAST_RESERVATION
      ensures
        r.Some? ==>
          var slot := slots[r.value.index];
          !slot.abandoned && slot.offset == 0 && slot.bytes == old(slots)[r.value.index].bytes
    {
      hide Lent, Sound;
      for i := 0 to |slots|
        invariant slots == old(slots) && issued == old(issued)
        invariant forall j :: 0 <= j < i ==> slots[j].used || slots[j].generation == LAST_RESERVATION
      {
        KeptAt(slots, size, issued, gone, i);
        if !slots[i].used && slots[i].generation < LAST_RESERVATION {
          Unlent(slots, flights, lent, i);
          var t := Ticket(i, slots[i].generation + 1);
          StillLent(slots, flights, lent, i, Reserved(slots[i]));
          SoundReserve(slots, size, issued, gone, i);
          slots := slots[i := Reserved(slots[i])];
          issued := issued + {t};
          return Some(t);
        }
      }
      return None;
    }

    /** Copy bytes into the front of a slot that lends none. */
    method Stage(t: Ticket, data: seq<nat>)
      requires Valid() && Holds(slots, t) && |data| <= size && forall o :: o in flights ==> flights[o] != t
      modifies this`slots
      ensures Valid() && slots == old(slots)[t.index := Loaded(old(slots)[t.index], data)]
      ensures |data| <= |slots[t.index].bytes| && slots[t.index].bytes[..|data|] == data
    {
      hide Lent, Sound;
      OthersLent(slots, flights, lent, t);
      KeptAt(slots, size, issued, gone, t.index);
      StillLent(slots, flights, lent, t.index, Loaded(slots[t.index], data));
      SoundMove(slots, size, issued, gone, t.index, Loaded(slots[t.index], data));
      slots := slots[t.index := Loaded(slots[t.index], data)];
    }

    /** The native side of a read fills the bytes it was lent. */
    method Fill(t: Ticket, data: seq<nat>, ghost op: OpId)
      requires Valid() && op in flights && flights[op] == t && |data| <= size
      modifies this`slots, this`lent
      ensures Valid() && Holds(old(slots), t) && slots == old(slots)[t.index := Loaded(old(slots)[t.index], data)]
    {
      hide Lent, Sound;
      Current(slots, flights, lent, t);
      KeptAt(slots, size, issued, gone, t.index);
      SoundMove(slots, size, issued, gone, t.index, Loaded(slots[t.index], data));
      Refilled(slots, flights, lent, op, data);
      slots := slots[t.index := Loaded(slots[t.index], data)];
      lent := lent[op := slots[t.index].bytes];
    }

    /** A read hands out some more of the bytes it brought. */
    method Advance(t: Ticket, offset: nat)
      requires Valid() && Holds(slots, t)
      modifies this`slots
      ensures Valid() && slots == old(slots)[t.index := old(slots)[t.index].(offset := offset)]
    {
      hide Lent, Sound;
      KeptAt(slots, size, issued, gone, t.index);
      SoundMove(slots, size, issued, gone, t.index, slots[t.index].(offset := offset));
      Reoffset(slots, flights, lent, t.index, offset);
      slots := slots[t.index := slots[t.index].(offset := offset)];
    }

    /** The driver accepted an operation: its slot and bytes are lent until it ends. */
    method Submitted(t: Ticket, op: OpId)
      requires Valid() && Encodable(t) && Holds(slots, t) && Cleared(slots[t.index]) && op !in flights
      requires forall o :: o in flights ==> flights[o] != t
      modifies this`slots, this`flights, this`lent
      ensures Valid() && slots == old(slots)[t.index := old(slots)[t.index].(op := Some(op))]
      ensures flights == old(flights)[op := t] && lent == old(lent)[op := slots[t.index].bytes]
    {
      hide Lent, Sound;
      OthersLent(slots, flights, lent, t);
      StillLent(slots, flights, lent, t.index, slots[t.index].(op := Some(op)));
      KeptAt(slots, size, issued, gone, t.index);
      SoundMove(slots, size, issued, gone, t.index, slots[t.index].(op := Some(op)));
      NowLent(slots[t.index := slots[t.index].(op := Some(op))], flights, lent, t, op);
      slots := slots[t.index := slots[t.index].(op := Some(op))];
      flights := flights[op := t];
      lent := lent[op := slots[t.index].bytes];
    }

    /** Give a slot back; its operation, if it had one, has ended or lent nothing. The reservation is
        over for good, so whatever completes under its token later reaches nobody. */
    method Free(t: Ticket)
      requires Valid() && Holds(slots, t) && forall o :: o in flights ==> flights[o] != t
      modifies this`slots, this`gone
      ensures Valid() && gone == old(gone) + {t}
      ensures slots == old(slots)[t.index := Freed(old(slots)[t.index])]
    {
      hide Lent, Sound;
      OthersLent(slots, flights, lent, t);
      StillLent(slots, flights, lent, t.index, Freed(slots[t.index]));
      KeptAt(slots, size, issued, gone, t.index);
      SoundMove(slots, size, issued, gone, t.index, Freed(slots[t.index]));
      slots := slots[t.index := Freed(slots[t.index])];
      gone := gone + {t};
    }

    /** A close future watches a handle; it has no operation of its own. */
    method Watch(t: Ticket, handle: Handle)
      requires Valid() && Holds(slots, t) && Cleared(slots[t.index])
      modifies this`slots
      ensures Valid() && slots == old(slots)[t.index := old(slots)[t.index].(closing := Some(handle))]
    {
      hide Lent, Sound;
      Idling(slots, flights, lent, t.index);
      StillLent(slots, flights, lent, t.index, slots[t.index].(closing := Some(handle)));
      KeptAt(slots, size, issued, gone, t.index);
      SoundMove(slots, size, issued, gone, t.index, slots[t.index].(closing := Some(handle)));
      slots := slots[t.index := slots[t.index].(closing := Some(handle))];
    }

    /** The future asks for its result. A read that has bytes left over keeps it; otherwise it goes
        with the slot. */
    method Poll(t: Ticket, keep: bool) returns (r: Option<Outcome>)
      requires Valid() && Holds(slots, t)
      modifies this`slots, this`gone
      ensures Valid() && r == old(slots)[t.index].result
      ensures
        slots == if r.None? || keep then old(slots)
                 else old(slots)[t.index := Freed(old(slots)[t.index])]
    {
      hide Lent, Sound;
      r := slots[t.index].result;
      if r.Some? && !keep {
        Idling(slots, flights, lent, t.index);
        Free(t);
      }
    }

    /** The future is gone. Its slot is kept exactly if an operation in flight still has its bytes; a
        connect, which lends none and is not recorded in the slot, gives the slot back at once. */
    method Abandon(t: Ticket)
      requires Valid()
      modifies this`slots, this`gone
      ensures Valid() && |slots| == |old(slots)|
      ensures Holds(slots, t) <==> exists o :: o in flights && flights[o] == t
      ensures Holds(slots, t) ==> slots[t.index] == old(slots)[t.index].(abandoned := true)
      ensures forall i :: 0 <= i < |slots| && i != t.index ==> slots[i] == old(slots)[i]
    {
      hide Lent, Sound;
      Current(slots, flights, lent, t);
      if t.index >= |slots| || !slots[t.index].used || slots[t.index].generation != t.generation {
        return;
      }
      if slots[t.index].result.Some? || slots[t.index].op.None? {
        Free(t);
      } else {
        KeptAt(slots, size, issued, gone, t.index);
        SoundMove(slots, size, issued, gone, t.index, slots[t.index].(abandoned := true));
        Retagged(slots, flights, lent, t.index);
        slots := slots[t.index := slots[t.index].(abandoned := true)];
      }
    }

    /** Whether a completion is the executor's. A `Closed` is also shown to every future that
        watches the handle, and to no other slot. */
    method Claims(token: nat, handle: Option<Handle>, result: Outcome) returns (mine: bool)
      requires Valid()
      modifies this`slots
      ensures Valid() && (mine <==> Claimed(token)) && |slots| == |old(slots)|
      ensures forall i :: 0 <= i < |slots| ==>
                var slot := old(slots)[i];
                var watches := result.HandleClosed? && handle.Some? && slot.used && slot.closing == handle;
                slots[i] == if watches then slot.(result := Some(HandleClosed)) else slot
    {
      hide Lent, Sound;
      if result.HandleClosed? {
        for i := 0 to |slots|
          invariant Valid() && |slots| == |old(slots)|
          invariant forall j :: i <= j < |slots| ==> slots[j] == old(slots)[j]
          invariant forall j :: 0 <= j < i ==>
                      var slot := old(slots)[j];
                      var watches := handle.Some? && slot.used && slot.closing == handle;
                      slots[j] == if watches then slot.(result := Some(HandleClosed)) else slot
        {
          if slots[i].used && slots[i].closing.Some? && slots[i].closing == handle {
            Idling(slots, flights, lent, i);
            StillLent(slots, flights, lent, i, slots[i].(result := Some(HandleClosed)));
            KeptAt(slots, size, issued, gone, i);
            SoundMove(slots, size, issued, gone, i, slots[i].(result := Some(HandleClosed)));
            slots := slots[i := slots[i].(result := Some(HandleClosed))];
          }
        }
      }
      return Claimed(token);
    }

    /** Route a completion the executor claims. It reaches a slot only if that slot still belongs to
        the reservation the token was made from; if an operation in flight was submitted under that
        token, this is its one terminal completion, and the loan ends. */
    method Dispatch(token: nat, result: Outcome) returns (reached: Option<Ticket>)
      requires Valid() && Claimed(token)
      modifies this`slots, this`flights, this`lent, this`gone
      ensures Valid() && |slots| == |old(slots)| && flights == Without(old(flights), TicketOf(token))
      ensures TicketOf(token) in old(gone) ==> reached.None?
      ensures reached == if Holds(old(slots), TicketOf(token)) then Some(TicketOf(token)) else None
      ensures reached.Some? ==> slots[reached.value.index] == Answered(old(slots)[reached.value.index], result)
      ensures
        reached.Some? ==>
          var slot := slots[reached.value.index];
          if old(slots)[reached.value.index].abandoned then !slot.used && reached.value in gone
          else Holds(slots, reached.value) && slot.result == Some(result)
      ensures forall i :: 0 <= i < |slots| && Some(i) != (if reached.Some? then Some(reached.value.index) else None) ==>
                slots[i] == old(slots)[i]
    {
      hide Lent, Tracked, Without, Remaining, Sound;
      var t := TicketOf(token);
      Current(slots, flights, lent, t);
      Concluded(slots, flights, lent, t);
      GoneAt(slots, size, issued, gone, t);
      if t.index >= |slots| || !slots[t.index].used || slots[t.index].generation != t.generation {
        Concerned(flights, t);
        return None;
      }
      KeptAt(slots, size, issued, gone, t.index);
      SoundMove(slots, size, issued, gone, t.index, Answered(slots[t.index], result));
      var slot := slots[t.index].(result := Some(result));
      if slot.abandoned {
        slot := Freed(slot);
        gone := gone + {t};
      }
      Answers(slots, flights, t, result);
      ghost var rest := Without(flights, t);
      StillLent(slots, rest, Remaining(lent, rest), t.index, slot);
      lent, flights := Remaining(lent, rest), rest;
      slots := slots[t.index := slot];
      return Some(t);
    }
  }

  function Loaded(slot: IoSlot, data: seq<nat>): IoSlot
    requires |data| <= |slot.bytes|
  {
    slot.(bytes := data + slot.bytes[|data|..])
  }

  /** A slot after its operation has ended: the result waits for the future, or the slot is
      free if the future is gone. */
  function Answered(slot: IoSlot, result: Outcome): IoSlot {
    if slot.abandoned then Freed(slot) else slot.(result := Some(result))
  }

  lemma OthersLent(slots: seq<IoSlot>, flights: map<OpId, Ticket>, lent: map<OpId, seq<nat>>, t: Ticket)
    requires Lent(slots, flights, lent) && Holds(slots, t) && forall o :: o in flights ==> flights[o] != t
    ensures forall o :: o in flights ==> flights[o].index != t.index
  {}

  lemma Unlent(slots: seq<IoSlot>, flights: map<OpId, Ticket>, lent: map<OpId, seq<nat>>, i: nat)
    requires Lent(slots, flights, lent) && i < |slots| && !slots[i].used
    ensures forall o :: o in flights ==> flights[o].index != i
  {}

  lemma StillLent(slots: seq<IoSlot>, flights: map<OpId, Ticket>, lent: map<OpId, seq<nat>>, i: nat, slot: IoSlot)
    requires Lent(slots, flights, lent) && i < |slots| && forall o :: o in flights ==> flights[o].index != i
    ensures Lent(slots[i := slot], flights, lent)
  {}

  lemma NowLent(slots: seq<IoSlot>, flights: map<OpId, Ticket>, lent: map<OpId, seq<nat>>, t: Ticket, op: OpId)
    requires Lent(slots, flights, lent) && op !in flights && Encodable(t) && Holds(slots, t)
    requires LentBy(slots[t.index], op, slots[t.index].bytes)
    ensures Lent(slots, flights[op := t], lent[op := slots[t.index].bytes])
  {}

  lemma Current(slots: seq<IoSlot>, flights: map<OpId, Ticket>, lent: map<OpId, seq<nat>>, t: Ticket)
    requires Lent(slots, flights, lent)
    ensures
      (exists o :: o in flights && flights[o] == t) ==>
        Holds(slots, t) && slots[t.index].op.Some? && slots[t.index].result.None?
  {}

  lemma Refilled(slots: seq<IoSlot>, flights: map<OpId, Ticket>, lent: map<OpId, seq<nat>>, op: OpId, data: seq<nat>)
    requires Lent(slots, flights, lent) && op in flights
    requires (Holds(slots, flights[op]) ==> |data| <= |slots[flights[op].index].bytes|)
    ensures Holds(slots, flights[op])
    ensures
      var slot := Loaded(slots[flights[op].index], data);
      Lent(slots[flights[op].index := slot], flights, lent[op := slot.bytes])
  {}

  lemma Reoffset(slots: seq<IoSlot>, flights: map<OpId, Ticket>, lent: map<OpId, seq<nat>>, i: nat, offset: nat)
    requires Lent(slots, flights, lent) && i < |slots|
    ensures Lent(slots[i := slots[i].(offset := offset)], flights, lent)
  {}

  lemma Retagged(slots: seq<IoSlot>, flights: map<OpId, Ticket>, lent: map<OpId, seq<nat>>, i: nat)
    requires Lent(slots, flights, lent) && i < |slots|
    ensures Lent(slots[i := slots[i].(abandoned := true)], flights, lent)
  {}

  lemma Idling(slots: seq<IoSlot>, flights: map<OpId, Ticket>, lent: map<OpId, seq<nat>>, i: nat)
    requires Lent(slots, flights, lent) && i < |slots| && (slots[i].op.None? || slots[i].result.Some?)
    ensures forall o :: o in flights ==> flights[o].index != i
  {}

  lemma Answers(slots: seq<IoSlot>, flights: map<OpId, Ticket>, t: Ticket, result: Outcome)
    requires Tracked(slots, flights) && Holds(slots, t)
    ensures Tracked(slots[t.index := Answered(slots[t.index], result)], Without(flights, t))
  {
    assert Accounted(slots[t.index], t.index, flights);
  }

  lemma Concerned(flights: map<OpId, Ticket>, t: Ticket)
    requires forall o :: o in flights ==> flights[o] != t
    ensures Without(flights, t) == flights
  {}

  lemma Concluded(slots: seq<IoSlot>, flights: map<OpId, Ticket>, lent: map<OpId, seq<nat>>, t: Ticket)
    requires Lent(slots, flights, lent)
    ensures
      var rest := Without(flights, t);
      && Lent(slots, rest, Remaining(lent, rest))
      && (Holds(slots, t) ==> forall o :: o in rest ==> rest[o].index != t.index)
  {}
}
