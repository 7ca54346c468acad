/** The executor's byte-stream adapter over the shared slots: bytes are staged in a slot that stays
    lent until the native operation has ended, one operation at a time each way, and a poll that
    reports Pending has no effect on the bytes. Native completions, and whatever other futures do
    with their own slots, are the environment's steps. */
module AsyncStream {
  import opened Types
  import opened ExecutorSlots

  type Byte = nat
  datatype Poll<T> = Pending | Ready(result: Result<T>)

  const BROKEN_PIPE: ErrorKind := ErrorKind.Other(3)
  const NOT_CONNECTED: ErrorKind := ErrorKind.Other(4)
  const UNEXPECTED: ErrorKind := ErrorKind.Other(8)

  /** A native operation with the reservation it has and the number of bytes it was given. */
  datatype Flight = Flight(op: OpId, ticket: Ticket, n: nat)

  /** What a native write found in its slot when it ended, and how it ended. */
  datatype Chunk = Chunk(bytes: seq<Byte>, outcome: Outcome)

  function Concat(chunks: seq<Chunk>): seq<Byte> {
    if chunks == [] then [] else Concat(chunks[..|chunks| - 1]) + chunks[|chunks| - 1].bytes
  }

  lemma ConcatMore(chunks: seq<Chunk>, c: Chunk)
    ensures Concat(chunks + [c]) == Concat(chunks) + c.bytes
  {
    assert (chunks + [c])[..|chunks|] == chunks;
  }

  // ------------------------------------------------------------- invariants

  predicate Flown(slots: seq<IoSlot>, flights: map<OpId, Ticket>, f: Option<Flight>) {
    f.Some? ==>
      && f.value.op in flights && flights[f.value.op] == f.value.ticket && Encodable(f.value.ticket)
      && Holds(slots, f.value.ticket) && slots[f.value.ticket.index].op.Some?
      && f.value.n <= |slots[f.value.ticket.index].bytes|
  }

  /** A direction holds a slot while its operation is in flight or its result waits. */
  predicate Side(slots: seq<IoSlot>, held: Option<Ticket>, f: Option<Flight>, dropped: bool) {
    && (held.Some? ==>
          && !dropped && Holds(slots, held.value) && !slots[held.value.index].abandoned && slots[held.value.index].op.Some?
          && (if f.Some? then f.value.ticket == held.value && slots[held.value.index].result.None?
              else slots[held.value.index].result.Some?))
    && (held.None? && !dropped ==> f.None?)
  }

  /** The slot a direction has, as long as it or its operation has one. */
  function Spot(held: Option<Ticket>, f: Option<Flight>): Option<nat> {
    if held.Some? then Some(held.value.index) else if f.Some? then Some(f.value.ticket.index) else None
  }

  predicate Apart(a: Option<nat>, b: Option<nat>) { a.Some? ==> a != b }

  /** The bytes a native write will find in its slot. */
  function Staged(slots: seq<IoSlot>, f: Option<Flight>): seq<Byte> {
    if f.Some? && f.value.ticket.index < |slots| && f.value.n <= |slots[f.value.ticket.index].bytes|
    then slots[f.value.ticket.index].bytes[..f.value.n] else []
  }

  /** What was accepted is what ended writes found in their slots and what the pending one will find;
      the outcome of the last one waits in its slot until it is reported. */
  predicate WriteSide(
    slots: seq<IoSlot>, held: Option<Ticket>, f: Option<Flight>, dropped: bool, accepted: seq<Byte>, ended: seq<Chunk>, reported: nat)
  {
    && accepted == Concat(ended) + Staged(slots, f)
    && (!dropped ==> reported + One(held.Some? && f.None?) == |ended|)
    && (held.Some? && f.None? && held.value.index < |slots| && ended != [] ==>
          slots[held.value.index].result == Some(ended[|ended| - 1].outcome))
  }

  /** Bytes a native read delivered that no caller has received yet. */
  function Left(slots: seq<IoSlot>, held: Option<Ticket>): seq<Byte> {
    if held.Some? && held.value.index < |slots| && Brought(slots[held.value.index])
    then slots[held.value.index].bytes[slots[held.value.index].offset..slots[held.value.index].result.value.n] else []
  }

  predicate Brought(slot: IoSlot) {
    slot.result.Some? && slot.result.value.Moved? && slot.offset <= slot.result.value.n <= |slot.bytes|
  }

  predicate ReadSide(slots: seq<IoSlot>, held: Option<Ticket>, dropped: bool, arrived: seq<Byte>, returned: seq<Byte>) {
    && (!dropped ==> arrived == returned + Left(slots, held))
    && (ResultAt(slots, held).Some? && ResultAt(slots, held).value.Moved? ==> Brought(slots[held.value.index]))
    && (held.Some? && held.value.index < |slots| && slots[held.value.index].result.None? ==> slots[held.value.index].offset == 0)
  }

  function ResultAt(slots: seq<IoSlot>, held: Option<Ticket>): Option<Outcome> {
    if held.Some? && held.value.index < |slots| then slots[held.value.index].result else None
  }

  /** A native operation that has not ended yet. */
  predicate Underway(slots: seq<IoSlot>, held: Option<Ticket>) {
    held.Some? && held.value.index < |slots| && slots[held.value.index].result.None?
  }

  /** What a flush reports: nothing to wait for, or how the accepted write ended. */
  function Flushed(slots: seq<IoSlot>, held: Option<Ticket>): Result<bool> {
    if held.None? || held.value.index >= |slots| || slots[held.value.index].result.None? then Ok(true)
    else match slots[held.value.index].result.value
      case Moved(_) => Ok(true)
      case Broken(e) => Err(e)
      case _ => Err(UNEXPECTED)
  }

  /** The slots once a flush that found the write ended has given its slot back. */
  function AfterFlush(slots: seq<IoSlot>, held: Option<Ticket>): seq<IoSlot> {
    if held.Some? && held.value.index < |slots| then slots[held.value.index := Freed(slots[held.value.index])] else slots
  }

  predicate Worn(slots: seq<IoSlot>) { forall i :: 0 <= i < |slots| ==> slots[i].used || slots[i].generation == LAST_RESERVATION }

  /** What the adapter's own fields leave out: the native operations that have not ended, bytes
      native reads delivered and callers received, bytes callers were told are accepted, what ended
      writes found in their slots, and how many of their outcomes a caller has seen. */
  datatype Book = Book(
    dropped: bool, reading: Option<Flight>, writing: Option<Flight>, shutting: Option<Flight>,
    arrived: seq<Byte>, returned: seq<Byte>, accepted: seq<Byte>, ended: seq<Chunk>, reported: nat)

  /** The adapter's fields. */
  datatype Ends = Ends(read: Option<Ticket>, write: Option<Ticket>, shutdown: Option<Ticket>, writeShut: bool)

  ghost predicate Fits(slots: seq<IoSlot>, flights: map<OpId, Ticket>, e: Ends, b: Book) {
    && Flown(slots, flights, b.reading) && Flown(slots, flights, b.writing) && Flown(slots, flights, b.shutting)
    && Side(slots, e.read, b.reading, b.dropped) && Side(slots, e.write, b.writing, b.dropped)
    && Side(slots, e.shutdown, b.shutting, b.dropped)
    && Apart(Spot(e.read, b.reading), Spot(e.write, b.writing)) && Apart(Spot(e.read, b.reading), Spot(e.shutdown, b.shutting))
    && Apart(Spot(e.write, b.writing), Spot(e.shutdown, b.shutting))
    && WriteSide(slots, e.write, b.writing, b.dropped, b.accepted, b.ended, b.reported)
    && ReadSide(slots, e.read, b.dropped, b.arrived, b.returned)
    && (e.shutdown.Some? || e.writeShut ==> e.write.None?)
  }

  predicate Uses(e: Ends, b: Book, i: nat) {
    Some(i) == Spot(e.read, b.reading) || Some(i) == Spot(e.write, b.writing) || Some(i) == Spot(e.shutdown, b.shutting)
  }

  predicate Same(flights: map<OpId, Ticket>, flights': map<OpId, Ticket>, f: Option<Flight>) {
    f.Some? && f.value.op in flights ==> f.value.op in flights' && flights'[f.value.op] == flights[f.value.op]
  }

  /** Whatever happens to other slots and other operations. */
  lemma FitsElsewhere(
    slots: seq<IoSlot>, flights: map<OpId, Ticket>, slots': seq<IoSlot>, flights': map<OpId, Ticket>, e: Ends, b: Book)
    requires Fits(slots, flights, e, b) && |slots'| == |slots|
    requires forall i :: 0 <= i < |slots| && Uses(e, b, i) ==> slots'[i] == slots[i]
    requires Same(flights, flights', b.reading) && Same(flights, flights', b.writing) && Same(flights, flights', b.shutting)
    ensures Fits(slots', flights', e, b)
  {}

  /** The slot a direction has is in use. */
  lemma UsesUsed(slots: seq<IoSlot>, flights: map<OpId, Ticket>, e: Ends, b: Book, i: nat)
    requires Fits(slots, flights, e, b) && Uses(e, b, i)
    ensures i < |slots| && slots[i].used && slots[i].op.Some?
  {}

  lemma FitsFlush(slots: seq<IoSlot>, flights: map<OpId, Ticket>, e: Ends, b: Book)
    requires Fits(slots, flights, e, b) && e.write.Some? && e.write.value.index < |slots|
    requires slots[e.write.value.index].result.Some?
    ensures
      var i := e.write.value.index;
      Fits(slots[i := Freed(slots[i])], flights, e.(write := None), b.(reported := b.reported + 1))
    ensures b.reported + 1 == |b.ended|
  {
    var i := e.write.value.index;
    var slots' := slots[i := Freed(slots[i])];
    assert Left(slots', e.read) == Left(slots, e.read);
  }

  /** The outcome that waits in a held slot is that of the write that ended last. */
  lemma LastEnded(slots: seq<IoSlot>, flights: map<OpId, Ticket>, e: Ends, b: Book)
    requires Fits(slots, flights, e, b) && !b.dropped && e.write.Some? && ResultAt(slots, e.write).Some?
    ensures b.ended != [] && ResultAt(slots, e.write) == Some(b.ended[|b.ended| - 1].outcome)
  {}

  /** A slot of its own, lent to a native operation. */
  predicate Opens(slots: seq<IoSlot>, flights: map<OpId, Ticket>, e: Ends, b: Book, t: Ticket, op: OpId) {
    && !b.dropped && Holds(slots, t) && Encodable(t) && !Uses(e, b, t.index)
    && !slots[t.index].abandoned && slots[t.index].result.None? && slots[t.index].offset == 0 && op !in flights
  }

  /** The native side takes the staged bytes: they are the pending part of what was accepted. */
  lemma FitsWrite(slots: seq<IoSlot>, flights: map<OpId, Ticket>, e: Ends, b: Book, t: Ticket, op: OpId, data: seq<Byte>)
    requires Fits(slots, flights, e, b) && Opens(slots, flights, e, b, t, op) && e.write.None? && e.shutdown.None?
    requires !e.writeShut
    requires |data| <= |slots[t.index].bytes| && slots[t.index].bytes[..|data|] == data
    ensures
      Fits(slots[t.index := slots[t.index].(op := Some(op))], flights[op := t], e.(write := Some(t)),
           b.(writing := Some(Flight(op, t, |data|)), accepted := b.accepted + data))
  {
    var slots' := slots[t.index := slots[t.index].(op := Some(op))];
    assert Left(slots', e.read) == Left(slots, e.read);
    assert Staged(slots', Some(Flight(op, t, |data|))) == data;
  }

  /** The native write ends: what it found in its slot is what was accepted. */
  lemma FitsWritten(slots: seq<IoSlot>, flights: map<OpId, Ticket>, e: Ends, b: Book, outcome: Outcome)
    requires Fits(slots, flights, e, b) && b.writing.Some?
    ensures
      var t := b.writing.value.ticket;
      && t.index < |slots|
      && Fits(slots[t.index := Answered(slots[t.index], outcome)], Without(flights, t), e,
              b.(writing := None, ended := b.ended + [Chunk(Staged(slots, b.writing), outcome)]))
  {
    hide WriteSide;
    var t := b.writing.value.ticket;
    WrittenSide(slots, e.write, b.writing, b.dropped, b.accepted, b.ended, b.reported, outcome);
    assert Left(slots[t.index := Answered(slots[t.index], outcome)], e.read) == Left(slots, e.read);
  }

  lemma WrittenSide(
    slots: seq<IoSlot>, held: Option<Ticket>, f: Option<Flight>, dropped: bool, accepted: seq<Byte>, ended: seq<Chunk>, reported: nat,
    outcome: Outcome)
    requires Side(slots, held, f, dropped) && WriteSide(slots, held, f, dropped, accepted, ended, reported) && f.Some?
    requires Holds(slots, f.value.ticket)
    ensures
      var i, c := f.value.ticket.index, Chunk(Staged(slots, f), outcome);
      WriteSide(slots[i := Answered(slots[i], outcome)], held, None, dropped, accepted, ended + [c], reported)
  {
    hide Concat;
    ConcatMore(ended, Chunk(Staged(slots, f), outcome));
  }

  lemma FitsRead(slots: seq<IoSlot>, flights: map<OpId, Ticket>, e: Ends, b: Book, t: Ticket, op: OpId, n: nat)
    requires Fits(slots, flights, e, b) && Opens(slots, flights, e, b, t, op) && e.read.None? && n <= |slots[t.index].bytes|
    ensures
      Fits(slots[t.index := slots[t.index].(op := Some(op))], flights[op := t], e.(read := Some(t)), b.(reading := Some(Flight(op, t, n))))
  {
    assert Staged(slots[t.index := slots[t.index].(op := Some(op))], b.writing) == Staged(slots, b.writing);
  }

  /** The native read has filled its slot and ends. */
  lemma FitsReceived(slots: seq<IoSlot>, flights: map<OpId, Ticket>, e: Ends, b: Book, data: seq<Byte>, outcome: Outcome)
    requires Fits(slots, flights, e, b) && b.reading.Some? && |data| <= b.reading.value.n
    requires if outcome.Moved? then outcome.n == |data| else data == []
    ensures
      var t := b.reading.value.ticket;
      && t.index < |slots| && |data| <= |slots[t.index].bytes|
      && Fits(slots[t.index := Answered(Loaded(slots[t.index], data), outcome)], Without(flights, t), e,
              b.(reading := None, arrived := b.arrived + data))
  {
    var t := b.reading.value.ticket;
    var slots' := slots[t.index := Answered(Loaded(slots[t.index], data), outcome)];
    assert Staged(slots', b.writing) == Staged(slots, b.writing);
    if !b.dropped {
      assert e.read == Some(t) && Left(slots, e.read) == [];
      assert Left(slots', e.read) == data;
    }
  }

  /** A caller receives the next bytes; the slot goes with the last of them. */
  lemma FitsReturned(slots: seq<IoSlot>, flights: map<OpId, Ticket>, e: Ends, b: Book, take: nat)
    requires Fits(slots, flights, e, b) && e.read.Some? && !Underway(slots, e.read) && take <= |Left(slots, e.read)|
    ensures e.read.value.index < |slots|
    ensures
      var i := e.read.value.index;
      var out, b' := Left(slots, e.read)[..take], b.(returned := b.returned + Left(slots, e.read)[..take]);
      if take < |Left(slots, e.read)| then Fits(slots[i := slots[i].(offset := slots[i].offset + take)], flights, e, b')
      else Fits(slots[i := Freed(slots[i])], flights, e.(read := None), b')
  {
    var i, left := e.read.value.index, Left(slots, e.read);
    assert left == left[..take] + left[take..];
    var slots' := if take < |left| then slots[i := slots[i].(offset := slots[i].offset + take)] else slots[i := Freed(slots[i])];
    assert Staged(slots', b.writing) == Staged(slots, b.writing);
    if take < |left| { assert Left(slots', e.read) == left[take..]; }
  }

  /** A read that brought no bytes gives its slot back. */
  lemma FitsReadOver(slots: seq<IoSlot>, flights: map<OpId, Ticket>, e: Ends, b: Book)
    requires Fits(slots, flights, e, b) && e.read.Some? && !Underway(slots, e.read)
    requires e.read.value.index < |slots| && slots[e.read.value.index].result.Some?
    requires !slots[e.read.value.index].result.value.Moved?
    ensures var i := e.read.value.index; Fits(slots[i := Freed(slots[i])], flights, e.(read := None), b)
  {
    FitsReturned(slots, flights, e, b, 0);
    assert Left(slots, e.read) == [] && b.returned + [] == b.returned;
  }

  lemma FitsShut(slots: seq<IoSlot>, flights: map<OpId, Ticket>, e: Ends, b: Book, t: Ticket, op: OpId)
    requires Fits(slots, flights, e, b) && Opens(slots, flights, e, b, t, op) && e.shutdown.None? && e.write.None?
    ensures
      Fits(slots[t.index := slots[t.index].(op := Some(op))], flights[op := t], e.(shutdown := Some(t)),
           b.(shutting := Some(Flight(op, t, 0))))
  {
    var slots' := slots[t.index := slots[t.index].(op := Some(op))];
    assert Left(slots', e.read) == Left(slots, e.read) && Staged(slots', b.writing) == Staged(slots, b.writing);
  }

  lemma FitsShutDown(slots: seq<IoSlot>, flights: map<OpId, Ticket>, e: Ends, b: Book, outcome: Outcome)
    requires Fits(slots, flights, e, b) && b.shutting.Some?
    ensures
      var t := b.shutting.value.ticket;
      && t.index < |slots|
      && Fits(slots[t.index := Answered(slots[t.index], outcome)], Without(flights, t), e, b.(shutting := None))
  {
    var t := b.shutting.value.ticket;
    var slots' := slots[t.index := Answered(slots[t.index], outcome)];
    assert Left(slots', e.read) == Left(slots, e.read) && Staged(slots', b.writing) == Staged(slots, b.writing);
  }

  lemma FitsShutSeen(slots: seq<IoSlot>, flights: map<OpId, Ticket>, e: Ends, b: Book, shut: bool)
    requires Fits(slots, flights, e, b) && e.shutdown.Some? && !Underway(slots, e.shutdown)
    ensures e.shutdown.value.index < |slots|
    ensures
      var i := e.shutdown.value.index;
      Fits(slots[i := Freed(slots[i])], flights, e.(shutdown := None, writeShut := e.writeShut || shut), b)
  {
    var i := e.shutdown.value.index;
    var slots' := slots[i := Freed(slots[i])];
    assert Left(slots', e.read) == Left(slots, e.read) && Staged(slots', b.writing) == Staged(slots, b.writing);
  }

  // ---------------------------------------------------------------- adapter

  class AsyncIo {
    const shared: Slots
    const datagram: bool
    var ends: Ends
    var closed: bool
    ghost var book: Book

    ghost predicate Valid()
      reads this, shared
    {
      shared.Valid() && shared.size > 0 && Fits(shared.slots, shared.flights, ends, book)
    }

    constructor (slots: Slots, udp: bool)
      requires slots.Valid() && slots.size > 0
      ensures Valid() && shared == slots && book == Book(false, None, None, None, [], [], [], [], 0)
    {
      shared, datagram := slots, udp;
      ends, closed := Ends(None, None, None, false), false;
      book := Book(false, None, None, None, [], [], [], [], 0);
    }

    // ----------------------------------------------------------------- writes

    /** Wait for the accepted write to end, and report how it did, once. */
    method PollFlush() returns (r: Poll<bool>)
      requires Valid() && !book.dropped
      modifies this`ends, this`book, shared`slots, shared`gone
      ensures Valid()
      ensures
        if Underway(old(shared.slots), old(ends).write) then
          r.Pending? && ends == old(ends) && book == old(book) && shared.slots == old(shared.slots)
        else
          && r == Ready(Flushed(old(shared.slots), old(ends).write)) && ends == old(ends).(write := None)
          && book == old(book).(reported := |book.ended|) && shared.slots == AfterFlush(old(shared.slots), old(ends).write)
      ensures old(ends).write.None? ==> r == Ready(Ok(true))
      ensures
        old(ends).write.Some? && r.Ready? ==>
          && book.ended != []
          && match book.ended[|book.ended| - 1].outcome
             case Moved(_) => r == Ready(Ok(true))
             case Broken(error) => r == Ready(Err(error))
             case _ => r == Ready(Err(UNEXPECTED))
    {
      hide Fits;
      HeldAt(shared.slots, shared.flights, ends, book);
      if ends.write.None? {
        return Ready(Ok(true));
      }
      ghost var slots := shared.slots;
      var result := shared.Poll(ends.write.value, false);
      if result.None? {
        return Pending;
      }
      LastEnded(slots, shared.flights, ends, book);
      FitsFlush(slots, shared.flights, ends, book);
      ends := ends.(write := None);
      book := book.(reported := book.reported + 1);
      match result.value
      case Moved(_) => return Ready(Ok(true));
      case Broken(e) => return Ready(Err(e));
      case _ => return Ready(Err(UNEXPECTED));
    }

    /** Accept a prefix of the caller's bytes, once the previous ones are done. They are staged in a
        slot before anything can refuse them; only a report of `n` bytes takes any, the first `n`. */
    method PollWrite(bytes: seq<Byte>, op: OpId, refusal: Option<ErrorKind>) returns (r: Poll<nat>)
      requires Valid() && !book.dropped && op !in shared.flights
      modifies this`ends, this`book, shared
      ensures Valid()
      ensures r.Ready? && r.result.Ok? ==> r.result.value <= |bytes|
      ensures
        book.accepted == old(book).accepted + (if r.Ready? && r.result.Ok? then bytes[..r.result.value] else []) &&
        book == old(book).(accepted := book.accepted, writing := book.writing, reported := book.reported)
      ensures
        var slots, write := old(shared.slots), old(ends).write;
        if closed || old(ends).writeShut || old(ends).shutdown.Some? then r == Ready(Err(BROKEN_PIPE)) && ends == old(ends)
        else if Underway(slots, write) then r.Pending? && ends == old(ends) && shared.slots == slots
        else if Flushed(slots, write).Err? then
          r == Ready(Err(Flushed(slots, write).error)) && ends == old(ends).(write := None)
        else if bytes == [] then r == Ready(Ok(0)) && ends == old(ends).(write := None)
        else if Worn(AfterFlush(slots, write)) then r == Ready(Err(ResourceLimit)) && ends == old(ends).(write := None)
        else if datagram && |bytes| > shared.size then r == Ready(Err(InvalidInput)) && ends == old(ends).(write := None)
        else if refusal.Some? then r == Ready(Err(refusal.value)) && ends == old(ends).(write := None)
        else r == Ready(Ok(Min(|bytes|, shared.size))) && ends == old(ends).(write := ends.write) && book.writing.Some?
    {
      hide Fits;
      HeldAt(shared.slots, shared.flights, ends, book);
      if closed || ends.writeShut || ends.shutdown.Some? {
        return Ready(Err(BROKEN_PIPE));
      }
      var flushed := PollFlush();
      if flushed.Pending? {
        return Pending;
      }
      if flushed.result.Err? {
        return Ready(Err(flushed.result.error));
      }
      if bytes == [] {
        return Ready(Ok(0));
      }
      r := StartWrite(bytes, op, refusal);
    }

    method StartWrite(bytes: seq<Byte>, op: OpId, refusal: Option<ErrorKind>) returns (r: Poll<nat>)
      requires Valid() && !book.dropped && op !in shared.flights && bytes != []
      requires ends.write.None? && ends.shutdown.None? && !ends.writeShut
      modifies this`ends, this`book, shared
      ensures Valid()
      ensures
        if Worn(old(shared.slots)) then r == Ready(Err(ResourceLimit)) && ends == old(ends) && book == old(book)
        else if datagram && |bytes| > shared.size then r == Ready(Err(InvalidInput)) && ends == old(ends) && book == old(book)
        else if refusal.Some? then r == Ready(Err(refusal.value)) && ends == old(ends) && book == old(book)
        else
          var n := Min(|bytes|, shared.size);
          && r == Ready(Ok(n)) && ends == old(ends).(write := ends.write) && book.writing.Some?
          && book == old(book).(writing := book.writing, accepted := old(book).accepted + bytes[..n])
    {
      hide Fits;
      ghost var slots := shared.slots;
      var t := shared.Reserve();
      if t.None? {
        return Ready(Err(ResourceLimit));
      }
      assert !Worn(slots);
      var n := Min(|bytes|, shared.size);
      SizeAt(shared, t.value.index);
      StageFits(slots, shared.slots, shared.flights, ends, book, t.value, bytes[..n], shared.size);
      shared.Stage(t.value, bytes[..n]);
      if n < |bytes| && datagram {
        GiveBack(t.value);
        return Ready(Err(InvalidInput));
      }
      if refusal.Some? {
        GiveBack(t.value);
        return Ready(Err(refusal.value));
      }
      FitsWrite(shared.slots, shared.flights, ends, book, t.value, op, bytes[..n]);
      shared.Submitted(t.value, op);
      ends := ends.(write := t);
      book := book.(writing := Some(Flight(op, t.value, n)), accepted := book.accepted + bytes[..n]);
      return Ready(Ok(n));
    }

    /** Free a slot that was reserved and not used. */
    method GiveBack(t: Ticket)
      requires
        Valid() && Holds(shared.slots, t) && !Uses(ends, book, t.index) && forall o :: o in shared.flights ==>
          shared.flights[o] != t
      modifies shared`slots, shared`gone
      ensures Valid()
    {
      hide Fits;
      FitsElsewhere(
        shared.slots, shared.flights, shared.slots[t.index := Freed(shared.slots[t.index])], shared.flights, ends, book);
      shared.Free(t);
    }

    /** The driver reports the terminal completion of the native write, which by then has read its slot. */
    method NativeWrite(t: Ticket, outcome: Outcome)
      requires Valid() && book.writing.Some? && book.writing.value.ticket == t
      modifies this`book, shared
      ensures Valid()
      ensures
        book == old(book).(writing := None, ended := old(book).ended + [Chunk(Staged(old(shared.slots), old(book).writing), outcome)])
    {
      hide Fits;
      FlownAt(shared.slots, shared.flights, ends, book);
      FitsWritten(shared.slots, shared.flights, ends, book, outcome);
      Deliver(t, outcome);
      book := book.(writing := None, ended := book.ended + [Chunk(Staged(old(shared.slots), book.writing), outcome)]);
    }

    /** The executor routes the completion of a native operation of this adapter. */
    method Deliver(t: Ticket, outcome: Outcome)
      requires shared.Valid() && Holds(shared.slots, t) && Encodable(t)
      modifies shared
      ensures shared.Valid() && shared.slots == old(shared.slots)[t.index := Answered(old(shared.slots)[t.index], outcome)]
      ensures shared.flights == Without(old(shared.flights), t)
    {
      hide Lent, Tracked, Sound, Without;
      TokenRoundTrip(t);
      var reached := shared.Dispatch(TokenOf(t), outcome);
    }

    // ------------------------------------------------------------------ reads

    /** Read into a buffer of any length; `refusal` is the answer to starting a native read. */
    method PollRead(length: nat, op: OpId, refusal: Option<ErrorKind>) returns (r: Poll<seq<Byte>>)
      requires Valid() && !book.dropped && op !in shared.flights
      modifies this`ends, this`book, shared
      ensures Valid() && ends == old(ends).(read := ends.read)
      ensures book == old(book).(reading := book.reading, returned := book.returned)
      ensures r.Ready? && r.result.Ok? ==> |r.result.value| <= length && book.returned == old(book).returned + r.result.value
      ensures !(r.Ready? && r.result.Ok?) ==> book.returned == old(book).returned
      ensures
        var slots, read := old(shared.slots), old(ends).read;
        if length == 0 then r == Ready(Ok([])) && ends == old(ends)
        else if read.None? then
          if Worn(slots) then r == Ready(Err(ResourceLimit)) && ends == old(ends)
          else if refusal.Some? then r == Ready(Err(refusal.value)) && ends == old(ends)
          else r.Pending? && book.reading.Some?
        else match ResultAt(slots, read)
          case None => r.Pending? && ends == old(ends)
          case Some(Moved(n)) =>
            && r.Ready? && r.result.Ok? && |r.result.value| == Min(length, |Left(slots, read)|)
            && (ends.read.None? <==> |Left(slots, read)| <= length)
          case Some(Eof) => r == Ready(Ok([])) && ends.read.None?
          case Some(Broken(error)) => r == Ready(Err(error)) && ends.read.None?
          case _ => r == Ready(Err(UNEXPECTED)) && ends.read.None?
    {
      hide Fits;
      HeldAt(shared.slots, shared.flights, ends, book);
      if length == 0 {
        return Ready(Ok([]));
      }
      if ends.read.None? {
        r := StartRead(length, op, refusal);
        return;
      }
      var t := ends.read.value;
      var result := shared.Poll(t, true);
      if result.None? {
        return Pending;
      }
      BroughtAt(shared.slots, shared.flights, ends, book);
      if result.value.Moved? {
        var out := TakeBytes(length, t, result.value.n);
        return Ready(Ok(out));
      }
      FitsReadOver(shared.slots, shared.flights, ends, book);
      var taken := shared.Poll(t, false);
      ends := ends.(read := None);
      match result.value
      case Eof => return Ready(Ok([]));
      case Broken(error) => return Ready(Err(error));
      case _ => return Ready(Err(UNEXPECTED));
    }

    method StartRead(length: nat, op: OpId, refusal: Option<ErrorKind>) returns (r: Poll<seq<Byte>>)
      requires Valid() && !book.dropped && op !in shared.flights && ends.read.None?
      modifies this`ends, this`book, shared
      ensures Valid() && ends == old(ends).(read := ends.read) && book == old(book).(reading := book.reading)
      ensures
        if Worn(old(shared.slots)) then r == Ready(Err(ResourceLimit)) && ends == old(ends)
        else if refusal.Some? then r == Ready(Err(refusal.value)) && ends == old(ends)
        else r.Pending? && book.reading.Some?
    {
      hide Fits;
      ghost var slots := shared.slots;
      var t := shared.Reserve();
      if t.None? {
        return Ready(Err(ResourceLimit));
      }
      assert !Worn(slots);
      SizeAt(shared, t.value.index);
      StageFits(slots, shared.slots, shared.flights, ends, book, t.value, [], shared.size);
      if refusal.Some? {
        GiveBack(t.value);
        return Ready(Err(refusal.value));
      }
      FitsRead(shared.slots, shared.flights, ends, book, t.value, op, Min(length, shared.size));
      shared.Submitted(t.value, op);
      ends := ends.(read := t);
      book := book.(reading := Some(Flight(op, t.value, Min(length, shared.size))));
      return Pending;
    }

    /** Copy out of the slot, which goes with its last byte. */
    method TakeBytes(length: nat, t: Ticket, n: nat) returns (out: seq<Byte>)
      requires Valid() && ends.read == Some(t) && Holds(shared.slots, t) && !Underway(shared.slots, ends.read)
      requires shared.slots[t.index].result == Some(Moved(n)) && Brought(shared.slots[t.index])
      modifies this`ends, this`book, shared`slots, shared`gone
      ensures Valid() && book == old(book).(returned := old(book).returned + out)
      ensures |out| == Min(length, |Left(old(shared.slots), Some(t))|)
      ensures ends == if |Left(old(shared.slots), Some(t))| <= length then old(ends).(read := None) else old(ends)
    {
      hide Fits;
      var slot := shared.slots[t.index];
      var take := Min(length, n - slot.offset);
      out := slot.bytes[slot.offset..slot.offset + take];
      NextBytes(shared.slots, t, n, take);
      FitsReturned(shared.slots, shared.flights, ends, book, take);
      if slot.offset + take < n {
        shared.Advance(t, slot.offset + take);
      } else {
        var taken := shared.Poll(t, false);
        ends := ends.(read := None);
      }
      book := book.(returned := book.returned + out);
    }

    /** The native read fills the slot it was lent and the driver reports its end. */
    method NativeRead(t: Ticket, data: seq<Byte>, outcome: Outcome)
      requires Valid() && book.reading.Some? && book.reading.value.ticket == t && |data| <= book.reading.value.n
      requires if outcome.Moved? then outcome.n == |data| else data == []
      modifies this`book, shared
      ensures Valid() && book == old(book).(reading := None, arrived := old(book).arrived + data)
      ensures !book.dropped ==> ResultAt(shared.slots, ends.read) == Some(outcome)
    {
      hide Fits;
      FlownAt(shared.slots, shared.flights, ends, book);
      SizeAt(shared, t.index);
      if !book.dropped { InFlight(shared.slots, shared.flights, ends, book); }
      FitsReceived(shared.slots, shared.flights, ends, book, data, outcome);
      Receive(t, data, outcome, book.reading.value.op);
      book := book.(reading := None, arrived := book.arrived + data);
    }

    method Receive(t: Ticket, data: seq<Byte>, outcome: Outcome, ghost op: OpId)
      requires shared.Valid() && op in shared.flights && shared.flights[op] == t && Encodable(t) && |data| <= shared.size
      requires Holds(shared.slots, t) && |shared.slots[t.index].bytes| == shared.size
      modifies shared
      ensures shared.Valid() && shared.flights == Without(old(shared.flights), t)
      ensures shared.slots == old(shared.slots)[t.index := Answered(Loaded(old(shared.slots)[t.index], data), outcome)]
    {
      hide Lent, Tracked, Sound, Without;
      shared.Fill(t, data, op);
      Deliver(t, outcome);
    }

    // ---------------------------------------------------------------- closing

    /** End the write direction after every accepted byte; later writes are refused. */
    method PollShutdown(op: OpId, refusal: Option<ErrorKind>) returns (r: Poll<bool>)
      requires Valid() && !book.dropped && op !in shared.flights
      modifies this`ends, this`book, shared
      ensures Valid() && book == old(book).(shutting := book.shutting, reported := book.reported)
      ensures r.Ready? && r.result.Ok? <==> ends.writeShut
      ensures
        var slots, write, shutdown := old(shared.slots), old(ends).write, old(ends).shutdown;
        if old(ends).writeShut || closed || datagram then
          && r == Ready(if old(ends).writeShut then Ok(true) else if closed then Err(NOT_CONNECTED) else Err(Unsupported))
          && ends == old(ends)
        else if Underway(slots, write) then r.Pending? && ends == old(ends)
        else if Flushed(slots, write).Err? then
          r == Ready(Err(Flushed(slots, write).error)) && ends == old(ends).(write := None)
        else if shutdown.Some? then
          match ResultAt(slots, shutdown)
          case None => r.Pending? && ends == old(ends)
          case Some(Shut) => r == Ready(Ok(true)) && ends == old(ends).(shutdown := None, writeShut := true)
          case Some(Broken(error)) => r == Ready(Err(error)) && ends == old(ends).(shutdown := None)
          case _ => r == Ready(Err(UNEXPECTED)) && ends == old(ends).(shutdown := None)
        else if Worn(AfterFlush(slots, write)) then r == Ready(Err(ResourceLimit)) && ends == old(ends).(write := None)
        else if refusal.Some? then r == Ready(Err(refusal.value)) && ends == old(ends).(write := None)
        else r.Pending? && ends == old(ends).(write := None, shutdown := ends.shutdown) && book.shutting.Some?
    {
      hide Fits;
      HeldAt(shared.slots, shared.flights, ends, book);
      if ends.writeShut {
        return Ready(Ok(true));
      }
      if closed {
        return Ready(Err(NOT_CONNECTED));
      }
      if datagram {
        return Ready(Err(Unsupported));
      }
      var flushed := PollFlush();
      if flushed.Pending? {
        return Pending;
      }
      if flushed.result.Err? {
        return Ready(Err(flushed.result.error));
      }
      HeldAt(shared.slots, shared.flights, ends, book);
      if ends.shutdown.None? {
        r := StartShutdown(op, refusal);
        return;
      }
      ghost var slots := shared.slots;
      var result := shared.Poll(ends.shutdown.value, false);
      if result.None? {
        return Pending;
      }
      FitsShutSeen(slots, shared.flights, ends, book, result.value.Shut?);
      ends := ends.(shutdown := None, writeShut := result.value.Shut?);
      match result.value
      case Shut => return Ready(Ok(true));
      case Broken(error) => return Ready(Err(error));
      case _ => return Ready(Err(UNEXPECTED));
    }

    method StartShutdown(op: OpId, refusal: Option<ErrorKind>) returns (r: Poll<bool>)
      requires Valid() && !book.dropped && op !in shared.flights && ends.shutdown.None? && ends.write.None?
      modifies this`ends, this`book, shared
      ensures Valid() && book == old(book).(shutting := book.shutting)
      ensures
        if Worn(old(shared.slots)) then r == Ready(Err(ResourceLimit)) && ends == old(ends)
        else if refusal.Some? then r == Ready(Err(refusal.value)) && ends == old(ends)
        else r.Pending? && ends == old(ends).(shutdown := ends.shutdown) && book.shutting.Some?
    {
      hide Fits;
      ghost var slots := shared.slots;
      var t := shared.Reserve();
      if t.None? {
        return Ready(Err(ResourceLimit));
      }
      assert !Worn(slots);
      SizeAt(shared, t.value.index);
      StageFits(slots, shared.slots, shared.flights, ends, book, t.value, [], shared.size);
      if refusal.Some? {
        GiveBack(t.value);
        return Ready(Err(refusal.value));
      }
      FitsShut(shared.slots, shared.flights, ends, book, t.value, op);
      shared.Submitted(t.value, op);
      ends := ends.(shutdown := t);
      book := book.(shutting := Some(Flight(op, t.value, 0)));
      return Pending;
    }

    method NativeShutdown(t: Ticket, outcome: Outcome)
      requires Valid() && book.shutting.Some? && book.shutting.value.ticket == t
      modifies this`book, shared
      ensures Valid() && book == old(book).(shutting := None)
      ensures !book.dropped ==> ResultAt(shared.slots, ends.shutdown) == Some(outcome)
    {
      hide Fits;
      FlownAt(shared.slots, shared.flights, ends, book);
      if !book.dropped { InFlight(shared.slots, shared.flights, ends, book); }
      FitsShutDown(shared.slots, shared.flights, ends, book, outcome);
      Deliver(t, outcome);
      book := book.(shutting := None);
    }

    /** Close the handle once every accepted write has ended; `refusal` is the driver's answer. */
    method PollClose(refusal: Option<ErrorKind>) returns (r: Poll<bool>)
      requires Valid() && !book.dropped
      modifies this`ends, this`book, this`closed, shared`slots, shared`gone
      ensures Valid() && book == old(book).(reported := book.reported)
      ensures
        var slots, write := old(shared.slots), old(ends).write;
        if Underway(slots, write) then r.Pending? && ends == old(ends) && closed == old(closed)
        else if Flushed(slots, write).Err? then
          r == Ready(Flushed(slots, write)) && ends == old(ends).(write := None) && closed == old(closed)
        else if !old(closed) && refusal.Some? then
          r == Ready(Err(refusal.value)) && ends == old(ends).(write := None) && !closed
        else r == Ready(Ok(true)) && ends == old(ends).(write := None) && closed
    {
      hide Fits;
      r := PollFlush();
      if r.Pending? || r.result.Err? {
        return;
      }
      if !closed {
        if refusal.Some? {
          return Ready(Err(refusal.value));
        }
        closed := true;
      }
      return Ready(Ok(true));
    }

    /** The adapter is gone. Its native operations keep their slots: a write in flight still finds the
        bytes that were accepted. */
    method Drop()
      requires Valid() && !book.dropped
      modifies this`ends, this`book, this`closed, shared`slots, shared`gone
      ensures Valid() && book == old(book).(dropped := true)
      ensures Staged(shared.slots, book.writing) == Staged(old(shared.slots), book.writing)
    {
      hide Fits, Lent, Tracked, Sound;
      DropFacts(shared.slots, shared.flights, ends, book);
      Leave(ends.read, book.reading);
      Leave(ends.write, book.writing);
      Leave(ends.shutdown, book.shutting);
      FitsDropped(old(shared.slots), shared.slots, shared.flights, ends, book);
      ends := ends.(read := None, write := None, shutdown := None);
      book := book.(dropped := true);
      closed := true;
    }

    /** Abandon the slot of one direction. */
    method Leave(held: Option<Ticket>, ghost f: Option<Flight>)
      requires shared.Valid() && Flying(shared.flights, f)
      requires held.Some? && f.Some? ==> f.value.ticket == held.value
      modifies shared`slots, shared`gone
      ensures shared.Valid() && |shared.slots| == |old(shared.slots)|
      ensures forall i :: 0 <= i < |shared.slots| && (held.None? || i != held.value.index) ==>
                shared.slots[i] == old(shared.slots)[i]
      ensures
        held.Some? && f.Some? ==>
          && held.value.index < |shared.slots|
          && shared.slots[held.value.index] == old(shared.slots)[held.value.index].(abandoned := true)
    {
      if held.Some? {
        shared.Abandon(held.value);
      }
    }

    // ------------------------------------------------------------ other futures

    /** Another future reserves a slot, works with one of its own, or gets a completion: nothing of
        that touches this adapter's slots or the bytes in them. */
    method Elsewhere(a: Act)
      requires Valid() && Allowed(a, shared.slots, shared.flights, shared.size, ends, book)
      modifies shared
      ensures Valid() && Staged(shared.slots, book.writing) == Staged(old(shared.slots), book.writing)
      ensures Left(shared.slots, ends.read) == Left(old(shared.slots), ends.read)
    {
      hide Fits, Lent, Tracked, Sound, Without;
      ghost var slots, flights := shared.slots, shared.flights;
      UsesAll(slots, flights, ends, book);
      match a {
        case Reserves => var t := shared.Reserve();
        case Stages(t, data) => shared.Stage(t, data);
        case Submits(t, op) => shared.Submitted(t, op);
        case Frees(t) => shared.Free(t);
        case Abandons(t) => shared.Abandon(t);
        case Completes(token, outcome) => var reached := shared.Dispatch(token, outcome);
        case Closes(token, handle) => var mine := shared.Claims(token, handle, HandleClosed);
      }
      OtherFlights(slots, flights, shared.flights, ends, book, a);
      FitsElsewhere(slots, flights, shared.slots, shared.flights, ends, book);
      SameBytes(slots, shared.slots, flights, ends, book);
    }
  }

  /** What another future may do. */
  datatype Act =
    | Reserves
    | Stages(t: Ticket, data: seq<Byte>)
    | Submits(t: Ticket, op: OpId)
    | Frees(t: Ticket)
    | Abandons(t: Ticket)
    | Completes(token: nat, outcome: Outcome)
    | Closes(token: nat, handle: Option<Handle>)

  /** It follows the rules of the slots, and the reservation is not one of this adapter's. */
  ghost predicate Allowed(a: Act, slots: seq<IoSlot>, flights: map<OpId, Ticket>, size: nat, e: Ends, b: Book) {
    match a
    case Reserves => true
    case Stages(t, data) =>
      Holds(slots, t) && !Uses(e, b, t.index) && |data| <= size && forall o :: o in flights ==> flights[o] != t
    case Submits(t, op) =>
      && Encodable(t) && Holds(slots, t) && !Uses(e, b, t.index) && Cleared(slots[t.index]) && op !in flights
      && forall o :: o in flights ==> flights[o] != t
    case Frees(t) => Holds(slots, t) && !Uses(e, b, t.index) && forall o :: o in flights ==> flights[o] != t
    case Abandons(t) => !Uses(e, b, t.index)
    case Completes(token, _) => Claimed(token) && !Uses(e, b, TicketOf(token).index)
    case Closes(_, _) => true
  }

  lemma UsesAll(slots: seq<IoSlot>, flights: map<OpId, Ticket>, e: Ends, b: Book)
    requires Fits(slots, flights, e, b) && Tracked(slots, flights)
    ensures forall i: nat :: Uses(e, b, i) ==> i < |slots| && slots[i].used && slots[i].op.Some? && slots[i].closing.None?
  {
    hide Fits, Uses;
    forall i: nat | Uses(e, b, i) ensures i < |slots| && slots[i].used && slots[i].op.Some? && slots[i].closing.None? {
      UsesUsed(slots, flights, e, b, i);
      assert Accounted(slots[i], i, flights);
    }
  }

  lemma OtherFlights(slots: seq<IoSlot>, flights: map<OpId, Ticket>, flights': map<OpId, Ticket>, e: Ends, b: Book, a: Act)
    requires Fits(slots, flights, e, b)
    requires
      match a
      case Submits(t, op) => op !in flights && flights' == flights[op := t]
      case Completes(token, _) => Claimed(token) && !Uses(e, b, TicketOf(token).index) && flights' == Without(flights, TicketOf(token))
      case _ => flights' == flights
    ensures Same(flights, flights', b.reading) && Same(flights, flights', b.writing) && Same(flights, flights', b.shutting)
  {}

  lemma SameBytes(slots: seq<IoSlot>, slots': seq<IoSlot>, flights: map<OpId, Ticket>, e: Ends, b: Book)
    requires Fits(slots, flights, e, b) && |slots'| == |slots|
    requires forall i :: 0 <= i < |slots| && Uses(e, b, i) ==> slots'[i] == slots[i]
    ensures Staged(slots', b.writing) == Staged(slots, b.writing) && Left(slots', e.read) == Left(slots, e.read)
  {}

  /** A slot just reserved, then staged, is none of the adapter's yet. */
  lemma StageFits(
    slots: seq<IoSlot>, slots': seq<IoSlot>, flights: map<OpId, Ticket>, e: Ends, b: Book, t: Ticket, data: seq<Byte>, size: nat)
    requires Fits(slots, flights, e, b) && t.index < |slots| && !slots[t.index].used
    requires slots' == slots[t.index := Reserved(slots[t.index])]
    requires |data| <= |slots'[t.index].bytes|
    ensures !Uses(e, b, t.index) && Fits(slots', flights, e, b)
    ensures Fits(slots'[t.index := Loaded(slots'[t.index], data)], flights, e, b)
  {
    hide Fits;
    if Uses(e, b, t.index) { UsesUsed(slots, flights, e, b, t.index); }
    FitsElsewhere(slots, flights, slots', flights, e, b);
    FitsElsewhere(slots, flights, slots'[t.index := Loaded(slots'[t.index], data)], flights, e, b);
  }

  predicate Flying(flights: map<OpId, Ticket>, f: Option<Flight>) {
    f.Some? ==> f.value.op in flights && flights[f.value.op] == f.value.ticket
  }

  lemma DropFacts(slots: seq<IoSlot>, flights: map<OpId, Ticket>, e: Ends, b: Book)
    requires Fits(slots, flights, e, b) && !b.dropped
    ensures Flying(flights, b.reading) && Flying(flights, b.writing) && Flying(flights, b.shutting)
    ensures e.read.Some? ==> e.read.value.index < |slots| && (b.reading.Some? ==> b.reading.value.ticket == e.read.value)
    ensures e.write.Some? ==> e.write.value.index < |slots| && (b.writing.Some? ==> b.writing.value.ticket == e.write.value)
    ensures
      e.shutdown.Some? ==>
        e.shutdown.value.index < |slots| && (b.shutting.Some? ==> b.shutting.value.ticket == e.shutdown.value)
    ensures e.read.Some? && e.write.Some? ==> e.read.value.index != e.write.value.index
    ensures e.read.Some? && e.shutdown.Some? ==> e.read.value.index != e.shutdown.value.index
    ensures e.shutdown.Some? ==> e.write.None?
  {}

  /** After a drop only the slots of operations in flight matter, and those are as they were. */
  lemma FitsDropped(slots: seq<IoSlot>, slots': seq<IoSlot>, flights: map<OpId, Ticket>, e: Ends, b: Book)
    requires Fits(slots, flights, e, b) && !b.dropped && |slots'| == |slots|
    requires Outlives(slots, slots', e.read, b.reading) && Outlives(slots, slots', e.write, b.writing)
    requires Outlives(slots, slots', e.shutdown, b.shutting)
    ensures Fits(slots', flights, e.(read := None, write := None, shutdown := None), b.(dropped := true))
    ensures Staged(slots', b.writing) == Staged(slots, b.writing)
  {}

  predicate Outlives(slots: seq<IoSlot>, slots': seq<IoSlot>, held: Option<Ticket>, f: Option<Flight>)
    requires |slots'| == |slots|
  {
    held.Some? && f.Some? ==>
      f.value.ticket == held.value && held.value.index < |slots| && slots'[held.value.index] == slots[held.value.index].(abandoned := true)
  }

  /** Every slot has its staging bytes. */
  lemma SizeAt(shared: Slots, i: nat)
    requires shared.Valid() && i < |shared.slots|
    ensures |shared.slots[i].bytes| == shared.size
  {
    hide Lent, Tracked;
    assert Kept(shared.slots[i], shared.size);
  }

  /** A read that brought bytes has not handed out more than it brought. */
  lemma BroughtAt(slots: seq<IoSlot>, flights: map<OpId, Ticket>, e: Ends, b: Book)
    requires Fits(slots, flights, e, b)
    ensures
      var r := ResultAt(slots, e.read);
      r.Some? && r.value.Moved? ==> Brought(slots[e.read.value.index])
  {
    hide Flown, Side, WriteSide, Apart, Spot;
  }

  lemma NextBytes(slots: seq<IoSlot>, t: Ticket, n: nat, take: nat)
    requires t.index < |slots| && slots[t.index].result == Some(Moved(n)) && Brought(slots[t.index])
    requires slots[t.index].offset + take <= n
    ensures |Left(slots, Some(t))| == n - slots[t.index].offset
    ensures Left(slots, Some(t))[..take] == slots[t.index].bytes[slots[t.index].offset..slots[t.index].offset + take]
  {
    var slot := slots[t.index];
    assert Left(slots, Some(t)) == slot.bytes[slot.offset..n];
    assert slot.bytes[slot.offset..n][..take] == slot.bytes[slot.offset..slot.offset + take];
  }

  lemma FlownAt(slots: seq<IoSlot>, flights: map<OpId, Ticket>, e: Ends, b: Book)
    requires Fits(slots, flights, e, b)
    ensures Flown(slots, flights, b.reading) && Flown(slots, flights, b.writing) && Flown(slots, flights, b.shutting)
  {}

  /** As long as the adapter is there, it holds the slots of its operations in flight. */
  lemma InFlight(slots: seq<IoSlot>, flights: map<OpId, Ticket>, e: Ends, b: Book)
    requires Fits(slots, flights, e, b) && !b.dropped
    ensures b.reading.Some? ==> e.read == Some(b.reading.value.ticket) && Awaiting(slots, b.reading.value.ticket)
    ensures b.shutting.Some? ==> e.shutdown == Some(b.shutting.value.ticket) && Awaiting(slots, b.shutting.value.ticket)
  {}

  predicate Awaiting(slots: seq<IoSlot>, t: Ticket) { t.index < |slots| && !slots[t.index].abandoned }

  /** What the adapter may rely on of the slots it holds. */
  lemma HeldAt(slots: seq<IoSlot>, flights: map<OpId, Ticket>, e: Ends, b: Book)
    requires Fits(slots, flights, e, b)
    ensures e.read.Some? ==> Holds(slots, e.read.value)
    ensures e.write.Some? ==> Holds(slots, e.write.value)
    ensures e.shutdown.Some? ==> Holds(slots, e.shutdown.value)
    ensures e.write.None? && !b.dropped ==> b.reported == |b.ended|
    ensures e.shutdown.Some? || e.writeShut ==> e.write.None?
  {}
}
