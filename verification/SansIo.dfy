/** The shared sans-I/O driver: a window of transport input that a protocol core consumes,
    and guards that drop the transport and disconnect the core on every exit but success.
    What the core, the transport and the host answer is left open at each step. */
module SansIo {
  import opened Types

  type Byte = nat
  type Transport = nat
  const WINDOW: nat := 16384

  /** An answer that was awaited: it came, or the future was dropped while waiting. */
  datatype Awaited<T> = Came(result: Result<T>) | Dropped
  /** What the environment says to a question: yes, an error, or nothing (no event, or the
      future was dropped while waiting). */
  datatype Answer = Yes | No(error: ErrorKind) | Never
  datatype Exit = Delivered | Aborted(error: ErrorKind) | Interrupted

  const NOT_CONNECTED: ErrorKind := Other(4)
  const STALLED: ErrorKind := Other(5)
  const UNEXPECTED_EOF: ErrorKind := Other(6)
  const WRITE_ZERO: ErrorKind := Other(7)

  class Driver {
    var stream: Option<Transport>
    var input: seq<Byte>
    var start: nat
    var end: nat
    /** Whether the core has not been told that its transport is gone. */
    var connected: bool
    /** What was read from the present transport, and what of it the core has taken. */
    ghost var received: seq<Byte>
    ghost var ingested: seq<Byte>
    /** What the core wants sent, everything it wanted sent since the present transport was
        installed, and what was written to that transport. */
    var output: seq<Byte>
    ghost var produced: seq<Byte>
    ghost var written: seq<Byte>

    /** The window is within the buffer. */
    ghost predicate Framed()
      reads this
    {
      |input| == WINDOW && start <= end <= WINDOW
    }

    /** While a transport is present, the core has taken a prefix of what it brought and it has
        taken a prefix of what the core wanted sent; the rest is at hand. */
    ghost predicate Valid()
      reads this
    {
      && Framed()
      && (stream.Some? ==> ingested + input[start..end] == received && written + output == produced)
    }

    constructor (s: Transport)
      ensures Valid() && stream == Some(s) && connected && received == ingested == [] && written == produced == []
    {
      stream, input, start, end, connected := Some(s), seq(WINDOW, _ => 0), 0, 0, true;
      received, ingested, output, produced, written := [], [], [], [], [];
    }

    /** Drop the transport and tell the core. */
    method Abort()
      requires Valid()
      modifies this`stream, this`connected
      ensures Valid() && stream.None? && !connected
    {
      stream := None;
      connected := false;
    }

    /** Install a transport in place of one that is gone: nothing of the old one is left to ingest. */
    method ReplaceStream(s: Transport) returns (ok: bool)
      requires Valid()
      modifies this`stream, this`start, this`end, this`received, this`ingested, this`produced, this`written
      ensures Valid() && (ok <==> old(stream).None?)
      ensures ok ==> stream == Some(s) && start == end && received == ingested == [] && written == [] && produced == output
      ensures !ok ==> unchanged(this)
    {
      if stream.Some? {
        return false;
      }
      start, end, stream := 0, 0, Some(s);
      received, ingested, written, produced := [], [], [], output;
      return true;
    }

    /** Hand everything over: the unread input completes what the core has ingested. */
    method IntoParts() returns (r: Option<(Transport, seq<Byte>)>)
      requires Valid()
      modifies this`stream
      ensures stream.None? && (r.None? <==> old(stream).None?)
      ensures r.Some? ==> Some(r.value.0) == old(stream) && ingested + r.value.1 == received
    {
      if stream.None? {
        return None;
      }
      r := Some((stream.value, input[start..end]));
      stream := None;
    }

    /** The core offers an event, if it has one; it may want more bytes sent. */
    method Event() returns (r: Answer)
      requires Valid()
      modifies this`output, this`produced
      ensures Valid() && old(output) <= output && old(produced) <= produced
    {
      More();
      r := *;
    }

    method More()
      requires Valid()
      modifies this`output, this`produced
      ensures Valid() && old(output) <= output && old(produced) <= produced
    {
      var more: seq<Byte> := *;
      assert written + (output + more) == written + output + more;
      output, produced := output + more, produced + more;
    }

    /** Send all the core has to send. Only when it is written and flushed does the core forget it, so
        success leaves nothing unsent; anything else leaves a transport that got a part of it. */
    method Drain() returns (r: Answer)
      requires Valid() && stream.Some?
      modifies this`output, this`written
      ensures r.Yes? ==> Valid() && output == [] && written == produced
      ensures old(written) <= written <= produced
    {
      var left := output;
      while left != []
        invariant written + left == produced && old(written) <= written && output == old(output)
        decreases |left|
      {
        var answer: Answer := *;
        if !answer.Yes? {
          return answer;
        }
        var n: nat :| n <= |left|;
        if n == 0 {
          return No(WRITE_ZERO);
        }
        assert left == left[..n] + left[n..];
        written := written + left[..n];
        left := left[n..];
      }
      assert written + left == written;
      var flushed: Answer := *;
      if !flushed.Yes? {
        return flushed;
      }
      if output != [] {
        var consumed: Answer := *;
        if !consumed.Yes? {
          return consumed;
        }
        output := [];
      }
      return Yes;
    }

    /** Send without waiting for an event. A failure drops the transport; the core is not told. */
    method Flush() returns (r: Answer)
      requires Valid()
      modifies this`output, this`written, this`stream
      ensures Valid() && (r.Yes? ==> stream == old(stream) && stream.Some? && output == [] && written == produced)
      ensures !r.Yes? ==> stream.None?
    {
      if stream.None? {
        return No(NOT_CONNECTED);
      }
      r := Drain();
      DropTransport(r.Yes?);
    }

    /** Feed the window to the core, which takes some of it or refuses. */
    method Ingest() returns (r: Result<nat>)
      requires Valid() && start < end
      modifies this`start, this`ingested, this`output, this`produced
      ensures Valid() && old(output) <= output && old(produced) <= produced
      ensures r.Ok? ==> start == old(start) + r.value && ingested == old(ingested) + input[old(start)..start]
      ensures r.Err? || r.value == 0 ==> start == old(start) && ingested == old(ingested)
    {
      More();
      var answer: Answer := *;
      if answer.No? {
        return Err(answer.error);
      }
      var n: nat :| n <= end - start;
      assert input[start..end] == input[start..start + n] + input[start + n..end];
      ingested := ingested + input[start..start + n];
      start := start + n;
      return Ok(n);
    }

    /** Refill the window. It is emptied at its start first, so a read that fails or is dropped
        leaves it in disorder; the transport does not survive that. */
    method Refill() returns (r: Awaited<nat>)
      requires Valid() && start == end && stream.Some?
      modifies this`input, this`start, this`end, this`received
      ensures Framed()
      ensures
        r.Came? && r.result.Ok? ==>
          Valid() && end == r.result.value && old(received) <= received && |received| == |old(received)| + end
      ensures !(r.Came? && r.result.Ok?) ==> received == old(received)
    {
      start := 0;
      var answer: Answer := *;
      if !answer.Yes? {
        return if answer.No? then Came(Err(answer.error)) else Dropped;
      }
      var data: seq<Byte> :| |data| <= WINDOW;
      input := data + input[|data|..];
      end := |data|;
      received := received + data;
      assert input[0..end] == data;
      return Came(Ok(end));
    }

    /** Drive until one protocol event is delivered, for at most `rounds` rounds. Delivering keeps
        the transport; every failing or cancelled exit drops it and disconnects the core. */
    method Next(rounds: nat) returns (exit: Exit)
      requires Valid()
      modifies this
      ensures Valid()
      ensures exit.Delivered? ==> stream == old(stream) && connected == old(connected)
      ensures !exit.Delivered? ==> stream.None? && !connected
      ensures old(received) <= received && old(ingested) <= ingested && old(written) <= written && old(produced) <= produced
      ensures old(stream).None? ==> received == old(received) && ingested == old(ingested) && written == old(written)
    {
      var done, committed := false, false;
      exit := Interrupted;
      for i := 0 to rounds
        invariant Valid() && stream == old(stream) && connected == old(connected)
        invariant old(received) <= received && old(ingested) <= ingested && old(written) <= written && old(produced) <= produced
        invariant old(stream).None? ==> received == old(received) && ingested == old(ingested) && written == old(written)
        invariant exit == Interrupted && !done && !committed
      {
        var step := Round();
        if step.Some? {
          exit := step.value;
          if exit.Delivered? {
            done, committed := true, true;
          }
          break;
        }
      }
      DropTransport(committed);
      DropCore(done);
    }

    /** The transport's guard goes: unless it was committed, so does the transport. */
    method DropTransport(committed: bool)
      modifies this`stream
      ensures stream == if committed then old(stream) else None
    {
      if !committed {
        stream := None;
      }
    }

    /** The core's guard goes: unless the event was delivered, the core is told. */
    method DropCore(done: bool)
      modifies this`connected
      ensures connected == (done && old(connected))
    {
      if !done {
        connected := false;
      }
    }

    /** The guard of a whole exchange goes: unless it was committed, transport and core are aborted. */
    method EndExchange(committed: bool)
      requires Valid()
      modifies this`stream, this`connected
      ensures Valid() && stream == (if committed then old(stream) else None) && connected == (committed && old(connected))
    {
      if !committed {
        Abort();
      }
    }

    /** One pass of the loop: an exit, or None to go round again. */
    method Round() returns (exit: Option<Exit>)
      requires Valid()
      modifies this`input, this`start, this`end, this`received, this`ingested, this`output, this`produced, this`written
      ensures Framed()
      ensures exit.None? || exit.value.Delivered? ==> Valid()
      ensures exit.None? ==> stream.Some?
      ensures old(received) <= received && old(ingested) <= ingested && old(written) <= written && old(produced) <= produced
      ensures stream.None? ==> received == old(received) && ingested == old(ingested) && written == old(written)
    {
      var first := Event();
      if first.No? {
        return Some(Aborted(first.error));
      }
      if first.Yes? {
        return Some(Delivered);
      }
      if stream.None? {
        return Some(Aborted(NOT_CONNECTED));
      }
      var drained := Drain();
      if drained.No? {
        return Some(Aborted(drained.error));
      }
      if drained.Never? {
        return Some(Interrupted);
      }
      var second := Event();
      if second.No? {
        return Some(Aborted(second.error));
      }
      if second.Yes? {
        return Some(Delivered);
      }
      if start < end {
        var taken := Ingest();
        if taken.Err? {
          return Some(Aborted(taken.error));
        }
        return if taken.value == 0 then Some(Aborted(STALLED)) else None;
      }
      var got := Refill();
      if got.Dropped? {
        return Some(Interrupted);
      }
      if got.result.Err? {
        return Some(Aborted(got.result.error));
      }
      return if got.result.value == 0 then Some(Aborted(UNEXPECTED_EOF)) else None;
    }
  }
}
