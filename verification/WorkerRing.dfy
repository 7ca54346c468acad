/** The bounded ring that worker threads post into: producers take turns under a lock
    cell, one consumer takes without it. Each method below is one atomic access to the
    shared words, so any interleaving of calls is a run of the real code. */
module WorkerRing {
  const SPAN := 0x1_0000_0000

  /** A posted message: two 64-bit numbers. */
  datatype Pair = Pair(token: nat, value: nat)

  /** JavaScript's `| 0` and `>>> 0`. */
  function Signed(n: int): int { if n % SPAN < 0x8000_0000 then n % SPAN else n % SPAN - SPAN }

  function Unsigned(x: int): nat { x % SPAN }

  lemma SignedUnsigned(n: int)
    ensures Unsigned(Signed(n)) == n % SPAN && Signed(Unsigned(Signed(n)) + 1) == Signed(n + 1)
  {}

  predicate Wide(p: Pair) { p.token < SPAN * SPAN && p.value < SPAN * SPAN }

  /** The four words of a message, and the message of four words. */
  function WordOf(p: Pair, k: nat): int
    requires k < 4
  {
    Signed(if k == 0 then p.token else if k == 1 then p.token / SPAN else if k == 2 then p.value else p.value / SPAN)
  }

  function Assemble(words: seq<int>): Pair
    requires |words| == 4
  {
    Pair(Unsigned(words[0]) + Unsigned(words[1]) * SPAN, Unsigned(words[2]) + Unsigned(words[3]) * SPAN)
  }

  /** A 64-bit number survives being split into two signed 32-bit words. */
  lemma SplitRoundTrip(p: Pair)
    requires Wide(p)
    ensures Assemble([WordOf(p, 0), WordOf(p, 1), WordOf(p, 2), WordOf(p, 3)]) == p
  {
    hide Signed, Unsigned;
    Halves(p.token);
    Halves(p.value);
  }

  lemma Halves(n: nat)
    requires n < SPAN * SPAN
    ensures Unsigned(Signed(n)) + Unsigned(Signed(n / SPAN)) * SPAN == n
  {
    hide Signed, Unsigned;
    SignedUnsigned(n);
    SignedUnsigned(n / SPAN);
    assert n / SPAN < SPAN;
  }

  /** Where the lock holder, and the consumer, stand. */
  datatype Producer = Idle | Locked(p: Pair) | Reserved(p: Pair, head: nat) | Writing(p: Pair, head: nat, written: nat) | Done
  datatype Consumer = Resting | Saw(tail: nat) | Reading(tail: nat, got: seq<int>)

  /** A power of two below 2^32: a proper divisor of 2^32. */
  predicate Capacity(c: nat) { 0 < c < SPAN && SPAN % c == 0 }

  /** Truncating a counter to 32 bits does not change the slot it names. */
  lemma SlotOf(n: nat, c: nat)
    requires Capacity(c)
    ensures c > 0 && (n % SPAN) % c == n % c
  {
    var d, q, r := SPAN / c, n / SPAN, n % SPAN;
    assert SPAN == c * d;
    assert n == c * d * q + r;
    assert c * d * q == c * (d * q);
    Quotient(n, c, d * q + r / c, r % c) by { assert c * (d * q + r / c) == c * (d * q) + c * (r / c); }
  }

  lemma {:induction false} Lap(c: nat, a: nat, b: nat)
    requires a < b
    ensures c * a + c <= c * b
  {
    if a + 1 < b { Lap(c, a, b - 1); }
    assert c * b == c * (b - 1) + c;
  }

  lemma Quotient(n: nat, c: nat, q: nat, r: nat)
    requires c > 0 && n == c * q + r && r < c
    ensures n % c == r
  {
    var q' := n / c;
    assert n == c * q' + n % c;
    if q < q' { Lap(c, q, q'); }
    if q' < q { Lap(c, q', q); }
  }

  /** Counters less than a lap apart name different slots. */
  lemma Apart(i: nat, j: nat, c: nat)
    requires c > 0 && i < j < i + c
    ensures i % c != j % c
  {
    var q, q' := i / c, j / c;
    assert i == c * q + i % c && j == c * q' + j % c;
    if q < q' { Lap(c, q, q'); }
    if q' < q { Lap(c, q', q); }
  }

  class Ring {
    const capacity: nat
    /** Head, tail, lock, three cells for waking, and four words per slot. */
    const words: array<int>
    var producer: Producer
    var consumer: Consumer
    ghost var posted: seq<Pair>
    ghost var taken: seq<Pair>

    ghost predicate Slot(i: nat, p: Pair, n: nat)
      requires capacity > 0 && words.Length == 6 + 4 * capacity && n <= 4
      reads words
    {
      forall k :: 0 <= k < n ==> words[6 + (i % capacity) * 4 + k] == WordOf(p, k)
    }

    ghost predicate Valid()
      reads this, words
    {
      && Capacity(capacity) && words.Length == 6 + 4 * capacity && capacity > 0
      && |taken| <= |posted| <= |taken| + capacity && taken == posted[..|taken|]
      && words[0] == Signed(|posted|) && words[1] == Signed(|taken|)
      && (words[2] == 0 <==> producer.Idle?) && (words[2] == 0 || words[2] == 1)
      && (forall i :: 0 <= i < |posted| ==> Wide(posted[i]))
      && (forall i :: |taken| <= i < |posted| ==> Slot(i, posted[i], 4))
      && ProducerFits() && ConsumerFits()
    }

    ghost predicate ProducerFits()
      requires capacity > 0 && words.Length == 6 + 4 * capacity
      reads this, words
    {
      match producer
      case Locked(p) => Wide(p)
      case Reserved(p, head) => Wide(p) && head == |posted| % SPAN
      case Writing(p, head, written) =>
        Wide(p) && head == |posted| % SPAN && |posted| < |taken| + capacity && written <= 4 && Slot(|posted|, p, written)
      case _ => true
    }

    ghost predicate ConsumerFits()
      reads this
    {
      match consumer
      case Saw(tail) => tail == |taken| % SPAN
      case Reading(tail, got) =>
        && tail == |taken| % SPAN && |taken| < |posted| && |got| <= 4
        && forall k :: 0 <= k < |got| ==> got[k] == WordOf(posted[|taken|], k)
      case _ => true
    }

    constructor (n: nat)
      requires Capacity(n)
      ensures Valid() && capacity == n && posted == [] && taken == [] && fresh(words)
    {
      capacity := n;
      words := new int[6 + 4 * n](_ => 0);
      producer, consumer, posted, taken := Idle, Resting, [], [];
    }

    // -------------------------------------------------------------- producers

    /** Try to take the lock; on contention the post reports false and nothing changed. */
    method TryLock(p: Pair) returns (ok: bool)
      requires Valid() && Wide(p)
      modifies this`producer, words
      ensures Valid() && (ok <==> old(producer).Idle?)
      ensures producer == (if ok then Locked(p) else old(producer))
    {
      if words[2] != 0 {
        return false;
      }
      words[2] := 1;
      producer := Locked(p);
      return true;
    }

    method LoadHead()
      requires Valid() && producer.Locked?
      modifies this`producer
      ensures Valid() && producer == Reserved(old(producer).p, |posted| % SPAN)
    {
      SignedUnsigned(|posted|);
      producer := Reserved(producer.p, Unsigned(words[0]));
    }

    /** Read the tail and either give up, if the ring is full, or start writing. */
    method LoadTail() returns (room: bool)
      requires Valid() && producer.Reserved?
      modifies this`producer
      ensures Valid() && (room <==> |posted| < |taken| + capacity)
      ensures producer == if room then Writing(old(producer).p, old(producer).head, 0) else Done
    {
      SignedUnsigned(|taken|);
      Distance(|posted|, |taken|);
      var tail := Unsigned(words[1]);
      if Unsigned(producer.head - tail) >= capacity {
        producer := Done;
        return false;
      }
      producer := Writing(producer.p, producer.head, 0);
      return true;
    }

    /** Write the next of the four words. */
    method WriteWord()
      requires Valid() && producer.Writing? && producer.written < 4
      modifies this`producer, words
      ensures Valid() && producer == old(producer).(written := old(producer).written + 1)
    {
      var p, head, written := producer.p, producer.head, producer.written;
      SlotOf(|posted|, capacity);
      var offset := 6 + (head % capacity) * 4;
      words[offset + written] := WordOf(p, written);
      producer := Writing(p, head, written + 1);
      forall i | |taken| <= i < |posted| ensures Slot(i, posted[i], 4) {
        Apart(i, |posted|, capacity);
        assert old(Slot(i, posted[i], 4));
      }
    }

    /** Publish the slot: this is where the message enters the queue. */
    method StoreHead()
      requires Valid() && producer.Writing? && producer.written == 4
      modifies this`producer, this`posted, words
      ensures Valid() && posted == old(posted) + [old(producer).p] && producer == Done
    {
      SignedUnsigned(|posted|);
      words[0] := Signed(producer.head + 1);
      posted := posted + [producer.p];
      producer := Done;
      forall i | |taken| <= i < |posted| ensures Slot(i, posted[i], 4) {
        assert i < |old(posted)| ==> old(Slot(i, posted[i], 4));
      }
    }

    method Unlock()
      requires Valid() && producer.Done?
      modifies this`producer, words
      ensures Valid() && producer == Idle
    {
      words[2] := 0;
      producer := Idle;
      forall i | |taken| <= i < |posted| ensures Slot(i, posted[i], 4) { assert old(Slot(i, posted[i], 4)); }
    }

    // --------------------------------------------------------------- consumer

    method ReadTail()
      requires Valid() && consumer.Resting?
      modifies this`consumer
      ensures Valid() && consumer == Saw(|taken| % SPAN)
    {
      SignedUnsigned(|taken|);
      consumer := Saw(Unsigned(words[1]));
    }

    method ReadHead() returns (some: bool)
      requires Valid() && consumer.Saw?
      modifies this`consumer
      ensures Valid() && (some <==> |taken| < |posted|)
      ensures consumer == if some then Reading(old(consumer).tail, []) else Resting
    {
      SignedUnsigned(|posted|);
      Distance(|posted|, |taken|);
      if consumer.tail == Unsigned(words[0]) {
        consumer := Resting;
        return false;
      }
      consumer := Reading(consumer.tail, []);
      return true;
    }

    method ReadWord()
      requires Valid() && consumer.Reading? && |consumer.got| < 4
      modifies this`consumer
      ensures Valid() && consumer.Reading? && consumer.tail == old(consumer).tail && |consumer.got| == |old(consumer).got| + 1
    {
      SlotOf(|taken|, capacity);
      var offset := 6 + (consumer.tail % capacity) * 4;
      assert Slot(|taken|, posted[|taken|], 4);
      consumer := Reading(consumer.tail, consumer.got + [words[offset + |consumer.got|]]);
    }

    /** Release the slot: the message taken is the oldest one posted and not yet taken. */
    method StoreTail() returns (p: Pair)
      requires Valid() && consumer.Reading? && |consumer.got| == 4
      modifies this`consumer, this`taken, words
      ensures Valid() && consumer == Resting
      ensures |old(taken)| < |posted| && p == posted[|old(taken)|] && taken == old(taken) + [p]
    {
      SplitRoundTrip(posted[|taken|]);
      SignedUnsigned(|taken|);
      p := Assemble(consumer.got);
      assert consumer.got == [consumer.got[0], consumer.got[1], consumer.got[2], consumer.got[3]];
      words[1] := Signed(consumer.tail + 1);
      taken := taken + [p];
      consumer := Resting;
      forall i | |taken| <= i < |posted| ensures Slot(i, posted[i], 4) { assert old(Slot(i, posted[i], 4)); }
      assert old(ProducerFits());
    }

    // ------------------------------------------------------------- whole calls

    /** `post`, uninterrupted: it fails on contention or a full ring, and then no message moved. */
    method Post(p: Pair) returns (ok: bool)
      requires Valid() && Wide(p)
      modifies this`producer, this`posted, words
      ensures Valid() && producer == old(producer)
      ensures ok <==> old(producer).Idle? && |old(posted)| < |taken| + capacity
      ensures posted == if ok then old(posted) + [p] else old(posted)
    {
      ok := TryLock(p);
      if !ok {
        return;
      }
      LoadHead();
      ok := LoadTail();
      if ok {
        WriteWord();
        WriteWord();
        WriteWord();
        WriteWord();
        StoreHead();
      }
      Unlock();
    }

    /** `take`, uninterrupted: the oldest message, if there is one. */
    method Take() returns (some: bool, p: Pair)
      requires Valid() && consumer.Resting?
      modifies this`consumer, this`taken, words
      ensures Valid() && consumer == Resting && (some <==> |old(taken)| < |posted|)
      ensures some ==> p == posted[|old(taken)|]
      ensures taken == if some then old(taken) + [p] else old(taken)
    {
      ReadTail();
      some := ReadHead();
      p := Pair(0, 0);
      if some {
        ReadWord();
        ReadWord();
        ReadWord();
        ReadWord();
        p := StoreTail();
      }
    }
  }

  /** The distance between two 32-bit counters is exact while it is below a lap. */
  lemma Distance(a: nat, b: nat)
    requires b <= a < b + SPAN
    ensures Unsigned(a % SPAN - b % SPAN) == a - b
    ensures a % SPAN == b % SPAN <==> a == b
  {}
}
