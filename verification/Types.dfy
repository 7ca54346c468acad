/** Values shared by the loop model and the driver that refines it. */
module Types {

  datatype Option<+T> = None | Some(value: T)

  /** A generational table key: the slot index in the low 32 bits, the generation above. */
  type Key = nat
  type Token = nat
  type Instant = nat

  const GENERATION_SPAN: nat := 0x1_0000_0000
  const LAST_GENERATION: nat := 0xFFFF_FFFF

  function Slot(k: Key): nat { k % GENERATION_SPAN }

  function Generation(k: Key): nat { k / GENERATION_SPAN }

  /** Removing a key of the last generation retires its slot for good. */
  predicate Exhausted(k: Key) { Generation(k) >= LAST_GENERATION }

  datatype ErrorKind =
    InvalidInput | NotFound | ResourceLimit | WouldBlock | TimedOut | Unsupported | Other(code: nat)

  datatype Result<+T> = Ok(value: T) | Err(error: ErrorKind)

  /** `Housed` stands for the three results that carry a new handle (an accepted
      stream, an accepted pipe, a received handle), `Value` for every result
      that carries none. */
  datatype OpResult =
    | Closed
    | Posted(payload: nat)
    | Fired
    | Stopped
    | Cancelled
    | Failed(error: ErrorKind)
    | Housed(conn: Key)
    | Opened
    | Value(code: nat)

  datatype Completion = Completion(
    token: Token, op: Option<Key>, handle: Option<Key>, terminal: bool, result: OpResult)

  /** A queued completion and whether it keeps the loop alive. */
  datatype Entry = Entry(completion: Completion, referenced: bool)

  /** A result published by a pool job or an external wait. */
  datatype Work = Work(op: Key, result: OpResult)

  const NATIVE_EVENTS: nat := 0
  const TIMER_EVENTS: nat := 1
  const POST_EVENTS: nat := 2

  /** The bounded reserve a completion is charged to, if any. */
  function EventClass(c: Completion): (r: Option<nat>)
    ensures r.Some? ==> r.value < 3
  {
    if c.result.Posted? then Some(POST_EVENTS)
    else if c.result.Fired? && !c.terminal then Some(TIMER_EVENTS)
    else if !c.terminal then Some(NATIVE_EVENTS)
    else None
  }

  datatype Config = Config(
    maxHandles: nat, maxOperations: nat, eventsPerTurn: nat, maxUndelivered: nat, horizon: Instant)

  /** The configurations `Driver::new` accepts. */
  predicate ValidConfig(c: Config) {
    && 0 < c.maxHandles <= LAST_GENERATION
    && 0 < c.maxOperations <= LAST_GENERATION
    && 0 < c.eventsPerTurn
    && 0 < c.maxUndelivered
  }

  function Min(a: nat, b: nat): nat { if a < b then a else b }

  function Max(a: nat, b: nat): nat { if a < b then b else a }

  function CompletionCapacity(c: Config): nat {
    3 * c.eventsPerTurn + c.maxOperations + c.maxHandles
  }

  function One(b: bool): nat { if b then 1 else 0 }

  /** The smallest power of two at least `n`, starting the search at `p`. */
  function NextPowerOfTwo(n: nat, p: nat): (r: nat)
    requires 0 < p
    ensures n <= r && p <= r
    decreases n - p
  {
    if n <= p then p else NextPowerOfTwo(n, 2 * p)
  }

  function RingCapacity(c: Config): (r: nat)
    ensures 2 <= r && Min(c.maxUndelivered, c.maxOperations) <= r
  {
    NextPowerOfTwo(Max(2, Min(c.maxUndelivered, c.maxOperations)), 1)
  }
}
