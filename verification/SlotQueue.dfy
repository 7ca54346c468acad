/** The lock-free slot queue under the result ring, one step for each atomic access: any number of
    producers, each with a credit, and the loop as the one consumer. Cursors are kept modulo the
    ring's size, a power of two, so that the wrap of a machine word makes no difference. */
module SlotQueue {
  import opened Types

  type Producer = nat

  /** The four states of a slot, with the operation whose result it is for. */
  datatype Cell = Empty | Claimed(owner: Producer) | Full(owner: Producer) | Taken(owner: Producer)

  /** How far a charged operation is: it looks for a slot, claims, counts and fills one, waits there
      until the loop takes its result, and keeps its credit until the loop has retired it. `Refused`
      is a push that found every slot taken, on which the port's assertion fires. */
  datatype Phase =
    | Idle
    | Scanning(start: nat, offset: nat)
    | Claiming(at: nat)
    | Writing(at: nat)
    | Waiting(at: nat)
    | Reading(at: nat)
    | Leaving(at: nat)
    | Returned
    | Refused

  /** The loop's pop. `due` says whether a slot was full when it began. */
  datatype Consumer = Resting | Popping(start: nat, offset: nat, due: bool) | Holding(p: Producer)

  /** At most `credit` operations are charged, and at most `threads` of them push at a time. */
  datatype Ring = Ring(
    cells: seq<Cell>, credit: nat, threads: nat, enqueue: nat, dequeue: nat, occupied: int,
    ops: map<Producer, Phase>, next: Producer, consumer: Consumer, popped: seq<Producer>)

  datatype Step =
    | AdmitS
    | WithdrawS(p: Producer)
    | BeginS(p: Producer)
    | LookS(p: Producer)
    | TallyS(p: Producer)
    | StoreS(p: Producer)
    | CheckS
    | SeekS
    | UncountS
    | ReleaseS
    | RetireS

  function Start(size: nat, credit: nat, threads: nat): Ring {
    Ring(seq(size, _ => Empty), credit, threads, 0, 0, 0, map[], 0, Resting, [])
  }

  function Wrap(size: nat, i: nat): nat { if i < size then i else i - size }

  /** Inside a push; counted in `occupied`; taken by the loop. */
  predicate InPush(phase: Phase) { phase.Scanning? || phase.Claiming? || phase.Writing? }

  predicate InTally(phase: Phase) { phase.Writing? || phase.Waiting? || phase.Reading? }

  predicate Served(phase: Phase) { phase.Reading? || phase.Leaving? || phase.Returned? }

  function Pushing(ops: map<Producer, Phase>): set<Producer> { set p | p in ops && InPush(ops[p]) }

  function Tallied(ops: map<Producer, Phase>): set<Producer> { set p | p in ops && InTally(ops[p]) }

  predicate AnyFull(cells: seq<Cell>) { exists i :: 0 <= i < |cells| && cells[i].Full? }

  // ------------------------------------------------------------------ steps

  function Begin(r: Ring, p: Producer): Ring {
    r.(ops := r.ops[p := Scanning(r.enqueue, 0)], enqueue := Wrap(|r.cells|, r.enqueue + 1))
  }

  /** One compare-exchange of a push: claim the slot, go on to the next, or give up after the last. */
  function Look(r: Ring, p: Producer, start: nat, offset: nat): Ring {
    var i := Wrap(|r.cells|, start + offset);
    if i < |r.cells| && r.cells[i].Empty? then r.(cells := r.cells[i := Claimed(p)], ops := r.ops[p := Claiming(i)])
    else r.(ops := r.ops[p := if offset + 1 < |r.cells| then Scanning(start, offset + 1) else Refused])
  }

  /** One compare-exchange of a pop. */
  function Seek(r: Ring, start: nat, offset: nat, due: bool): Ring {
    var i := Wrap(|r.cells|, start + offset);
    if i < |r.cells| && r.cells[i].Full? then
      var p := r.cells[i].owner;
      r.(cells := r.cells[i := Taken(p)], ops := r.ops[p := Reading(i)], consumer := Holding(p), popped := r.popped + [p])
    else r.(consumer := if offset + 1 < |r.cells| then Popping(start, offset + 1, due) else Resting)
  }

  predicate Enabled(r: Ring, s: Step) {
    match s
    case AdmitS => |r.ops| < r.credit
    case WithdrawS(p) => p in r.ops && r.ops[p].Idle?
    case BeginS(p) => p in r.ops && r.ops[p].Idle? && |Pushing(r.ops)| < r.threads
    case LookS(p) => p in r.ops && r.ops[p].Scanning?
    case TallyS(p) => p in r.ops && r.ops[p].Claiming?
    case StoreS(p) => p in r.ops && r.ops[p].Writing? && r.ops[p].at < |r.cells|
    case CheckS => r.consumer.Resting? && r.occupied != 0
    case SeekS => r.consumer.Popping?
    case UncountS => r.consumer.Holding? && r.consumer.p in r.ops && r.ops[r.consumer.p].Reading?
    case ReleaseS =>
      r.consumer.Holding? && r.consumer.p in r.ops && r.ops[r.consumer.p].Leaving? && r.ops[r.consumer.p].at < |r.cells|
    case RetireS => r.consumer.Holding? && r.consumer.p in r.ops && r.ops[r.consumer.p].Returned?
  }

  function Apply(r: Ring, s: Step): Ring {
    if !Enabled(r, s) then r else
    match s
    case AdmitS => r.(ops := r.ops[r.next := Idle], next := r.next + 1)
    case WithdrawS(p) => r.(ops := r.ops - {p})
    case BeginS(p) => Begin(r, p)
    case LookS(p) => Look(r, p, r.ops[p].start, r.ops[p].offset)
    case TallyS(p) => r.(ops := r.ops[p := Writing(r.ops[p].at)], occupied := r.occupied + 1)
    case StoreS(p) => r.(ops := r.ops[p := Waiting(r.ops[p].at)], cells := r.cells[r.ops[p].at := Full(p)])
    case CheckS => r.(consumer := Popping(r.dequeue, 0, AnyFull(r.cells)), dequeue := Wrap(|r.cells|, r.dequeue + 1))
    case SeekS => Seek(r, r.consumer.start, r.consumer.offset, r.consumer.due)
    case UncountS => r.(ops := r.ops[r.consumer.p := Leaving(r.ops[r.consumer.p].at)], occupied := r.occupied - 1)
    case ReleaseS =>
      r.(ops := r.ops[r.consumer.p := Returned], cells := r.cells[r.ops[r.consumer.p].at := Empty])
    case RetireS => r.(ops := r.ops - {r.consumer.p}, consumer := Resting)
  }

  function After(r: Ring, trace: seq<Step>): Ring
    decreases |trace|
  {
    if trace == [] then r else After(Apply(r, trace[0]), trace[1..])
  }

  // -------------------------------------------------------------- invariant

  /** A slot that is not empty belongs to the operation that says so. */
  predicate Owned(cell: Cell, i: nat, ops: map<Producer, Phase>) {
    match cell
    case Empty => true
    case Claimed(p) => p in ops && (ops[p] == Claiming(i) || ops[p] == Writing(i))
    case Full(p) => p in ops && ops[p] == Waiting(i)
    case Taken(p) => p in ops && (ops[p] == Reading(i) || ops[p] == Leaving(i))
  }

  predicate Housed(p: Producer, phase: Phase, cells: seq<Cell>, consumer: Consumer) {
    match phase
    case Idle => true
    case Scanning(start, offset) => start < |cells| && offset < |cells|
    case Claiming(i) => i < |cells| && cells[i] == Claimed(p)
    case Writing(i) => i < |cells| && cells[i] == Claimed(p)
    case Waiting(i) => i < |cells| && cells[i] == Full(p)
    case Reading(i) => i < |cells| && cells[i] == Taken(p) && consumer == Holding(p)
    case Leaving(i) => i < |cells| && cells[i] == Taken(p) && consumer == Holding(p)
    case Returned => consumer == Holding(p)
    case Refused => true
  }

  ghost predicate Placed(cells: seq<Cell>, ops: map<Producer, Phase>, consumer: Consumer) {
    && (forall i :: 0 <= i < |cells| ==> Owned(cells[i], i, ops))
    && (forall p :: p in ops ==> Housed(p, ops[p], cells, consumer))
  }

  predicate FullFrom(cells: seq<Cell>, start: nat, q: nat) {
    Wrap(|cells|, start + q) < |cells| && cells[Wrap(|cells|, start + q)].Full?
  }

  predicate VacantFrom(cells: seq<Cell>, start: nat, q: nat) { Vacant(cells, Wrap(|cells|, start + q)) }

  /** A pop that began while a slot was full still has one ahead. */
  ghost predicate Due(cells: seq<Cell>, consumer: Consumer) {
    consumer.Popping? ==>
      && consumer.start < |cells| && consumer.offset < |cells|
      && (consumer.due ==> exists q :: consumer.offset <= q < |cells| && FullFrom(cells, consumer.start, q))
  }

  /** Nothing is popped twice. */
  ghost predicate Once(ops: map<Producer, Phase>, next: Producer, popped: seq<Producer>) {
    && (forall p :: p in ops ==> p < next)
    && (forall i :: 0 <= i < |popped| ==> popped[i] < next && (popped[i] in ops ==> Served(ops[popped[i]])))
    && (forall i, j :: 0 <= i < j < |popped| ==> popped[i] != popped[j])
  }

  predicate Holds(ops: map<Producer, Phase>, consumer: Consumer) {
    consumer.Holding? ==> consumer.p in ops && Served(ops[consumer.p])
  }

  ghost predicate Inv(r: Ring) {
    && 2 <= |r.cells| && |r.ops| <= r.credit <= |r.cells| && r.enqueue < |r.cells| && r.dequeue < |r.cells|
    && Placed(r.cells, r.ops, r.consumer) && Due(r.cells, r.consumer) && Once(r.ops, r.next, r.popped)
    && r.occupied == |Tallied(r.ops)| && |Pushing(r.ops)| <= r.threads && Holds(r.ops, r.consumer)
  }

  /** Where pushes cannot meet, every push still has an empty slot ahead. */
  ghost predicate Finds(r: Ring) {
    forall p :: p in r.ops ==> !r.ops[p].Refused? && (r.ops[p].Scanning? ==> Ahead(r.cells, r.ops[p].start, r.ops[p].offset))
  }

  ghost predicate Ahead(cells: seq<Cell>, start: nat, offset: nat) {
    exists q :: offset <= q < |cells| && VacantFrom(cells, start, q)
  }

  predicate Vacant(cells: seq<Cell>, i: nat) { i < |cells| && cells[i].Empty? }

  // ----------------------------------------------------------------- counts

  lemma PhaseCounts(ops: map<Producer, Phase>, p: Producer, phase: Phase)
    ensures |ops[p := phase]| == |ops| + One(p !in ops)
    ensures |Tallied(ops[p := phase])| == |Tallied(ops)| - One(p in ops && InTally(ops[p])) + One(InTally(phase))
    ensures |Pushing(ops[p := phase])| == |Pushing(ops)| - One(p in ops && InPush(ops[p])) + One(InPush(phase))
  {
    hide InTally, InPush;
    var ops' := ops[p := phase];
    assert |ops'| == |ops'.Keys| && |ops| == |ops.Keys|;
    SetChange(ops.Keys, ops'.Keys, p);
    SetChange(Tallied(ops), Tallied(ops'), p);
    SetChange(Pushing(ops), Pushing(ops'), p);
  }

  lemma SetChange(a: set<Producer>, b: set<Producer>, p: Producer)
    requires forall x :: x != p ==> (x in a <==> x in b)
    ensures |b| == |a| - One(p in a) + One(p in b)
  {
    assert a - {p} == b - {p};
    if p in a { assert |a - {p}| == |a| - 1; } else { assert a - {p} == a; }
    if p in b { assert |b - {p}| == |b| - 1; } else { assert b - {p} == b; }
  }

  lemma DropCounts(ops: map<Producer, Phase>, p: Producer)
    requires p in ops && (ops[p].Idle? || ops[p].Returned?)
    ensures |ops - {p}| == |ops| - 1 && Tallied(ops - {p}) == Tallied(ops) && Pushing(ops - {p}) == Pushing(ops)
  {
    assert (ops - {p}).Keys == ops.Keys - {p};
    assert |ops.Keys| == |ops|;
  }

  function Owners(cells: seq<Cell>, n: nat): set<Producer>
    requires n <= |cells| && forall i :: 0 <= i < |cells| ==> !cells[i].Empty?
  {
    if n == 0 then {} else Owners(cells, n - 1) + {cells[n - 1].owner}
  }

  /** Slots that are all taken belong to as many operations. */
  lemma {:induction false} OwnersCount(cells: seq<Cell>, ops: map<Producer, Phase>, n: nat)
    requires n <= |cells| && forall i :: 0 <= i < |cells| ==> !cells[i].Empty? && Owned(cells[i], i, ops)
    ensures |Owners(cells, n)| == n
    ensures forall x :: x in Owners(cells, n) ==> x in ops && SlotOf(ops[x]).Some? && SlotOf(ops[x]).value < n
  {
    if n > 0 {
      OwnersCount(cells, ops, n - 1);
      OwnerAt(cells[n - 1], n - 1, ops);
      hide Owned, SlotOf;
    }
  }

  lemma OwnerAt(cell: Cell, i: nat, ops: map<Producer, Phase>)
    requires Owned(cell, i, ops) && !cell.Empty?
    ensures cell.owner in ops && SlotOf(ops[cell.owner]) == Some(i)
  {}

  /** A charged operation that holds no slot leaves one for it: credits never exceed slots. */
  lemma SlotLeft(r: Ring, p: Producer) returns (i: nat)
    requires Inv(r) && p in r.ops && r.ops[p].Idle?
    ensures Vacant(r.cells, i)
  {
    var taken := forall j :: 0 <= j < |r.cells| ==> !r.cells[j].Empty?;
    if taken {
      OwnersCount(r.cells, r.ops, |r.cells|);
      assert |r.ops.Keys - {p}| == |r.ops.Keys| - 1 == |r.ops| - 1;
      Within(Owners(r.cells, |r.cells|), r.ops.Keys - {p});
    }
    i :| 0 <= i < |r.cells| && r.cells[i].Empty?;
  }

  lemma Within(a: set<Producer>, b: set<Producer>)
    requires a <= b
    ensures |a| <= |b|
  {
    assert b == a + (b - a);
  }

  // ------------------------------------------------------------------- runs

  function SlotOf(phase: Phase): Option<nat> {
    if phase.Claiming? || phase.Writing? || phase.Waiting? || phase.Reading? || phase.Leaving? then Some(phase.at) else None
  }

  /** One operation and its slot change together. */
  lemma PlacedMove(
    cells: seq<Cell>, ops: map<Producer, Phase>, consumer: Consumer, p: Producer, phase: Phase, i: nat, cell: Cell, consumer': Consumer)
    requires Placed(cells, ops, consumer) && i < |cells| && (cells[i].Empty? || cells[i].owner == p)
    requires p in ops ==> SlotOf(ops[p]).None? || SlotOf(ops[p]) == Some(i)
    requires Owned(cell, i, ops[p := phase]) && Housed(p, phase, cells[i := cell], consumer')
    requires consumer' == consumer || forall x :: x in ops && x != p ==> !Served(ops[x])
    ensures Placed(cells[i := cell], ops[p := phase], consumer')
  {
    var cells', ops' := cells[i := cell], ops[p := phase];
    forall j | 0 <= j < |cells| && j != i ensures Owned(cells'[j], j, ops') { assert Owned(cells[j], j, ops); }
    forall x | x in ops && x != p ensures Housed(x, ops[x], cells', consumer') { assert Housed(x, ops[x], cells, consumer); }
  }

  /** An operation without a slot changes, or goes. */
  lemma PlacedPhase(cells: seq<Cell>, ops: map<Producer, Phase>, consumer: Consumer, p: Producer, phase: Phase)
    requires Placed(cells, ops, consumer) && (p in ops ==> SlotOf(ops[p]).None?) && SlotOf(phase).None?
    requires Housed(p, phase, cells, consumer)
    ensures Placed(cells, ops[p := phase], consumer)
  {
    forall j | 0 <= j < |cells| ensures Owned(cells[j], j, ops[p := phase]) { assert Owned(cells[j], j, ops); }
    forall x | x in ops && x != p ensures Housed(x, ops[x], cells, consumer) {}
  }

  lemma PlacedDrop(cells: seq<Cell>, ops: map<Producer, Phase>, consumer: Consumer, p: Producer, consumer': Consumer)
    requires Placed(cells, ops, consumer) && p in ops && SlotOf(ops[p]).None?
    requires consumer' == consumer || forall x :: x in ops && x != p ==> !Served(ops[x])
    ensures Placed(cells, ops - {p}, consumer')
  {
    forall j | 0 <= j < |cells| ensures Owned(cells[j], j, ops - {p}) { assert Owned(cells[j], j, ops); }
    forall x | x in ops && x != p ensures Housed(x, ops[x], cells, consumer') { assert Housed(x, ops[x], cells, consumer); }
  }

  lemma OnceMove(ops: map<Producer, Phase>, next: Producer, popped: seq<Producer>, p: Producer, phase: Phase)
    requires Once(ops, next, popped) && p in ops && (Served(ops[p]) ==> Served(phase))
    ensures Once(ops[p := phase], next, popped)
  {}

  lemma OncePop(ops: map<Producer, Phase>, next: Producer, popped: seq<Producer>, p: Producer, i: nat)
    requires Once(ops, next, popped) && p in ops && !Served(ops[p])
    ensures Once(ops[p := Reading(i)], next, popped + [p])
  {}

  /** Only the operation the loop holds is being served. */
  lemma OneServed(r: Ring)
    requires Placed(r.cells, r.ops, r.consumer)
    ensures forall x :: x in r.ops && Served(r.ops[x]) ==> r.consumer == Holding(x)
  {
    forall x | x in r.ops && Served(r.ops[x]) ensures r.consumer == Holding(x) {
      assert Housed(x, r.ops[x], r.cells, r.consumer);
    }
  }

  /** Every step keeps the invariant. */
  lemma StepKeeps(r: Ring, s: Step)
    requires Inv(r)
    ensures Inv(Apply(r, s))
  {
    hide Placed, Due, Once, Housed, Owned, Tallied, Pushing;
    if Enabled(r, s) {
      match s
      case AdmitS => AdmitKeeps(r);
      case WithdrawS(p) => WithdrawKeeps(r, p);
      case BeginS(p) => BeginKeeps(r, p);
      case LookS(p) => LookKeeps(r, p);
      case TallyS(p) => TallyKeeps(r, p);
      case StoreS(p) => StoreKeeps(r, p);
      case CheckS => CheckKeeps(r);
      case SeekS => SeekKeeps(r);
      case UncountS => UncountKeeps(r);
      case ReleaseS => ReleaseKeeps(r);
      case RetireS => RetireKeeps(r);
    }
  }

  lemma AdmitKeeps(r: Ring)
    requires Inv(r) && Enabled(r, AdmitS)
    ensures Inv(Apply(r, AdmitS))
  {
    hide Placed, Due, Tallied, Pushing;
    PhaseCounts(r.ops, r.next, Idle);
    PlacedPhase(r.cells, r.ops, r.consumer, r.next, Idle);
  }

  lemma WithdrawKeeps(r: Ring, p: Producer)
    requires Inv(r) && Enabled(r, WithdrawS(p))
    ensures Inv(Apply(r, WithdrawS(p)))
  {
    hide Placed, Due, Tallied, Pushing;
    DropCounts(r.ops, p);
    PlacedDrop(r.cells, r.ops, r.consumer, p, r.consumer);
  }

  lemma BeginKeeps(r: Ring, p: Producer)
    requires Inv(r) && Enabled(r, BeginS(p))
    ensures Inv(Apply(r, BeginS(p)))
  {
    hide Placed, Due, Tallied, Pushing, Once;
    PhaseCounts(r.ops, p, Scanning(r.enqueue, 0));
    OnceMove(r.ops, r.next, r.popped, p, Scanning(r.enqueue, 0));
    PlacedPhase(r.cells, r.ops, r.consumer, p, Scanning(r.enqueue, 0));
  }

  lemma LookKeeps(r: Ring, p: Producer)
    requires Inv(r) && Enabled(r, LookS(p))
    ensures Inv(Apply(r, LookS(p)))
  {
    hide Inv;
    HousedAt(r, p);
    if r.cells[Wrap(|r.cells|, r.ops[p].start + r.ops[p].offset)].Empty? { ClaimKeeps(r, p); } else { MissKeeps(r, p); }
  }

  lemma ClaimKeeps(r: Ring, p: Producer)
    requires Inv(r) && p in r.ops && r.ops[p].Scanning? && Vacant(r.cells, Wrap(|r.cells|, r.ops[p].start + r.ops[p].offset))
    ensures Inv(Look(r, p, r.ops[p].start, r.ops[p].offset))
  {
    var i := Wrap(|r.cells|, r.ops[p].start + r.ops[p].offset);
    hide Placed, Tallied, Pushing, Due, Wrap, Once;
    PhaseCounts(r.ops, p, Claiming(i));
    OnceMove(r.ops, r.next, r.popped, p, Claiming(i));
    PlacedMove(r.cells, r.ops, r.consumer, p, Claiming(i), i, Claimed(p), r.consumer);
    DueFill(r.cells, r.consumer, i, Claimed(p));
  }

  lemma MissKeeps(r: Ring, p: Producer)
    requires Inv(r) && p in r.ops && r.ops[p].Scanning? && !Vacant(r.cells, Wrap(|r.cells|, r.ops[p].start + r.ops[p].offset))
    ensures Inv(Look(r, p, r.ops[p].start, r.ops[p].offset))
  {
    var start, offset := r.ops[p].start, r.ops[p].offset;
    hide Inv, Wrap;
    HousedAt(r, p);
    if offset + 1 < |r.cells| { GoesOn(r, p, Scanning(start, offset + 1)); } else { GoesOn(r, p, Refused); }
  }

  lemma HousedAt(r: Ring, p: Producer)
    requires Inv(r) && p in r.ops
    ensures Housed(p, r.ops[p], r.cells, r.consumer)
  {
    hide Due, Once, Tallied, Pushing;
  }

  lemma GoesOn(r: Ring, p: Producer, phase: Phase)
    requires Inv(r) && p in r.ops && r.ops[p].Scanning? && (phase.Scanning? || phase.Refused?)
    requires Housed(p, phase, r.cells, r.consumer)
    ensures Inv(r.(ops := r.ops[p := phase]))
  {
    hide Placed, Tallied, Pushing, Due, Once, Housed;
    PhaseCounts(r.ops, p, phase);
    OnceMove(r.ops, r.next, r.popped, p, phase);
    PlacedPhase(r.cells, r.ops, r.consumer, p, phase);
  }

  /** A slot that was not full may change, or become full. */
  lemma DueFill(cells: seq<Cell>, consumer: Consumer, i: nat, cell: Cell)
    requires Due(cells, consumer) && i < |cells| && (!cells[i].Full? || cell.Full?)
    ensures Due(cells[i := cell], consumer)
  {
    if consumer.Popping? && consumer.due {
      var q :| consumer.offset <= q < |cells| && FullFrom(cells, consumer.start, q);
      assert FullFrom(cells[i := cell], consumer.start, q);
    }
  }

  lemma TallyKeeps(r: Ring, p: Producer)
    requires Inv(r) && Enabled(r, TallyS(p))
    ensures Inv(Apply(r, TallyS(p)))
  {
    var i := r.ops[p].at;
    assert Housed(p, r.ops[p], r.cells, r.consumer);
    hide Placed, Due, Tallied, Pushing, Once;
    PhaseCounts(r.ops, p, Writing(i));
    OnceMove(r.ops, r.next, r.popped, p, Writing(i));
    PlacedMove(r.cells, r.ops, r.consumer, p, Writing(i), i, r.cells[i], r.consumer);
    assert r.cells[i := r.cells[i]] == r.cells;
  }

  lemma StoreKeeps(r: Ring, p: Producer)
    requires Inv(r) && Enabled(r, StoreS(p))
    ensures Inv(Apply(r, StoreS(p)))
  {
    var i := r.ops[p].at;
    assert Housed(p, r.ops[p], r.cells, r.consumer);
    hide Placed, Due, Tallied, Pushing, Once;
    PhaseCounts(r.ops, p, Waiting(i));
    OnceMove(r.ops, r.next, r.popped, p, Waiting(i));
    PlacedMove(r.cells, r.ops, r.consumer, p, Waiting(i), i, Full(p), r.consumer);
    DueFill(r.cells, r.consumer, i, Full(p));
  }

  lemma CheckKeeps(r: Ring)
    requires Inv(r) && Enabled(r, CheckS)
    ensures Inv(Apply(r, CheckS))
  {
    OneServed(r);
    var consumer := Apply(r, CheckS).consumer;
    assert Placed(r.cells, r.ops, consumer) by { PlacedResting(r.cells, r.ops, r.consumer, consumer); }
    hide Placed, Tallied, Pushing, Once;
    if AnyFull(r.cells) {
      var i :| 0 <= i < |r.cells| && r.cells[i].Full?;
      assert FullFrom(r.cells, r.dequeue, if i >= r.dequeue then i - r.dequeue else i + |r.cells| - r.dequeue);
    }
  }

  lemma PlacedResting(cells: seq<Cell>, ops: map<Producer, Phase>, consumer: Consumer, consumer': Consumer)
    requires Placed(cells, ops, consumer) && forall x :: x in ops ==> !Served(ops[x])
    ensures Placed(cells, ops, consumer')
  {
    forall x | x in ops ensures Housed(x, ops[x], cells, consumer') { assert Housed(x, ops[x], cells, consumer); }
  }

  lemma SeekKeeps(r: Ring)
    requires Inv(r) && Enabled(r, SeekS)
    ensures Inv(Apply(r, SeekS))
  {
    hide Placed, Tallied, Pushing, Once;
    OneServed(r);
    if r.cells[Wrap(|r.cells|, r.consumer.start + r.consumer.offset)].Full? { TakeKeeps(r); }
    else { PlacedResting(r.cells, r.ops, r.consumer, Apply(r, SeekS).consumer); }
  }

  lemma TakeKeeps(r: Ring)
    requires Inv(r) && r.consumer.Popping? && FullFrom(r.cells, r.consumer.start, r.consumer.offset)
    ensures Inv(Seek(r, r.consumer.start, r.consumer.offset, r.consumer.due))
  {
    hide Placed, Tallied, Pushing, Wrap, Once, Owned, Housed;
    var i := Wrap(|r.cells|, r.consumer.start + r.consumer.offset);
    PlacedTake(r, i);
    var p := r.cells[i].owner;
    PhaseCounts(r.ops, p, Reading(i));
    OncePop(r.ops, r.next, r.popped, p, i);
    var r' := r.(cells := r.cells[i := Taken(p)], ops := r.ops[p := Reading(i)], consumer := Holding(p), popped := r.popped + [p]);
    assert Inv(r');
  }

  lemma PlacedTake(r: Ring, i: nat)
    requires Placed(r.cells, r.ops, r.consumer) && r.consumer.Popping? && i < |r.cells| && r.cells[i].Full?
    ensures
      var p := r.cells[i].owner;
      && p in r.ops && r.ops[p] == Waiting(i)
      && Placed(r.cells[i := Taken(p)], r.ops[p := Reading(i)], Holding(p))
  {
    var p := r.cells[i].owner;
    assert Owned(r.cells[i], i, r.ops);
    OneServed(r);
    hide Placed;
    PlacedMove(r.cells, r.ops, r.consumer, p, Reading(i), i, Taken(p), Holding(p));
  }

  lemma UncountKeeps(r: Ring)
    requires Inv(r) && Enabled(r, UncountS)
    ensures Inv(Apply(r, UncountS))
  {
    var p := r.consumer.p;
    var i := r.ops[p].at;
    assert Housed(p, r.ops[p], r.cells, r.consumer);
    hide Placed, Due, Tallied, Pushing, Once;
    PhaseCounts(r.ops, p, Leaving(i));
    OnceMove(r.ops, r.next, r.popped, p, Leaving(i));
    PlacedMove(r.cells, r.ops, r.consumer, p, Leaving(i), i, r.cells[i], r.consumer);
    assert r.cells[i := r.cells[i]] == r.cells;
  }

  lemma ReleaseKeeps(r: Ring)
    requires Inv(r) && Enabled(r, ReleaseS)
    ensures Inv(Apply(r, ReleaseS))
  {
    var p := r.consumer.p;
    var i := r.ops[p].at;
    assert Housed(p, r.ops[p], r.cells, r.consumer);
    hide Placed, Tallied, Pushing, Once;
    PhaseCounts(r.ops, p, Returned);
    OnceMove(r.ops, r.next, r.popped, p, Returned);
    PlacedMove(r.cells, r.ops, r.consumer, p, Returned, i, Empty, r.consumer);
  }

  lemma RetireKeeps(r: Ring)
    requires Inv(r) && Enabled(r, RetireS)
    ensures Inv(Apply(r, RetireS))
  {
    OneServed(r);
    hide Placed, Tallied, Pushing;
    DropCounts(r.ops, r.consumer.p);
    PlacedDrop(r.cells, r.ops, r.consumer, r.consumer.p, Resting);
  }

  lemma {:induction false} RunKeeps(r: Ring, trace: seq<Step>)
    requires Inv(r)
    ensures Inv(After(r, trace))
    decreases |trace|
  {
    if trace != [] {
      StepKeeps(r, trace[0]);
      RunKeeps(Apply(r, trace[0]), trace[1..]);
    }
  }

  lemma StartKeeps(size: nat, credit: nat, threads: nat)
    requires 2 <= size && credit <= size
    ensures Inv(Start(size, credit, threads))
  {
    assert Tallied(map[]) == {} && Pushing(map[]) == {};
  }

  // ----------------------------------------------- when a push cannot fail

  /** With one credit or one producer, pushes do not meet. */
  lemma Alone(r: Ring, p: Producer, q: Producer)
    requires Inv(r) && (r.credit <= 1 || r.threads <= 1) && p in Pushing(r.ops) && q in Pushing(r.ops)
    ensures p == q
  {
    if p != q {
      assert {p, q} <= Pushing(r.ops) && {p, q} <= r.ops.Keys && |{p, q}| == 2 && |r.ops.Keys| == |r.ops|;
      Within({p, q}, Pushing(r.ops));
      Within({p, q}, r.ops.Keys);
    }
  }

  lemma AheadKeeps(cells: seq<Cell>, cells': seq<Cell>, start: nat, offset: nat)
    requires
      Ahead(cells, start, offset) && |cells'| == |cells| && forall i :: 0 <= i < |cells| && cells[i].Empty? ==>
        cells'[i].Empty?
    ensures Ahead(cells', start, offset)
  {
    var q :| offset <= q < |cells| && VacantFrom(cells, start, q);
    assert VacantFrom(cells', start, q);
  }

  /** No slot is taken by the step, and whoever scans afterwards did so before. */
  lemma FindsKeeps(r: Ring, r': Ring)
    requires Finds(r) && |r'.cells| == |r.cells| && forall i :: 0 <= i < |r.cells| && r.cells[i].Empty? ==> r'.cells[i].Empty?
    requires forall p :: p in r'.ops ==> !r'.ops[p].Refused? && (r'.ops[p].Scanning? ==> p in r.ops && r.ops[p] == r'.ops[p])
    ensures Finds(r')
  {
    forall p | p in r'.ops && r'.ops[p].Scanning? ensures Ahead(r'.cells, r'.ops[p].start, r'.ops[p].offset) {
      AheadKeeps(r.cells, r'.cells, r.ops[p].start, r.ops[p].offset);
    }
  }

  lemma BeginFinds(r: Ring, p: Producer)
    requires Inv(r) && Finds(r) && Enabled(r, BeginS(p))
    ensures Finds(Apply(r, BeginS(p)))
  {
    var i := SlotLeft(r, p);
    hide Inv, Pushing;
    assert r.enqueue < |r.cells| by { assert Inv(r); }
    assert VacantFrom(r.cells, r.enqueue, if i >= r.enqueue then i - r.enqueue else i + |r.cells| - r.enqueue);
    assert Ahead(r.cells, r.enqueue, 0);
  }

  lemma LookFinds(r: Ring, p: Producer)
    requires Inv(r) && Finds(r) && (r.credit <= 1 || r.threads <= 1) && Enabled(r, LookS(p))
    ensures Finds(Apply(r, LookS(p)))
  {
    hide Inv, Ahead;
    var start, offset := r.ops[p].start, r.ops[p].offset;
    forall x | x in r.ops && r.ops[x].Scanning? ensures x == p { Alone(r, x, p); }
    if !Vacant(r.cells, Wrap(|r.cells|, start + offset)) { AheadNext(r.cells, start, offset); }
  }

  lemma AheadNext(cells: seq<Cell>, start: nat, offset: nat)
    requires Ahead(cells, start, offset) && !Vacant(cells, Wrap(|cells|, start + offset))
    ensures offset + 1 < |cells| && Ahead(cells, start, offset + 1)
  {
    var q :| offset <= q < |cells| && VacantFrom(cells, start, q);
  }

  lemma StepFinds(r: Ring, s: Step)
    requires Inv(r) && Finds(r) && (r.credit <= 1 || r.threads <= 1)
    ensures Finds(Apply(r, s))
  {
    if Enabled(r, s) {
      match s
      case BeginS(p) => BeginFinds(r, p);
      case LookS(p) => LookFinds(r, p);
      case StoreS(p) =>
        assert Housed(p, r.ops[p], r.cells, r.consumer);
        FindsKeeps(r, Apply(r, s));
      case _ => FindsKeeps(r, Apply(r, s));
    }
  }

  lemma {:induction false} RunFinds(r: Ring, trace: seq<Step>)
    requires Inv(r) && Finds(r) && (r.credit <= 1 || r.threads <= 1)
    ensures Finds(After(r, trace))
    decreases |trace|
  {
    hide Inv, Finds;
    if trace != [] {
      StepKeeps(r, trace[0]);
      StepFinds(r, trace[0]);
      StepLimits(r, trace[0]);
      RunFinds(Apply(r, trace[0]), trace[1..]);
    }
  }

  lemma StepLimits(r: Ring, s: Step)
    ensures Apply(r, s).credit == r.credit && Apply(r, s).threads == r.threads && |Apply(r, s).cells| == |r.cells|
  {}

  // ------------------------------------------------- a run in which it fails

  function Pushed(p: Producer): seq<Step> { [AdmitS, BeginS(p), LookS(p)] }

  function Filled(p: Producer): seq<Step> { [TallyS(p), StoreS(p), CheckS] }

  function Emptied(): seq<Step> { [SeekS, SeekS] + [UncountS, ReleaseS, RetireS] }

  function Finished(p: Producer): seq<Step> { Filled(p) + Emptied() }

  /** While operation 0 holds slot 0, operations 1 to `i` use one slot each, so that the cursor
      comes round. */
  function Warm(i: nat): seq<Step> { if i == 0 then [] else Warm(i - 1) + Pushed(i) + Finished(i) }

  /** Operation `n` scans. Whenever it looks at a slot, an operation has just claimed it. */
  function Chase(n: nat, i: nat): seq<Step> {
    if i == 0 then [] else Chase(n, i - 1) + Pushed(n + i) + [LookS(n)] + Finished(n + i)
  }

  /** A run over `n` slots with never more than two operations charged, and two in a push. */
  function FailingRun(n: nat): seq<Step>
    requires n >= 2
  {
    Pushed(0) + Warm(n - 1) + Pushed(n) + Finished(0) + Chase(n, n - 2) + Pushed(n + n - 1) + [LookS(n)]
  }

  lemma {:induction false} AfterConcat(r: Ring, t: seq<Step>, u: seq<Step>)
    ensures After(r, t + u) == After(After(r, t), u)
    decreases |t|
  {
    hide Apply;
    if t == [] {
      assert t + u == u;
    } else {
      assert (t + u)[0] == t[0] && (t + u)[1..] == t[1..] + u;
      AfterConcat(Apply(r, t[0]), t[1..], u);
    }
  }

  lemma AfterOne(r: Ring, s: Step)
    ensures After(r, [s]) == Apply(r, s)
  {
    hide Apply;
    assert [s][1..] == [];
  }

  lemma AfterThree(r: Ring, a: Step, b: Step, c: Step)
    ensures After(r, [a, b, c]) == Apply(Apply(Apply(r, a), b), c)
  {
    hide Apply;
    assert [a, b, c][1..] == [b, c] && [b, c][1..] == [c];
    AfterOne(Apply(Apply(r, a), b), c);
  }

  predicate Roomy(r: Ring) {
    && |r.ops| < r.credit && |Pushing(r.ops)| < r.threads && r.next !in r.ops
    && r.enqueue < |r.cells| && |r.cells| >= 2
  }

  /** A new operation pushes: it claims the slot at the cursor if that is empty, and goes on otherwise. */
  lemma PushAt(r: Ring)
    requires Roomy(r)
    ensures
      var p, e := r.next, r.enqueue;
      var r1 := r.(next := p + 1, enqueue := Wrap(|r.cells|, e + 1));
      After(r, Pushed(p)) ==
        if r.cells[e].Empty? then r1.(cells := r.cells[e := Claimed(p)], ops := r.ops[p := Claiming(e)])
        else r1.(ops := r.ops[p := Scanning(e, 1)])
  {
    var p, e := r.next, r.enqueue;
    var a := r.(ops := r.ops[p := Idle], next := p + 1);
    PhaseCounts(r.ops, p, Idle);
    assert Apply(r, AdmitS) == a;
    var b := a.(ops := a.ops[p := Scanning(e, 0)], enqueue := Wrap(|r.cells|, e + 1));
    assert Apply(a, BeginS(p)) == b;
    assert r.ops[p := Idle][p := Scanning(e, 0)] == r.ops[p := Scanning(e, 0)];
    assert r.ops[p := Scanning(e, 0)][p := Claiming(e)] == r.ops[p := Claiming(e)];
    assert r.ops[p := Scanning(e, 0)][p := Scanning(e, 1)] == r.ops[p := Scanning(e, 1)];
    AfterThree(r, AdmitS, BeginS(p), LookS(p));
  }

  /** The loop will find the result of `p`, and no other, at its second look. */
  predicate Findable(r: Ring, p: Producer, i: nat) {
    && |r.cells| >= 2 && r.consumer.Resting? && r.occupied == 0
    && i < |r.cells| && r.cells[i] == Claimed(p) && p in r.ops && r.ops[p] == Claiming(i)
    && r.dequeue < |r.cells| && Wrap(|r.cells|, r.dequeue + 1) == i && !r.cells[r.dequeue].Full?
  }

  function Offered(r: Ring, p: Producer, i: nat): Ring
    requires Findable(r, p, i)
  {
    r.(ops := r.ops[p := Waiting(i)], cells := r.cells[i := Full(p)], occupied := 1, consumer := Popping(r.dequeue, 0, true), dequeue := i)
  }

  lemma FillAt(r: Ring, p: Producer, i: nat)
    requires Findable(r, p, i)
    ensures After(r, Filled(p)) == Offered(r, p, i)
  {
    var a := r.(ops := r.ops[p := Writing(i)], occupied := 1);
    assert Apply(r, TallyS(p)) == a;
    var b := a.(ops := a.ops[p := Waiting(i)], cells := a.cells[i := Full(p)]);
    assert Apply(a, StoreS(p)) == b;
    assert b.cells[i].Full?;
    assert r.ops[p := Writing(i)][p := Waiting(i)] == r.ops[p := Waiting(i)];
    AfterThree(r, TallyS(p), StoreS(p), CheckS);
  }

  lemma EmptyAt(r: Ring, p: Producer, i: nat)
    requires Findable(r, p, i)
    ensures
      After(Offered(r, p, i), Emptied()) ==
        r.(cells := r.cells[i := Empty], ops := r.ops - {p}, dequeue := i, popped := r.popped + [p])
  {
    var a := Offered(r, p, i);
    var b := a.(consumer := Popping(r.dequeue, 1, true));
    assert Apply(a, SeekS) == b;
    var c := b.(cells := b.cells[i := Taken(p)], ops := b.ops[p := Reading(i)], consumer := Holding(p), popped := r.popped + [p]);
    assert Apply(b, SeekS) == c;
    AfterTwo(a, SeekS, SeekS);
    AfterConcat(a, [SeekS, SeekS], [UncountS, ReleaseS, RetireS]);
    hide Apply;
    LeaveAt(r, c, p, i);
  }

  lemma LeaveAt(r: Ring, c: Ring, p: Producer, i: nat)
    requires i < |r.cells| && |c.cells| == |r.cells| && c.consumer == Holding(p) && p in c.ops && c.ops[p] == Reading(i)
    requires c.cells[i := Empty] == r.cells[i := Empty] && c.ops - {p} == r.ops - {p}
    ensures
      After(c, [UncountS, ReleaseS, RetireS]) ==
        c.(cells := r.cells[i := Empty], ops := r.ops - {p}, occupied := c.occupied - 1, consumer := Resting)
  {
    hide Apply;
    UncountAt(c, p, i);
    var d := c.(ops := c.ops[p := Leaving(i)], occupied := c.occupied - 1);
    ReleaseAt(d, p, i);
    var e := d.(ops := d.ops[p := Returned], cells := d.cells[i := Empty]);
    RetireAt(e, p);
    assert e.ops - {p} == c.ops - {p};
    AfterThree(c, UncountS, ReleaseS, RetireS);
  }

  lemma UncountAt(r: Ring, p: Producer, i: nat)
    requires r.consumer == Holding(p) && p in r.ops && r.ops[p] == Reading(i)
    ensures Apply(r, UncountS) == r.(ops := r.ops[p := Leaving(i)], occupied := r.occupied - 1)
  {}

  lemma ReleaseAt(r: Ring, p: Producer, i: nat)
    requires r.consumer == Holding(p) && p in r.ops && r.ops[p] == Leaving(i) && i < |r.cells|
    ensures Apply(r, ReleaseS) == r.(ops := r.ops[p := Returned], cells := r.cells[i := Empty])
  {}

  lemma RetireAt(r: Ring, p: Producer)
    requires r.consumer == Holding(p) && p in r.ops && r.ops[p] == Returned
    ensures Apply(r, RetireS) == r.(ops := r.ops - {p}, consumer := Resting)
  {}

  lemma AfterTwo(r: Ring, a: Step, b: Step)
    ensures After(r, [a, b]) == Apply(Apply(r, a), b)
  {
    hide Apply;
    assert [a, b][1..] == [b];
    AfterOne(Apply(r, a), b);
  }

  /** A result is published, taken and retired. */
  lemma FinishAt(r: Ring, p: Producer, i: nat)
    requires Findable(r, p, i)
    ensures After(r, Finished(p)) == r.(cells := r.cells[i := Empty], ops := r.ops - {p}, dequeue := i, popped := r.popped + [p])
  {
    hide Apply, Offered;
    FillAt(r, p, i);
    EmptyAt(r, p, i);
    AfterConcat(r, Filled(p), Emptied());
  }

  /** One operation holds a slot or scans; there is room for another. */
  predicate Paired(r: Ring, n: nat, p: Producer, phase: Phase) {
    && |r.cells| == n >= 2 && r.credit >= 2 && r.threads >= 2 && r.consumer.Resting? && r.occupied == 0
    && r.ops == map[p := phase]
  }

  lemma PairedRoomy(r: Ring, n: nat, p: Producer, phase: Phase)
    requires Paired(r, n, p, phase) && r.enqueue < n && r.next != p
    ensures Roomy(r)
  {
    assert Pushing(r.ops) <= {p};
    Within(Pushing(r.ops), {p});
  }

  predicate Warming(r: Ring, n: nat, i: nat) {
    && Paired(r, n, 0, Claiming(0)) && 1 <= i <= n && r.next == i && r.enqueue == Wrap(n, i) && r.dequeue == i - 1
    && r.cells[0] == Claimed(0) && forall j :: 1 <= j < n ==> r.cells[j] == Empty
  }

  lemma {:induction false} WarmRun(r: Ring, n: nat, i: nat)
    requires Warming(r, n, 1) && i < n
    ensures Warming(After(r, Warm(i)), n, i + 1)
  {
    hide Apply;
    if i > 0 {
      WarmRun(r, n, i - 1);
      var r1 := After(r, Warm(i - 1));
      PairedRoomy(r1, n, 0, Claiming(0));
      PushAt(r1);
      var r2 := After(r1, Pushed(i));
      assert r2.cells[i] == Claimed(i);
      FinishAt(r2, i, i);
      assert r2.cells[i := Empty] == r1.cells && r2.ops - {i} == r1.ops;
      AfterConcat(r, Warm(i - 1), Pushed(i));
      AfterConcat(r, Warm(i - 1) + Pushed(i), Finished(i));
    }
  }

  predicate Chasing(r: Ring, n: nat, i: nat) {
    && Paired(r, n, n, Scanning(0, i)) && 1 <= i < n && r.next == n + i && r.enqueue == i && r.dequeue == i - 1
    && forall j :: 0 <= j < n ==> r.cells[j] == Empty
  }

  /** One more slot that the scan misses. */
  lemma ChaseLook(r: Ring, n: nat, i: nat)
    requires Chasing(r, n, i)
    ensures
      var phase := if i + 1 < n then Scanning(0, i + 1) else Refused;
      After(r, Pushed(n + i) + [LookS(n)]) ==
        r.(next := n + i + 1, enqueue := Wrap(n, i + 1), cells := r.cells[i := Claimed(n + i)],
           ops := map[n := phase, n + i := Claiming(i)])
  {
    hide Apply;
    PairedRoomy(r, n, n, Scanning(0, i));
    PushAt(r);
    AfterConcat(r, Pushed(n + i), [LookS(n)]);
    MissAt(After(r, Pushed(n + i)), n, i);
  }

  /** The scan of operation `n` misses slot `i`, which another has. */
  lemma MissAt(r: Ring, n: nat, i: nat)
    requires |r.cells| == n && 1 <= i < n && r.ops == map[n := Scanning(0, i)][n + i := Claiming(i)] && !r.cells[i].Empty?
    ensures After(r, [LookS(n)]) == r.(ops := map[n := if i + 1 < n then Scanning(0, i + 1) else Refused, n + i := Claiming(i)])
  {
    AfterOne(r, LookS(n));
    var phase := if i + 1 < n then Scanning(0, i + 1) else Refused;
    assert r.ops[n := phase] == map[n := phase, n + i := Claiming(i)];
  }

  lemma {:induction false} ChaseRun(r: Ring, n: nat, i: nat)
    requires Chasing(r, n, 1) && i + 1 < n
    ensures Chasing(After(r, Chase(n, i)), n, i + 1)
  {
    hide Apply;
    if i > 0 {
      ChaseRun(r, n, i - 1);
      var r1 := After(r, Chase(n, i - 1));
      ChaseLook(r1, n, i);
      var r2 := After(r1, Pushed(n + i) + [LookS(n)]);
      FinishAt(r2, n + i, i);
      assert r2.cells[i := Empty] == r1.cells && r2.ops - {n + i} == map[n := Scanning(0, i + 1)];
      AfterConcat(r, Chase(n, i - 1), Pushed(n + i) + [LookS(n)]);
      AfterConcat(r, Chase(n, i - 1) + (Pushed(n + i) + [LookS(n)]), Finished(n + i));
      assert Chase(n, i) == Chase(n, i - 1) + (Pushed(n + i) + [LookS(n)]) + Finished(n + i);
    }
  }

  predicate Refuses(r: Ring) { exists p :: p in r.ops && r.ops[p].Refused? }

  /** With two credits and two producers a push can fail on a ring of any size: while it looks from
      slot to slot, each is taken just then, although no more than one other operation is ever charged. */
  lemma RunFails(n: nat, credit: nat, threads: nat)
    requires n >= 2 && credit >= 2 && threads >= 2
    ensures Refuses(After(Start(n, credit, threads), FailingRun(n)))
  {
    hide Apply, Chasing, Start;
    var r, lead := Start(n, credit, threads), Lead(n);
    LeadRun(n, credit, threads);
    ChaseRun(After(r, lead), n, n - 2);
    var r5 := After(After(r, lead), Chase(n, n - 2));
    var last := Pushed(n + n - 1) + [LookS(n)];
    assert After(r5, last).ops[n] == Refused by { ChaseLook(r5, n, n - 1); }
    assert n in After(r5, last).ops by { ChaseLook(r5, n, n - 1); }
    assert FailingRun(n) == lead + Chase(n, n - 2) + last;
    AfterConcat(r, lead, Chase(n, n - 2));
    AfterConcat(r, lead + Chase(n, n - 2), last);
  }

  /** The part of the run before the scan starts to chase. */
  function Lead(n: nat): seq<Step>
    requires n >= 2
  {
    Pushed(0) + Warm(n - 1) + Pushed(n) + Finished(0)
  }

  lemma LeadRun(n: nat, credit: nat, threads: nat)
    requires n >= 2 && credit >= 2 && threads >= 2
    ensures Chasing(After(Start(n, credit, threads), Lead(n)), n, 1)
  {
    hide Apply;
    var r := Start(n, credit, threads);
    assert Pushing(r.ops) == {};
    PushAt(r);
    var r1 := After(r, Pushed(0));
    WarmRun(r1, n, n - 1);
    LeadScan(After(r1, Warm(n - 1)), n);
    AfterConcat(r, Pushed(0), Warm(n - 1));
    AfterConcat(r, Pushed(0) + Warm(n - 1), Pushed(n));
    AfterConcat(r, Pushed(0) + Warm(n - 1) + Pushed(n), Finished(0));
  }

  lemma LeadScan(r: Ring, n: nat)
    requires Warming(r, n, n)
    ensures Chasing(After(After(r, Pushed(n)), Finished(0)), n, 1)
  {
    hide Apply;
    PairedRoomy(r, n, 0, Claiming(0));
    PushAt(r);
    var r1 := After(r, Pushed(n));
    FinishAt(r1, 0, 0);
    assert r1.ops - {0} == map[n := Scanning(0, 1)];
  }

  // --------------------------------------------------------------- theorems

  ghost predicate NeverRefuses(size: nat, credit: nat, threads: nat) {
    forall trace :: !Refuses(After(Start(size, credit, threads), trace))
  }

  /** Exactly when no push can ever find the ring full. */
  lemma PushNeverFails(size: nat, credit: nat, threads: nat)
    requires 2 <= size && credit <= size
    ensures NeverRefuses(size, credit, threads) <==> credit <= 1 || threads <= 1
  {
    hide After, Inv;
    if credit <= 1 || threads <= 1 {
      forall trace ensures !Refuses(After(Start(size, credit, threads), trace)) {
        StartKeeps(size, credit, threads);
        RunFinds(Start(size, credit, threads), trace);
      }
    } else {
      RunFails(size, credit, threads);
    }
  }

  /** For a loop of this configuration, with results published by this many threads. */
  lemma CompletionFits(cfg: Config, threads: nat)
    ensures NeverRefuses(RingCapacity(cfg), Min(cfg.maxUndelivered, cfg.maxOperations), threads)
       <==> Min(cfg.maxUndelivered, cfg.maxOperations) <= 1 || threads <= 1
  {
    PushNeverFails(RingCapacity(cfg), Min(cfg.maxUndelivered, cfg.maxOperations), threads);
  }

  /** The results that are published and not yet taken. */
  function Published(r: Ring): set<Producer> { set p | p in r.ops && r.ops[p].Waiting? }

  /** Over every run the queue is a bag: a store adds one result, a pop takes one that is there and
      never the same twice, and nothing else adds or takes. A pop comes back with nothing only if
      nothing was published when it began. */
  lemma RunExact(size: nat, credit: nat, threads: nat, trace: seq<Step>, s: Step)
    requires 2 <= size && credit <= size
    ensures
      var r := After(Start(size, credit, threads), trace);
      var r' := Apply(r, s);
      && (forall i, j :: 0 <= i < j < |r.popped| ==> r.popped[i] != r.popped[j])
      && 0 <= r.occupied <= |r.ops| <= credit
      && (r.occupied == 0 ==> Published(r) == {})
      && (if s.StoreS? && Enabled(r, s) then r'.popped == r.popped && Published(r') == Published(r) + {s.p}
          else if r'.popped != r.popped then
            exists p :: p in Published(r) && r'.popped == r.popped + [p] && Published(r') == Published(r) - {p}
          else Published(r') == Published(r))
      && (r.consumer.Popping? && r.consumer.due ==> !r'.consumer.Resting?)
      && (s.CheckS? && Enabled(r, s) ==> (r'.consumer.due <==> Published(r) != {}))
  {
    hide After;
    var r := After(Start(size, credit, threads), trace);
    assert Inv(r) by {
      StartKeeps(size, credit, threads);
      RunKeeps(Start(size, credit, threads), trace);
    }
    CreditAt(r, size, credit, threads, trace);
    BagStep(r, s);
    DueStep(r, s);
    CountBounds(r);
  }

  lemma {:induction false} CreditAt(r: Ring, size: nat, credit: nat, threads: nat, trace: seq<Step>)
    requires r == After(Start(size, credit, threads), trace)
    ensures r.credit == credit
  {
    RunLimits(Start(size, credit, threads), trace);
  }

  lemma {:induction false} RunLimits(r: Ring, trace: seq<Step>)
    ensures After(r, trace).credit == r.credit
    decreases |trace|
  {
    hide Apply;
    if trace != [] {
      StepLimits(r, trace[0]);
      RunLimits(Apply(r, trace[0]), trace[1..]);
    }
  }

  lemma CountBounds(r: Ring)
    requires Inv(r)
    ensures 0 <= r.occupied <= |r.ops| <= r.credit && (r.occupied == 0 ==> Published(r) == {})
  {
    Within(Tallied(r.ops), r.ops.Keys);
    assert |r.ops.Keys| == |r.ops| && Published(r) <= Tallied(r.ops);
  }

  lemma BagStep(r: Ring, s: Step)
    requires Inv(r)
    ensures
      var r' := Apply(r, s);
      if s.StoreS? && Enabled(r, s) then r'.popped == r.popped && Published(r') == Published(r) + {s.p}
      else if r'.popped != r.popped then
        exists p :: p in Published(r) && r'.popped == r.popped + [p] && Published(r') == Published(r) - {p}
      else Published(r') == Published(r)
  {
    hide Tallied, Pushing, Due;
    var r' := Apply(r, s);
    if Enabled(r, s) {
      if s.SeekS? { BagSeek(r); }
      else if s.StoreS? { assert Published(r') == Published(r) + {s.p}; }
      else {
        forall p ensures p in Published(r') <==> p in Published(r) {}
        assert Published(r') == Published(r);
      }
    }
  }

  lemma BagSeek(r: Ring)
    requires Inv(r) && r.consumer.Popping?
    ensures
      var r' := Apply(r, SeekS);
      if r'.popped != r.popped then
        exists p :: p in Published(r) && r'.popped == r.popped + [p] && Published(r') == Published(r) - {p}
      else Published(r') == Published(r)
  {
    hide Tallied, Pushing, Once, Due;
    var i := Wrap(|r.cells|, r.consumer.start + r.consumer.offset);
    if i < |r.cells| && r.cells[i].Full? {
      assert Owned(r.cells[i], i, r.ops);
      var p := r.cells[i].owner;
      assert p in Published(r) && Published(Apply(r, SeekS)) == Published(r) - {p};
    }
  }

  lemma DueStep(r: Ring, s: Step)
    requires Inv(r)
    ensures r.consumer.Popping? && r.consumer.due ==> !Apply(r, s).consumer.Resting?
    ensures s.CheckS? && Enabled(r, s) ==> (Apply(r, s).consumer.due <==> Published(r) != {})
  {
    hide Tallied, Pushing, Once;
    if r.consumer.Popping? && r.consumer.due {
      var q :| r.consumer.offset <= q < |r.cells| && FullFrom(r.cells, r.consumer.start, q);
    }
    if AnyFull(r.cells) {
      var i :| 0 <= i < |r.cells| && r.cells[i].Full?;
      assert Owned(r.cells[i], i, r.ops) && r.cells[i].owner in Published(r);
    }
    if p :| p in Published(r) {
      assert Housed(p, r.ops[p], r.cells, r.consumer);
    }
  }
}
