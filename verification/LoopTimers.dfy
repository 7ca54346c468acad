/** Firing the timers that are due, in deadline order and each at most once a turn. */
module LoopTimers {
  import opened Types
  import opened LoopModel
  import opened LoopSteps
  import opened LoopRuns
  import opened LoopEvents

  /** A deadline queue yields the smaller deadline first, the smaller key among equals. */
  predicate Precedes(queue: map<Key, Instant>, a: Key, b: Key)
    requires a in queue && b in queue
  {
    queue[a] < queue[b] || (queue[a] == queue[b] && a <= b)
  }

  /** The loop's reaction to a timer that is due: a repeating one is armed again
      strictly later, unless the clock cannot express it. */
  function Fire(m: Model, h: Key, now: Instant): Model
    requires h in m.handles && m.handles[h].kind.Timer? && m.handles[h].ops != [] && m.handles[h].ops[0] in m.ops
  {
    var k, repeat := m.handles[h].ops[0], m.handles[h].kind.repeat;
    if repeat.None? then Finish(m, k, Fired)
    else if now + repeat.value <= m.cfg.horizon then Repeat(m, h, k, now + repeat.value)
    else Finish(m, k, Failed(InvalidInput))
  }

  function FireStep(m: Model, h: Key, now: Instant): Step
    requires h in m.handles && m.handles[h].kind.Timer? && m.handles[h].ops != []
  {
    var k, repeat := m.handles[h].ops[0], m.handles[h].kind.repeat;
    if repeat.None? then FinishS(k, Fired)
    else if now + repeat.value <= m.cfg.horizon then RepeatS(h, now + repeat.value)
    else FinishS(k, Failed(InvalidInput))
  }

  lemma FireApplies(m: Model, h: Key, now: Instant)
    requires Inv(m) && h in m.timers && Count(Class(TIMER_EVENTS), m.stream, m.out) < m.cfg.eventsPerTurn
    ensures h in m.handles && m.handles[h].kind.Timer? && m.handles[h].ops != [] && m.handles[h].ops[0] in m.ops
    ensures Apply(m, FireStep(m, h, now)) == Fire(m, h, now)
  {
    hide Inv, Finish, Repeat, Count;
    TimerAt(m, h);
  }

  /** Firing touches one deadline, which it removes or moves past `now`. */
  lemma FireDeadlines(m: Model, h: Key, now: Instant)
    requires Inv(m) && h in m.timers
    ensures h in m.handles && m.handles[h].kind.Timer? && m.handles[h].ops != [] && m.handles[h].ops[0] in m.ops
    ensures
      var timers := Fire(m, h, now).timers;
      && (forall x :: x != h ==> (x in timers <==> x in m.timers))
      && (forall x :: x != h && x in timers ==> timers[x] == m.timers[x])
      && (h in timers ==> timers[h] > now)
  {
    hide Inv, Finish;
    TimerAt(m, h);
    Basics(m);
    var k := m.handles[h].ops[0];
    FinishTimers(m, k, h, Fired);
    FinishTimers(m, k, h, Failed(InvalidInput));
    RepeatLater(m, h);
  }

  lemma FinishTimers(m: Model, k: Key, h: Key, result: OpResult)
    requires k in m.ops && m.ops[k].handle == Some(h) && h in m.handles && m.handles[h].kind.Timer? && m.out <= |m.stream|
    ensures Finish(m, k, result).timers == m.timers - {h}
  {
    hide ArmedCount, WithoutOp, EndEntry, Settle;
    var m1 := End(m, k, result);
    if h in m1.handles { SettleEffect(m1, h, result); }
  }

  lemma RepeatLater(m: Model, h: Key)
    requires Inv(m) && h in m.handles && m.handles[h].kind.Timer?
    ensures m.handles[h].kind.repeat != Some(0)
  {
    hide Inv;
    KeptAt(m, h);
  }

  /** Which timers have fired on the way from `m` to `m'`: all due, in order, each once,
      none before a timer that was due earlier; every other timer is untouched and
      nothing that fired is due again. */
  ghost predicate FiredBy(m: Model, m': Model, fired: seq<Key>, now: Instant) {
    && m'.cfg == m.cfg && |m.stream| <= |m'.stream| && InTurn(m.timers, m'.timers, fired, now)
    && (forall x :: x in m.timers && x !in fired ==> Untouched(m, m', x))
    && (forall i :: 0 <= i < |fired| ==> FiredOnce(m, m', fired[i], now))
  }

  ghost predicate InTurn(queue: map<Key, Instant>, queue': map<Key, Instant>, fired: seq<Key>, now: Instant) {
    && Distinct(fired)
    && (forall i :: 0 <= i < |fired| ==> fired[i] in queue && queue[fired[i]] <= now)
    && (forall i, j :: 0 <= i < j < |fired| ==> Precedes(queue, fired[i], fired[j]))
    && (forall i, x :: 0 <= i < |fired| && x in queue && x !in fired ==> Precedes(queue, fired[i], x))
    && (forall x :: x in queue && x !in fired ==> x in queue' && queue'[x] == queue[x])
    && (forall x :: x in queue' ==> x in queue)
  }

  /** The handle and the operation of a timer are as they were. */
  predicate Untouched(m: Model, m': Model, h: Key) {
    && h in m.handles && h in m'.handles && m'.handles[h] == m.handles[h] && |m.handles[h].ops| == 1
    && m.handles[h].ops[0] in m.ops && m.handles[h].ops[0] in m'.ops && m'.ops[m.handles[h].ops[0]] == m.ops[m.handles[h].ops[0]]
  }

  /** A timer that fired was reported under its own token, and is armed again, one period after `now`,
      exactly if it repeats and the clock can express that. */
  ghost predicate FiredOnce(m: Model, m': Model, h: Key, now: Instant) {
    && h in m.handles && m.handles[h].kind.Timer? && |m.handles[h].ops| == 1 && m.handles[h].ops[0] in m.ops
    && var k, repeat := m.handles[h].ops[0], m.handles[h].kind.repeat;
       var again := repeat.Some? && now + repeat.value <= m.cfg.horizon;
       && (h in m'.timers <==> again) && (again ==> m'.timers[h] == now + repeat.value && m'.timers[h] > now)
       && exists n :: |m.stream| <= n < |m'.stream| && m'.stream[n].completion ==
            Completion(m.ops[k].token, Some(k), Some(h), !again, if repeat.None? || again then Fired else Failed(InvalidInput))
  }

  lemma FiredNone(m: Model, now: Instant)
    requires forall x :: x in m.timers ==> Untouched(m, m, x)
    ensures FiredBy(m, m, [], now)
  {}

  lemma FiredMore(m: Model, m1: Model, fired: seq<Key>, now: Instant, h: Key, m': Model)
    requires FiredBy(m, m1, fired, now) && m'.cfg == m1.cfg && |m1.stream| <= |m'.stream|
    requires h in m1.timers && m1.timers[h] <= now && forall x :: x in m1.timers ==> Precedes(m1.timers, h, x)
    requires forall x :: x != h ==> (x in m'.timers <==> x in m1.timers)
    requires forall x :: x != h && x in m'.timers ==> m'.timers[x] == m1.timers[x] && Untouched(m1, m', x)
    requires FiredOnce(m1, m', h, now) && forall n :: 0 <= n < |m1.stream| ==> m'.stream[n] == m1.stream[n]
    ensures FiredBy(m, m', fired + [h], now)
  {
    hide FiredOnce, Untouched, InTurn;
    var more := fired + [h];
    assert h !in fired by {
      forall i | 0 <= i < |fired| ensures fired[i] != h { FiredLater(m, m1, fired[i], now); }
    }
    TurnMore(m.timers, m1.timers, m'.timers, fired, now, h);
    forall x | x in m.timers && x !in more ensures Untouched(m, m', x) {
      assert x !in fired && x in m'.timers;
      UntouchedStill(m, m1, m', x);
    }
    forall i | 0 <= i < |more| ensures FiredOnce(m, m', more[i], now) {
      if i < |fired| { FiredStill(m, m1, m', fired[i], now); } else { FiredNow(m, m1, m', h, now); }
    }
  }

  lemma UntouchedStill(m: Model, m1: Model, m': Model, h: Key)
    requires Untouched(m, m1, h) && Untouched(m1, m', h)
    ensures Untouched(m, m', h)
  {}

  lemma TurnMore(
    queue: map<Key, Instant>, queue1: map<Key, Instant>, queue': map<Key, Instant>, fired: seq<Key>, now: Instant, h: Key)
    requires InTurn(queue, queue1, fired, now) && h !in fired
    requires h in queue1 && queue1[h] <= now && forall x :: x in queue1 ==> Precedes(queue1, h, x)
    requires forall x :: x != h ==> (x in queue' <==> x in queue1)
    requires forall x :: x != h && x in queue' ==> queue'[x] == queue1[x]
    ensures InTurn(queue, queue', fired + [h], now) && h in queue
    ensures forall x :: x in queue && x !in fired + [h] ==> x !in fired && x != h && x in queue'
  {
    var more := fired + [h];
    forall x | x in queue && x !in more ensures Precedes(queue, h, x) {
      assert x !in fired && x in queue1;
    }
    forall x ensures x in more <==> x in fired || x == h {
      if x in fired { var i :| 0 <= i < |fired| && fired[i] == x; assert more[i] == x; }
      assert more[|fired|] == h;
    }
  }

  lemma FiredLater(m: Model, m1: Model, h: Key, now: Instant)
    requires FiredOnce(m, m1, h, now)
    ensures h in m1.timers ==> m1.timers[h] > now
  {}

  /** What fired before stays so when another timer fires. */
  lemma FiredStill(m: Model, m1: Model, m': Model, h: Key, now: Instant)
    requires FiredOnce(m, m1, h, now) && |m1.stream| <= |m'.stream|
    requires (h in m'.timers <==> h in m1.timers) && (h in m1.timers ==> m'.timers[h] == m1.timers[h])
    requires forall n :: 0 <= n < |m1.stream| ==> m'.stream[n] == m1.stream[n]
    ensures FiredOnce(m, m', h, now)
  {
    var k, repeat := m.handles[h].ops[0], m.handles[h].kind.repeat;
    var again := repeat.Some? && now + repeat.value <= m.cfg.horizon;
    var c := Completion(m.ops[k].token, Some(k), Some(h), !again, if repeat.None? || again then Fired else Failed(InvalidInput));
    var n :| |m.stream| <= n < |m1.stream| && m1.stream[n].completion == c;
    assert m'.stream[n].completion == c;
  }

  lemma FiredNow(m: Model, m1: Model, m': Model, h: Key, now: Instant)
    requires FiredOnce(m1, m', h, now) && Untouched(m, m1, h) && m1.cfg == m.cfg && |m.stream| <= |m1.stream|
    ensures FiredOnce(m, m', h, now)
  {
    var k, repeat := m.handles[h].ops[0], m.handles[h].kind.repeat;
    var again := repeat.Some? && now + repeat.value <= m.cfg.horizon;
    var c := Completion(m.ops[k].token, Some(k), Some(h), !again, if repeat.None? || again then Fired else Failed(InvalidInput));
    var n :| |m1.stream| <= n < |m'.stream| && m'.stream[n].completion == c;
    assert |m.stream| <= n;
  }
}
