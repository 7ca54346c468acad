/** The shared blocking pool: a bounded queue with reservations for short jobs, and the
    queue-less worker set for long ones. Each method is one section under the lock (or one
    outcome of starting a thread), so any interleaving of threads is a sequence of calls. */
module BlockingPool {
  import opened Types

  type Job = nat
  type Thread = nat

  // ----------------------------------------------------------- bounded queue

  class BoundedQueue {
    const capacity: nat
    var jobs: seq<Job>
    var reserved: nat
    /** The operations that hold a reservation. */
    ghost var holders: set<Job>
    /** Everything ever queued and everything ever taken, in order. */
    ghost var pushed: seq<Job>
    ghost var taken: seq<Job>

    ghost predicate Valid()
      reads this
    {
      |jobs| + reserved <= capacity && reserved == |holders| && pushed == taken + jobs
    }

    constructor (limit: nat)
      ensures Valid() && capacity == limit && pushed == [] && holders == {}
    {
      capacity := limit;
      jobs, reserved, holders, pushed, taken := [], 0, {}, [], [];
    }

    /** Queue a job unless every slot is filled or promised. */
    method Submit(job: Job) returns (ok: bool)
      requires Valid()
      modifies this`jobs, this`pushed
      ensures Valid() && (ok <==> |old(jobs)| + reserved < capacity)
      ensures pushed == if ok then old(pushed) + [job] else old(pushed)
    {
      if |jobs| + reserved >= capacity {
        return false;
      }
      jobs := jobs + [job];
      pushed := pushed + [job];
      return true;
    }

    /** Promise a slot to an operation that will queue its work later. */
    method Reserve(op: Job) returns (ok: bool)
      requires Valid() && op !in holders
      modifies this`reserved, this`holders
      ensures Valid() && (ok <==> |jobs| + old(reserved) < capacity)
      ensures holders == if ok then old(holders) + {op} else old(holders)
    {
      if |jobs| + reserved >= capacity {
        return false;
      }
      reserved := reserved + 1;
      holders := holders + {op};
      return true;
    }

    method Unreserve(op: Job)
      requires Valid() && op in holders
      modifies this`reserved, this`holders
      ensures Valid() && holders == old(holders) - {op}
    {
      reserved := reserved - 1;
      holders := holders - {op};
    }

    /** Queue work into its reservation: this cannot overflow. */
    method PushReserved(op: Job, work: Job)
      requires Valid() && op in holders
      modifies this
      ensures |old(jobs)| < capacity
      ensures Valid() && holders == old(holders) - {op} && pushed == old(pushed) + [work]
    {
      reserved := reserved - 1;
      holders := holders - {op};
      jobs := jobs + [work];
      pushed := pushed + [work];
    }

    /** A worker takes the oldest job, or finds none and waits. */
    method Take() returns (job: Option<Job>)
      requires Valid()
      modifies this`jobs, this`taken
      ensures Valid() && (job.None? <==> |taken| == |pushed| == |old(taken)|)
      ensures job.Some? ==> |old(taken)| < |pushed| && job.value == pushed[|old(taken)|] && taken == old(taken) + [job.value]
    {
      if jobs == [] {
        return None;
      }
      job := Some(jobs[0]);
      jobs := jobs[1..];
      taken := taken + [job.value];
    }
  }

  // ------------------------------------------------------------- long workers

  datatype Submission = Handed | Starting | Refused
  /** What a parked worker does when it has the lock. */
  datatype Waking = Takes(job: Job) | Waits | Leaves

  class LongSet {
    const max: nat
    /** Jobs handed to parked workers; never a backlog. */
    var jobs: seq<Job>
    /** Workers, counted from the moment one is decided on. */
    var threads: nat
    var idle: nat
    /** Where each worker is: decided on but not started, running, waiting, or on its way out. */
    ghost var starting: map<Thread, Job>
    ghost var running: map<Thread, Job>
    ghost var parked: set<Thread>
    ghost var leaving: set<Thread>
    /** Accepted jobs that have not finished, and those that have. */
    ghost var owed: set<Job>
    ghost var finished: set<Job>

    ghost predicate Valid()
      reads this
    {
      && |jobs| <= idle <= threads <= max
      && idle == |parked| && threads == Crew(starting, running, parked, leaving)
      && Apart(starting.Keys, running.Keys, parked, leaving)
      && Placed(jobs, starting, running, owed, finished)
    }

    constructor (limit: nat)
      ensures Valid() && max == limit && owed == {} && finished == {}
    {
      max := limit;
      jobs, threads, idle, starting, running, parked, leaving, owed, finished := [], 0, 0, map[], map[], {}, {}, {}, {};
    }

    /** Hand the job to a parked worker that has no other, start a worker for it, or refuse it. */
    method Submit(job: Job, t: Thread) returns (r: Submission)
      requires Valid() && Fresh(job, starting, owed, finished) && t !in starting && t !in running && t !in parked
      requires t !in leaving
      modifies this
      ensures Valid() && finished == old(finished)
      ensures r == if |old(jobs)| < old(idle) then Handed else if old(threads) < max then Starting else Refused
      ensures owed == if r.Handed? then old(owed) + {job} else old(owed)
      ensures starting == if r.Starting? then old(starting)[t := job] else old(starting)
      ensures jobs == (if r.Handed? then old(jobs) + [job] else old(jobs)) && running == old(running)
      ensures parked == old(parked) && leaving == old(leaving)
    {
      hide Placed;
      SubmitPlaced(jobs, starting, running, owed, finished, job, t);
      Added(starting, t, job);
      if |jobs| < idle {
        jobs := jobs + [job];
        owed := owed + {job};
        return Handed;
      }
      if threads >= max {
        return Refused;
      }
      threads := threads + 1;
      starting := starting[t := job];
      return Starting;
    }

    /** The thread started: its job is accepted and runs on it. */
    method Started(t: Thread)
      requires Valid() && t in starting
      modifies this`starting, this`running, this`owed
      ensures Valid() && owed == old(owed) + {old(starting)[t]}
      ensures running == old(running)[t := old(starting)[t]] && starting == old(starting) - {t}
    {
      hide Placed;
      var job := starting[t];
      Moved(starting, t);
      Added(running, t, job);
      StartPlaced(jobs, starting, running, owed, finished, t);
      running := running[t := job];
      starting := starting - {t};
      owed := owed + {job};
    }

    /** The system refused the thread: the job was never accepted. */
    method NotStarted(t: Thread)
      requires Valid() && t in starting
      modifies this`starting, this`threads
      ensures Valid() && threads == old(threads) - 1 && starting == old(starting) - {t}
    {
      hide Placed;
      Moved(starting, t);
      DropPlaced(jobs, starting, running, owed, finished, t);
      starting := starting - {t};
      threads := threads - 1;
    }

    /** A worker finished its job, which is the one time it publishes a result, and parks. */
    method Park(t: Thread)
      requires Valid() && t in running
      modifies this
      ensures Valid() && old(running)[t] !in old(finished)
      ensures parked == old(parked) + {t} && running == old(running) - {t} && jobs == old(jobs) && starting == old(starting)
      ensures leaving == old(leaving)
      ensures finished == old(finished) + {old(running)[t]} && owed == old(owed) - {old(running)[t]}
    {
      hide Placed, Apart, Crew;
      var job := running[t];
      Parks(starting, running, parked, leaving, t);
      FinishPlaced(jobs, starting, running, owed, finished, t);
      owed := owed - {job};
      finished := finished + {job};
      running := running - {t};
      parked := parked + {t};
      idle := idle + 1;
    }

    /** A parked worker looks for a handed job, just parked or woken. It leaves without one only if
        its wait timed out and no job is promised to anyone; a job that came with the timeout is taken. */
    method Wake(t: Thread, timedOut: bool) returns (r: Waking)
      requires Valid() && t in parked
      modifies this`jobs, this`idle, this`parked, this`running, this`leaving
      ensures Valid() && r == if old(jobs) != [] then Takes(old(jobs)[0]) else if timedOut then Leaves else Waits
      ensures jobs == if r.Takes? then old(jobs)[1..] else old(jobs)
      ensures running == if r.Takes? then old(running)[t := r.job] else old(running)
      ensures leaving == if r.Leaves? then old(leaving) + {t} else old(leaving)
      ensures parked == if r.Waits? then old(parked) else old(parked) - {t}
    {
      hide Placed, Apart, Crew;
      Unparks(starting, running, parked, leaving, t, if jobs == [] then 0 else jobs[0]);
      if timedOut && jobs == [] {
        parked := parked - {t};
        leaving := leaving + {t};
        idle := idle - 1;
        return Leaves;
      }
      if jobs == [] {
        return Waits;
      }
      var job := jobs[0];
      TakePlaced(jobs, starting, running, owed, finished, t);
      running := running[t := job];
      parked := parked - {t};
      jobs := jobs[1..];
      idle := idle - 1;
      return Takes(job);
    }

    method Retire(t: Thread)
      requires Valid() && t in leaving
      modifies this`threads, this`leaving
      ensures Valid() && threads == old(threads) - 1 && leaving == old(leaving) - {t}
    {
      hide Placed;
      leaving := leaving - {t};
      threads := threads - 1;
    }

    /** Every accepted job that has not finished has a live worker of its own: the one that runs it,
        or a parked one that no other job has been promised. */
    lemma OwnWorker() returns (worker: map<Job, Thread>)
      requires Valid()
      ensures worker.Keys == owed && forall x, y :: x in owed && y in owed && worker[x] == worker[y] ==> x == y
      ensures forall x :: x in owed ==> (worker[x] in running && running[worker[x]] == x) || (worker[x] in parked && x in jobs)
    {
      worker := Match(jobs, parked, running, owed, starting, finished);
    }
  }

  function Crew(starting: map<Thread, Job>, running: map<Thread, Job>, parked: set<Thread>, leaving: set<Thread>): nat {
    |starting| + |running| + |parked| + |leaving|
  }

  ghost predicate Apart(a: set<Thread>, b: set<Thread>, c: set<Thread>, d: set<Thread>) {
    a !! b && a !! c && a !! d && b !! c && b !! d && c !! d
  }

  predicate Runs(workers: map<Thread, Job>, x: Job) { exists t :: t in workers && workers[t] == x }

  predicate Fresh(job: Job, starting: map<Thread, Job>, owed: set<Job>, finished: set<Job>) {
    job !in owed && job !in finished && !Runs(starting, job)
  }

  /** Each owed job is handed off or running, in exactly one place. */
  ghost predicate Placed(jobs: seq<Job>, starting: map<Thread, Job>, running: map<Thread, Job>, owed: set<Job>, finished: set<Job>) {
    && (forall i, j :: 0 <= i < j < |jobs| ==> jobs[i] != jobs[j])
    && (forall i, t :: 0 <= i < |jobs| && t in running ==> jobs[i] != running[t])
    && (forall t, u :: t in running && u in running && running[t] == running[u] ==> t == u)
    && (forall t, u :: t in starting && u in starting && starting[t] == starting[u] ==> t == u)
    && (forall x :: x in owed <==> x in jobs || Runs(running, x))
    && (forall x :: x in owed ==> x !in finished)
    && (forall t :: t in starting ==> starting[t] !in owed && starting[t] !in finished)
  }

  lemma Moved(m: map<Thread, Job>, t: Thread)
    requires t in m
    ensures |m - {t}| == |m| - 1
  {
    assert (m - {t}).Keys == m.Keys - {t};
    assert |m.Keys| == |m| && |(m - {t}).Keys| == |m - {t}|;
  }

  lemma Parks(starting: map<Thread, Job>, running: map<Thread, Job>, parked: set<Thread>, leaving: set<Thread>, t: Thread)
    requires Apart(starting.Keys, running.Keys, parked, leaving) && t in running
    ensures Apart(starting.Keys, (running - {t}).Keys, parked + {t}, leaving) && |parked + {t}| == |parked| + 1
    ensures Crew(starting, running - {t}, parked + {t}, leaving) == Crew(starting, running, parked, leaving) >= |parked| + 1
  {
    Moved(running, t);
    assert (running - {t}).Keys == running.Keys - {t};
  }

  lemma Unparks(
    starting: map<Thread, Job>, running: map<Thread, Job>, parked: set<Thread>, leaving: set<Thread>, t: Thread, job: Job)
    requires Apart(starting.Keys, running.Keys, parked, leaving) && t in parked
    ensures t !in running && |parked - {t}| == |parked| - 1
    ensures Apart(starting.Keys, running.Keys, parked - {t}, leaving + {t})
    ensures Apart(starting.Keys, running[t := job].Keys, parked - {t}, leaving)
    ensures Crew(starting, running, parked - {t}, leaving + {t}) == Crew(starting, running, parked, leaving)
    ensures Crew(starting, running[t := job], parked - {t}, leaving) == Crew(starting, running, parked, leaving)
  {
    Added(running, t, job);
  }

  lemma Added(m: map<Thread, Job>, t: Thread, job: Job)
    requires t !in m
    ensures |m[t := job]| == |m| + 1
  {
    assert m[t := job].Keys == m.Keys + {t};
    assert |m.Keys| == |m| && |m[t := job].Keys| == |m[t := job]|;
  }

  lemma SubmitPlaced(
    jobs: seq<Job>, starting: map<Thread, Job>, running: map<Thread, Job>, owed: set<Job>, finished: set<Job>, job: Job,
    t: Thread)
    requires Placed(jobs, starting, running, owed, finished) && Fresh(job, starting, owed, finished) && t !in starting
    ensures Placed(jobs + [job], starting, running, owed + {job}, finished)
    ensures Placed(jobs, starting[t := job], running, owed, finished)
  {
    forall x | Runs(running, x) ensures x in owed {}
  }

  lemma StartPlaced(
    jobs: seq<Job>, starting: map<Thread, Job>, running: map<Thread, Job>, owed: set<Job>, finished: set<Job>, t: Thread)
    requires Placed(jobs, starting, running, owed, finished) && t in starting && t !in running
    ensures Placed(jobs, starting - {t}, running[t := starting[t]], owed + {starting[t]}, finished)
  {
    var job, running' := starting[t], running[t := starting[t]];
    forall x ensures Runs(running', x) <==> Runs(running, x) || x == job {
      if Runs(running, x) { var u :| u in running && running[u] == x; assert running'[u] == x; }
      assert running'[t] == job;
    }
    forall u | u in running ensures running[u] != job { assert Runs(running, running[u]); }
    assert job !in jobs;
  }

  lemma DropPlaced(
    jobs: seq<Job>, starting: map<Thread, Job>, running: map<Thread, Job>, owed: set<Job>, finished: set<Job>, t: Thread)
    requires Placed(jobs, starting, running, owed, finished)
    ensures Placed(jobs, starting - {t}, running, owed, finished)
  {}

  lemma FinishPlaced(
    jobs: seq<Job>, starting: map<Thread, Job>, running: map<Thread, Job>, owed: set<Job>, finished: set<Job>, t: Thread)
    requires Placed(jobs, starting, running, owed, finished) && t in running
    ensures running[t] in owed && running[t] !in finished
    ensures Placed(jobs, starting, running - {t}, owed - {running[t]}, finished + {running[t]})
  {
    var job, running' := running[t], running - {t};
    assert Runs(running, job);
    forall x ensures Runs(running', x) <==> Runs(running, x) && x != job {
      if Runs(running, x) && x != job { var u :| u in running && running[u] == x; assert running'[u] == x; }
      if Runs(running', x) { var u :| u in running' && running'[u] == x; assert running[u] == x; }
    }
  }

  lemma TakePlaced(
    jobs: seq<Job>, starting: map<Thread, Job>, running: map<Thread, Job>, owed: set<Job>, finished: set<Job>, t: Thread)
    requires Placed(jobs, starting, running, owed, finished) && jobs != [] && t !in running
    ensures Placed(jobs[1..], starting, running[t := jobs[0]], owed, finished)
  {
    var job, running' := jobs[0], running[t := jobs[0]];
    forall x ensures Runs(running', x) <==> Runs(running, x) || x == job {
      if Runs(running, x) { var u :| u in running && running[u] == x; assert running'[u] == x; }
      assert running'[t] == job;
    }
    assert jobs == [job] + jobs[1..];
  }

  lemma {:induction false} Choose(n: nat, pool: set<Thread>) returns (chosen: seq<Thread>)
    requires n <= |pool|
    ensures
      |chosen| == n && (forall i :: 0 <= i < n ==> chosen[i] in pool) && forall i, j :: 0 <= i < j < n ==>
        chosen[i] != chosen[j]
  {
    if n == 0 {
      chosen := [];
    } else {
      var t :| t in pool;
      var rest := Choose(n - 1, pool - {t});
      chosen := [t] + rest;
    }
  }

  lemma Match(
    jobs: seq<Job>, parked: set<Thread>, running: map<Thread, Job>, owed: set<Job>, starting: map<Thread, Job>,
    finished: set<Job>)
    returns (worker: map<Job, Thread>)
    requires Placed(jobs, starting, running, owed, finished) && |jobs| <= |parked| && running.Keys !! parked
    ensures worker.Keys == owed && forall x, y :: x in owed && y in owed && worker[x] == worker[y] ==> x == y
    ensures forall x :: x in owed ==> (worker[x] in running && running[worker[x]] == x) || (worker[x] in parked && x in jobs)
  {
    var chosen := Choose(|jobs|, parked);
    worker := map x | x in owed :: if x in jobs then chosen[Index(jobs, x)] else RunnerOf(running, x);
  }

  function Index(s: seq<Job>, x: Job): (i: nat)
    requires x in s
    ensures i < |s| && s[i] == x
  {
    if s[0] == x then 0 else 1 + Index(s[1..], x)
  }

  ghost function RunnerOf(running: map<Thread, Job>, x: Job): (t: Thread)
    requires Runs(running, x)
    ensures t in running && running[t] == x
  {
    var t :| t in running && running[t] == x;
    t
  }
}
