/**
 The specification of CPU accounting: which process occupies each CPU at each nanosecond
 of a trace of context switches.
 */
module SchedTrace {
  import opened Basics

  /** A process: its group leader's start time and pid.  Pid 0 is the idle task. */
  datatype Key = Key(start: nat, pid: nat)

  /** `lastThread`: the switch away from the dead last thread of the process. */
  datatype Switch = Switch(cpu: nat, time: nat, prev: Key, next: Key, lastThread: bool)

  /** The latest switch on a CPU. */
  function LastOn(t: seq<Switch>, cpu: nat): (r: Option<Switch>)
    ensures r.Some? ==> r.value.cpu == cpu && r.value in t
    ensures r.None? ==> forall s | s in t :: s.cpu != cpu
  {
    if t == [] then None
    else if t[|t| - 1].cpu == cpu then Some(t[|t| - 1])
    else LastOn(t[..|t| - 1], cpu)
  }

  /** The process on a CPU at nanosecond `at`, once a switch was seen there. */
  function RunningAt(t: seq<Switch>, cpu: nat, at: nat): Option<Key> {
    if t == [] then None
    else
      var s := t[|t| - 1];
      if s.cpu == cpu && s.time <= at then Some(s.next) else RunningAt(t[..|t| - 1], cpu, at)
  }

  /** The nanoseconds before `n` in which `k` occupied the CPU. */
  function Count(t: seq<Switch>, cpu: nat, k: Key, n: nat): (c: nat)
    ensures c <= n
  {
    if n == 0 then 0
    else Count(t, cpu, k, n - 1) + if RunningAt(t, cpu, n - 1) == Some(k) then 1 else 0
  }

  /** The CPU time of `k` before `n`, over CPUs 0 to `cpus` - 1. */
  function Occupancy(t: seq<Switch>, cpus: nat, k: Key, n: nat): nat {
    if cpus == 0 then 0 else Occupancy(t, cpus - 1, k, n) + Count(t, cpus - 1, k, n)
  }

  /** On each CPU time does not go back and each switch leaves the process entered last. */
  ghost predicate WellFormed(t: seq<Switch>, cpus: nat) {
    t == [] ||
    var front, s := t[..|t| - 1], t[|t| - 1];
    && WellFormed(front, cpus) && s.cpu < cpus
    && var p := LastOn(front, s.cpu);
    (p.Some? ==> p.value.time <= s.time && p.value.next == s.prev)
  }

  predicate Exited(t: seq<Switch>, k: Key) {
    exists s | s in t :: s.lastThread && s.prev == k
  }

  ghost predicate Entered(t: seq<Switch>, k: Key) {
    exists s | s in t :: s.next == k
  }

  lemma {:induction false} CountAppend(t: seq<Switch>, s: Switch, cpu: nat, k: Key, n: nat)
    requires s.cpu != cpu || n <= s.time
    ensures Count(t + [s], cpu, k, n) == Count(t, cpu, k, n)
    decreases n
  {
    if n > 0 {
      assert (t + [s])[..|t|] == t;
      CountAppend(t, s, cpu, k, n - 1);
    }
  }

  /** Switches from time `n` on do not change what happened before `n`. */
  lemma {:induction false} CountExtend(t: seq<Switch>, more: seq<Switch>, cpu: nat, k: Key, n: nat)
    requires forall s | s in more :: n <= s.time
    ensures Count(t + more, cpu, k, n) == Count(t, cpu, k, n)
    decreases |more|
  {
    if more == [] {
      assert t + more == t;
    } else {
      var front, s := more[..|more| - 1], more[|more| - 1];
      assert t + more == t + front + [s];
      CountExtend(t, front, cpu, k, n);
      CountAppend(t + front, s, cpu, k, n);
    }
  }

  lemma {:induction false} RunningSinceLast(t: seq<Switch>, cpu: nat, at: nat)
    requires LastOn(t, cpu).Some? ==> LastOn(t, cpu).value.time <= at
    ensures RunningAt(t, cpu, at) == if LastOn(t, cpu).Some? then Some(LastOn(t, cpu).value.next) else None
    decreases |t|
  {
    if t != [] && t[|t| - 1].cpu != cpu {
      RunningSinceLast(t[..|t| - 1], cpu, at);
    }
  }

  function SinceOn(t: seq<Switch>, cpu: nat): nat {
    if LastOn(t, cpu).None? then 0 else LastOn(t, cpu).value.time
  }

  predicate OnCpu(t: seq<Switch>, cpu: nat, k: Key) {
    LastOn(t, cpu).Some? && LastOn(t, cpu).value.next == k
  }

  /** After its latest switch a CPU stays with the process it entered. */
  lemma {:induction false} CountSinceLast(t: seq<Switch>, cpu: nat, k: Key, n: nat)
    requires SinceOn(t, cpu) <= n
    ensures Count(t, cpu, k, n) == Count(t, cpu, k, SinceOn(t, cpu)) + if OnCpu(t, cpu, k) then n - SinceOn(t, cpu) else 0
    decreases n
  {
    if n > SinceOn(t, cpu) {
      RunningSinceLast(t, cpu, n - 1);
      CountSinceLast(t, cpu, k, n - 1);
    }
  }

  lemma {:induction false} CountMonotone(t: seq<Switch>, cpu: nat, k: Key, a: nat, b: nat)
    requires a <= b
    ensures Count(t, cpu, k, a) <= Count(t, cpu, k, b)
    decreases b
  {
    if a < b {
      CountMonotone(t, cpu, k, a, b - 1);
    }
  }

  lemma {:induction false} OccupancyGrows(t: seq<Switch>, more: seq<Switch>, cpus: nat, k: Key, a: nat, b: nat)
    requires a <= b && forall s | s in more :: a <= s.time
    ensures Occupancy(t, cpus, k, a) == Occupancy(t + more, cpus, k, a) <= Occupancy(t + more, cpus, k, b)
    decreases cpus
  {
    if cpus > 0 {
      OccupancyGrows(t, more, cpus - 1, k, a, b);
      CountExtend(t, more, cpus - 1, k, a);
      CountMonotone(t + more, cpus - 1, k, a, b);
    }
  }

  /** A process that was never entered occupied nothing. */
  lemma {:induction false} NeverEnteredCount(t: seq<Switch>, cpu: nat, k: Key, n: nat)
    requires !Entered(t, k)
    ensures Count(t, cpu, k, n) == 0
    decreases n
  {
    if n > 0 {
      NeverRunning(t, cpu, k, n - 1);
      NeverEnteredCount(t, cpu, k, n - 1);
    }
  }

  lemma {:induction false} NeverRunning(t: seq<Switch>, cpu: nat, k: Key, at: nat)
    requires !Entered(t, k)
    ensures RunningAt(t, cpu, at) != Some(k)
    decreases |t|
  {
    if t != [] {
      assert t[|t| - 1] in t;
      assert forall s | s in t[..|t| - 1] :: s in t;
      NeverRunning(t[..|t| - 1], cpu, k, at);
    }
  }

  lemma {:induction false} NeverEnteredOccupancy(t: seq<Switch>, cpus: nat, k: Key, n: nat)
    requires !Entered(t, k)
    ensures Occupancy(t, cpus, k, n) == 0
    decreases cpus
  {
    if cpus > 0 {
      NeverEnteredOccupancy(t, cpus - 1, k, n);
      NeverEnteredCount(t, cpus - 1, k, n);
    }
  }
}
