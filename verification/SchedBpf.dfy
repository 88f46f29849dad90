/**
 The scheduler probe (src/privileged_helper/system/sched.bpf.c): per-CPU slots and per-CPU
 running totals, updated on every context switch.
 */
module SchedBpf {
  import opened SchedTrace

  const U64: nat := 0x1_0000_0000_0000_0000

  datatype Slot = Slot(process: Key, since: nat)
  datatype Total = Total(runtime: nat, switches: nat)

  /** `totals` holds one value per CPU under each key. */
  datatype Maps = Maps(current: seq<Slot>, totals: map<Key, seq<Total>>)

  const Empty := Slot(Key(0, 0), 0)

  function Zeros(cpus: nat): (r: seq<Total>)
    ensures |r| == cpus
  {
    seq(cpus, _ => Total(0, 0))
  }

  ghost predicate Shaped(m: Maps, cpus: nat) {
    |m.current| == cpus && forall k | k in m.totals :: |m.totals[k]| == cpus
  }

  /** Whether a switch ends an interval that the slot of its CPU has the start of. */
  predicate Charges(m: Maps, s: Switch)
    requires s.cpu < |m.current|
  {
    var slot := m.current[s.cpu];
    !s.lastThread && s.prev.pid != 0 && slot.process == s.prev && s.time >= slot.since
  }

  function Charged(values: seq<Total>, cpu: nat, d: nat): seq<Total>
    requires cpu < |values|
  {
    values[cpu := Total((values[cpu].runtime + d) % U64, (values[cpu].switches + 1) % U64)]
  }

  function Schedule(m: Maps, cpus: nat, s: Switch): Maps
    requires Shaped(m, cpus) && s.cpu < cpus
  {
    var totals :=
      if s.lastThread then m.totals - {s.prev}
      else if Charges(m, s) then
        var values := if s.prev in m.totals then m.totals[s.prev] else Zeros(cpus);
        m.totals[s.prev := Charged(values, s.cpu, s.time - m.current[s.cpu].since)]
      else m.totals;
    Maps(m.current[s.cpu := Slot(s.next, s.time)], totals)
  }

  /** The two BPF maps; entries are neither evicted nor refused. */
  class SchedMaps {
    const cpus: nat
    var current: seq<Slot>
    var totals: map<Key, seq<Total>>

    ghost function Abs(): Maps
      reads this
    {
      Maps(current, totals)
    }

    ghost predicate Valid()
      reads this
    {
      Shaped(Abs(), cpus)
    }

    constructor (cpus: nat)
      ensures Valid() && this.cpus == cpus && Abs() == Initial(cpus)
    {
      this.cpus := cpus;
      current := seq(cpus, _ => Empty);
      totals := map[];
    }

    /** The `sched_switch` program. */
    method OnSwitch(s: Switch)
      requires Valid() && s.cpu < cpus
      modifies this
      ensures Valid() && Abs() == Schedule(old(Abs()), cpus, s)
    {
      var slot := current[s.cpu];
      if s.lastThread {
        totals := totals - {s.prev};
      } else if s.prev.pid != 0 && slot.process == s.prev && s.time >= slot.since {
        if s.prev !in totals {
          totals := totals[s.prev := Zeros(cpus)];
        }
        var total := totals[s.prev][s.cpu];
        var runtime := (total.runtime + (s.time - slot.since)) % U64;
        totals := totals[s.prev := totals[s.prev][s.cpu := Total(runtime, (total.switches + 1) % U64)]];
      }
      current := current[s.cpu := Slot(s.next, s.time)];
    }
  }

  function Initial(cpus: nat): Maps {
    Maps(seq(cpus, _ => Empty), map[])
  }

  /** The maps after a trace. */
  ghost function After(t: seq<Switch>, cpus: nat): (m: Maps)
    requires WellFormed(t, cpus)
    ensures Shaped(m, cpus)
  {
    if t == [] then Initial(cpus) else Schedule(After(t[..|t| - 1], cpus), cpus, t[|t| - 1])
  }

  function Runtime(m: Maps, k: Key, cpu: nat): nat
    requires k in m.totals ==> cpu < |m.totals[k]|
  {
    if k in m.totals then m.totals[k][cpu].runtime else 0
  }

  /** Each slot names the process entered last and when. */
  lemma {:induction false} SlotsTrack(t: seq<Switch>, cpus: nat, cpu: nat)
    requires WellFormed(t, cpus) && cpu < cpus
    ensures After(t, cpus).current[cpu] ==
            if LastOn(t, cpu).None? then Empty else Slot(LastOn(t, cpu).value.next, LastOn(t, cpu).value.time)
    decreases |t|
  {
    if t != [] {
      SlotsTrack(t[..|t| - 1], cpus, cpu);
    }
  }

  /** A switch charges exactly when its CPU had been entered before by a process other than idle. */
  lemma ChargesWhenEntered(t: seq<Switch>, cpus: nat, s: Switch)
    requires WellFormed(t + [s], cpus) && !s.lastThread && s.prev.pid != 0
    ensures WellFormed(t, cpus)
    ensures Charges(After(t, cpus), s) <==> LastOn(t, s.cpu).Some?
    ensures LastOn(t, s.cpu).Some? ==> OnCpu(t, s.cpu, s.prev) && SinceOn(t, s.cpu) <= s.time
    ensures Charges(After(t, cpus), s) ==> After(t, cpus).current[s.cpu].since == SinceOn(t, s.cpu)
  {
    assert (t + [s])[..|t|] == t;
    SlotsTrack(t, cpus, s.cpu);
  }

  /** The totals hold, per CPU, all of a process's time up to the latest switch on that CPU. */
  lemma {:induction false} TotalsTrack(t: seq<Switch>, cpus: nat, k: Key, cpu: nat)
    requires WellFormed(t, cpus) && cpu < cpus && k.pid != 0 && !Exited(t, k)
    requires forall s | s in t :: s.time < U64
    ensures Runtime(After(t, cpus), k, cpu) == Count(t, cpu, k, SinceOn(t, cpu))
    decreases |t|
  {
    if t != [] {
      var front, s := t[..|t| - 1], t[|t| - 1];
      assert t == front + [s];
      assert forall x | x in front :: x in t;
      assert s in t;
      TotalsTrack(front, cpus, k, cpu);
      if s.cpu == cpu {
        TotalsStep(front, s, cpus, k);
      } else {
        CountAppend(front, s, cpu, k, SinceOn(front, cpu));
      }
    }
  }

  /** What one switch adds to the runtime of a process on its CPU. */
  lemma ScheduleRuntime(m: Maps, cpus: nat, s: Switch, k: Key)
    requires Shaped(m, cpus) && s.cpu < cpus && !(s.lastThread && s.prev == k)
    ensures Shaped(Schedule(m, cpus, s), cpus)
    ensures Runtime(Schedule(m, cpus, s), k, s.cpu) ==
            if Charges(m, s) && s.prev == k then (Runtime(m, k, s.cpu) + (s.time - m.current[s.cpu].since)) % U64
            else Runtime(m, k, s.cpu)
  {
  }

  /** What the CPU's process gained since the switch before. */
  lemma CountStep(front: seq<Switch>, s: Switch, cpus: nat, k: Key)
    requires WellFormed(front + [s], cpus) && k.pid != 0
    ensures var before := Count(front, s.cpu, k, SinceOn(front, s.cpu));
            Count(front + [s], s.cpu, k, s.time) ==
            if LastOn(front, s.cpu).Some? && s.prev == k then before + (s.time - SinceOn(front, s.cpu)) else before
  {
    assert (front + [s])[..|front|] == front;
    CountAppend(front, s, s.cpu, k, s.time);
    CountSinceLast(front, s.cpu, k, s.time);
  }

  lemma TotalsStep(front: seq<Switch>, s: Switch, cpus: nat, k: Key)
    requires WellFormed(front + [s], cpus) && WellFormed(front, cpus) && s.cpu < cpus && k.pid != 0
    requires s.time < U64 && !(s.lastThread && s.prev == k)
    requires Runtime(After(front, cpus), k, s.cpu) == Count(front, s.cpu, k, SinceOn(front, s.cpu))
    ensures Runtime(Schedule(After(front, cpus), cpus, s), k, s.cpu) == Count(front + [s], s.cpu, k, s.time)
  {
    ScheduleRuntime(After(front, cpus), cpus, s, k);
    CountStep(front, s, cpus, k);
    if !s.lastThread && s.prev == k {
      ChargesWhenEntered(front, cpus, s);
    }
  }

  /** What user space adds for the interval that is still running. */
  function OngoingOn(m: Maps, k: Key, cpu: nat, now: nat): nat
    requires cpu < |m.current|
  {
    var slot := m.current[cpu];
    if k.pid != 0 && slot.process == k && slot.since <= now then now - slot.since else 0
  }

  lemma CpuTracks(t: seq<Switch>, cpus: nat, k: Key, cpu: nat, now: nat)
    requires WellFormed(t, cpus) && cpu < cpus && k.pid != 0 && !Exited(t, k) && now < U64
    requires forall s | s in t :: s.time <= now
    ensures Runtime(After(t, cpus), k, cpu) + OngoingOn(After(t, cpus), k, cpu, now) == Count(t, cpu, k, now)
  {
    TotalsTrack(t, cpus, k, cpu);
    SlotsTrack(t, cpus, cpu);
    CountSinceLast(t, cpu, k, now);
  }

  /** The totals of a process and its running intervals, summed over the first CPUs. */
  function Accounted(m: Maps, cpus: nat, k: Key, now: nat): nat
    requires cpus <= |m.current| && (k in m.totals ==> cpus <= |m.totals[k]|)
  {
    if cpus == 0 then 0
    else Accounted(m, cpus - 1, k, now) + Runtime(m, k, cpus - 1) + OngoingOn(m, k, cpus - 1, now)
  }

  /** Totals plus running intervals are the true occupancy, for every trace. */
  lemma AccountedIsOccupancy(t: seq<Switch>, cpus: nat, k: Key, now: nat)
    requires WellFormed(t, cpus) && k.pid != 0 && !Exited(t, k) && now < U64
    requires forall s | s in t :: s.time <= now
    ensures Accounted(After(t, cpus), cpus, k, now) == Occupancy(t, cpus, k, now)
  {
    AccountedUpTo(t, cpus, cpus, k, now);
  }

  lemma {:induction false} AccountedUpTo(t: seq<Switch>, cpus: nat, upTo: nat, k: Key, now: nat)
    requires WellFormed(t, cpus) && upTo <= cpus && k.pid != 0 && !Exited(t, k) && now < U64
    requires forall s | s in t :: s.time <= now
    ensures Accounted(After(t, cpus), upTo, k, now) == Occupancy(t, upTo, k, now)
    decreases upTo
  {
    if upTo > 0 {
      AccountedUpTo(t, cpus, upTo - 1, k, now);
      CpuTracks(t, cpus, k, upTo - 1, now);
    }
  }

  /** A process is in the slots or the totals exactly when some switch entered it. */
  ghost predicate Present(m: Maps, k: Key) {
    k in m.totals || exists cpu | 0 <= cpu < |m.current| :: m.current[cpu].process == k
  }

  lemma {:induction false} PresentWhenEntered(t: seq<Switch>, cpus: nat, k: Key)
    requires WellFormed(t, cpus) && k.pid != 0 && !Exited(t, k)
    ensures Present(After(t, cpus), k) <==> Entered(t, k)
    decreases |t|
  {
    if t != [] {
      var front, s := t[..|t| - 1], t[|t| - 1];
      assert t == front + [s];
      assert s in t;
      PresentWhenEntered(front, cpus, k);
      PresentStep(front, cpus, s, k);
      assert Entered(t, k) <==> Entered(front, k) || s.next == k;
    }
  }

  lemma PresentStep(front: seq<Switch>, cpus: nat, s: Switch, k: Key)
    requires WellFormed(front, cpus) && WellFormed(front + [s], cpus) && s.cpu < cpus
    requires k.pid != 0 && !(s.lastThread && s.prev == k)
    ensures Present(Schedule(After(front, cpus), cpus, s), k) <==> Present(After(front, cpus), k) || s.next == k
  {
    var m, m' := After(front, cpus), Schedule(After(front, cpus), cpus, s);
    SlotsTrack(front, cpus, s.cpu);
    if !s.lastThread && s.prev.pid != 0 {
      ChargesWhenEntered(front, cpus, s);
    }
    if Present(m, k) || s.next == k {
      if s.next == k {
        assert m'.current[s.cpu].process == k;
      } else if k !in m.totals {
        var c :| 0 <= c < |m.current| && m.current[c].process == k;
        if c != s.cpu {
          assert m'.current[c].process == k;
        }
      }
    }
    if Present(m', k) && k !in m'.totals {
      var c :| 0 <= c < |m'.current| && m'.current[c].process == k;
      assert c == s.cpu || m.current[c].process == k;
    }
  }
}
