/**
 The rest of what is reported of a process: how often it was switched out, on which CPUs it
 runs, and whether it is reported at all, each against the trace of context switches.
 */
module SwitchAccounting {
  import opened Basics
  import opened SchedTrace
  import opened SchedBpf
  import opened CpuActivity
  import opened CpuAccounting

  /** How often the CPU left `k`, not counting a first switch, whose beginning nobody saw. */
  function Departures(t: seq<Switch>, cpu: nat, k: Key): nat {
    if t == [] then 0
    else
      var front, s := t[..|t| - 1], t[|t| - 1];
      Departures(front, cpu, k) + if s.cpu == cpu && s.prev == k && LastOn(front, cpu).Some? then 1 else 0
  }

  /** The same over CPUs 0 to `cpus` - 1. */
  function AllDepartures(t: seq<Switch>, cpus: nat, k: Key): nat {
    if cpus == 0 then 0 else AllDepartures(t, cpus - 1, k) + Departures(t, cpus - 1, k)
  }

  function SwitchesIn(m: Maps, k: Key, cpu: nat): nat
    requires k in m.totals ==> cpu < |m.totals[k]|
  {
    if k in m.totals then m.totals[k][cpu].switches else 0
  }

  lemma ScheduleSwitches(m: Maps, cpus: nat, s: Switch, k: Key, cpu: nat)
    requires Shaped(m, cpus) && s.cpu < cpus && cpu < cpus && !(s.lastThread && s.prev == k)
    ensures Shaped(Schedule(m, cpus, s), cpus)
    ensures SwitchesIn(Schedule(m, cpus, s), k, cpu) ==
            if Charges(m, s) && s.prev == k && s.cpu == cpu then (SwitchesIn(m, k, cpu) + 1) % U64 else SwitchesIn(m, k, cpu)
  {
  }

  /** The counter of a process on a CPU is the number of its departures there, modulo 2^64. */
  lemma {:induction false} SwitchesTrack(t: seq<Switch>, cpus: nat, k: Key, cpu: nat)
    requires WellFormed(t, cpus) && cpu < cpus && k.pid != 0 && !Exited(t, k)
    ensures SwitchesIn(After(t, cpus), k, cpu) == Departures(t, cpu, k) % 0x1_0000_0000_0000_0000
    decreases |t|
  {
    if t != [] {
      var front, s := t[..|t| - 1], t[|t| - 1];
      assert t == front + [s] && s in t && forall x | x in front :: x in t;
      SwitchesTrack(front, cpus, k, cpu);
      SwitchesStep(front, s, cpus, k, cpu);
    }
  }

  lemma SwitchesStep(front: seq<Switch>, s: Switch, cpus: nat, k: Key, cpu: nat)
    requires WellFormed(front + [s], cpus) && WellFormed(front, cpus) && s.cpu < cpus && cpu < cpus
    requires k.pid != 0 && !(s.lastThread && s.prev == k)
    requires SwitchesIn(After(front, cpus), k, cpu) == Departures(front, cpu, k) % U64
    ensures SwitchesIn(Schedule(After(front, cpus), cpus, s), k, cpu) ==
            (Departures(front, cpu, k) + if s.cpu == cpu && s.prev == k && LastOn(front, cpu).Some? then 1 else 0) % U64
  {
    ScheduleSwitches(After(front, cpus), cpus, s, k, cpu);
    Wrapped(Departures(front, cpu, k));
    if s.prev == k {
      ChargesWhenEntered(front, cpus, s);
    }
  }

  lemma Wrapped(n: nat)
    ensures (n % U64 + 1) % U64 == (n + 1) % U64
  {
  }

  /******* Cumulative values *******/

  function SumSwitches(values: seq<Total>): nat {
    if values == [] then 0 else values[0].switches + SumSwitches(values[1..])
  }

  lemma {:induction false} AddAllSwitches(t: Total, values: seq<Total>)
    requires t.switches < U64
    ensures AddAll(t, NonZero(values)).switches == Clamp(t.switches + SumSwitches(values))
    decreases |values|
  {
    if values != [] {
      if values[0] == Total(0, 0) {
        AddAllSwitches(t, values[1..]);
      } else {
        var next := Total(Saturated(t.runtime, values[0].runtime), Saturated(t.switches, values[0].switches));
        AddAllSwitches(next, values[1..]);
        assert NonZero(values)[1..] == NonZero(values[1..]);
      }
    }
  }

  lemma {:induction false} SumSwitchesAppend(values: seq<Total>, t: Total)
    ensures SumSwitches(values + [t]) == SumSwitches(values) + t.switches
    decreases |values|
  {
    if values == [] {
      assert values + [t] == [t] && [t][1..] == [];
    } else {
      assert (values + [t])[1..] == values[1..] + [t];
      SumSwitchesAppend(values[1..], t);
    }
  }

  /** The per-CPU counters of a process add up to its departures, as long as these fit in 64 bits. */
  lemma {:induction false} CountersAddUp(t: seq<Switch>, cpus: nat, n: nat, k: Key)
    requires WellFormed(t, cpus) && n <= cpus && k.pid != 0 && !Exited(t, k) && AllDepartures(t, n, k) < U64
    ensures var m := After(t, cpus);
            AllDepartures(t, n, k) == if k in m.totals then SumSwitches(m.totals[k][..n]) else 0
    decreases n
  {
    var m := After(t, cpus);
    if n > 0 {
      CountersAddUp(t, cpus, n - 1, k);
      SwitchesTrack(t, cpus, k, n - 1);
      if k in m.totals {
        var values := m.totals[k];
        assert values[..n] == values[..n - 1] + [values[n - 1]];
        SumSwitchesAppend(values[..n - 1], values[n - 1]);
      }
    }
  }

  lemma CapturedSwitches(m: Maps, now: nat, s: Sample, k: Key)
    requires Captures(m, now, s) && k in Cumulative(s)
    ensures Cumulative(s)[k].switches == if k in m.totals then Clamp(SumSwitches(m.totals[k])) else 0
  {
    FinishedFinds(s.totals, |s.totals|, k);
    if k in m.totals {
      var i :| 0 <= i < |s.totals| && s.totals[i].0 == k;
      AddAllSwitches(Total(0, 0), m.totals[k]);
    }
  }

  /** The cumulative switches of a sample are the departures of the process on all CPUs. */
  lemma CumulativeIsDepartures(t: seq<Switch>, cpus: nat, now: nat, s: Sample, k: Key)
    requires WellFormed(t, cpus) && k.pid != 0 && !Exited(t, k) && AllDepartures(t, cpus, k) < U64
    requires Captures(After(t, cpus), now, s) && k in Cumulative(s)
    ensures Cumulative(s)[k].switches == AllDepartures(t, cpus, k)
  {
    var m := After(t, cpus);
    CapturedSwitches(m, now, s, k);
    CountersAddUp(t, cpus, cpus, k);
    if k in m.totals {
      assert m.totals[k][..cpus] == m.totals[k];
    }
  }

  lemma {:induction false} DeparturesGrow(t: seq<Switch>, more: seq<Switch>, cpu: nat, k: Key)
    ensures Departures(t, cpu, k) <= Departures(t + more, cpu, k)
    decreases |more|
  {
    if more == [] {
      assert t + more == t;
    } else {
      assert (t + more)[..|t + more| - 1] == t + more[..|more| - 1];
      DeparturesGrow(t, more[..|more| - 1], cpu, k);
    }
  }

  lemma {:induction false} AllDeparturesGrow(t: seq<Switch>, more: seq<Switch>, cpus: nat, k: Key)
    ensures AllDepartures(t, cpus, k) <= AllDepartures(t + more, cpus, k)
    decreases cpus
  {
    if cpus > 0 {
      AllDeparturesGrow(t, more, cpus - 1, k);
      DeparturesGrow(t, more, cpus - 1, k);
    }
  }

  /******* Consecutive samples *******/

  ghost function LeftAt(o: Observation, cpus: nat, k: Key): nat { AllDepartures(o.trace, cpus, k) }

  /** The switches reported with sample `i`; nothing is reported as zero. */
  ghost function SwitchesAt(os: seq<Observation>, ticks: nat, k: Key, i: nat): nat
    requires i < |os|
  {
    var p := MemoryBefore(os, ticks, i);
    var o := os[i];
    if k in Known(o.sample, ticks, o.known) && Reported(p, o.sample, ticks, k) then ActivityOf(p, o.sample, ticks, k).switches else 0
  }

  ghost function MemoryBefore(os: seq<Observation>, ticks: nat, i: nat): Memory
    requires i < |os|
  {
    if i == 0 then Memory(map[], {}) else Remember(os[i - 1].sample, ticks, os[i - 1].known)
  }

  ghost predicate Countable(os: seq<Observation>, cpus: nat, k: Key) {
    Observed(os, cpus, k) && forall o | o in os :: LeftAt(o, cpus, k) < U64
  }

  lemma SwitchesReadRight(o: Observation, cpus: nat, ticks: nat, k: Key)
    requires k.pid != 0 && Faithful(o, cpus, k) && LeftAt(o, cpus, k) < U64
    ensures k in Known(o.sample, ticks, o.known) <==> Seen(o, ticks, k)
    ensures Seen(o, ticks, k) ==> Cumulative(o.sample)[k].switches == LeftAt(o, cpus, k)
    ensures Seen(o, ticks, k) ==> Cumulative(o.sample)[k].runtime == OccupancyAt(o, cpus, k)
  {
    CumulativeIsOccupancy(o.trace, cpus, o.now, o.sample, k);
    if k in Cumulative(o.sample) {
      CumulativeIsDepartures(o.trace, cpus, o.now, o.sample, k);
    }
  }

  lemma LeftGrows(a: Observation, b: Observation, cpus: nat, k: Key)
    requires Follows(a, b)
    ensures LeftAt(a, cpus, k) <= LeftAt(b, cpus, k)
  {
    assert b.trace == a.trace + b.trace[|a.trace|..];
    AllDeparturesGrow(a.trace, b.trace[|a.trace|..], cpus, k);
  }

  /** What is remembered of a sample is what it had of the processes seen. */
  lemma Remembered(a: Observation, ticks: nat, k: Key)
    requires k in Known(a.sample, ticks, a.known) <==> Seen(a, ticks, k)
    ensures var p := Remember(a.sample, ticks, a.known);
            && (k in p.cpu <==> Seen(a, ticks, k)) && (k in p.cpu ==> p.cpu[k] == Cumulative(a.sample)[k])
            && (k in p.running <==> Seen(a, ticks, k) && CpusOf(a.sample, k) != [])
  {
  }

  /** The cumulative values of a sample are right, whether or not the process is seen. */
  ghost predicate BothReadRight(o: Observation, cpus: nat, ticks: nat, k: Key) {
    && (k in Known(o.sample, ticks, o.known) <==> Seen(o, ticks, k))
    && (Seen(o, ticks, k) ==> Cumulative(o.sample)[k] == Total(OccupancyAt(o, cpus, k), LeftAt(o, cpus, k)))
  }

  /** What an activity says, given the sample before it, or nothing before it. */
  lemma ActivityAfter(a: Observation, o: Observation, cpus: nat, ticks: nat, k: Key)
    requires BothReadRight(a, cpus, ticks, k) && BothReadRight(o, cpus, ticks, k) && Seen(o, ticks, k)
    ensures var x := ActivityOf(Remember(a.sample, ticks, a.known), o.sample, ticks, k);
            && x.runtime == (if Seen(a, ticks, k) then Without(OccupancyAt(o, cpus, k), OccupancyAt(a, cpus, k)) else 0)
            && x.switches == (if Seen(a, ticks, k) then Without(LeftAt(o, cpus, k), LeftAt(a, cpus, k)) else 0)
            && x.cpus == CpusOf(o.sample, k)
  {
    Remembered(a, ticks, k);
  }

  lemma ObservedReadsRight(os: seq<Observation>, cpus: nat, ticks: nat, k: Key, i: nat)
    requires Countable(os, cpus, k) && i < |os|
    ensures BothReadRight(os[i], cpus, ticks, k)
  {
    assert Faithful(os[i], cpus, k) && os[i] in os;
    SwitchesReadRight(os[i], cpus, ticks, k);
  }

  lemma ObservedGrows(os: seq<Observation>, cpus: nat, k: Key, i: nat)
    requires Countable(os, cpus, k) && 0 < i < |os|
    ensures OccupancyAt(os[i - 1], cpus, k) <= OccupancyAt(os[i], cpus, k) && LeftAt(os[i - 1], cpus, k) <= LeftAt(os[i], cpus, k)
  {
    assert Follows(os[i - 1], os[i]);
    OccupancyRises(os[i - 1], os[i], cpus, k);
    LeftGrows(os[i - 1], os[i], cpus, k);
  }

  /**
   Each report has the departures of an interval at both ends of which the process is seen, and
   none otherwise, for any samples and any process lists.
   */
  lemma SwitchesAreDepartures(os: seq<Observation>, cpus: nat, ticks: nat, k: Key, i: nat)
    requires Countable(os, cpus, k) && i < |os|
    ensures SwitchesAt(os, ticks, k, i) ==
            if Counts(os, ticks, k, i) then LeftAt(os[i], cpus, k) - LeftAt(os[i - 1], cpus, k) else 0
  {
    ObservedReadsRight(os, cpus, ticks, k, i);
    if i > 0 {
      ObservedReadsRight(os, cpus, ticks, k, i - 1);
      ObservedGrows(os, cpus, k, i);
      if Seen(os[i], ticks, k) {
        ActivityAfter(os[i - 1], os[i], cpus, ticks, k);
      }
    }
  }

  ghost function SwitchReports(os: seq<Observation>, ticks: nat, k: Key): seq<nat> {
    seq(|os|, i requires 0 <= i < |os| => SwitchesAt(os, ticks, k, i))
  }

  /** The departures in the interval that ends with sample `i`, if that is not reported. */
  ghost function SwitchesMissedAt(os: seq<Observation>, cpus: nat, ticks: nat, k: Key, i: nat): nat
    requires i < |os|
  {
    if i == 0 || Counts(os, ticks, k, i) then 0 else Without(LeftAt(os[i], cpus, k), LeftAt(os[i - 1], cpus, k))
  }

  ghost function SwitchesMissed(os: seq<Observation>, cpus: nat, ticks: nat, k: Key): seq<nat> {
    seq(|os|, i requires 0 <= i < |os| => SwitchesMissedAt(os, cpus, ticks, k, i))
  }

  ghost function LeftLevels(os: seq<Observation>, cpus: nat, k: Key): seq<nat> {
    seq(|os|, i requires 0 <= i < |os| => LeftAt(os[i], cpus, k))
  }

  lemma {:induction false} IntervalSwitches(os: seq<Observation>, cpus: nat, ticks: nat, k: Key, j: nat)
    requires Countable(os, cpus, k) && j < |os|
    ensures var r, m := SwitchesAt(os, ticks, k, j), SwitchesMissedAt(os, cpus, ticks, k, j);
            if j == 0 then r == 0 && m == 0 else LeftAt(os[j - 1], cpus, k) + r + m == LeftAt(os[j], cpus, k)
  {
    SwitchesAreDepartures(os, cpus, ticks, k, j);
    if j > 0 {
      ObservedGrows(os, cpus, k, j);
    }
  }

  ghost predicate SwitchesSplitAt(os: seq<Observation>, cpus: nat, ticks: nat, k: Key, j: nat)
    requires j < |os|
  {
    SplitsGain(SwitchReports(os, ticks, k), SwitchesMissed(os, cpus, ticks, k), LeftLevels(os, cpus, k), j)
  }

  ghost predicate AllSwitchesSplit(os: seq<Observation>, cpus: nat, ticks: nat, k: Key) {
    forall j | 0 <= j < |os| :: SwitchesSplitAt(os, cpus, ticks, k, j)
  }

  lemma {:induction false} SwitchesSplit(os: seq<Observation>, cpus: nat, ticks: nat, k: Key)
    requires Countable(os, cpus, k)
    ensures AllSwitchesSplit(os, cpus, ticks, k)
  {
    forall j | 0 <= j < |os|
      ensures SwitchesSplitAt(os, cpus, ticks, k, j)
    {
      IntervalSwitches(os, cpus, ticks, k, j);
      SplitFromValues(os, cpus, ticks, k, j);
    }
  }

  lemma {:induction false} SplitFromValues(os: seq<Observation>, cpus: nat, ticks: nat, k: Key, j: nat)
    requires j < |os|
    requires var r, m := SwitchesAt(os, ticks, k, j), SwitchesMissedAt(os, cpus, ticks, k, j);
             if j == 0 then r == 0 && m == 0 else LeftAt(os[j - 1], cpus, k) + r + m == LeftAt(os[j], cpus, k)
    ensures SwitchesSplitAt(os, cpus, ticks, k, j)
  {
    ListsAt(os, cpus, ticks, k, j);
    if j > 0 {
      ListsAt(os, cpus, ticks, k, j - 1);
    }
  }

  lemma ListsAt(os: seq<Observation>, cpus: nat, ticks: nat, k: Key, j: nat)
    requires j < |os|
    ensures SwitchReports(os, ticks, k)[j] == SwitchesAt(os, ticks, k, j)
    ensures SwitchesMissed(os, cpus, ticks, k)[j] == SwitchesMissedAt(os, cpus, ticks, k, j)
    ensures LeftLevels(os, cpus, k)[j] == LeftAt(os[j], cpus, k)
  {
  }

  /** Reported and missed departures are all that happened since the first sample. */
  lemma {:induction false} SwitchesAreConserved(os: seq<Observation>, cpus: nat, ticks: nat, k: Key)
    requires Countable(os, cpus, k) && os != []
    ensures LeftAt(os[0], cpus, k) + Sum(SwitchReports(os, ticks, k), |os|) + Sum(SwitchesMissed(os, cpus, ticks, k), |os|)
            == LeftAt(os[|os| - 1], cpus, k)
  {
    SwitchesSplit(os, cpus, ticks, k);
    SplitsAddUp(os, cpus, ticks, k);
  }

  lemma {:induction false} SplitsAddUp(os: seq<Observation>, cpus: nat, ticks: nat, k: Key)
    requires AllSwitchesSplit(os, cpus, ticks, k) && os != []
    ensures LeftAt(os[0], cpus, k) + Sum(SwitchReports(os, ticks, k), |os|) + Sum(SwitchesMissed(os, cpus, ticks, k), |os|)
            == LeftAt(os[|os| - 1], cpus, k)
  {
    var reports, missed, levels := SwitchReports(os, ticks, k), SwitchesMissed(os, cpus, ticks, k), LeftLevels(os, cpus, k);
    forall j | 0 <= j < |os|
      ensures SplitsGain(reports, missed, levels, j)
    {
      assert SwitchesSplitAt(os, cpus, ticks, k, j);
    }
    GainsAddUp(reports, missed, levels, |os|);
    ListsAt(os, cpus, ticks, k, 0);
    ListsAt(os, cpus, ticks, k, |os| - 1);
  }

  /** From any sample on from which the process is seen, the reported switches telescope to its departures since. */
  lemma {:induction false} SwitchesTelescope(os: seq<Observation>, cpus: nat, ticks: nat, k: Key, f: nat)
    requires Countable(os, cpus, k) && SeenFrom(os, ticks, k, f)
    ensures LeftAt(os[f], cpus, k) + Sum(SwitchReports(os, ticks, k), |os|)
            == Sum(SwitchReports(os, ticks, k), f + 1) + LeftAt(os[|os| - 1], cpus, k)
  {
    SwitchesSplit(os, cpus, ticks, k);
    NoSwitchMissedFrom(os, cpus, ticks, k, f);
    SplitsTelescope(os, cpus, ticks, k, f);
  }

  lemma {:induction false} SplitsTelescope(os: seq<Observation>, cpus: nat, ticks: nat, k: Key, f: nat)
    requires AllSwitchesSplit(os, cpus, ticks, k) && f < |os|
    requires forall j | f < j < |os| :: SwitchesMissed(os, cpus, ticks, k)[j] == 0
    ensures LeftAt(os[f], cpus, k) + Sum(SwitchReports(os, ticks, k), |os|)
            == Sum(SwitchReports(os, ticks, k), f + 1) + LeftAt(os[|os| - 1], cpus, k)
  {
    var reports, missed, levels := SwitchReports(os, ticks, k), SwitchesMissed(os, cpus, ticks, k), LeftLevels(os, cpus, k);
    forall j | 0 <= j < |os|
      ensures SplitsGain(reports, missed, levels, j)
    {
      assert SwitchesSplitAt(os, cpus, ticks, k, j);
    }
    GainsTelescope(reports, missed, levels, f);
    ListsAt(os, cpus, ticks, k, f);
    ListsAt(os, cpus, ticks, k, |os| - 1);
  }

  lemma {:induction false} NoSwitchMissedFrom(os: seq<Observation>, cpus: nat, ticks: nat, k: Key, f: nat)
    requires SeenFrom(os, ticks, k, f)
    ensures forall j | f < j < |os| :: SwitchesMissed(os, cpus, ticks, k)[j] == 0
  {
    forall j | f < j < |os|
      ensures SwitchesMissed(os, cpus, ticks, k)[j] == 0
    {
      assert Seen(os[j - 1], ticks, k) && Seen(os[j], ticks, k);
      ListsAt(os, cpus, ticks, k, j);
    }
  }

  /******* CPUs *******/

  lemma {:induction false} RunningCpusAre(current: seq<Slot>, now: nat, n: nat, k: Key)
    requires n <= |current|
    ensures var cpus := Get(RunningCpus(current, now, n), k, []);
            && (forall c: nat :: c in cpus <==> c < n && current[c].process == k && k.pid != 0 && current[c].since <= now)
            && (forall i, j | 0 <= i < j < |cpus| :: cpus[i] < cpus[j])
    decreases n
  {
    if n > 0 {
      RunningCpusAre(current, now, n - 1, k);
      var before := Get(RunningCpus(current, now, n - 1), k, []);
      assert forall i | 0 <= i < |before| :: before[i] in before;
    }
  }

  /** The CPUs listed for a process are exactly those whose latest switch entered it, in order and once each. */
  lemma CpusAreOccupied(o: Observation, cpus: nat, k: Key)
    requires k.pid != 0 && Faithful(o, cpus, k)
    ensures var listed := CpusOf(o.sample, k);
            && (forall c: nat :: c in listed <==> c < cpus && OnCpu(o.trace, c, k))
            && (forall i, j | 0 <= i < j < |listed| :: listed[i] < listed[j])
  {
    var current := o.sample.current;
    RunningCpusAre(current, o.now, |current|, k);
    forall c: nat | c < cpus
      ensures OnCpu(o.trace, c, k) <==> current[c].process == k && current[c].since <= o.now
    {
      SlotsTrack(o.trace, cpus, c);
      LastIsInTrace(o.trace, c);
    }
  }

  lemma {:induction false} LastIsInTrace(t: seq<Switch>, cpu: nat)
    ensures LastOn(t, cpu).Some? ==> LastOn(t, cpu).value in t
    decreases |t|
  {
    if t != [] {
      LastIsInTrace(t[..|t| - 1], cpu);
    }
  }

  ghost predicate OnSomeCpu(o: Observation, cpus: nat, k: Key) { exists c: nat | c < cpus :: OnCpu(o.trace, c, k) }

  lemma ListedWhenOnCpu(o: Observation, cpus: nat, k: Key)
    requires k.pid != 0 && Faithful(o, cpus, k)
    ensures CpusOf(o.sample, k) != [] <==> OnSomeCpu(o, cpus, k)
  {
    CpusAreOccupied(o, cpus, k);
    var listed := CpusOf(o.sample, k);
    if listed != [] {
      assert listed[0] in listed;
    }
  }

  /**
   A process is reported with a sample exactly when it is seen in it and, since the sample before,
   ran or was switched out, or is on a CPU now, or was on one then.
   */
  lemma ReportedExactlyWhen(os: seq<Observation>, cpus: nat, ticks: nat, k: Key, i: nat)
    requires Countable(os, cpus, k) && 0 < i < |os| && Seen(os[i], ticks, k)
    ensures var a, o := os[i - 1], os[i];
            && k in Cumulative(o.sample)
            && (Reported(Remember(a.sample, ticks, a.known), o.sample, ticks, k) <==>
                || OnSomeCpu(o, cpus, k)
                || (Seen(a, ticks, k) && (OnSomeCpu(a, cpus, k) || OccupancyAt(a, cpus, k) < OccupancyAt(o, cpus, k)
                                          || LeftAt(a, cpus, k) < LeftAt(o, cpus, k))))
  {
    ObservedReadsRight(os, cpus, ticks, k, i);
    ObservedReadsRight(os, cpus, ticks, k, i - 1);
    ObservedGrows(os, cpus, k, i);
    ActivityAfter(os[i - 1], os[i], cpus, ticks, k);
    Remembered(os[i - 1], ticks, k);
    ListedWhenOnCpu(os[i], cpus, k);
    ListedWhenOnCpu(os[i - 1], cpus, k);
  }

  /******* Exit *******/

  /** A switch left `k` on a CPU that had been entered, and the process has not exited since. */
  predicate LeftSinceExit(t: seq<Switch>, k: Key) {
    t != [] &&
    var front, s := t[..|t| - 1], t[|t| - 1];
    !(s.lastThread && s.prev == k)
    && (LeftSinceExit(front, k) || (s.prev == k && LastOn(front, s.cpu).Some?))
  }

  /** The totals hold a process exactly since such a switch: its exit removes it. */
  lemma {:induction false} TotalsForgetTheExited(t: seq<Switch>, cpus: nat, k: Key)
    requires WellFormed(t, cpus) && k.pid != 0
    ensures k in After(t, cpus).totals <==> LeftSinceExit(t, k)
    decreases |t|
  {
    if t != [] {
      var front, s := t[..|t| - 1], t[|t| - 1];
      assert t == front + [s];
      TotalsForgetTheExited(front, cpus, k);
      if s.prev == k && !s.lastThread {
        ChargesWhenEntered(front, cpus, s);
      }
    }
  }

  /** The identity of a process as the process list has it: its start in clock ticks. */
  lemma IdentityInTicks(k: Key, ticks: nat)
    ensures IdentityOf(k, ticks).pid == k.pid
    ensures var start := IdentityOf(k, ticks).ticks;
            start * 1_000_000_000 <= k.start * ticks < (start + 1) * 1_000_000_000
  {
  }
}
