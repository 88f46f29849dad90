/**
 What the two sides compute together: the runtime reported for a process over consecutive
 samples adds up to the time it really occupied CPUs.
 */
module CpuAccounting {
  import opened SchedTrace
  import opened SchedBpf
  import opened CpuActivity

  function SumRuntime(values: seq<Total>): nat {
    if values == [] then 0 else values[0].runtime + SumRuntime(values[1..])
  }

  function Clamp(n: nat): nat { if n < U64 then n else U64 - 1 }

  lemma {:induction false} AddAllSums(t: Total, values: seq<Total>)
    requires t.runtime < U64
    ensures AddAll(t, NonZero(values)).runtime == Clamp(t.runtime + SumRuntime(values))
    decreases |values|
  {
    if values != [] {
      if values[0] == Total(0, 0) {
        AddAllSums(t, values[1..]);
      } else {
        var next := Total(Saturated(t.runtime, values[0].runtime), Saturated(t.switches, values[0].switches));
        AddAllSums(next, values[1..]);
        assert NonZero(values)[1..] == NonZero(values[1..]);
      }
    }
  }

  lemma {:induction false} FinishedFinds(totals: seq<(Key, seq<Total>)>, n: nat, k: Key)
    requires n <= |totals|
    requires forall i, j | 0 <= i < j < |totals| :: totals[i].0 != totals[j].0
    ensures k in Finished(totals, n) <==> exists i | 0 <= i < n :: totals[i].0 == k
    ensures forall i | 0 <= i < n && totals[i].0 == k :: Finished(totals, n)[k] == AddAll(Total(0, 0), totals[i].1)
    decreases n
  {
    if n > 0 {
      FinishedFinds(totals, n - 1, k);
    }
  }

  /** The running intervals of a process on the first CPUs. */
  function SumOngoing(current: seq<Slot>, k: Key, now: nat, n: nat): nat
    requires n <= |current|
  {
    if n == 0 then 0
    else SumOngoing(current, k, now, n - 1) + OngoingOn(Maps(current, map[]), k, n - 1, now)
  }

  lemma {:induction false} OngoingSums(current: seq<Slot>, k: Key, now: nat, n: nat)
    requires n <= |current| && k.pid != 0 && SumOngoing(current, k, now, n) < U64
    ensures Get(Ongoing(current, now, n), k, 0) == SumOngoing(current, k, now, n)
    ensures k in Ongoing(current, now, n) <==>
            exists c | 0 <= c < n :: current[c].process == k && current[c].since <= now
    decreases n
  {
    if n > 0 {
      OngoingSums(current, k, now, n - 1);
    }
  }

  lemma {:induction false} AccountedSplits(m: Maps, n: nat, k: Key, now: nat)
    requires n <= |m.current| && (k in m.totals ==> n <= |m.totals[k]|)
    ensures Accounted(m, n, k, now) ==
            SumOngoing(m.current, k, now, n) + if k in m.totals then SumRuntime(m.totals[k][..n]) else 0
    decreases n
  {
    if n > 0 {
      AccountedSplits(m, n - 1, k, now);
      if k in m.totals {
        var values := m.totals[k];
        assert values[..n] == values[..n - 1] + [values[n - 1]];
        SumRuntimeAppend(values[..n - 1], values[n - 1]);
      }
    }
  }

  lemma {:induction false} SumRuntimeAppend(values: seq<Total>, t: Total)
    ensures SumRuntime(values + [t]) == SumRuntime(values) + t.runtime
    decreases |values|
  {
    if values == [] {
      assert values + [t] == [t] && [t][1..] == [];
    } else {
      assert (values + [t])[1..] == values[1..] + [t];
      SumRuntimeAppend(values[1..], t);
    }
  }

  lemma CapturedTotal(m: Maps, now: nat, s: Sample, k: Key)
    requires Captures(m, now, s)
    ensures var f := Finished(s.totals, |s.totals|);
            (k in f <==> k in m.totals) && (k in m.totals ==> f[k].runtime == Clamp(SumRuntime(m.totals[k])))
  {
    FinishedFinds(s.totals, |s.totals|, k);
    if k in m.totals {
      var i :| 0 <= i < |s.totals| && s.totals[i].0 == k;
      AddAllSums(Total(0, 0), m.totals[k]);
    }
  }

  /** The cumulative value of a sample is what the maps account for, saturated; only running intervals must fit. */
  lemma CumulativeIsAccounted(m: Maps, cpus: nat, now: nat, s: Sample, k: Key)
    requires Shaped(m, cpus) && Captures(m, now, s) && k.pid != 0 && SumOngoing(m.current, k, now, cpus) < U64
    requires forall c | 0 <= c < cpus :: m.current[c].since <= now
    ensures k in Cumulative(s) <==> Present(m, k)
    ensures k in Cumulative(s) ==> Cumulative(s)[k].runtime == Clamp(Accounted(m, cpus, k, now))
  {
    AccountedSplits(m, cpus, k, now);
    CapturedTotal(m, now, s, k);
    OngoingSums(m.current, k, now, cpus);
    if k in m.totals {
      assert m.totals[k][..cpus] == m.totals[k];
    }
  }

  /** For every trace and every sample of it, the cumulative value is the true occupancy. */
  lemma CumulativeIsOccupancy(t: seq<Switch>, cpus: nat, now: nat, s: Sample, k: Key)
    requires WellFormed(t, cpus) && k.pid != 0 && !Exited(t, k) && now < U64
    requires forall x | x in t :: x.time <= now
    requires Captures(After(t, cpus), now, s) && Occupancy(t, cpus, k, now) < U64
    ensures k in Cumulative(s) <==> Entered(t, k)
    ensures k in Cumulative(s) ==> Cumulative(s)[k].runtime == Occupancy(t, cpus, k, now)
  {
    var m := After(t, cpus);
    AccountedIsOccupancy(t, cpus, k, now);
    PresentWhenEntered(t, cpus, k);
    forall c | 0 <= c < cpus
      ensures m.current[c].since <= now
    {
      SlotsTrack(t, cpus, c);
    }
    AccountedSplits(m, cpus, k, now);
    CumulativeIsAccounted(m, cpus, now, s, k);
  }

  /******* Consecutive samples *******/

  /** A sample taken at `now` after the switches in `trace`, and the processes known then. */
  datatype Observation = Observation(trace: seq<Switch>, now: nat, sample: Sample, known: set<Identity>)

  ghost predicate Faithful(o: Observation, cpus: nat, k: Key) {
    && WellFormed(o.trace, cpus) && !Exited(o.trace, k) && o.now < U64
    && (forall x | x in o.trace :: x.time <= o.now)
    && Captures(After(o.trace, cpus), o.now, o.sample) && Occupancy(o.trace, cpus, k, o.now) < U64
  }

  ghost predicate Follows(a: Observation, b: Observation) {
    && a.trace <= b.trace && a.now <= b.now
    && forall x | x in b.trace[|a.trace|..] :: a.now <= x.time
  }

  /** Samples of one growing trace; the processes known with each are arbitrary. */
  ghost predicate Observed(os: seq<Observation>, cpus: nat, k: Key) {
    && k.pid != 0
    && (forall o | o in os :: Faithful(o, cpus, k))
    && (forall i, j {:trigger Follows(os[i], os[j])} | 0 <= i < j < |os| :: Follows(os[i], os[j]))
  }

  /** The runtime a batch reports for a process; nothing is reported as zero. */
  ghost function RuntimeIn(p: Memory, s: Sample, ticks: nat, known: set<Identity>, k: Key): nat {
    if k in Known(s, ticks, known) && Reported(p, s, ticks, k) then ActivityOf(p, s, ticks, k).runtime else 0
  }

  /** The runtime reported with sample `i`; the processor starts with an empty memory. */
  ghost function ReportAt(os: seq<Observation>, ticks: nat, k: Key, i: nat): nat
    requires i < |os|
  {
    var p := if i == 0 then Memory(map[], {}) else Remember(os[i - 1].sample, ticks, os[i - 1].known);
    RuntimeIn(p, os[i].sample, ticks, os[i].known, k)
  }

  ghost function Reports(os: seq<Observation>, ticks: nat, k: Key): seq<nat> {
    seq(|os|, i requires 0 <= i < |os| => ReportAt(os, ticks, k, i))
  }

  ghost function Levels(os: seq<Observation>, cpus: nat, k: Key): seq<nat> {
    seq(|os|, i requires 0 <= i < |os| => OccupancyAt(os[i], cpus, k))
  }

  function Sum(ns: seq<nat>, n: nat): nat
    requires n <= |ns|
  {
    if n == 0 then 0 else Sum(ns, n - 1) + ns[n - 1]
  }

  /** The process is in the sample and in the list of known processes. */
  ghost predicate Seen(o: Observation, ticks: nat, k: Key) { Entered(o.trace, k) && IdentityOf(k, ticks) in o.known }

  /** The interval that ends with sample `i` is reported: the process is seen at both ends. */
  ghost predicate Counts(os: seq<Observation>, ticks: nat, k: Key, i: nat)
    requires i < |os|
  {
    i > 0 && Seen(os[i - 1], ticks, k) && Seen(os[i], ticks, k)
  }

  /** What the process ran in the interval that ends with sample `i`, if that is not reported. */
  ghost function MissedAt(os: seq<Observation>, cpus: nat, ticks: nat, k: Key, i: nat): nat
    requires i < |os|
  {
    if i == 0 || Counts(os, ticks, k, i) then 0
    else Without(OccupancyAt(os[i], cpus, k), OccupancyAt(os[i - 1], cpus, k))
  }

  ghost function Missed(os: seq<Observation>, cpus: nat, ticks: nat, k: Key): seq<nat> {
    seq(|os|, i requires 0 <= i < |os| => MissedAt(os, cpus, ticks, k, i))
  }

  /** The sum of the runtimes reported with all samples. */
  ghost function ReportedSum(os: seq<Observation>, ticks: nat, k: Key): nat {
    Sum(Reports(os, ticks, k), |os|)
  }

  ghost function OccupancyAt(o: Observation, cpus: nat, k: Key): nat { Occupancy(o.trace, cpus, k, o.now) }

  lemma OccupancyRises(a: Observation, b: Observation, cpus: nat, k: Key)
    requires Follows(a, b)
    ensures OccupancyAt(a, cpus, k) <= OccupancyAt(b, cpus, k)
    ensures Entered(a.trace, k) ==> Entered(b.trace, k)
  {
    var more := b.trace[|a.trace|..];
    assert b.trace == a.trace + more;
    OccupancyGrows(a.trace, more, cpus, k, a.now, b.now);
  }

  /** What the accounting needs of one sample, and of two. */
  ghost predicate ReadsRight(o: Observation, cpus: nat, ticks: nat, k: Key) {
    && (k in Known(o.sample, ticks, o.known) <==> Seen(o, ticks, k))
    && (Seen(o, ticks, k) ==> Cumulative(o.sample)[k].runtime == OccupancyAt(o, cpus, k))
  }

  ghost predicate Rises(a: Observation, b: Observation, cpus: nat, k: Key) {
    OccupancyAt(a, cpus, k) <= OccupancyAt(b, cpus, k)
  }

  ghost predicate Consistent(os: seq<Observation>, cpus: nat, ticks: nat, k: Key) {
    && (forall i {:trigger ReadsRight(os[i], cpus, ticks, k)} | 0 <= i < |os| :: ReadsRight(os[i], cpus, ticks, k))
    && (forall i, j {:trigger Rises(os[i], os[j], cpus, k)} | 0 <= i < j < |os| :: Rises(os[i], os[j], cpus, k))
  }

  lemma ObservedIsConsistent(os: seq<Observation>, cpus: nat, ticks: nat, k: Key)
    requires Observed(os, cpus, k)
    ensures Consistent(os, cpus, ticks, k)
  {
    forall i | 0 <= i < |os|
      ensures ReadsRight(os[i], cpus, ticks, k)
    {
      assert Faithful(os[i], cpus, k);
      CumulativeIsOccupancy(os[i].trace, cpus, os[i].now, os[i].sample, k);
    }
    forall i, j | 0 <= i < j < |os|
      ensures Rises(os[i], os[j], cpus, k)
    {
      assert Follows(os[i], os[j]);
      OccupancyRises(os[i], os[j], cpus, k);
    }
  }

  /** What a batch reports, given the sample before it: the gain, or nothing unless seen in both. */
  lemma ReportIsGain(a: Observation, o: Observation, cpus: nat, ticks: nat, k: Key)
    requires ReadsRight(a, cpus, ticks, k) && ReadsRight(o, cpus, ticks, k) && Rises(a, o, cpus, k)
    ensures RuntimeIn(Remember(a.sample, ticks, a.known), o.sample, ticks, o.known, k) ==
            if Seen(a, ticks, k) && Seen(o, ticks, k) then OccupancyAt(o, cpus, k) - OccupancyAt(a, cpus, k) else 0
  {
    var p := Remember(a.sample, ticks, a.known);
    if Seen(a, ticks, k) {
      assert k in p.cpu && p.cpu[k] == Cumulative(a.sample)[k];
    } else {
      assert k !in p.cpu;
    }
  }

  lemma ReportsAreGains(os: seq<Observation>, cpus: nat, ticks: nat, k: Key, i: nat)
    requires Consistent(os, cpus, ticks, k) && i < |os|
    ensures ReportAt(os, ticks, k, i) ==
            if Counts(os, ticks, k, i) then OccupancyAt(os[i], cpus, k) - OccupancyAt(os[i - 1], cpus, k) else 0
  {
    assert ReadsRight(os[i], cpus, ticks, k);
    if i > 0 {
      assert ReadsRight(os[i - 1], cpus, ticks, k);
      assert Rises(os[i - 1], os[i], cpus, k);
      ReportIsGain(os[i - 1], os[i], cpus, ticks, k);
    }
  }

  /** What the level rose by is reported or missed. */
  predicate SplitsGain(reports: seq<nat>, missed: seq<nat>, levels: seq<nat>, j: nat)
    requires j < |levels| == |reports| == |missed|
  {
    if j == 0 then reports[j] == 0 && missed[j] == 0 else levels[j - 1] + reports[j] + missed[j] == levels[j]
  }

  lemma {:induction false} GainsAddUp(reports: seq<nat>, missed: seq<nat>, levels: seq<nat>, n: nat)
    requires 0 < n <= |levels| == |reports| == |missed|
    requires forall j | 0 <= j < |levels| :: SplitsGain(reports, missed, levels, j)
    ensures levels[0] + Sum(reports, n) + Sum(missed, n) == levels[n - 1]
    decreases n
  {
    assert SplitsGain(reports, missed, levels, n - 1);
    if n > 1 {
      GainsAddUp(reports, missed, levels, n - 1);
    } else {
      assert Sum(reports, 0) == 0 && Sum(missed, 0) == 0;
    }
  }

  /** A sum does not change over zeros, and is zero only for zeros. */
  lemma {:induction false} SumOverZeros(ns: seq<nat>, a: nat, n: nat)
    requires a <= n <= |ns|
    ensures Sum(ns, a) <= Sum(ns, n)
    ensures Sum(ns, a) == Sum(ns, n) <==> forall i | a <= i < n :: ns[i] == 0
    decreases n
  {
    if a < n {
      SumOverZeros(ns, a, n - 1);
    }
  }

  lemma IntervalAddsUp(os: seq<Observation>, cpus: nat, ticks: nat, k: Key, j: nat)
    requires Consistent(os, cpus, ticks, k) && j < |os|
    ensures var r, m := ReportAt(os, ticks, k, j), MissedAt(os, cpus, ticks, k, j);
            if j == 0 then r == 0 && m == 0 else OccupancyAt(os[j - 1], cpus, k) + r + m == OccupancyAt(os[j], cpus, k)
  {
    ReportsAreGains(os, cpus, ticks, k, j);
    if j > 0 {
      assert Rises(os[j - 1], os[j], cpus, k);
    }
  }

  lemma IntervalSplits(os: seq<Observation>, cpus: nat, ticks: nat, k: Key, j: nat)
    requires Consistent(os, cpus, ticks, k) && j < |os|
    ensures SplitsGain(Reports(os, ticks, k), Missed(os, cpus, ticks, k), Levels(os, cpus, k), j)
  {
    IntervalAddsUp(os, cpus, ticks, k, j);
    assert Reports(os, ticks, k)[j] == ReportAt(os, ticks, k, j);
    assert Missed(os, cpus, ticks, k)[j] == MissedAt(os, cpus, ticks, k, j);
    assert Levels(os, cpus, k)[j] == OccupancyAt(os[j], cpus, k);
    assert j > 0 ==> Levels(os, cpus, k)[j - 1] == OccupancyAt(os[j - 1], cpus, k);
  }

  lemma {:induction false} AllSplit(os: seq<Observation>, cpus: nat, ticks: nat, k: Key)
    requires Consistent(os, cpus, ticks, k)
    ensures forall j | 0 <= j < |os| :: SplitsGain(Reports(os, ticks, k), Missed(os, cpus, ticks, k), Levels(os, cpus, k), j)
  {
    forall j | 0 <= j < |os|
      ensures SplitsGain(Reports(os, ticks, k), Missed(os, cpus, ticks, k), Levels(os, cpus, k), j)
    {
      IntervalSplits(os, cpus, ticks, k, j);
    }
  }

  lemma GainsTelescope(reports: seq<nat>, missed: seq<nat>, levels: seq<nat>, f: nat)
    requires f < |levels| == |reports| == |missed|
    requires forall j | 0 <= j < |levels| :: SplitsGain(reports, missed, levels, j)
    requires forall j | f < j < |missed| :: missed[j] == 0
    ensures levels[f] + Sum(reports, |reports|) == Sum(reports, f + 1) + levels[|levels| - 1]
  {
    GainsAddUp(reports, missed, levels, f + 1);
    GainsAddUp(reports, missed, levels, |levels|);
    SumOverZeros(missed, f + 1, |missed|);
  }

  lemma {:induction false} ConsistentAddsUp(os: seq<Observation>, cpus: nat, ticks: nat, k: Key, n: nat)
    requires Consistent(os, cpus, ticks, k) && 0 < n <= |os|
    ensures OccupancyAt(os[0], cpus, k) + Sum(Reports(os, ticks, k), n) + Sum(Missed(os, cpus, ticks, k), n)
            == OccupancyAt(os[n - 1], cpus, k)
  {
    AllSplit(os, cpus, ticks, k);
    GainsAddUp(Reports(os, ticks, k), Missed(os, cpus, ticks, k), Levels(os, cpus, k), n);
  }

  /**
   However many switches fall between samples and whichever processes are known with each, all
   that a process ran between the first and the last sample is reported once, except for the
   intervals at one end of which it was not seen.
   */
  lemma {:induction false} RuntimeIsConserved(os: seq<Observation>, cpus: nat, ticks: nat, k: Key)
    requires Observed(os, cpus, k) && os != []
    ensures forall i | 0 <= i < |os| :: ReportAt(os, ticks, k, i) ==
              if Counts(os, ticks, k, i) then OccupancyAt(os[i], cpus, k) - OccupancyAt(os[i - 1], cpus, k) else 0
    ensures OccupancyAt(os[0], cpus, k) + ReportedSum(os, ticks, k) + Sum(Missed(os, cpus, ticks, k), |os|)
            == OccupancyAt(os[|os| - 1], cpus, k)
  {
    ObservedIsConsistent(os, cpus, ticks, k);
    forall i | 0 <= i < |os|
      ensures ReportAt(os, ticks, k, i) ==
              if Counts(os, ticks, k, i) then OccupancyAt(os[i], cpus, k) - OccupancyAt(os[i - 1], cpus, k) else 0
    {
      ReportsAreGains(os, cpus, ticks, k, i);
    }
    ConsistentAddsUp(os, cpus, ticks, k, |os|);
  }

  /** The process ran in the interval before sample `i`, and that interval is not reported. */
  ghost predicate Loses(os: seq<Observation>, cpus: nat, ticks: nat, k: Key, i: nat)
    requires i < |os|
  {
    i > 0 && !Counts(os, ticks, k, i) && OccupancyAt(os[i], cpus, k) != OccupancyAt(os[i - 1], cpus, k)
  }

  /**
   The reported runtimes add up to all that the process ran since the first sample if and only
   if it did not run in any interval at one end of which it was not seen.
   */
  lemma {:induction false} SumCompleteExactlyWhen(os: seq<Observation>, cpus: nat, ticks: nat, k: Key)
    requires Observed(os, cpus, k) && os != []
    ensures OccupancyAt(os[0], cpus, k) + ReportedSum(os, ticks, k) == OccupancyAt(os[|os| - 1], cpus, k)
            <==> forall i | 0 <= i < |os| :: !Loses(os, cpus, ticks, k, i)
  {
    RuntimeIsConserved(os, cpus, ticks, k);
    ObservedIsConsistent(os, cpus, ticks, k);
    var missed := Missed(os, cpus, ticks, k);
    SumOverZeros(missed, 0, |os|);
    forall i | 0 <= i < |os|
      ensures missed[i] == 0 <==> !Loses(os, cpus, ticks, k, i)
    {
      if i > 0 {
        assert Rises(os[i - 1], os[i], cpus, k);
      }
    }
  }

  ghost predicate SeenFrom(os: seq<Observation>, ticks: nat, k: Key, f: nat) {
    f < |os| && forall i | f <= i < |os| :: Seen(os[i], ticks, k)
  }

  /**
   From any sample on from which the process is seen, the reported runtimes telescope to the
   occupancy gained since that sample.
   */
  lemma {:induction false} RuntimeTelescopes(os: seq<Observation>, cpus: nat, ticks: nat, k: Key, f: nat)
    requires Observed(os, cpus, k) && SeenFrom(os, ticks, k, f)
    ensures OccupancyAt(os[f], cpus, k) + ReportedSum(os, ticks, k)
            == Sum(Reports(os, ticks, k), f + 1) + OccupancyAt(os[|os| - 1], cpus, k)
  {
    ObservedIsConsistent(os, cpus, ticks, k);
    ConsistentTelescopes(os, cpus, ticks, k, f);
    LevelAt(os, cpus, k, f);
    LevelAt(os, cpus, k, |os| - 1);
  }

  lemma LevelAt(os: seq<Observation>, cpus: nat, k: Key, i: nat)
    requires i < |os|
    ensures Levels(os, cpus, k)[i] == OccupancyAt(os[i], cpus, k)
  {
  }

  lemma {:induction false} ConsistentTelescopes(os: seq<Observation>, cpus: nat, ticks: nat, k: Key, f: nat)
    requires Consistent(os, cpus, ticks, k) && SeenFrom(os, ticks, k, f)
    ensures var levels := Levels(os, cpus, k);
            levels[f] + ReportedSum(os, ticks, k) == Sum(Reports(os, ticks, k), f + 1) + levels[|os| - 1]
  {
    AllSplit(os, cpus, ticks, k);
    NothingMissedFrom(os, cpus, ticks, k, f);
    GainsTelescope(Reports(os, ticks, k), Missed(os, cpus, ticks, k), Levels(os, cpus, k), f);
  }

  lemma NothingMissedFrom(os: seq<Observation>, cpus: nat, ticks: nat, k: Key, f: nat)
    requires SeenFrom(os, ticks, k, f)
    ensures forall j | f < j < |os| :: Missed(os, cpus, ticks, k)[j] == 0
  {
    forall j | f < j < |os|
      ensures Missed(os, cpus, ticks, k)[j] == 0
    {
      assert Seen(os[j - 1], ticks, k) && Seen(os[j], ticks, k);
    }
  }

  /**
   For a process that appears in sample `f` and is seen from then on, what is missing since the
   first sample is exactly what it ran before it appeared.
   */
  lemma {:induction false} SumMissesOnlyTheFirstInterval(os: seq<Observation>, cpus: nat, ticks: nat, k: Key, f: nat)
    requires Observed(os, cpus, k) && SeenFrom(os, ticks, k, f) && forall i | 0 <= i < f :: !Seen(os[i], ticks, k)
    ensures OccupancyAt(os[f], cpus, k) + ReportedSum(os, ticks, k) == OccupancyAt(os[|os| - 1], cpus, k)
    ensures OccupancyAt(os[0], cpus, k) + ReportedSum(os, ticks, k) == OccupancyAt(os[|os| - 1], cpus, k)
            <==> OccupancyAt(os[f], cpus, k) == OccupancyAt(os[0], cpus, k)
  {
    RuntimeTelescopes(os, cpus, ticks, k, f);
    ObservedIsConsistent(os, cpus, ticks, k);
    NothingReportedUntil(os, cpus, ticks, k, f);
  }

  lemma {:induction false} NothingReportedUntil(os: seq<Observation>, cpus: nat, ticks: nat, k: Key, f: nat)
    requires Consistent(os, cpus, ticks, k) && f < |os| && forall i | 0 <= i < f :: !Seen(os[i], ticks, k)
    ensures Sum(Reports(os, ticks, k), f + 1) == 0
  {
    forall i | 0 <= i < f + 1
      ensures Reports(os, ticks, k)[i] == 0
    {
      ReportsAreGains(os, cpus, ticks, k, i);
    }
    SumOverZeros(Reports(os, ticks, k), 0, f + 1);
  }

  /******* An interval that is lost *******/

  /** A CPU that enters `k` at time 0 after being idle. */
  function Entering(k: Key): Switch { Switch(0, 0, Key(0, 0), k, false) }

  /** A sample before the switch, and one `d` nanoseconds after it; the process is known with both. */
  ghost function TwoSamples(k: Key, ticks: nat, d: nat): seq<Observation> {
    var known := {IdentityOf(k, ticks)};
    [Observation([], 0, Sample(0, [Empty], []), known),
     Observation([Entering(k)], d, Sample(d, [Slot(k, 0)], []), known)]
  }

  lemma TwoSamplesAreObserved(k: Key, ticks: nat, d: nat)
    requires k.pid != 0 && d < U64
    ensures Observed(TwoSamples(k, ticks, d), 1, k)
    ensures OccupancyAt(TwoSamples(k, ticks, d)[0], 1, k) == 0 && OccupancyAt(TwoSamples(k, ticks, d)[1], 1, k) == d
  {
    var os := TwoSamples(k, ticks, d);
    var t := [Entering(k)];
    OneSwitch(k, d);
    assert After([], 1) == Maps([Empty], map[]);
    NeverEnteredOccupancy([], 1, k, 0);
    assert Faithful(os[0], 1, k);
    assert Faithful(os[1], 1, k);
    assert os[1].trace[|os[0].trace|..] == t;
    assert Follows(os[0], os[1]);
  }

  lemma OneSwitch(k: Key, d: nat)
    requires k.pid != 0
    ensures var t := [Entering(k)];
            WellFormed(t, 1) && After(t, 1) == Maps([Slot(k, 0)], map[]) && Occupancy(t, 1, k, d) == d
  {
    var t := [Entering(k)];
    assert t[..0] == [];
    assert After([], 1) == Maps([Empty], map[]);
    CountSinceLast(t, 0, k, d);
    assert Occupancy(t, 1, k, d) == Occupancy(t, 0, k, d) + Count(t, 0, k, d);
  }

  /** All that a process ran before its first sample is lost, although the viewer was watching all the time. */
  lemma FirstIntervalIsLost(k: Key, ticks: nat, d: nat)
    requires k.pid != 0 && 0 < d < U64
    ensures var os := TwoSamples(k, ticks, d);
            && Observed(os, 1, k) && ReportedSum(os, ticks, k) == 0
            && OccupancyAt(os[1], 1, k) == OccupancyAt(os[0], 1, k) + d
  {
    var os := TwoSamples(k, ticks, d);
    TwoSamplesAreObserved(k, ticks, d);
    assert Entered(os[1].trace, k) by { assert Entering(k) in os[1].trace; }
    assert SeenFrom(os, ticks, k, 1);
    SumMissesOnlyTheFirstInterval(os, 1, ticks, k, 1);
  }
}
