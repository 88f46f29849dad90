/**
 User space CPU accounting: the collector of src/privileged_helper/system/sched.rs and
 `ActivityProcessor::cpu` of src/http_server/analysis/activity.rs.
 */
module CpuActivity {
  import opened SchedTrace
  import opened SchedBpf

  /** A capture of the BPF maps: every slot, and the non-zero totals of each process. */
  datatype Sample = Sample(now: nat, current: seq<Slot>, totals: seq<(Key, seq<Total>)>)

  datatype Identity = Identity(pid: nat, ticks: nat)
  datatype Activity = Activity(process: Identity, runtime: nat, switches: nat, cpus: seq<nat>)

  /** What the processor remembers between samples. */
  datatype Memory = Memory(cpu: map<Key, Total>, running: set<Key>)

  function Saturated(a: nat, b: nat): nat { if a + b < U64 then a + b else U64 - 1 }
  function Without(a: nat, b: nat): nat { if a >= b then a - b else 0 }

  function IdentityOf(k: Key, ticks: nat): Identity {
    Identity(k.pid, k.start * ticks / 1_000_000_000)
  }

  /******* Collecting *******/

  function NonZero(values: seq<Total>): seq<Total> {
    if values == [] then []
    else
      var rest := NonZero(values[1..]);
      if values[0] == Total(0, 0) then rest else [values[0]] + rest
  }

  ghost predicate Captures(m: Maps, now: nat, s: Sample) {
    && s.now == now && s.current == m.current
    && (forall i, j | 0 <= i < j < |s.totals| :: s.totals[i].0 != s.totals[j].0)
    && (forall k :: k in m.totals <==> exists i | 0 <= i < |s.totals| :: s.totals[i].0 == k)
    && (forall i | 0 <= i < |s.totals| :: s.totals[i].0 in m.totals && s.totals[i].1 == NonZero(m.totals[s.totals[i].0]))
  }

  /** A sample reads at most as many keys as the kernel's map can hold. */
  const KEY_LIMIT: nat := 65_536

  /** What holds of every sample: each entry is a key's, with its values that are not zero. */
  ghost predicate CapturesSome(m: Maps, now: nat, s: Sample) {
    && s.now == now && s.current == m.current
    && (forall i, j | 0 <= i < j < |s.totals| :: s.totals[i].0 != s.totals[j].0)
    && (forall i | 0 <= i < |s.totals| :: s.totals[i].0 in m.totals && s.totals[i].1 == NonZero(m.totals[s.totals[i].0]))
  }

  /** `collect`: the keys come in whatever order the map yields them; none is missed unless there are too many. */
  method Collect(maps: SchedMaps, now: nat) returns (s: Sample)
    requires maps.Valid()
    ensures CapturesSome(maps.Abs(), now, s)
    ensures |s.totals| == if |maps.totals| < KEY_LIMIT then |maps.totals| else KEY_LIMIT
    ensures |maps.totals| <= KEY_LIMIT ==> Captures(maps.Abs(), now, s)
  {
    var captured: seq<(Key, seq<Total>)> := [];
    var left := maps.totals.Keys;
    while left != {} && |captured| < KEY_LIMIT
      invariant left <= maps.totals.Keys && |captured| <= KEY_LIMIT && |captured| + |left| == |maps.totals|
      invariant forall i | 0 <= i < |captured| ::
                  captured[i].0 in maps.totals && captured[i].0 !in left && captured[i].1 == NonZero(maps.totals[captured[i].0])
      invariant forall i, j | 0 <= i < j < |captured| :: captured[i].0 != captured[j].0
      invariant forall k | k in maps.totals && k !in left :: exists i | 0 <= i < |captured| :: captured[i].0 == k
      decreases left
    {
      var k :| k in left;
      ghost var before := captured;
      captured := captured + [(k, NonZero(maps.totals[k]))];
      assert forall i | 0 <= i < |before| :: captured[i] == before[i];
      assert captured[|before|].0 == k;
      left := left - {k};
    }
    s := Sample(now, maps.current, captured);
  }

  /******* Accumulating *******/

  function Get<V>(m: map<Key, V>, k: Key, default: V): V { if k in m then m[k] else default }

  predicate Running(slot: Slot, now: nat) { slot.process.pid != 0 && slot.since <= now }

  /** The CPUs each process runs on, from the slots before `n`. */
  function RunningCpus(current: seq<Slot>, now: nat, n: nat): map<Key, seq<nat>>
    requires n <= |current|
  {
    if n == 0 then map[]
    else
      var m, slot := RunningCpus(current, now, n - 1), current[n - 1];
      if Running(slot, now) then m[slot.process := Get(m, slot.process, []) + [n - 1]] else m
  }

  /** The running intervals of each process, from the slots before `n`. */
  function Ongoing(current: seq<Slot>, now: nat, n: nat): map<Key, nat>
    requires n <= |current|
  {
    if n == 0 then map[]
    else
      var m, slot := Ongoing(current, now, n - 1), current[n - 1];
      if Running(slot, now) then m[slot.process := (Get(m, slot.process, 0) + (now - slot.since)) % U64] else m
  }

  function AddAll(t: Total, values: seq<Total>): Total
    decreases values
  {
    if values == [] then t
    else AddAll(Total(Saturated(t.runtime, values[0].runtime), Saturated(t.switches, values[0].switches)), values[1..])
  }

  /** The totals of each process, from the entries before `n`. */
  function Finished(totals: seq<(Key, seq<Total>)>, n: nat): map<Key, Total>
    requires n <= |totals|
  {
    if n == 0 then map[]
    else
      var m, (k, values) := Finished(totals, n - 1), totals[n - 1];
      m[k := AddAll(Get(m, k, Total(0, 0)), values)]
  }

  function Combined(finished: map<Key, Total>, ongoing: map<Key, nat>): map<Key, Total> {
    map k | k in finished.Keys + ongoing.Keys ::
      var t := Get(finished, k, Total(0, 0));
      Total(if k in ongoing then Saturated(t.runtime, ongoing[k]) else t.runtime, t.switches)
  }

  function Cumulative(s: Sample): map<Key, Total> {
    Combined(Finished(s.totals, |s.totals|), Ongoing(s.current, s.now, |s.current|))
  }

  function CpusOf(s: Sample, k: Key): seq<nat> { Get(RunningCpus(s.current, s.now, |s.current|), k, []) }

  function ActivityOf(p: Memory, s: Sample, ticks: nat, k: Key): Activity
    requires k in Cumulative(s)
  {
    var total := Cumulative(s)[k];
    var previous := Get(p.cpu, k, total);
    Activity(IdentityOf(k, ticks), Without(total.runtime, previous.runtime),
             Without(total.switches, previous.switches), CpusOf(s, k))
  }

  predicate Reported(p: Memory, s: Sample, ticks: nat, k: Key)
    requires k in Cumulative(s)
  {
    var a := ActivityOf(p, s, ticks, k);
    a.runtime > 0 || a.switches > 0 || a.cpus != [] || k in p.running
  }

  ghost function Known(s: Sample, ticks: nat, known: set<Identity>): set<Key> {
    set k | k in Cumulative(s) && IdentityOf(k, ticks) in known
  }

  /** The memory after a sample, without the processes still to be visited. */
  ghost function RememberExcept(s: Sample, ticks: nat, known: set<Identity>, left: set<Key>): Memory {
    Memory(map k | k in Known(s, ticks, known) - left :: Cumulative(s)[k],
           set k | k in Known(s, ticks, known) - left && CpusOf(s, k) != [])
  }

  ghost function Remember(s: Sample, ticks: nat, known: set<Identity>): Memory {
    RememberExcept(s, ticks, known, {})
  }

  /** `result` reports the visited processes that are known and active, each once. */
  ghost predicate Lists(p: Memory, s: Sample, ticks: nat, known: set<Identity>, left: set<Key>,
                        order: seq<Key>, result: seq<Activity>) {
    && (forall i, j | 0 <= i < j < |order| :: order[i] != order[j])
    && (forall k :: k in order <==> k in Known(s, ticks, known) - left && Reported(p, s, ticks, k))
    && |result| == |order|
    && (forall i | 0 <= i < |order| :: order[i] in Cumulative(s) && result[i] == ActivityOf(p, s, ticks, order[i]))
  }

  lemma ListsStep(p: Memory, s: Sample, ticks: nat, known: set<Identity>, left: set<Key>,
                  order: seq<Key>, result: seq<Activity>, k: Key)
    requires Lists(p, s, ticks, known, left, order, result) && k in left && k in Cumulative(s)
    ensures if IdentityOf(k, ticks) in known && Reported(p, s, ticks, k)
            then Lists(p, s, ticks, known, left - {k}, order + [k], result + [ActivityOf(p, s, ticks, k)])
            else Lists(p, s, ticks, known, left - {k}, order, result)
  {
    assert k !in order;
  }

  lemma RememberStep(s: Sample, ticks: nat, known: set<Identity>, left: set<Key>, k: Key)
    requires k in left && k in Cumulative(s)
    ensures var m := RememberExcept(s, ticks, known, left);
            RememberExcept(s, ticks, known, left - {k}) ==
            if IdentityOf(k, ticks) !in known then m
            else Memory(m.cpu[k := Cumulative(s)[k]], if CpusOf(s, k) != [] then m.running + {k} else m.running)
  {
    var m, m' := RememberExcept(s, ticks, known, left), RememberExcept(s, ticks, known, left - {k});
    assert k in Known(s, ticks, known) <==> IdentityOf(k, ticks) in known;
    assert forall x :: x in m'.running <==> x in m.running || (x == k && k in Known(s, ticks, known) && CpusOf(s, k) != []);
  }

  class ActivityProcessor {
    var previousCpu: map<Key, Total>
    var previousRunning: set<Key>

    ghost function Abs(): Memory
      reads this
    {
      Memory(previousCpu, previousRunning)
    }

    constructor ()
      ensures Abs() == Memory(map[], {})
    {
      previousCpu, previousRunning := map[], {};
    }

    method Accumulate(s: Sample) returns (running: map<Key, seq<nat>>, cumulative: map<Key, Total>)
      ensures running == RunningCpus(s.current, s.now, |s.current|) && cumulative == Cumulative(s)
    {
      running := map[];
      var ongoing: map<Key, nat> := map[];
      for cpu := 0 to |s.current|
        invariant running == RunningCpus(s.current, s.now, cpu) && ongoing == Ongoing(s.current, s.now, cpu)
      {
        var slot := s.current[cpu];
        if slot.process.pid == 0 || slot.since > s.now {
          continue;
        }
        running := running[slot.process := Get(running, slot.process, []) + [cpu]];
        ongoing := ongoing[slot.process := (Get(ongoing, slot.process, 0) + (s.now - slot.since)) % U64];
      }
      cumulative := map[];
      for i := 0 to |s.totals|
        invariant cumulative == Finished(s.totals, i)
      {
        var (k, values) := s.totals[i];
        var value := Get(cumulative, k, Total(0, 0));
        ghost var start := value;
        for j := 0 to |values|
          invariant AddAll(value, values[j..]) == AddAll(start, values)
        {
          assert values[j..][1..] == values[j + 1..];
          value := Total(Saturated(value.runtime, values[j].runtime), Saturated(value.switches, values[j].switches));
        }
        cumulative := cumulative[k := value];
      }
      cumulative := MergeOngoing(cumulative, ongoing);
    }

    method MergeOngoing(finished: map<Key, Total>, ongoing: map<Key, nat>) returns (cumulative: map<Key, Total>)
      ensures cumulative == Combined(finished, ongoing)
    {
      cumulative := finished;
      var left := ongoing.Keys;
      while left != {}
        invariant left <= ongoing.Keys && cumulative.Keys == finished.Keys + (ongoing.Keys - left)
        invariant forall k | k in cumulative ::
                    cumulative[k] == if k in left then finished[k] else Combined(finished, ongoing)[k]
        decreases left
      {
        var k :| k in left;
        var value := Get(cumulative, k, Total(0, 0));
        cumulative := cumulative[k := Total(Saturated(value.runtime, ongoing[k]), value.switches)];
        left := left - {k};
      }
      assert cumulative.Keys == Combined(finished, ongoing).Keys;
    }

    /** `cpu`: `order` is the order in which the hash map yields the reported processes. */
    method Process(s: Sample, ticks: nat, known: set<Identity>) returns (result: seq<Activity>, ghost order: seq<Key>)
      modifies this
      ensures Abs() == Remember(s, ticks, known)
      ensures Lists(old(Abs()), s, ticks, known, {}, order, result)
    {
      var running, cumulative := Accumulate(s);
      result, order := [], [];
      var nextCpu: map<Key, Total> := map[];
      var nextRunning: set<Key> := {};
      var left := cumulative.Keys;
      ghost var was := Abs();
      while left != {}
        invariant left <= cumulative.Keys && Abs() == was
        invariant Lists(was, s, ticks, known, left, order, result)
        invariant Memory(nextCpu, nextRunning) == RememberExcept(s, ticks, known, left)
        decreases left
      {
        var key :| key in left;
        ListsStep(was, s, ticks, known, left, order, result, key);
        RememberStep(s, ticks, known, left, key);
        left := left - {key};
        var identity := IdentityOf(key, ticks);
        if identity in known {
          var total := cumulative[key];
          var previous := Get(previousCpu, key, total);
          var runtime, switches := Without(total.runtime, previous.runtime), Without(total.switches, previous.switches);
          var cpus := Get(running, key, []);
          if cpus != [] {
            nextRunning := nextRunning + {key};
          }
          if runtime > 0 || switches > 0 || cpus != [] || key in previousRunning {
            result, order := result + [Activity(identity, runtime, switches, cpus)], order + [key];
          }
          nextCpu := nextCpu[key := total];
        }
      }
      previousCpu, previousRunning := nextCpu, nextRunning;
    }
  }
}
