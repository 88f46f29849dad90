/**
 The snapshot stream: `SnapshotEncoder` of src/http_server/delivery.rs and the client that
 applies its payloads, `mergeSnapshot` of web/src/space/snapshot-merge.ts.
 */
module SnapshotStream {
  import opened Basics
  import opened KeyedEntries

  const REFRESH_MS: nat := 60_000

  datatype Process = Process(identity: string, maps: seq<Entry<int>>, epoch: nat, rest: string)

  /** `other` stands for everything that every payload carries whole. */
  datatype Snapshot = Snapshot(processes: seq<Process>, fd: seq<Entry<string>>,
                               rdma: seq<Entry<string>>, handles: seq<Entry<string>>, other: string)

  datatype List<+K> = Whole(entries: seq<Entry<K>>) | Delta(change: Change<K>)
  datatype Maps = Omitted | Sent(list: List<int>)
  datatype ProcessUpdate = ProcessUpdate(identity: string, maps: Maps, epoch: nat, rest: string)

  datatype Update = Update(base: Option<nat>, sequence: nat, processes: seq<ProcessUpdate>,
                           fd: List<string>, rdma: List<string>, handles: List<string>, other: string)

  /** The size comparisons of one call, for map lists and for relation lists. */
  datatype Sizes = Sizes(maps: (Change<int>, seq<Entry<int>>) -> bool,
                         relations: (Change<string>, seq<Entry<string>>) -> bool)

  datatype Encoder = Encoder(previous: Option<Snapshot>, lastFull: Option<nat>,
                             epochs: map<string, nat>, sequence: nat)

  const Fresh := Encoder(None, None, map[], 0)

  /******* The encoder *******/

  /** The process of the previous snapshot under an identity: a later duplicate wins. */
  function FindProcess(ps: seq<Process>, id: string): (r: Option<Process>)
    ensures r.Some? ==> r.value.identity == id && r.value in ps
    ensures r.None? ==> forall p | p in ps :: p.identity != id
  {
    if ps == [] then None
    else if ps[|ps| - 1].identity == id then Some(ps[|ps| - 1])
    else FindProcess(ps[..|ps| - 1], id)
  }

  predicate IsFull(e: Encoder, force: bool, now: nat) {
    force || e.lastFull.None? || now >= e.lastFull.value + REFRESH_MS
  }

  function ProcessesBefore(e: Encoder): seq<Process> {
    if e.previous.None? then [] else e.previous.value.processes
  }

  /** Unchanged maps are omitted, changed ones sent as a delta when that is smaller. */
  function MapsUpdate(e: Encoder, full: bool, sizes: Sizes, p: Process): Maps {
    var before := FindProcess(ProcessesBefore(e), p.identity);
    if full || before.None? then Sent(Whole(p.maps))
    else if before.value.maps == p.maps then Omitted
    else match BuildDelta(sizes.maps, before.value.maps, p.maps)
      case Some(change) => Sent(Delta(change))
      case None => Sent(Whole(p.maps))
  }

  predicate EpochsCover(e: Encoder) {
    e.epochs.Keys == (set p | p in ProcessesBefore(e) :: p.identity)
  }

  function UpdateOf(e: Encoder, full: bool, sizes: Sizes, p: Process): ProcessUpdate
    requires EpochsCover(e)
  {
    var maps := MapsUpdate(e, full, sizes, p);
    ProcessUpdate(p.identity, maps, if maps.Omitted? then e.epochs[p.identity] else p.epoch, p.rest)
  }

  function ListUpdate(full: bool, sizes: Sizes, before: seq<Entry<string>>, now: seq<Entry<string>>): List<string> {
    if full then Whole(now)
    else match BuildDelta(sizes.relations, before, now)
      case Some(change) => Delta(change)
      case None => Whole(now)
  }

  function Updates(e: Encoder, full: bool, sizes: Sizes, ps: seq<Process>): (r: seq<ProcessUpdate>)
    requires EpochsCover(e)
    ensures |r| == |ps| && forall i | 0 <= i < |ps| :: r[i] == UpdateOf(e, full, sizes, ps[i])
  {
    seq(|ps|, i requires 0 <= i < |ps| => UpdateOf(e, full, sizes, ps[i]))
  }

  function EpochTable(us: seq<ProcessUpdate>): (m: map<string, nat>)
    ensures m.Keys == set u | u in us :: u.identity
  {
    if us == [] then map[]
    else
      var front, last := us[..|us| - 1], us[|us| - 1];
      assert us == front + [last];
      EpochTable(front)[last.identity := last.epoch]
  }

  function Payload(e: Encoder, full: bool, sizes: Sizes, s: Snapshot): Update
    requires EpochsCover(e)
  {
    var base := if e.previous.None? then Snapshot([], [], [], [], "") else e.previous.value;
    Update(if full then None else Some(e.sequence), e.sequence + 1,
           Updates(e, full, sizes, s.processes),
           ListUpdate(full, sizes, base.fd, s.fd),
           ListUpdate(full, sizes, base.rdma, s.rdma),
           ListUpdate(full, sizes, base.handles, s.handles), s.other)
  }

  /** The state after a call whose serialization succeeded. */
  function Advance(e: Encoder, full: bool, now: nat, sizes: Sizes, s: Snapshot): Encoder
    requires EpochsCover(e)
  {
    Encoder(Some(s), if full then Some(now) else e.lastFull,
            EpochTable(Updates(e, full, sizes, s.processes)), e.sequence + 1)
  }

  /** After a failed serialization only the sequence number has moved. */
  function Skip(e: Encoder): Encoder {
    e.(sequence := e.sequence + 1)
  }

  ghost predicate ValidEncoder(e: Encoder) {
    EpochsCover(e) && (e.lastFull.None? <==> e.previous.None?)
  }

  class SnapshotEncoder {
    var previous: Option<Snapshot>
    var lastFull: Option<nat>
    var epochs: map<string, nat>
    var sequence: nat

    ghost function Abs(): Encoder
      reads this
    {
      Encoder(previous, lastFull, epochs, sequence)
    }

    ghost predicate Valid()
      reads this
    {
      ValidEncoder(Abs())
    }

    constructor ()
      ensures Valid() && Abs() == Fresh
    {
      previous, lastFull, epochs, sequence := None, None, map[], 0;
    }

    /** The loop body of `encode`; `epochs` is indexed without a check. */
    method EncodeProcess(p: Process, base: seq<Process>, full: bool, sizes: Sizes) returns (u: ProcessUpdate)
      requires Valid() && base == ProcessesBefore(Abs())
      ensures u == UpdateOf(Abs(), full, sizes, p)
    {
      var before := FindProcess(base, p.identity);
      var maps, epoch := Sent(Whole(p.maps)), p.epoch;
      if !full && before.Some? {
        if before.value.maps == p.maps {
          maps, epoch := Omitted, epochs[p.identity];
        } else {
          var change := BuildDelta(sizes.maps, before.value.maps, p.maps);
          if change.Some? {
            maps := Sent(Delta(change.value));
          }
        }
      }
      u := ProcessUpdate(p.identity, maps, epoch, p.rest);
    }

    /** The loop of `encode`: the process updates and the epochs the client will then hold. */
    method EncodeProcesses(ps: seq<Process>, base: seq<Process>, full: bool, sizes: Sizes)
        returns (updates: seq<ProcessUpdate>, next: map<string, nat>)
      requires Valid() && base == ProcessesBefore(Abs())
      ensures updates == Updates(Abs(), full, sizes, ps) && next == EpochTable(updates)
    {
      updates, next := [], map[];
      ghost var spec := Updates(Abs(), full, sizes, ps);
      var i := 0;
      while i < |ps|
        invariant 0 <= i <= |ps|
        invariant updates == spec[..i] && next == EpochTable(updates)
      {
        var u := EncodeProcess(ps[i], base, full, sizes);
        EpochTableGrows(updates, u);
        assert spec[..i + 1] == spec[..i] + [u];
        next := next[u.identity := u.epoch];
        updates := updates + [u];
        i := i + 1;
      }
      assert spec[..i] == spec;
    }

    /** One call of `encode`.  `serializes` is the outcome of turning the payload into text. */
    method Encode(snapshot: Snapshot, force: bool, now: nat, sizes: Sizes, serializes: bool)
        returns (r: Option<Update>)
      requires Valid()
      modifies this
      ensures Valid()
      ensures r == if serializes then Some(Payload(old(Abs()), IsFull(old(Abs()), force, now), sizes, snapshot)) else None
      ensures Abs() == if serializes then Advance(old(Abs()), IsFull(old(Abs()), force, now), now, sizes, snapshot)
                       else Skip(old(Abs()))
    {
      var full := force || lastFull.None? || now >= lastFull.value + REFRESH_MS;
      var base := if previous.None? then Snapshot([], [], [], [], "") else previous.value;
      ghost var e := Abs();
      var updates, next := EncodeProcesses(snapshot.processes, base.processes, full, sizes);
      EpochTableCovers(e, full, sizes, snapshot.processes);
      var fd := ListUpdate(full, sizes, base.fd, snapshot.fd);
      var rdma := ListUpdate(full, sizes, base.rdma, snapshot.rdma);
      var handles := ListUpdate(full, sizes, base.handles, snapshot.handles);
      sequence := sequence + 1;
      if !serializes {
        return None;
      }
      r := Some(Update(if full then None else Some(sequence - 1), sequence, updates, fd, rdma, handles, snapshot.other));
      previous, epochs := Some(snapshot), next;
      if full {
        lastFull := Some(now);
      }
    }
  }

  lemma EpochTableGrows(us: seq<ProcessUpdate>, u: ProcessUpdate)
    ensures EpochTable(us + [u]) == EpochTable(us)[u.identity := u.epoch]
  {
    assert (us + [u])[..|us|] == us;
  }

  lemma EpochTableCovers(e: Encoder, full: bool, sizes: Sizes, ps: seq<Process>)
    requires EpochsCover(e)
    ensures EpochTable(Updates(e, full, sizes, ps)).Keys == set p | p in ps :: p.identity
  {
    var us := Updates(e, full, sizes, ps);
    forall id
      ensures id in EpochTable(us).Keys <==> id in (set p | p in ps :: p.identity)
    {
      if id in EpochTable(us).Keys {
        var u :| u in us && u.identity == id;
        var i :| 0 <= i < |us| && us[i] == u;
        assert ps[i].identity == id;
      }
      if p :| p in ps && p.identity == id {
        var i :| 0 <= i < |ps| && ps[i] == p;
        assert us[i].identity == id;
      }
    }
  }

  /******* The client *******/

  /** What the client shows; `sequence` is absent before the first payload. */
  datatype View = View(sequence: Option<nat>, snapshot: Snapshot)

  function MergeList(full: bool, held: seq<Entry<string>>, u: List<string>): seq<Entry<string>> {
    match u
    case Whole(entries) => entries
    case Delta(change) => Apply(if full then [] else held, change)
  }

  /** Fails without a process to apply a map delta to. */
  function MergeProcess(full: bool, known: seq<Process>, u: ProcessUpdate): Option<Process> {
    var held := if full then None else FindProcess(known, u.identity);
    match u.maps
    case Sent(Whole(maps)) => Some(Process(u.identity, maps, u.epoch, u.rest))
    case Sent(Delta(change)) =>
      if held.None? then None
      else Some(Process(u.identity, Sorted(Apply(held.value.maps, change)), u.epoch, u.rest))
    case Omitted =>
      Some(match held
           case None => Process(u.identity, [], 0, u.rest)
           case Some(p) => Process(u.identity, p.maps, p.epoch, u.rest))
  }

  function MergeProcesses(full: bool, known: seq<Process>, us: seq<ProcessUpdate>): Option<seq<Process>> {
    if us == [] then Some([])
    else
      var front := MergeProcesses(full, known, us[..|us| - 1]);
      var last := MergeProcess(full, known, us[|us| - 1]);
      if front.None? || last.None? then None else Some(front.value + [last.value])
  }

  /** `mergeSnapshot`: a delta is refused unless its base is the sequence the client holds. */
  function Merge(v: View, u: Update): Option<View> {
    var full := u.base.None?;
    if !full && v.sequence != u.base then None
    else
      match MergeProcesses(full, v.snapshot.processes, u.processes)
      case None => None
      case Some(ps) =>
        Some(View(Some(u.sequence),
                  Snapshot(ps, MergeList(full, v.snapshot.fd, u.fd), MergeList(full, v.snapshot.rdma, u.rdma),
                           MergeList(full, v.snapshot.handles, u.handles), u.other)))
  }

  /******* Agreement *******/

  ghost predicate UniqueProcesses(ps: seq<Process>) {
    forall i, j | 0 <= i < j < |ps| :: ps[i].identity != ps[j].identity
  }

  /** Identities, map starts and relation ids occur once. */
  ghost predicate ValidSnapshot(s: Snapshot) {
    && UniqueProcesses(s.processes)
    && (forall p | p in s.processes :: Unique(p.maps))
    && Unique(s.fd) && Unique(s.rdma) && Unique(s.handles)
  }

  /** The same maps under the same starts, and the same list when the snapshot lists them in order. */
  ghost predicate MapsAgree(held: seq<Entry<int>>, maps: seq<Entry<int>>) {
    Unique(held) && Same(held, maps) && (Ascending(maps) ==> held == maps)
  }

  ghost predicate ProcessAgrees(held: Process, p: Process, epochs: map<string, nat>) {
    && held.identity == p.identity && held.rest == p.rest
    && MapsAgree(held.maps, p.maps)
    && p.identity in epochs && held.epoch == epochs[p.identity]
  }

  ghost predicate ListAgrees(held: seq<Entry<string>>, s: seq<Entry<string>>) {
    Unique(held) && Same(held, s)
  }

  /** The client holds the encoder's baseline. */
  ghost predicate InStep(e: Encoder, v: View) {
    && ValidEncoder(e) && e.previous.Some? && ValidSnapshot(e.previous.value)
    && v.sequence == Some(e.sequence)
    && var s := e.previous.value;
    && |v.snapshot.processes| == |s.processes|
    && (forall i | 0 <= i < |s.processes| :: ProcessAgrees(v.snapshot.processes[i], s.processes[i], e.epochs))
    && ListAgrees(v.snapshot.fd, s.fd)
    && ListAgrees(v.snapshot.rdma, s.rdma)
    && ListAgrees(v.snapshot.handles, s.handles)
    && v.snapshot.other == s.other
  }

  lemma {:induction false} FindUniqueProcess(ps: seq<Process>, i: nat)
    requires UniqueProcesses(ps) && i < |ps|
    ensures FindProcess(ps, ps[i].identity) == Some(ps[i])
    decreases |ps|
  {
    if i < |ps| - 1 {
      FindUniqueProcess(ps[..|ps| - 1], i);
    }
  }

  /** What the client finds under an identity is what the encoder compares with. */
  lemma HeldProcess(e: Encoder, v: View, id: string)
    requires InStep(e, v)
    ensures var held, p := FindProcess(v.snapshot.processes, id), FindProcess(ProcessesBefore(e), id);
            (held.None? <==> p.None?) && (p.Some? ==> ProcessAgrees(held.value, p.value, e.epochs))
  {
    var hs, ps := v.snapshot.processes, ProcessesBefore(e);
    assert UniqueProcesses(hs);
    if FindProcess(ps, id).Some? {
      var i :| 0 <= i < |ps| && ps[i] == FindProcess(ps, id).value;
      FindUniqueProcess(ps, i);
      FindUniqueProcess(hs, i);
    }
  }

  lemma MapsTransfer(held: seq<Entry<int>>, before: seq<Entry<int>>, maps: seq<Entry<int>>)
    requires MapsAgree(held, before) && Unique(maps)
    ensures MapsAgree(Sorted(Apply(held, Change(Upserts(before, maps), Removals(before, maps)))), maps)
  {
    var applied := Apply(held, Change(Upserts(before, maps), Removals(before, maps)));
    DeltaTransfers(held, before, maps);
    SortedSame(applied);
    if Ascending(maps) {
      SortedKeeps(applied);
      SameIsPermutation(applied, maps);
      AscendingDetermined(Sorted(applied), maps);
    }
  }

  lemma ListTransfer(full: bool, sizes: Sizes, held: seq<Entry<string>>, before: seq<Entry<string>>, now: seq<Entry<string>>)
    requires Unique(now) && (!full ==> ListAgrees(held, before))
    ensures ListAgrees(MergeList(full, held, ListUpdate(full, sizes, before, now)), now)
  {
    if !full {
      DeltaTransfers(held, before, now);
    }
  }

  /** The process the client must hold after an update, up to its epoch. */
  ghost predicate UpdateArrives(held: Option<Process>, p: Process, u: ProcessUpdate) {
    held.Some? && held.value.identity == p.identity && held.value.rest == p.rest
    && MapsAgree(held.value.maps, p.maps) && held.value.epoch == u.epoch
  }

  lemma DeltaProcessTransfer(e: Encoder, known: seq<Process>, sizes: Sizes, p: Process)
    requires EpochsCover(e) && Unique(p.maps)
    requires var held, before := FindProcess(known, p.identity), FindProcess(ProcessesBefore(e), p.identity);
             (held.None? <==> before.None?) && (held.Some? ==> ProcessAgrees(held.value, before.value, e.epochs))
    ensures UpdateArrives(MergeProcess(false, known, UpdateOf(e, false, sizes, p)), p, UpdateOf(e, false, sizes, p))
  {
    var held, before := FindProcess(known, p.identity), FindProcess(ProcessesBefore(e), p.identity);
    if before.Some? && before.value.maps != p.maps {
      MapsTransfer(held.value.maps, before.value.maps, p.maps);
    }
  }

  lemma ProcessTransfer(e: Encoder, v: View, full: bool, sizes: Sizes, p: Process)
    requires EpochsCover(e) && (!full ==> InStep(e, v)) && Unique(p.maps)
    ensures UpdateArrives(MergeProcess(full, v.snapshot.processes, UpdateOf(e, full, sizes, p)), p, UpdateOf(e, full, sizes, p))
  {
    if !full {
      HeldProcess(e, v, p.identity);
      DeltaProcessTransfer(e, v.snapshot.processes, sizes, p);
    }
  }

  lemma {:induction false} ProcessesTransfer(e: Encoder, v: View, full: bool, sizes: Sizes, ps: seq<Process>)
    requires EpochsCover(e) && (!full ==> InStep(e, v))
    requires forall p | p in ps :: Unique(p.maps)
    ensures var us := Updates(e, full, sizes, ps);
            var hs := MergeProcesses(full, v.snapshot.processes, us);
            hs.Some? && |hs.value| == |ps| &&
            forall i | 0 <= i < |ps| :: UpdateArrives(Some(hs.value[i]), ps[i], us[i])
    decreases |ps|
  {
    if ps != [] {
      var front, last := ps[..|ps| - 1], ps[|ps| - 1];
      var us := Updates(e, full, sizes, ps);
      var known := v.snapshot.processes;
      assert us[..|us| - 1] == Updates(e, full, sizes, front);
      ProcessesTransfer(e, v, full, sizes, front);
      ProcessTransfer(e, v, full, sizes, last);
      var hs := MergeProcesses(full, known, Updates(e, full, sizes, front)).value;
      var h := MergeProcess(full, known, us[|us| - 1]).value;
      assert MergeProcesses(full, known, us) == Some(hs + [h]);
      forall i | 0 <= i < |ps|
        ensures UpdateArrives(Some((hs + [h])[i]), ps[i], us[i])
      {
        if i < |front| {
          assert UpdateArrives(Some(hs[i]), front[i], Updates(e, full, sizes, front)[i]);
        }
      }
    }
  }

  lemma {:induction false} EpochTableFinds(us: seq<ProcessUpdate>, i: nat)
    requires i < |us| && forall j, k | 0 <= j < k < |us| :: us[j].identity != us[k].identity
    ensures us[i].identity in EpochTable(us) && EpochTable(us)[us[i].identity] == us[i].epoch
    decreases |us|
  {
    if i < |us| - 1 {
      EpochTableFinds(us[..|us| - 1], i);
    }
  }

  /**
   One call keeps the client in step.  A full payload brings any client into step, whatever
   it held before.
   */
  lemma CallKeepsInStep(e: Encoder, v: View, full: bool, now: nat, sizes: Sizes, s: Snapshot)
    requires ValidEncoder(e) && ValidSnapshot(s) && (!full ==> InStep(e, v))
    ensures var next := Merge(v, Payload(e, full, sizes, s));
            next.Some? && InStep(Advance(e, full, now, sizes, s), next.value)
  {
    var base := if e.previous.None? then Snapshot([], [], [], [], "") else e.previous.value;
    var us := Updates(e, full, sizes, s.processes);
    ProcessesTransfer(e, v, full, sizes, s.processes);
    ListTransfer(full, sizes, v.snapshot.fd, base.fd, s.fd);
    ListTransfer(full, sizes, v.snapshot.rdma, base.rdma, s.rdma);
    ListTransfer(full, sizes, v.snapshot.handles, base.handles, s.handles);
    EpochTableCovers(e, full, sizes, s.processes);
    ProcessesAgree(us, s.processes, MergeProcesses(full, v.snapshot.processes, us).value);
  }

  /** What arrives agrees with the snapshot and with the epochs sent. */
  lemma {:induction false} ProcessesAgree(us: seq<ProcessUpdate>, ps: seq<Process>, hs: seq<Process>)
    requires |us| == |ps| == |hs| && UniqueProcesses(ps) && (forall i | 0 <= i < |ps| :: us[i].identity == ps[i].identity)
    requires forall i | 0 <= i < |ps| :: UpdateArrives(Some(hs[i]), ps[i], us[i])
    ensures forall i | 0 <= i < |ps| :: ProcessAgrees(hs[i], ps[i], EpochTable(us))
  {
    forall i | 0 <= i < |ps|
      ensures ProcessAgrees(hs[i], ps[i], EpochTable(us))
    {
      EpochTableFinds(us, i);
    }
  }

  /******* Whole runs *******/

  datatype Call = Call(snapshot: Snapshot, force: bool, now: nat, sizes: Sizes, serializes: bool)

  function Step(e: Encoder, c: Call): Encoder
    requires EpochsCover(e)
  {
    if c.serializes then Advance(e, IsFull(e, c.force, c.now), c.now, c.sizes, c.snapshot) else Skip(e)
  }

  lemma StepIsValid(e: Encoder, c: Call)
    requires ValidEncoder(e)
    ensures ValidEncoder(Step(e, c))
  {
    EpochTableCovers(e, IsFull(e, c.force, c.now), c.sizes, c.snapshot.processes);
  }

  function Run(e: Encoder, calls: seq<Call>): Encoder
    requires ValidEncoder(e)
    ensures ValidEncoder(Run(e, calls))
    decreases |calls|
  {
    if calls == [] then e
    else
      StepIsValid(e, calls[0]);
      Run(Step(e, calls[0]), calls[1..])
  }

  /** The client's view after each delivered payload in turn, unless one is refused. */
  function Watch(e: Encoder, v: View, calls: seq<Call>): Option<View>
    requires ValidEncoder(e)
    decreases |calls|
  {
    if calls == [] then Some(v)
    else
      var c := calls[0];
      StepIsValid(e, c);
      var next := if c.serializes then Merge(v, Payload(e, IsFull(e, c.force, c.now), c.sizes, c.snapshot)) else Some(v);
      if next.None? then None else Watch(Step(e, c), next.value, calls[1..])
  }

  ghost predicate GoodCalls(calls: seq<Call>) {
    forall c | c in calls :: c.serializes && ValidSnapshot(c.snapshot)
  }

  lemma {:induction false} RunStaysInStep(e: Encoder, v: View, calls: seq<Call>)
    requires ValidEncoder(e) && GoodCalls(calls) && (e.previous.None? || InStep(e, v))
    requires calls != []
    ensures Watch(e, v, calls).Some? && InStep(Run(e, calls), Watch(e, v, calls).value)
    ensures Run(e, calls).previous == Some(calls[|calls| - 1].snapshot)
    decreases |calls|
  {
    var c := calls[0];
    StepInStep(e, v, c);
    if |calls| > 1 {
      var next := Merge(v, Payload(e, IsFull(e, c.force, c.now), c.sizes, c.snapshot)).value;
      RunStaysInStep(Step(e, c), next, calls[1..]);
    }
  }

  lemma StepInStep(e: Encoder, v: View, c: Call)
    requires ValidEncoder(e) && c.serializes && ValidSnapshot(c.snapshot) && (e.previous.None? || InStep(e, v))
    ensures var next := Merge(v, Payload(e, IsFull(e, c.force, c.now), c.sizes, c.snapshot));
            next.Some? && InStep(Step(e, c), next.value)
  {
    CallKeepsInStep(e, v, IsFull(e, c.force, c.now), c.now, c.sizes, c.snapshot);
    StepIsValid(e, c);
  }

  /**
   From the first call on, whatever the mix of forced and periodic full payloads and of
   deltas and replacements, no payload is refused, and the client ends up with the latest
   snapshot: the same processes with the same maps, and the same relations and handles.
   */
  lemma StreamConverges(v: View, calls: seq<Call>)
    requires GoodCalls(calls) && calls != []
    ensures var seen := Watch(Fresh, v, calls);
            && seen.Some?
            && seen.value.sequence == Some(Run(Fresh, calls).sequence)
            && var held, s := seen.value.snapshot, calls[|calls| - 1].snapshot;
            && |held.processes| == |s.processes|
            && (forall i | 0 <= i < |s.processes| ::
                  held.processes[i].identity == s.processes[i].identity &&
                  held.processes[i].rest == s.processes[i].rest &&
                  multiset(held.processes[i].maps) == multiset(s.processes[i].maps) &&
                  (Ascending(s.processes[i].maps) ==> held.processes[i].maps == s.processes[i].maps))
            && multiset(held.fd) == multiset(s.fd) && multiset(held.rdma) == multiset(s.rdma)
            && multiset(held.handles) == multiset(s.handles) && held.other == s.other
  {
    RunStaysInStep(Fresh, v, calls);
    var held, s := Watch(Fresh, v, calls).value.snapshot, calls[|calls| - 1].snapshot;
    assert s == Run(Fresh, calls).previous.value;
    SameIsPermutation(held.fd, s.fd);
    SameIsPermutation(held.rdma, s.rdma);
    SameIsPermutation(held.handles, s.handles);
    forall i | 0 <= i < |s.processes|
      ensures multiset(held.processes[i].maps) == multiset(s.processes[i].maps)
    {
      assert ProcessAgrees(held.processes[i], s.processes[i], Run(Fresh, calls).epochs);
      SameIsPermutation(held.processes[i].maps, s.processes[i].maps);
    }
  }

  /** A full payload resynchronises a client from any view and any encoder state. */
  lemma FullResynchronises(e: Encoder, v: View, now: nat, sizes: Sizes, s: Snapshot)
    requires ValidEncoder(e) && ValidSnapshot(s)
    ensures var next := Merge(v, Payload(e, true, sizes, s));
            next.Some? && InStep(Advance(e, true, now, sizes, s), next.value)
  {
    CallKeepsInStep(e, v, true, now, sizes, s);
  }

  /** The encoder after `n` failed serializations in a row. */
  function Skipped(e: Encoder, n: nat): Encoder { e.(sequence := e.sequence + n) }

  /**
   The sequence number moves even when serialization fails, so a client in step accepts the
   payload after `n` failures exactly when it is full, or there was none.
   */
  lemma FailedCallBreaksDeltas(e: Encoder, v: View, n: nat, c: Call)
    requires InStep(e, v) && c.serializes && ValidSnapshot(c.snapshot)
    ensures var late := Skipped(e, n); var full := IsFull(late, c.force, c.now);
            var next := Merge(v, Payload(late, full, c.sizes, c.snapshot));
            && (next.Some? <==> full || n == 0)
            && (next.Some? ==> InStep(Step(late, c), next.value))
  {
    var late := Skipped(e, n);
    if IsFull(late, c.force, c.now) {
      FullResynchronises(late, v, c.now, c.sizes, c.snapshot);
    } else if n == 0 {
      assert late == e;
      StepInStep(e, v, c);
    }
  }

  /******* Runs with failures *******/

  /** Every successful call directly after a failed one is full; `failed`: the call before failed. */
  predicate FullAfterFailures(e: Encoder, failed: bool, calls: seq<Call>)
    requires ValidEncoder(e)
    decreases |calls|
  {
    calls == [] ||
    var c := calls[0];
    StepIsValid(e, c);
    && (failed && c.serializes ==> IsFull(e, c.force, c.now))
    && FullAfterFailures(Step(e, c), !c.serializes, calls[1..])
  }

  /** How many calls at the end failed, after `n` failures before. */
  function FailuresAfter(n: nat, calls: seq<Call>): nat
    decreases |calls|
  {
    if calls == [] then n else FailuresAfter(if calls[0].serializes then 0 else n + 1, calls[1..])
  }

  /** Nothing was sent yet, or the client is in step up to the `n` calls that failed since. */
  ghost predicate InStepBefore(e: Encoder, v: View, n: nat) {
    ValidEncoder(e) && (e.previous.None? || (n <= e.sequence && InStep(e.(sequence := e.sequence - n), v)))
  }

  lemma CallAfterFailures(e: Encoder, v: View, n: nat, c: Call)
    requires InStepBefore(e, v, n) && c.serializes && ValidSnapshot(c.snapshot)
    ensures var full := IsFull(e, c.force, c.now); var next := Merge(v, Payload(e, full, c.sizes, c.snapshot));
            && (next.Some? <==> full || n == 0)
            && (next.Some? ==> InStep(Step(e, c), next.value))
  {
    if e.previous.None? {
      FullResynchronises(e, v, c.now, c.sizes, c.snapshot);
    } else {
      var base := e.(sequence := e.sequence - n);
      assert Skipped(base, n) == e;
      FailedCallBreaksDeltas(base, v, n, c);
    }
  }

  /**
   For every run, with failures anywhere: the client accepts all payloads if and only if each
   successful call directly after a failed one is full, and it then is in step with the latest
   payload sent.
   */
  lemma {:induction false} RunAcceptedExactlyWhen(e: Encoder, v: View, n: nat, calls: seq<Call>)
    requires InStepBefore(e, v, n) && forall c | c in calls :: ValidSnapshot(c.snapshot)
    ensures Watch(e, v, calls).Some? <==> FullAfterFailures(e, n > 0, calls)
    ensures Watch(e, v, calls).Some? ==> InStepBefore(Run(e, calls), Watch(e, v, calls).value, FailuresAfter(n, calls))
    decreases |calls|
  {
    if calls != [] {
      var c, rest := calls[0], calls[1..];
      StepIsValid(e, c);
      if c.serializes {
        CallAfterFailures(e, v, n, c);
        var next := Merge(v, Payload(e, IsFull(e, c.force, c.now), c.sizes, c.snapshot));
        if next.Some? {
          StepSends(e, c);
          RunAcceptedExactlyWhen(Step(e, c), next.value, 0, rest);
        }
      } else {
        FailureFallsBehind(e, v, n, c);
        RunAcceptedExactlyWhen(Skip(e), v, n + 1, rest);
      }
    }
  }

  lemma StepSends(e: Encoder, c: Call)
    requires EpochsCover(e) && c.serializes
    ensures var next := Step(e, c); next.(sequence := next.sequence - 0) == next && next.sequence == e.sequence + 1
  {
  }

  lemma FailureFallsBehind(e: Encoder, v: View, n: nat, c: Call)
    requires InStepBefore(e, v, n) && !c.serializes
    ensures Step(e, c) == Skip(e) && InStepBefore(Skip(e), v, n + 1)
  {
    if e.previous.Some? {
      assert Skip(e).(sequence := Skip(e).sequence - (n + 1)) == e.(sequence := e.sequence - n);
    }
  }

  /** The same from the start of a connection, whatever the client held. */
  lemma StreamAcceptedExactlyWhen(v: View, calls: seq<Call>)
    requires forall c | c in calls :: ValidSnapshot(c.snapshot)
    ensures Watch(Fresh, v, calls).Some? <==> FullAfterFailures(Fresh, false, calls)
    ensures Watch(Fresh, v, calls).Some? ==>
              InStepBefore(Run(Fresh, calls), Watch(Fresh, v, calls).value, FailuresAfter(0, calls))
  {
    RunAcceptedExactlyWhen(Fresh, v, 0, calls);
  }

  /** A step that sends neither maps nor a map delta leaves the epoch the client sees. */
  lemma OmittedMapsKeepEpoch(e: Encoder, v: View, c: Call, i: nat)
    requires InStep(e, v) && c.serializes && ValidSnapshot(c.snapshot) && i < |c.snapshot.processes|
    requires var u := Payload(e, IsFull(e, c.force, c.now), c.sizes, c.snapshot);
             u.processes[i].maps.Omitted?
    ensures var u := Payload(e, IsFull(e, c.force, c.now), c.sizes, c.snapshot);
            var held := FindProcess(v.snapshot.processes, c.snapshot.processes[i].identity);
            var next := Merge(v, u);
            && held.Some? && next.Some? && i < |next.value.snapshot.processes|
            && next.value.snapshot.processes[i].epoch == held.value.epoch == u.processes[i].epoch
            && next.value.snapshot.processes[i].maps == held.value.maps
  {
    var full := IsFull(e, c.force, c.now);
    var p := c.snapshot.processes[i];
    var u := Payload(e, full, c.sizes, c.snapshot);
    HeldProcess(e, v, p.identity);
    StepInStep(e, v, c);
    MergedAt(full, v.snapshot.processes, u.processes, i);
    ProcessTransfer(e, v, full, c.sizes, p);
  }

  lemma {:induction false} MergedAt(full: bool, known: seq<Process>, us: seq<ProcessUpdate>, i: nat)
    requires i < |us| && MergeProcesses(full, known, us).Some?
    ensures var hs := MergeProcesses(full, known, us).value;
            |hs| == |us| && MergeProcess(full, known, us[i]) == Some(hs[i])
    decreases |us|
  {
    var front := us[..|us| - 1];
    if front != [] {
      MergedAt(full, known, front, if i < |front| then i else 0);
    }
  }
}
