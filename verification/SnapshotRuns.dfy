/**
 What the payloads of a run are, told from its calls alone: which are full, which maps they
 leave out, and where the epoch a client holds comes from.
 */
module SnapshotRuns {
  import opened Basics
  import opened KeyedEntries
  import opened SnapshotStream

  /** The encoder before call `k` of a run on a new connection. */
  function EncoderAt(calls: seq<Call>, k: nat): (e: Encoder)
    requires k <= |calls|
    ensures ValidEncoder(e)
  {
    Run(Fresh, calls[..k])
  }

  /** The payload that call `k` makes. */
  function PayloadAt(calls: seq<Call>, k: nat): Update
    requires k < |calls|
  {
    var e, c := EncoderAt(calls, k), calls[k];
    Payload(e, IsFull(e, c.force, c.now), c.sizes, c.snapshot)
  }

  lemma {:induction false} RunLast(e: Encoder, calls: seq<Call>)
    requires ValidEncoder(e) && calls != []
    ensures Run(e, calls) == Step(Run(e, calls[..|calls| - 1]), calls[|calls| - 1])
    decreases |calls|
  {
    if |calls| > 1 {
      StepIsValid(e, calls[0]);
      RunLast(Step(e, calls[0]), calls[1..]);
      assert calls[1..][..|calls| - 2] == calls[..|calls| - 1][1..];
    } else {
      StepIsValid(e, calls[0]);
      assert calls[..0] == [] && calls[1..] == [];
    }
  }

  lemma NextEncoder(calls: seq<Call>, k: nat)
    requires k < |calls|
    ensures EncoderAt(calls, k + 1) == Step(EncoderAt(calls, k), calls[k])
  {
    RunLast(Fresh, calls[..k + 1]);
    assert calls[..k + 1][..k] == calls[..k];
  }

  lemma {:induction false} SequenceCounts(calls: seq<Call>, k: nat)
    requires k <= |calls|
    ensures EncoderAt(calls, k).sequence == k
    decreases k
  {
    if k > 0 {
      SequenceCounts(calls, k - 1);
      NextEncoder(calls, k - 1);
    }
  }

  /******* Full payloads *******/

  /** Call `k` sent a payload that needs no earlier one. */
  predicate SentFull(calls: seq<Call>, k: nat)
    requires k < |calls|
  {
    calls[k].serializes && PayloadAt(calls, k).base.None?
  }

  /** Call `l` is the latest before `k` that sent a full payload. */
  ghost predicate LatestFull(calls: seq<Call>, l: nat, k: nat)
    requires k <= |calls|
  {
    l < k && SentFull(calls, l) && forall m | l < m < k :: !SentFull(calls, m)
  }

  lemma LastFullStep(calls: seq<Call>, k: nat)
    requires k < |calls|
    ensures EncoderAt(calls, k + 1).lastFull ==
            if SentFull(calls, k) then Some(calls[k].now) else EncoderAt(calls, k).lastFull
  {
    NextEncoder(calls, k);
  }

  lemma {:induction false} LastFullIsLatest(calls: seq<Call>, k: nat)
    requires k <= |calls|
    ensures EncoderAt(calls, k).lastFull.None? ==> forall l | 0 <= l < k :: !SentFull(calls, l)
    ensures EncoderAt(calls, k).lastFull.Some? ==>
              exists l: nat :: LatestFull(calls, l, k) && calls[l].now == EncoderAt(calls, k).lastFull.value
    decreases k
  {
    if k > 0 {
      LastFullIsLatest(calls, k - 1);
      LastFullStep(calls, k - 1);
      if SentFull(calls, k - 1) {
        assert LatestFull(calls, k - 1, k);
      } else if EncoderAt(calls, k - 1).lastFull.Some? {
        var l: nat :| LatestFull(calls, l, k - 1) && calls[l].now == EncoderAt(calls, k - 1).lastFull.value;
        assert LatestFull(calls, l, k);
      }
    }
  }

  lemma LatestIsOne(calls: seq<Call>, l: nat, m: nat, k: nat)
    requires k <= |calls| && LatestFull(calls, l, k) && LatestFull(calls, m, k)
    ensures l == m
  {
  }

  /**
   A payload is full exactly when it is forced, or no full one was sent less than a minute before
   it, the first included.  Otherwise it is a delta on the payload numbered one less.
   */
  lemma FullExactlyWhen(calls: seq<Call>, k: nat)
    requires k < |calls|
    ensures PayloadAt(calls, k).base.None? <==>
            calls[k].force || forall l: nat | LatestFull(calls, l, k) :: calls[k].now >= calls[l].now + 60_000
    ensures PayloadAt(calls, k).sequence == k + 1
    ensures PayloadAt(calls, k).base.Some? ==> PayloadAt(calls, k).base.value == k
  {
    LastFullIsLatest(calls, k);
    SequenceCounts(calls, k);
    var last := EncoderAt(calls, k).lastFull;
    if last.Some? {
      var l: nat :| LatestFull(calls, l, k) && calls[l].now == last.value;
      forall m: nat | LatestFull(calls, m, k)
        ensures m == l
      {
        LatestIsOne(calls, l, m, k);
      }
    }
  }

  /******* Maps and epochs *******/

  ghost predicate ValidCalls(calls: seq<Call>) {
    forall k | 0 <= k < |calls| :: ValidSnapshot(calls[k].snapshot)
  }

  /** The snapshot has the process, with these maps. */
  ghost predicate HasMaps(s: Snapshot, id: string, maps: seq<Entry<int>>) {
    exists p | p in s.processes :: p.identity == id && p.maps == maps
  }

  /** Call `l` is the latest before `k` that sent a payload. */
  ghost predicate LatestSent(calls: seq<Call>, l: nat, k: nat)
    requires k <= |calls|
  {
    l < k && calls[l].serializes && forall m | l < m < k :: !calls[m].serializes
  }

  lemma PreviousStep(calls: seq<Call>, k: nat)
    requires k < |calls|
    ensures EncoderAt(calls, k + 1).previous ==
            if calls[k].serializes then Some(calls[k].snapshot) else EncoderAt(calls, k).previous
  {
    NextEncoder(calls, k);
  }

  lemma {:induction false} PreviousIsLatest(calls: seq<Call>, k: nat)
    requires k <= |calls|
    ensures EncoderAt(calls, k).previous.None? ==> forall l | 0 <= l < k :: !calls[l].serializes
    ensures EncoderAt(calls, k).previous.Some? ==>
              exists l: nat :: LatestSent(calls, l, k) && calls[l].snapshot == EncoderAt(calls, k).previous.value
    decreases k
  {
    if k > 0 {
      PreviousIsLatest(calls, k - 1);
      PreviousStep(calls, k - 1);
      if calls[k - 1].serializes {
        assert LatestSent(calls, k - 1, k);
      } else if EncoderAt(calls, k - 1).previous.Some? {
        var l: nat :| LatestSent(calls, l, k - 1) && calls[l].snapshot == EncoderAt(calls, k - 1).previous.value;
        assert LatestSent(calls, l, k);
      }
    }
  }

  lemma {:induction false} FindOnly(ps: seq<Process>, p: Process)
    requires UniqueProcesses(ps) && p in ps
    ensures FindProcess(ps, p.identity) == Some(p)
    decreases |ps|
  {
    if ps[|ps| - 1] != p {
      var i :| 0 <= i < |ps| && ps[i] == p;
      assert ps[..|ps| - 1][i] == p;
      FindOnly(ps[..|ps| - 1], p);
    }
  }

  /** The process as the latest sent snapshot before call `k` had it. */
  lemma FoundBefore(calls: seq<Call>, k: nat, id: string, maps: seq<Entry<int>>)
    requires k <= |calls| && ValidCalls(calls)
    ensures var before := FindProcess(ProcessesBefore(EncoderAt(calls, k)), id);
            (before.Some? && before.value.maps == maps)
            <==> exists l: nat :: LatestSent(calls, l, k) && HasMaps(calls[l].snapshot, id, maps)
  {
    PreviousIsLatest(calls, k);
    var e := EncoderAt(calls, k);
    var before := FindProcess(ProcessesBefore(e), id);
    if before.Some? && before.value.maps == maps {
      var l: nat :| LatestSent(calls, l, k) && calls[l].snapshot == e.previous.value;
      assert HasMaps(calls[l].snapshot, id, maps);
    }
    if m: nat :| LatestSent(calls, m, k) && HasMaps(calls[m].snapshot, id, maps) {
      var l: nat :| LatestSent(calls, l, k) && calls[l].snapshot == e.previous.value;
      assert l == m;
      var p :| p in calls[m].snapshot.processes && p.identity == id && p.maps == maps;
      FindOnly(calls[m].snapshot.processes, p);
    }
  }

  /**
   A payload leaves out the maps of a process exactly when it is a delta and the snapshot sent
   before had the process with the same maps.  A full payload, and one with a whole list, has the
   maps of the snapshot.
   */
  lemma OmittedExactlyWhen(calls: seq<Call>, k: nat, i: nat)
    requires k < |calls| && ValidCalls(calls) && i < |calls[k].snapshot.processes|
    ensures var p, u := calls[k].snapshot.processes[i], PayloadAt(calls, k).processes[i];
            && u.identity == p.identity && u.rest == p.rest
            && (u.maps.Omitted? <==>
                PayloadAt(calls, k).base.Some? && exists l: nat :: LatestSent(calls, l, k) && HasMaps(calls[l].snapshot, p.identity, p.maps))
            && (u.maps.Sent? && u.maps.list.Whole? ==> u.maps.list.entries == p.maps)
            && (PayloadAt(calls, k).base.None? ==> u.maps.Sent? && u.maps.list.Whole?)
            && (u.maps.Sent? ==> u.epoch == p.epoch)
  {
    FoundBefore(calls, k, calls[k].snapshot.processes[i].identity, calls[k].snapshot.processes[i].maps);
  }

  /**
   Call `j` sent the process with these maps and this epoch, and every payload sent since, up to
   call `n`, was of a snapshot with the same maps.
   */
  ghost predicate ComesFrom(calls: seq<Call>, n: nat, j: nat, id: string, maps: seq<Entry<int>>, epoch: nat)
    requires n <= |calls|
  {
    && j < n && calls[j].serializes
    && (exists p | p in calls[j].snapshot.processes :: p.identity == id && p.maps == maps && p.epoch == epoch)
    && (forall m | j <= m < n && calls[m].serializes :: HasMaps(calls[m].snapshot, id, maps))
  }

  ghost predicate HasOrigin(calls: seq<Call>, n: nat, id: string, maps: seq<Entry<int>>, epoch: nat)
    requires n <= |calls|
  {
    exists j: nat :: ComesFrom(calls, n, j, id, maps, epoch)
  }

  /** A call that changes nothing about the process, or sends nothing, keeps the origin of its epoch. */
  lemma OriginStays(calls: seq<Call>, k: nat, id: string, maps: seq<Entry<int>>, epoch: nat)
    requires k < |calls| && HasOrigin(calls, k, id, maps, epoch)
    requires calls[k].serializes ==> HasMaps(calls[k].snapshot, id, maps)
    ensures HasOrigin(calls, k + 1, id, maps, epoch)
  {
    var j: nat :| ComesFrom(calls, k, j, id, maps, epoch);
    assert ComesFrom(calls, k + 1, j, id, maps, epoch);
  }

  lemma EpochAfterCall(calls: seq<Call>, k: nat, i: nat)
    requires k < |calls| && ValidCalls(calls) && calls[k].serializes && i < |calls[k].snapshot.processes|
    ensures var p := calls[k].snapshot.processes[i];
            && p.identity in EncoderAt(calls, k + 1).epochs
            && EncoderAt(calls, k + 1).epochs[p.identity] == PayloadAt(calls, k).processes[i].epoch
  {
    NextEncoder(calls, k);
    EpochTableFinds(PayloadAt(calls, k).processes, i);
  }

  /** Every epoch in the encoder's table is that of the snapshot whose maps the client still has. */
  lemma {:induction false} EpochHasOrigin(calls: seq<Call>, n: nat, p: Process)
    requires n <= |calls| && ValidCalls(calls) && p in ProcessesBefore(EncoderAt(calls, n))
    ensures p.identity in EncoderAt(calls, n).epochs
    ensures HasOrigin(calls, n, p.identity, p.maps, EncoderAt(calls, n).epochs[p.identity])
    decreases n
  {
    assert n > 0 by { assert calls[..0] == []; }
    var k := n - 1;
    NextEncoder(calls, k);
    if calls[k].serializes {
      SentOrigin(calls, k, p);
      if p in calls[k].snapshot.processes && OmittedAt(calls, k, p) {
        var before := FindProcess(ProcessesBefore(EncoderAt(calls, k)), p.identity).value;
        EpochHasOrigin(calls, k, before);
        OriginStays(calls, k, p.identity, p.maps, EncoderAt(calls, k).epochs[p.identity]);
      }
    } else {
      EpochHasOrigin(calls, k, p);
      OriginStays(calls, k, p.identity, p.maps, EncoderAt(calls, k).epochs[p.identity]);
    }
  }

  /** Call `k` leaves out the maps of `p`, as the snapshot before had them. */
  ghost predicate OmittedAt(calls: seq<Call>, k: nat, p: Process)
    requires k < |calls|
  {
    var e := EncoderAt(calls, k);
    MapsUpdate(e, IsFull(e, calls[k].force, calls[k].now), calls[k].sizes, p).Omitted?
  }

  /** A call that sends the maps makes its own epoch the one held; one that omits them keeps the table's. */
  lemma SentOrigin(calls: seq<Call>, k: nat, p: Process)
    requires k < |calls| && ValidCalls(calls) && calls[k].serializes && p in calls[k].snapshot.processes
    ensures p.identity in EncoderAt(calls, k + 1).epochs && HasMaps(calls[k].snapshot, p.identity, p.maps)
    ensures !OmittedAt(calls, k, p) ==>
              HasOrigin(calls, k + 1, p.identity, p.maps, EncoderAt(calls, k + 1).epochs[p.identity])
    ensures OmittedAt(calls, k, p) ==>
              && p.identity in EncoderAt(calls, k).epochs
              && EncoderAt(calls, k + 1).epochs[p.identity] == EncoderAt(calls, k).epochs[p.identity]
              && var before := FindProcess(ProcessesBefore(EncoderAt(calls, k)), p.identity);
              before.Some? && before.value.maps == p.maps
  {
    var i :| 0 <= i < |calls[k].snapshot.processes| && calls[k].snapshot.processes[i] == p;
    EpochAfterCall(calls, k, i);
    OmittedExactlyWhen(calls, k, i);
    if !OmittedAt(calls, k, p) {
      assert ComesFrom(calls, k + 1, k, p.identity, p.maps, p.epoch);
    }
  }

  /**
   In every accepted run, the epoch a client holds for a process of the latest snapshot is the
   one some payload brought with exactly these maps, and the maps have not changed since.
   After a full payload it is the epoch of the latest snapshot itself.
   */
  lemma HeldEpochHasOrigin(v: View, calls: seq<Call>, i: nat)
    requires ValidCalls(calls) && Watch(Fresh, v, calls).Some?
    requires i < |ProcessesBefore(EncoderAt(calls, |calls|))|
    ensures var p := ProcessesBefore(EncoderAt(calls, |calls|))[i]; var held := Watch(Fresh, v, calls).value.snapshot.processes;
            && i < |held| && held[i].identity == p.identity
            && HasOrigin(calls, |calls|, p.identity, p.maps, held[i].epoch)
            && (SentFull(calls, |calls| - 1) ==> held[i].epoch == p.epoch)
  {
    var n := |calls|;
    HeldIsInTable(v, calls, i);
    EpochHasOrigin(calls, n, ProcessesBefore(EncoderAt(calls, n))[i]);
    if SentFull(calls, n - 1) {
      FullBringsItsEpochs(calls, n - 1, i);
    }
  }

  lemma FullBringsItsEpochs(calls: seq<Call>, k: nat, i: nat)
    requires k < |calls| && ValidCalls(calls) && SentFull(calls, k) && i < |ProcessesBefore(EncoderAt(calls, k + 1))|
    ensures var e := EncoderAt(calls, k + 1); var p := ProcessesBefore(e)[i];
            p.identity in e.epochs && e.epochs[p.identity] == p.epoch
  {
    NextEncoder(calls, k);
    EpochAfterCall(calls, k, i);
    OmittedExactlyWhen(calls, k, i);
  }

  /** A client of an accepted run holds, for each process of the latest snapshot, the epoch of the encoder's table. */
  lemma HeldIsInTable(v: View, calls: seq<Call>, i: nat)
    requires ValidCalls(calls) && Watch(Fresh, v, calls).Some?
    requires i < |ProcessesBefore(EncoderAt(calls, |calls|))|
    ensures var e, held := EncoderAt(calls, |calls|), Watch(Fresh, v, calls).value.snapshot.processes; var id := ProcessesBefore(e)[i].identity;
            i < |held| && held[i].identity == id && id in e.epochs && held[i].epoch == e.epochs[id]
  {
    assert calls[..|calls|] == calls;
    var e, view := EncoderAt(calls, |calls|), Watch(Fresh, v, calls).value;
    StreamAcceptedExactlyWhen(v, calls);
    var base := e.(sequence := e.sequence - FailuresAfter(0, calls));
    assert InStep(base, view);
    assert ProcessAgrees(view.snapshot.processes[i], base.previous.value.processes[i], base.epochs);
  }

  /******* Deltas *******/

  /** The entries that are new or differ, and the keys that are gone. */
  function ChangeFrom<K(==,!new)>(before: seq<Entry<K>>, now: seq<Entry<K>>): Change<K> {
    Change(Upserts(before, now), Removals(before, now))
  }

  lemma PreviousAt(calls: seq<Call>, l: nat, k: nat)
    requires k <= |calls| && LatestSent(calls, l, k)
    ensures EncoderAt(calls, k).previous == Some(calls[l].snapshot)
  {
    PreviousIsLatest(calls, k);
    var m: nat :| LatestSent(calls, m, k) && calls[m].snapshot == EncoderAt(calls, k).previous.value;
    assert l == m;
  }

  /**
   A list is sent as its change since the payload before exactly in a delta payload in which that
   is the smaller form, and whole otherwise.
   */
  lemma ListDeltaExactlyWhen(calls: seq<Call>, l: nat, k: nat)
    requires k < |calls| && LatestSent(calls, l, k)
    ensures var was, c, u := calls[l].snapshot, calls[k], PayloadAt(calls, k); var now := c.snapshot;
            && u.fd == (if u.base.Some? && c.sizes.relations(ChangeFrom(was.fd, now.fd), now.fd)
                        then Delta(ChangeFrom(was.fd, now.fd)) else Whole(now.fd))
            && u.rdma == (if u.base.Some? && c.sizes.relations(ChangeFrom(was.rdma, now.rdma), now.rdma)
                          then Delta(ChangeFrom(was.rdma, now.rdma)) else Whole(now.rdma))
            && u.handles == (if u.base.Some? && c.sizes.relations(ChangeFrom(was.handles, now.handles), now.handles)
                             then Delta(ChangeFrom(was.handles, now.handles)) else Whole(now.handles))
            && u.other == now.other
  {
    PreviousAt(calls, l, k);
  }

  /** The same for the maps of a process that had others in the payload before. */
  lemma MapDeltaExactlyWhen(calls: seq<Call>, l: nat, k: nat, i: nat, p: Process)
    requires k < |calls| && LatestSent(calls, l, k) && ValidCalls(calls)
    requires i < |calls[k].snapshot.processes| && p in calls[l].snapshot.processes
    requires p.identity == calls[k].snapshot.processes[i].identity && p.maps != calls[k].snapshot.processes[i].maps
    ensures var c, u := calls[k], PayloadAt(calls, k); var maps := c.snapshot.processes[i].maps;
            u.processes[i].maps == Sent(if u.base.Some? && c.sizes.maps(ChangeFrom(p.maps, maps), maps)
                                        then Delta(ChangeFrom(p.maps, maps)) else Whole(maps))
  {
    PreviousAt(calls, l, k);
    FindOnly(calls[l].snapshot.processes, p);
  }
}
