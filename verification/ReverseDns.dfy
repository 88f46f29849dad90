/**
 Background reverse lookups (src/privileged_helper/system/resolver.rs): callers and four workers
 share a bounded queue and a bounded cache.  A step is a section under the cache lock, or a
 worker taking an address from the queue.
 */
module ReverseDns {
  import opened Basics

  const CACHE_LIMIT: nat := 4096
  const QUEUE_LIMIT: nat := 4096
  const WORKERS: nat := 4
  const NAME_TTL_MS: nat := 300_000
  const MISS_TTL_MS: nat := 60_000

  datatype Entry = Entry(name: Option<string>, expires: nat, pending: bool)

  type Cache = map<nat, Entry>

  predicate Usable(e: Entry, now: nat) { e.pending || e.expires > now }

  function Retained(cache: Cache, now: nat): Cache {
    map ip | ip in cache && Usable(cache[ip], now) :: cache[ip]
  }

  /** A finished lookup. */
  datatype Found = Found(ip: nat, name: string, at: nat)

  /** `workers` are the addresses the workers are looking up; `found` is history. */
  datatype State = State(cache: Cache, queue: seq<nat>, workers: map<nat, nat>, now: nat, found: set<Found>)

  const Initial: State := State(map[], [], map[], 0, {})

  /** `lookup`: the cached name, or nothing and a queued lookup. */
  function LookUp(s: State, ip: nat): (State, Option<string>) {
    if ip in s.cache && Usable(s.cache[ip], s.now) then (s, s.cache[ip].name)
    else
      var kept := Retained(s.cache, s.now);
      if |kept| >= CACHE_LIMIT || |s.queue| >= QUEUE_LIMIT then (s.(cache := kept), None)
      else (s.(cache := kept[ip := Entry(None, s.now, true)], queue := s.queue + [ip]), None)
  }

  datatype Action = Ask(ip: nat) | Take(w: nat) | Store(w: nat, name: Option<string>) | Wait(ms: nat)

  predicate Enabled(s: State, a: Action) {
    match a
    case Ask(_) => true
    case Take(w) => w < WORKERS && w !in s.workers && s.queue != []
    case Store(w, _) => w in s.workers
    case Wait(_) => true
  }

  function Answer(name: Option<string>, now: nat): Entry {
    Entry(name, now + if name.Some? then NAME_TTL_MS else MISS_TTL_MS, false)
  }

  function Noted(found: set<Found>, ip: nat, name: Option<string>, now: nat): set<Found> {
    found + if name.Some? then {Found(ip, name.value, now)} else {}
  }

  function Do(s: State, a: Action): State
    requires Enabled(s, a)
  {
    match a
    case Ask(ip) => LookUp(s, ip).0
    case Take(w) => s.(queue := s.queue[1..], workers := s.workers[w := s.queue[0]])
    case Store(w, name) =>
      var ip := s.workers[w];
      s.(cache := s.cache[ip := Answer(name, s.now)], workers := s.workers - {w},
         found := Noted(s.found, ip, name, s.now))
    case Wait(ms) => s.(now := s.now + ms)
  }

  /** The resolver object, without the history. */
  class Resolver {
    var cache: Cache
    var queue: seq<nat>
    var workers: map<nat, nat>

    ghost function Abs(now: nat, found: set<Found>): State
      reads this
    {
      State(cache, queue, workers, now, found)
    }

    constructor ()
      ensures Abs(0, {}) == Initial
    {
      cache, queue, workers := map[], [], map[];
    }

    method Lookup(ip: nat, now: nat) returns (name: Option<string>)
      modifies this`cache, this`queue
      ensures forall found :: (Abs(now, found), name) == LookUp(old(Abs(now, found)), ip)
    {
      if ip in cache && Usable(cache[ip], now) {
        return cache[ip].name;
      }
      cache := map a | a in cache && Usable(cache[a], now) :: cache[a];
      if |cache| >= CACHE_LIMIT {
        return None;
      }
      if |queue| < QUEUE_LIMIT {
        queue := queue + [ip];
        cache := cache[ip := Entry(None, now, true)];
      }
      name := None;
    }

    method TakeNext(w: nat)
      requires w < WORKERS && w !in workers && queue != []
      modifies this`queue, this`workers
      ensures forall now, found :: Abs(now, found) == Do(old(Abs(now, found)), Take(w))
    {
      workers, queue := workers[w := queue[0]], queue[1..];
    }

    method StoreAnswer(w: nat, name: Option<string>, now: nat)
      requires w in workers
      modifies this`cache, this`workers
      ensures forall found :: Do(old(Abs(now, found)), Store(w, name)) == Abs(now, Noted(found, old(workers)[w], name, now))
    {
      var ttl := if name.Some? then NAME_TTL_MS else MISS_TTL_MS;
      cache := cache[workers[w] := Entry(name, now + ttl, false)];
      workers := workers - {w};
    }
  }

  /******* What every run keeps *******/

  predicate Held(s: State, ip: nat) { exists w | w in s.workers :: s.workers[w] == ip }

  predicate IsPending(cache: Cache, ip: nat) { ip in cache && cache[ip].pending }

  /** An address is pending exactly when it is queued or held by a worker, and it is there once. */
  ghost predicate InFlightOk(s: State) {
    && (forall ip :: IsPending(s.cache, ip) <==> ip in s.queue || Held(s, ip))
    && (forall i, j | 0 <= i < j < |s.queue| :: s.queue[i] != s.queue[j])
    && (forall w, v | w in s.workers && v in s.workers && w != v :: s.workers[w] != s.workers[v])
    && (forall w | w in s.workers :: s.workers[w] !in s.queue)
  }

  /** A name in the cache comes from a lookup of that address. */
  ghost predicate EntryOk(s: State, ip: nat, e: Entry) {
    e.name.Some? ==> !e.pending && 300_000 <= e.expires <= s.now + 300_000
                     && Found(ip, e.name.value, e.expires - 300_000) in s.found
  }

  ghost predicate CacheOk(s: State) {
    && |s.cache| <= 4096
    && (forall w | w in s.workers :: w < 4)
    && (forall ip | ip in s.cache :: EntryOk(s, ip, s.cache[ip]))
  }

  ghost predicate Good(s: State) { InFlightOk(s) && CacheOk(s) }

  lemma {:induction false} DistinctFit(q: seq<nat>, keys: set<nat>)
    requires (forall i, j | 0 <= i < j < |q| :: q[i] != q[j]) && (forall x | x in q :: x in keys)
    ensures |q| <= |keys|
    decreases |q|
  {
    if q != [] {
      var last := q[|q| - 1];
      DistinctFit(q[..|q| - 1], keys - {last});
    }
  }

  lemma RetainedFits(cache: Cache, now: nat)
    ensures |Retained(cache, now)| <= |cache|
  {
    SubsetSize(Retained(cache, now).Keys, cache.Keys);
  }

  /** Whenever a lookup gets to queue an address, the queue has room for it. */
  lemma QueueHasRoom(s: State)
    requires InFlightOk(s) && |Retained(s.cache, s.now)| < 4096
    ensures |s.queue| < 4096
  {
    var kept := Retained(s.cache, s.now);
    forall ip | ip in s.queue
      ensures ip in kept.Keys
    {
      assert IsPending(s.cache, ip);
    }
    DistinctFit(s.queue, kept.Keys);
  }

  lemma AskKeepsFlight(s: State, ip: nat)
    requires InFlightOk(s)
    ensures InFlightOk(LookUp(s, ip).0)
  {
    var n := LookUp(s, ip).0;
    forall a
      ensures IsPending(n.cache, a) <==> a in n.queue || Held(n, a)
    {
      assert Held(n, a) <==> Held(s, a);
      assert IsPending(s.cache, a) <==> a in s.queue || Held(s, a);
    }
    assert !IsPending(s.cache, ip) ==> ip !in s.queue && !Held(s, ip);
  }

  lemma TakeKeepsFlight(s: State, w: nat)
    requires InFlightOk(s) && Enabled(s, Take(w))
    ensures InFlightOk(Do(s, Take(w)))
  {
    var n := Do(s, Take(w));
    forall a
      ensures a in n.queue || Held(n, a) <==> a in s.queue || Held(s, a)
    {
      if Held(s, a) {
        var v :| v in s.workers && s.workers[v] == a;
        assert n.workers[v] == a;
      }
      assert n.workers[w] == s.queue[0];
      assert a in s.queue <==> a == s.queue[0] || a in s.queue[1..];
    }
    assert forall a :: IsPending(n.cache, a) <==> IsPending(s.cache, a);
  }

  lemma StoreKeepsFlight(s: State, w: nat, name: Option<string>)
    requires InFlightOk(s) && Enabled(s, Store(w, name))
    ensures InFlightOk(Do(s, Store(w, name)))
  {
    var n := Do(s, Store(w, name));
    var ip := s.workers[w];
    forall a
      ensures IsPending(n.cache, a) <==> a in n.queue || Held(n, a)
    {
      assert IsPending(s.cache, a) <==> a in s.queue || Held(s, a);
      if a != ip && Held(s, a) {
        var v :| v in s.workers && s.workers[v] == a;
        assert v in n.workers;
      }
    }
  }

  lemma AskKeepsCache(s: State, ip: nat)
    requires CacheOk(s)
    ensures CacheOk(LookUp(s, ip).0)
  {
    var n := LookUp(s, ip).0;
    RetainedFits(s.cache, s.now);
    forall x | x in n.cache
      ensures EntryOk(n, x, n.cache[x])
    {
      assert x in s.cache ==> EntryOk(s, x, s.cache[x]);
    }
  }

  lemma StoreKeepsCache(s: State, w: nat, name: Option<string>)
    requires Good(s) && w in s.workers
    ensures CacheOk(Do(s, Store(w, name)))
  {
    var n := Do(s, Store(w, name));
    assert Held(s, s.workers[w]);
    assert IsPending(s.cache, s.workers[w]);
    assert n.cache.Keys == s.cache.Keys;
    forall x | x in n.cache
      ensures EntryOk(n, x, n.cache[x])
    {
      assert EntryOk(s, x, s.cache[x]);
    }
  }

  lemma StepKeepsCache(s: State, a: Action)
    requires Good(s) && Enabled(s, a)
    ensures CacheOk(Do(s, a))
  {
    var n := Do(s, a);
    match a
    case Ask(ip) => AskKeepsCache(s, ip);
    case Store(w, name) => StoreKeepsCache(s, w, name);
    case Take(_) =>
      forall x | x in n.cache ensures EntryOk(n, x, n.cache[x]) { assert EntryOk(s, x, s.cache[x]); }
    case Wait(_) =>
      forall x | x in n.cache ensures EntryOk(n, x, n.cache[x]) { assert EntryOk(s, x, s.cache[x]); }
  }

  lemma StepKeepsGood(s: State, a: Action)
    requires Good(s) && Enabled(s, a)
    ensures Good(Do(s, a))
  {
    StepKeepsCache(s, a);
    match a
    case Ask(ip) => AskKeepsFlight(s, ip);
    case Take(w) => TakeKeepsFlight(s, w);
    case Store(w, name) => StoreKeepsFlight(s, w, name);
    case Wait(_) =>
      assert forall ip :: Held(Do(s, a), ip) <==> Held(s, ip);
  }

  predicate Possible(s: State, run: seq<Action>)
    decreases |run|
  {
    run == [] || (Enabled(s, run[0]) && Possible(Do(s, run[0]), run[1..]))
  }

  function After(s: State, run: seq<Action>): State
    requires Possible(s, run)
    decreases |run|
  {
    if run == [] then s else After(Do(s, run[0]), run[1..])
  }

  lemma {:induction false} RunStaysGood(s: State, run: seq<Action>)
    requires Good(s) && Possible(s, run)
    ensures Good(After(s, run))
    decreases |run|
  {
    if run != [] {
      StepKeepsGood(s, run[0]);
      RunStaysGood(Do(s, run[0]), run[1..]);
    }
  }

  /** In every run: pending exactly when in flight, in flight once, at most 4096 cached, never a full queue. */
  lemma EveryRunIsGood(run: seq<Action>)
    requires Possible(Initial, run)
    ensures var s := After(Initial, run);
            Good(s) && (|Retained(s.cache, s.now)| < 4096 ==> |s.queue| < 4096)
  {
    RunStaysGood(Initial, run);
    var s := After(Initial, run);
    if |Retained(s.cache, s.now)| < 4096 {
      QueueHasRoom(s);
    }
  }

  /** A run is its first actions and then its last one. */
  lemma {:induction false} LastAction(s: State, run: seq<Action>)
    requires Possible(s, run) && run != []
    ensures var front, a := run[..|run| - 1], run[|run| - 1];
            Possible(s, front) && Enabled(After(s, front), a) && After(s, run) == Do(After(s, front), a)
    decreases |run|
  {
    if |run| > 1 {
      LastAction(Do(s, run[0]), run[1..]);
      assert run[1..][..|run| - 2] == run[..|run| - 1][1..];
    } else {
      assert run[..0] == [];
    }
  }

  /** Action `i` of the run is a worker storing the name it found for that address, at that time. */
  ghost predicate StoredBy(run: seq<Action>, i: nat, f: Found) {
    && i < |run| && Possible(Initial, run[..i]) && run[i].Store? && run[i].name == Some(f.name)
    && var s := After(Initial, run[..i]);
    run[i].w in s.workers && s.workers[run[i].w] == f.ip && s.now == f.at
  }

  lemma FoundChange(s: State, a: Action, f: Found)
    requires Enabled(s, a) && f in Do(s, a).found
    ensures f in s.found || (a.Store? && a.name == Some(f.name) && s.workers[a.w] == f.ip && s.now == f.at)
  {
  }

  lemma {:induction false} FoundByAWorker(run: seq<Action>, f: Found)
    requires Possible(Initial, run) && f in After(Initial, run).found
    ensures exists i: nat :: StoredBy(run, i, f)
    decreases |run|
  {
    var front, a := run[..|run| - 1], run[|run| - 1];
    LastAction(Initial, run);
    FoundChange(After(Initial, front), a, f);
    if f in After(Initial, front).found {
      FoundByAWorker(front, f);
      var i: nat :| StoredBy(front, i, f);
      assert front[..i] == run[..i];
      assert StoredBy(run, i, f);
    } else {
      assert StoredBy(run, |run| - 1, f);
    }
  }

  /** A returned name was found for that address by a worker of this run, less than 300 seconds ago. */
  lemma ReturnedNameIsRecent(run: seq<Action>, ip: nat)
    requires Possible(Initial, run) && LookUp(After(Initial, run), ip).1.Some?
    ensures var s := After(Initial, run);
            exists i: nat, f :: StoredBy(run, i, f) && f.ip == ip && f.name == LookUp(s, ip).1.value
                                && f.at <= s.now < f.at + 300_000
  {
    RunStaysGood(Initial, run);
    var f := CachedNameIsRecent(After(Initial, run), ip);
    FoundByAWorker(run, f);
  }

  lemma CachedNameIsRecent(s: State, ip: nat) returns (f: Found)
    requires CacheOk(s) && LookUp(s, ip).1.Some?
    ensures f in s.found && f.ip == ip && f.name == LookUp(s, ip).1.value && f.at <= s.now < f.at + 300_000
  {
    assert EntryOk(s, ip, s.cache[ip]);
    f := Found(ip, s.cache[ip].name.value, s.cache[ip].expires - 300_000);
  }

  /******* When an address is looked up *******/

  /** The entries that a lookup does not throw away. */
  function LiveAddresses(cache: Cache, now: nat): set<nat> {
    set ip | ip in cache && (cache[ip].pending || now < cache[ip].expires)
  }

  /**
   A lookup answers from the cache exactly while the entry is pending or not expired.  Otherwise it
   queues the address exactly when fewer than 4096 entries are live, and answers nothing.
   */
  lemma LookUpExactly(s: State, ip: nat)
    requires Good(s)
    ensures var (n, name) := LookUp(s, ip); var live := LiveAddresses(s.cache, s.now);
            if ip in live then n == s && name == s.cache[ip].name
            else
              && name.None? && n.workers == s.workers
              && n.queue == (if |live| < 4096 then s.queue + [ip] else s.queue)
              && (ip in n.cache <==> |live| < 4096) && (ip in n.cache ==> n.cache[ip].pending)
              && forall a | a != ip :: a in n.cache <==> a in live
  {
    var kept := Retained(s.cache, s.now);
    assert kept.Keys == LiveAddresses(s.cache, s.now);
    if |kept| < 4096 {
      QueueHasRoom(s);
    }
  }

  /** Four workers take addresses: each of them whenever it is idle and one is queued. */
  lemma TakeExactlyWhen(s: State, w: nat)
    ensures Enabled(s, Take(w)) <==> (w == 0 || w == 1 || w == 2 || w == 3) && w !in s.workers && |s.queue| > 0
  {
  }

  /** An address asked for once, looked up, and then left for `ms` milliseconds. */
  function AskedOnce(ip: nat, name: Option<string>, ms: nat): seq<Action> {
    [Ask(ip), Take(0), Store(0, name), Wait(ms)]
  }

  lemma AskedOnceEnds(ip: nat, name: Option<string>, ms: nat)
    ensures Possible(Initial, AskedOnce(ip, name, ms))
    ensures var s := After(Initial, AskedOnce(ip, name, ms));
            && s.cache == map[ip := Answer(name, 0)] && s.queue == [] && s.workers == map[] && s.now == ms
  {
    var asked := State(map[ip := Entry(None, 0, true)], [ip], map[], 0, {});
    assert Retained(map[], 0) == map[] && [] + [ip] == [ip];
    assert Do(Initial, Ask(ip)) == asked;
    var taken := Do(asked, Take(0));
    assert taken == State(asked.cache, [], map[0 := ip], 0, {});
    var stored := Do(taken, Store(0, name));
    assert stored.workers == map[] && stored.cache == map[ip := Answer(name, 0)];
    var end := Do(stored, Wait(ms));
    var run := AskedOnce(ip, name, ms);
    var second, third, last := run[1..], run[1..][1..], run[1..][1..][1..];
    assert last[1..] == [] && Possible(end, []) && After(end, []) == end;
    assert last[0] == Wait(ms) && Possible(stored, last) && After(stored, last) == end;
    assert third[0] == Store(0, name) && Possible(taken, third) && After(taken, third) == end;
    assert second[0] == Take(0) && Possible(asked, second) && After(asked, second) == end;
  }

  /** A name that was found is served for 300 seconds; an address without one is asked for again after 60. */
  lemma AnswersLast(ip: nat, name: Option<string>, ms: nat)
    ensures Possible(Initial, AskedOnce(ip, name, ms))
    ensures var (n, answer) := LookUp(After(Initial, AskedOnce(ip, name, ms)), ip);
            && (name.Some? ==> (answer == name <==> ms < 300_000))
            && (n.queue == [ip] <==> ms >= if name.Some? then 300_000 else 60_000)
  {
    AskedOnceEnds(ip, name, ms);
    var s := After(Initial, AskedOnce(ip, name, ms));
    RunStaysGood(Initial, AskedOnce(ip, name, ms));
    LookUpExactly(s, ip);
    assert LiveAddresses(s.cache, s.now) <= {ip};
    SubsetSize(LiveAddresses(s.cache, s.now), {ip});
  }
}
