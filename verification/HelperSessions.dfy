/**
 Observation sessions of the privileged helper (src/privileged_helper/helper_service.rs) and
 the viewer count of its system monitor (src/privileged_helper/system/service.rs).
 */
module HelperSessions {

  const LEASE_MS: nat := 15_000
  const VIEWER_LIMIT: nat := 32
  const LAST_ID: nat := 0xFFFF_FFFF_FFFF_FFFF

  datatype Kind = Process | System

  datatype Lease = Lease(kind: Kind, polled: nat)

  type Leases = map<nat, Lease>

  datatype Request = Close(session: nat) | Poll(session: nat) | ObserveSystem | ObserveProcess | Acquire

  datatype Failure = Stopping | TooManyViewers | IdsExhausted | UnknownSession | Unavailable

  datatype Reply = Closed | Started(session: nat) | Event(closed: bool) | Data | Failed(why: Failure)

  /** `stopped` and `systemStopped` are the flags of the two monitors, set one after the other. */
  datatype State = State(sessions: Leases, next: nat, viewers: int, stopped: bool, systemStopped: bool)

  const Initial: State := State(map[], 0, 0, false, false)

  function SystemIds(sessions: Leases): set<nat> { set id | id in sessions && sessions[id].kind.System? }

  predicate Fresh(lease: Lease, now: nat) { now < lease.polled + LEASE_MS }

  function Kept(sessions: Leases, now: nat): Leases {
    map id | id in sessions && Fresh(sessions[id], now) :: sessions[id]
  }

  /** Every system lease that goes takes its viewer with it. */
  function Expired(s: State, now: nat): State {
    s.(sessions := Kept(s.sessions, now),
       viewers := s.viewers - |SystemIds(s.sessions) - SystemIds(Kept(s.sessions, now))|)
  }

  function Dropped(s: State, id: nat): State {
    if id !in s.sessions then s
    else s.(sessions := s.sessions - {id}, viewers := s.viewers - if s.sessions[id].kind.System? then 1 else 0)
  }

  /** A subscription that finds no session id is dropped again. */
  function Start(s: State, kind: Kind, now: nat): (State, Reply) {
    if s.next == LAST_ID then (s.(viewers := s.viewers - if kind.System? then 1 else 0), Failed(IdsExhausted))
    else (s.(next := s.next + 1, sessions := s.sessions[s.next + 1 := Lease(kind, now)]), Started(s.next + 1))
  }

  /**
   One request.  `world` is what the collectors answer: whether an acquisition succeeds, or
   whether a polled subscription has ended.  `now` is when leases are checked, `later` when the
   request is served.
   */
  function Dispatch(s: State, request: Request, world: bool, now: nat, later: nat): (State, Reply) {
    Served(Expired(s, now), request, world, later)
  }

  function Served(s: State, request: Request, world: bool, later: nat): (State, Reply) {
    if request.Close? then (Dropped(s, request.session), Closed)
    else if s.stopped then (s, Failed(Stopping))
    else
      match request
      case Acquire => (s, if world then Data else Failed(Unavailable))
      case ObserveProcess => if world then Start(s, Process, later) else (s, Failed(Unavailable))
      case ObserveSystem =>
        if s.systemStopped then (s, Failed(Stopping))
        else if s.viewers >= VIEWER_LIMIT then (s, Failed(TooManyViewers))
        else Start(s.(viewers := s.viewers + 1), System, later)
      case Poll(id) =>
        if id !in s.sessions then (s, Failed(UnknownSession))
        else
          var polled := s.(sessions := s.sessions[id := s.sessions[id].(polled := later)]);
          (if world then Dropped(polled, id) else polled, Event(world))
  }

  /** The service object. */
  class HelperService {
    var sessions: Leases
    var next: nat
    var viewers: int
    var stopped: bool
    var systemStopped: bool

    ghost function Abs(): State
      reads this
    {
      State(sessions, next, viewers, stopped, systemStopped)
    }

    constructor ()
      ensures Abs() == Initial
    {
      sessions, next, viewers, stopped, systemStopped := map[], 0, 0, false, false;
    }

    /** Removes a lease; dropping a system subscription takes its viewer away. */
    method Remove(id: nat)
      modifies this`sessions, this`viewers
      ensures Abs() == Dropped(old(Abs()), id)
    {
      if id in sessions {
        if sessions[id].kind.System? {
          viewers := viewers - 1;
        }
        sessions := sessions - {id};
      }
    }

    method Expire(now: nat)
      modifies this`sessions, this`viewers
      ensures Abs() == Expired(old(Abs()), now)
    {
      var left := set id | id in sessions && !Fresh(sessions[id], now);
      ExpiredAll(Abs(), left, now);
      while left != {}
        invariant DroppedAll(Abs(), left) == Expired(old(Abs()), now)
      {
        var id :| id in left;
        DropStep(Abs(), left, id);
        Remove(id);
        left := left - {id};
      }
      DropNone(Abs());
    }

    method StartSession(kind: Kind, now: nat) returns (r: Reply)
      modifies this`sessions, this`next, this`viewers
      ensures (Abs(), r) == Start(old(Abs()), kind, now)
    {
      if next == LAST_ID {
        if kind.System? {
          viewers := viewers - 1;
        }
        return Failed(IdsExhausted);
      }
      next := next + 1;
      sessions := sessions[next := Lease(kind, now)];
      r := Started(next);
    }

    method Serve(request: Request, world: bool, now: nat, later: nat) returns (r: Reply)
      modifies this`sessions, this`next, this`viewers
      ensures (Abs(), r) == Dispatch(old(Abs()), request, world, now, later)
    {
      Expire(now);
      if request.Close? {
        Remove(request.session);
        return Closed;
      }
      if stopped {
        return Failed(Stopping);
      }
      match request
      case Acquire =>
        r := if world then Data else Failed(Unavailable);
      case ObserveProcess =>
        if world {
          r := StartSession(Process, later);
        } else {
          r := Failed(Unavailable);
        }
      case ObserveSystem =>
        if systemStopped {
          r := Failed(Stopping);
        } else if viewers >= VIEWER_LIMIT {
          r := Failed(TooManyViewers);
        } else {
          viewers := viewers + 1;
          r := StartSession(System, later);
        }
      case Poll(id) =>
        if id !in sessions {
          return Failed(UnknownSession);
        }
        sessions := sessions[id := sessions[id].(polled := later)];
        if world {
          Remove(id);
        }
        r := Event(world);
    }
  }

  /** All of `ids` dropped at once. */
  ghost function DroppedAll(s: State, ids: set<nat>): State {
    s.(sessions := s.sessions - ids, viewers := s.viewers - |SystemIds(s.sessions) * ids|)
  }

  lemma DropNone(s: State)
    ensures DroppedAll(s, {}) == s
  {
    assert s.sessions - {} == s.sessions && SystemIds(s.sessions) * {} == {};
  }

  lemma SystemIdsWithout(m: Leases, id: nat)
    ensures SystemIds(m - {id}) == SystemIds(m) - {id}
  {
  }

  lemma LeasesWithout(m: Leases, ids: set<nat>, id: nat)
    requires id in ids
    ensures (m - {id}) - (ids - {id}) == m - ids
  {
  }

  lemma SetWithout(a: set<nat>, ids: set<nat>, id: nat)
    requires id in ids
    ensures |(a - {id}) * (ids - {id})| == |a * ids| - if id in a then 1 else 0
  {
    assert (a - {id}) * (ids - {id}) == a * ids - {id};
  }

  lemma DropStep(s: State, ids: set<nat>, id: nat)
    requires id in ids
    ensures DroppedAll(Dropped(s, id), ids - {id}) == DroppedAll(s, ids)
  {
    SystemIdsWithout(s.sessions, id);
    LeasesWithout(s.sessions, ids, id);
    SetWithout(SystemIds(s.sessions), ids, id);
    assert id !in s.sessions ==> s.sessions - {id} == s.sessions;
  }

  lemma ExpiredAll(s: State, stale: set<nat>, now: nat)
    requires stale == set id | id in s.sessions && !Fresh(s.sessions[id], now)
    ensures Expired(s, now) == DroppedAll(s, stale)
  {
    assert s.sessions - stale == Kept(s.sessions, now);
    assert SystemIds(s.sessions) * stale == SystemIds(s.sessions) - SystemIds(Kept(s.sessions, now));
  }

  /******* Runs *******/

  datatype Step =
    | Asked(request: Request, world: bool, now: nat, later: nat)
    | Idle(now: nat)                 // the idle loop checks leases
    | StopMonitoring
    | StopSystem

  function Next(s: State, step: Step): State {
    match step
    case Asked(request, world, now, later) => Dispatch(s, request, world, now, later).0
    case Idle(now) => Expired(s, now)
    case StopMonitoring => s.(stopped := true)
    case StopSystem => s.(systemStopped := true)
  }

  function Run(s: State, run: seq<Step>): State
    decreases |run|
  {
    if run == [] then s else Run(Next(s, run[0]), run[1..])
  }

  /** The id of the session a step starts, if it does. */
  function StartedBy(s: State, step: Step): seq<nat> {
    if step.Asked? && Dispatch(s, step.request, step.world, step.now, step.later).1.Started?
    then [Dispatch(s, step.request, step.world, step.now, step.later).1.session] else []
  }

  /** The ids of the sessions a run starts, in order. */
  function StartedIn(s: State, run: seq<Step>): seq<nat>
    decreases |run|
  {
    if run == [] then [] else StartedBy(s, run[0]) + StartedIn(Next(s, run[0]), run[1..])
  }

  ghost predicate Good(s: State) {
    && s.next <= 0xFFFF_FFFF_FFFF_FFFF
    && (forall id | id in s.sessions :: 1 <= id <= s.next)
    && s.viewers == |SystemIds(s.sessions)| <= 32
  }

  lemma ExpiryKeepsGood(s: State, now: nat)
    requires Good(s)
    ensures Good(Expired(s, now))
  {
    var kept := SystemIds(Kept(s.sessions, now));
    assert kept <= SystemIds(s.sessions);
    assert |SystemIds(s.sessions) - kept| == |SystemIds(s.sessions)| - |kept|;
  }

  lemma DropKeepsGood(s: State, id: nat)
    requires Good(s)
    ensures Good(Dropped(s, id))
  {
    if id in s.sessions {
      assert SystemIds(s.sessions - {id}) == SystemIds(s.sessions) - {id};
    }
  }

  lemma StartKeepsGood(s: State, kind: Kind, now: nat)
    requires s.next <= 0xFFFF_FFFF_FFFF_FFFF && (forall id | id in s.sessions :: 1 <= id <= s.next)
    requires s.viewers == |SystemIds(s.sessions)| + (if kind.System? then 1 else 0) <= 32
    ensures Good(Start(s, kind, now).0)
  {
    var n := Start(s, kind, now).0;
    if s.next != 0xFFFF_FFFF_FFFF_FFFF {
      assert SystemIds(n.sessions) == SystemIds(s.sessions) + if kind.System? then {s.next + 1} else {};
    }
  }

  lemma PollKeepsGood(s: State, id: nat, now: nat)
    requires Good(s) && id in s.sessions
    ensures Good(s.(sessions := s.sessions[id := s.sessions[id].(polled := now)]))
  {
    assert SystemIds(s.sessions[id := s.sessions[id].(polled := now)]) == SystemIds(s.sessions);
  }

  lemma DispatchKeepsGood(before: State, request: Request, world: bool, now: nat, later: nat)
    requires Good(before)
    ensures Good(Dispatch(before, request, world, now, later).0)
  {
    ExpiryKeepsGood(before, now);
    var s := Expired(before, now);
    match request
    case Close(id) => DropKeepsGood(s, id);
    case Acquire =>
    case ObserveProcess => StartKeepsGood(s, Process, later);
    case ObserveSystem =>
      if s.viewers < 32 {
        StartKeepsGood(s.(viewers := s.viewers + 1), System, later);
      }
    case Poll(id) =>
      if id in s.sessions {
        PollKeepsGood(s, id, later);
        DropKeepsGood(s.(sessions := s.sessions[id := s.sessions[id].(polled := later)]), id);
      }
  }

  /** In every run the viewer count is the number of live system leases, and at most 32. */
  lemma {:induction false} ViewersAreSystemLeases(s: State, run: seq<Step>)
    requires Good(s)
    ensures Good(Run(s, run))
    decreases |run|
  {
    if run != [] {
      match run[0] {
        case Asked(request, world, now, later) => DispatchKeepsGood(s, request, world, now, later);
        case Idle(now) => ExpiryKeepsGood(s, now);
        case _ =>
      }
      ViewersAreSystemLeases(Next(s, run[0]), run[1..]);
    }
  }

  predicate Increasing(ids: seq<nat>) { forall i, j | 0 <= i < j < |ids| :: ids[i] < ids[j] }

  lemma FirstThenLater(a: seq<nat>, b: seq<nat>, bound: nat)
    requires |a| <= 1 && Increasing(b) && (forall x | x in a :: x <= bound) && (forall x | x in b :: bound < x)
    ensures Increasing(a + b)
  {
    forall i, j | 0 <= i < j < |a + b|
      ensures (a + b)[i] < (a + b)[j]
    {
      if i < |a| {
        assert a[i] in a && b[j - |a|] in b;
      }
    }
  }

  /** A started session has an id above all before it. */
  lemma StartIsNew(s: State, request: Request, world: bool, now: nat, later: nat)
    ensures var (n, reply) := Dispatch(s, request, world, now, later);
            && s.next <= n.next
            && (reply.Started? ==> s.next < reply.session == n.next)
  {
  }

  lemma StepIds(s: State, step: Step)
    ensures s.next <= Next(s, step).next
    ensures StartedBy(s, step) == [] || (StartedBy(s, step) == [Next(s, step).next] && s.next < Next(s, step).next)
  {
    if step.Asked? {
      StartIsNew(s, step.request, step.world, step.now, step.later);
    }
  }

  /** Session ids strictly increase over every run and are new: none is ever used again. */
  lemma {:induction false} SessionIdsIncrease(s: State, run: seq<Step>)
    ensures var ids := StartedIn(s, run);
            && Increasing(ids)
            && (forall id | id in ids :: s.next < id <= Run(s, run).next)
            && s.next <= Run(s, run).next
    decreases |run|
  {
    if run != [] {
      StepIds(s, run[0]);
      var later := StartedIn(Next(s, run[0]), run[1..]);
      SessionIdsIncrease(Next(s, run[0]), run[1..]);
      FirstThenLater(StartedBy(s, run[0]), later, Next(s, run[0]).next);
    }
  }

  /******* The life of one session *******/

  /** A single lease by itself: when it was polled last, or gone. */
  datatype Fate = Live(polled: nat) | Gone

  function FateOf(s: State, id: nat): Fate { if id in s.sessions then Live(s.sessions[id].polled) else Gone }

  /** What one step does to a single lease, with no other session in sight. */
  function FateAfter(f: Fate, stopped: bool, step: Step, id: nat): Fate {
    if f.Gone? || step.StopMonitoring? || step.StopSystem? then f
    else if step.now >= f.polled + 15_000 then Gone
    else if step.Idle? then f
    else if step.request == Close(id) then Gone
    else if stopped || step.request != Poll(id) then f
    else if step.world then Gone
    else Live(step.later)
  }

  function FateIn(f: Fate, stopped: bool, run: seq<Step>, id: nat): Fate
    decreases |run|
  {
    if run == [] then f
    else FateIn(FateAfter(f, stopped, run[0], id), stopped || run[0].StopMonitoring?, run[1..], id)
  }

  lemma ExpiredFate(s: State, now: nat, id: nat)
    ensures FateOf(Expired(s, now), id) ==
            if id in s.sessions && now < s.sessions[id].polled + 15_000 then FateOf(s, id) else Gone
  {
  }

  lemma StartFate(s: State, kind: Kind, now: nat, id: nat)
    requires id <= s.next
    ensures FateOf(Start(s, kind, now).0, id) == FateOf(s, id)
    ensures Start(s, kind, now).0.stopped == s.stopped && s.next <= Start(s, kind, now).0.next
  {
  }

  lemma DropFate(s: State, gone: nat, id: nat)
    ensures FateOf(Dropped(s, gone), id) == if gone == id then Gone else FateOf(s, id)
    ensures Dropped(s, gone).stopped == s.stopped && Dropped(s, gone).next == s.next
  {
  }

  lemma PollFate(s: State, session: nat, world: bool, later: nat, id: nat)
    requires session in s.sessions
    ensures var polled := s.(sessions := s.sessions[session := s.sessions[session].(polled := later)]);
            FateOf(if world then Dropped(polled, session) else polled, id)
            == if session != id then FateOf(s, id) else if world then Gone else Live(later)
  {
  }

  /** What serving a request does to a lease that has not run out. */
  lemma ServedFate(s: State, request: Request, world: bool, later: nat, id: nat)
    requires id <= s.next
    ensures var n := Served(s, request, world, later).0;
            && n.stopped == s.stopped && s.next <= n.next
            && FateOf(n, id) == if id !in s.sessions || request == Close(id) then Gone
                                else if s.stopped || request != Poll(id) then FateOf(s, id)
                                else if world then Gone else Live(later)
  {
    match request
    case ObserveProcess => StartFate(s, Process, later, id);
    case ObserveSystem => StartFate(s.(viewers := s.viewers + 1), System, later, id);
    case Close(session) => DropFate(s, session, id);
    case Poll(session) =>
      if session in s.sessions {
        PollFate(s, session, world, later, id);
      }
    case Acquire =>
  }

  lemma StepFate(s: State, step: Step, id: nat)
    requires id <= s.next
    ensures FateOf(Next(s, step), id) == FateAfter(FateOf(s, id), s.stopped, step, id)
    ensures Next(s, step).stopped == (s.stopped || step.StopMonitoring?) && s.next <= Next(s, step).next
  {
    match step
    case Asked(request, world, now, later) =>
      ExpiredFate(s, now, id);
      ServedFate(Expired(s, now), request, world, later, id);
    case Idle(now) => ExpiredFate(s, now, id);
    case _ =>
  }

  /** Sessions do not disturb each other: each follows its own lease, whatever else is going on. */
  lemma {:induction false} EachSessionFollowsItsLease(s: State, run: seq<Step>, id: nat)
    requires id <= s.next
    ensures FateOf(Run(s, run), id) == FateIn(FateOf(s, id), s.stopped, run, id)
    decreases |run|
  {
    if run != [] {
      StepFate(s, run[0], id);
      EachSessionFollowsItsLease(Next(s, run[0]), run[1..], id);
    }
  }

  /** A used session that is gone never comes back, and a poll of it fails. */
  lemma {:induction false} GoneForGood(s: State, run: seq<Step>, id: nat, world: bool, now: nat, later: nat)
    requires id <= s.next && id !in s.sessions
    ensures var end := Run(s, run);
            && id !in end.sessions
            && Dispatch(end, Poll(id), world, now, later).1 == Failed(if end.stopped then Stopping else UnknownSession)
    decreases |run|
  {
    if run != [] {
      StepFate(s, run[0], id);
      GoneForGood(Next(s, run[0]), run[1..], id, world, now, later);
    }
  }

  predicate Polls(step: Step, id: nat) { step.Asked? && step.request == Poll(id) }

  /** A session nobody polled for 15 seconds cannot be polled again, whatever happened in between. */
  lemma LeaseRunsOut(s: State, run: seq<Step>, id: nat, world: bool, now: nat, later: nat)
    requires id <= s.next
    requires forall i | 0 <= i < |run| :: !Polls(run[i], id)
    requires id in s.sessions ==> now >= s.sessions[id].polled + 15_000
    ensures var end := Run(s, run);
            && Dispatch(end, Poll(id), world, now, later).1 == Failed(if end.stopped then Stopping else UnknownSession)
            && id !in Dispatch(end, Poll(id), world, now, later).0.sessions
  {
    UnpolledKeepsTime(s, run, id);
  }

  lemma {:induction false} UnpolledKeepsTime(s: State, run: seq<Step>, id: nat)
    requires id <= s.next && (forall i | 0 <= i < |run| :: !Polls(run[i], id))
    ensures FateOf(Run(s, run), id) == FateOf(s, id) || FateOf(Run(s, run), id) == Gone
    decreases |run|
  {
    if run != [] {
      StepFate(s, run[0], id);
      UnpolledKeepsTime(Next(s, run[0]), run[1..], id);
    }
  }

  /** Time moves forward from `clock` over the run. */
  predicate Timely(run: seq<Step>, clock: nat)
    decreases |run|
  {
    run == [] ||
    match run[0] {
      case Asked(_, _, now, later) => clock <= now <= later && Timely(run[1..], later)
      case Idle(now) => clock <= now && Timely(run[1..], now)
      case _ => Timely(run[1..], clock)
    }
  }

  /** Each poll comes less than 15 seconds after the one before, and the run ends with one. */
  predicate PolledOften(run: seq<Step>, id: nat, last: nat)
    decreases |run|
  {
    && run != []
    && if Polls(run[0], id)
       then run[0].now < last + 15_000 && (|run| == 1 || PolledOften(run[1..], id, run[0].later))
       else PolledOften(run[1..], id, last)
  }

  /** Nobody closes the session, its subscription does not end, and the monitor is not stopped. */
  predicate LeftAlone(step: Step, id: nat) {
    !step.StopMonitoring? && (step.Asked? ==> step.request != Close(id) && (Polls(step, id) ==> !step.world))
  }

  lemma {:induction false} PollIsAhead(run: seq<Step>, id: nat, last: nat, clock: nat)
    requires PolledOften(run, id, last) && Timely(run, clock)
    ensures clock < last + 15_000
    ensures run[0].Asked? || run[0].Idle? ==> run[0].now < last + 15_000
    decreases |run|
  {
    if !Polls(run[0], id) {
      var after := if run[0].Asked? then run[0].later else if run[0].Idle? then run[0].now else clock;
      PollIsAhead(run[1..], id, last, after);
    }
  }

  /** A session polled at gaps below 15 seconds survives, however the other sessions behave. */
  lemma {:induction false} PolledSessionSurvives(s: State, run: seq<Step>, id: nat, clock: nat)
    requires id in s.sessions && id <= s.next && !s.stopped
    requires Timely(run, clock) && PolledOften(run, id, s.sessions[id].polled)
    requires forall i | 0 <= i < |run| :: LeftAlone(run[i], id)
    ensures id in Run(s, run).sessions
    decreases |run|
  {
    PollIsAhead(run, id, s.sessions[id].polled, clock);
    StepFate(s, run[0], id);
    if |run| > 1 {
      assert forall i | 0 <= i < |run[1..]| :: run[1..][i] == run[i + 1];
      var after := match run[0] { case Asked(_, _, _, later) => later case Idle(now) => now case _ => clock };
      PolledSessionSurvives(Next(s, run[0]), run[1..], id, after);
    } else {
      assert Run(s, run) == Run(Next(s, run[0]), []);
    }
  }

  /******* Which requests succeed *******/

  /** The system sessions polled less than 15 seconds before `now`. */
  function WatchedIds(s: State, now: nat): set<nat> {
    set id | id in s.sessions && s.sessions[id].kind.System? && now < s.sessions[id].polled + 15_000
  }

  lemma WatchedAreViewers(s: State, now: nat)
    requires Good(s)
    ensures Expired(s, now).viewers == |WatchedIds(s, now)|
  {
    ExpiryKeepsGood(s, now);
    assert SystemIds(Expired(s, now).sessions) == WatchedIds(s, now);
  }

  /**
   A system observation is started, under the next number, exactly when nothing is stopping, fewer
   than 32 system sessions are live and numbers are left.
   */
  lemma ObserveExactlyWhen(s: State, world: bool, now: nat, later: nat)
    requires Good(s)
    ensures var (n, reply) := Dispatch(s, ObserveSystem, world, now, later);
            && reply == (if s.stopped || s.systemStopped then Failed(Stopping)
                         else if |WatchedIds(s, now)| >= 32 then Failed(TooManyViewers)
                         else if s.next >= 18_446_744_073_709_551_615 then Failed(IdsExhausted)
                         else Started(s.next + 1))
            && (reply.Started? ==> reply.session in n.sessions && n.sessions[reply.session] == Lease(System, later))
            && (!reply.Started? ==> n.next == s.next && n.sessions == Kept(s.sessions, now))
  {
    WatchedAreViewers(s, now);
  }

  /** A process observation is started exactly when nothing is stopping, the process can be observed and numbers are left. */
  lemma ObserveProcessExactlyWhen(s: State, world: bool, now: nat, later: nat)
    requires Good(s)
    ensures var (n, reply) := Dispatch(s, ObserveProcess, world, now, later);
            && reply == (if s.stopped then Failed(Stopping) else if !world then Failed(Unavailable)
                         else if s.next >= 18_446_744_073_709_551_615 then Failed(IdsExhausted) else Started(s.next + 1))
            && (reply.Started? ==> reply.session in n.sessions && n.sessions[reply.session] == Lease(Process, later))
  {
  }

  /** A poll is answered exactly while the monitor runs and the lease is fresh; a close always is. */
  lemma PollExactlyWhen(s: State, id: nat, world: bool, now: nat, later: nat)
    ensures Dispatch(s, Poll(id), world, now, later).1 ==
            if s.stopped then Failed(Stopping)
            else if id in s.sessions && now < s.sessions[id].polled + 15_000 then Event(world) else Failed(UnknownSession)
    ensures Dispatch(s, Close(id), world, now, later).1 == Closed && id !in Dispatch(s, Close(id), world, now, later).0.sessions
  {
  }

  /** Any other request is answered with data exactly when the monitor runs and the data can be had, and starts nothing. */
  lemma AcquireExactlyWhen(s: State, world: bool, now: nat, later: nat)
    ensures Dispatch(s, Acquire, world, now, later)
            == (Expired(s, now), if s.stopped then Failed(Stopping) else if world then Data else Failed(Unavailable))
  {
  }

  /** `n` system observations asked for at one time. */
  function Observations(n: nat, now: nat): seq<Step> { seq(n, _ => Asked(ObserveSystem, false, now, now)) }

  /** Sessions 1 to `n` are system observations begun at `now`, and there is nothing else. */
  ghost predicate Viewers(s: State, n: nat, now: nat) {
    && s.next == n && s.viewers == n && !s.stopped && !s.systemStopped
    && (forall id :: id in s.sessions <==> 1 <= id <= n)
    && (forall id | id in s.sessions :: s.sessions[id] == Lease(System, now))
  }

  lemma OneMoreViewer(s: State, n: nat, now: nat)
    requires Viewers(s, n, now) && n < 32
    ensures Viewers(Next(s, Asked(ObserveSystem, false, now, now)), n + 1, now)
  {
    AllFresh(s, now);
  }

  /** Up to 32 viewers are let in, and get the numbers from 1 on. */
  lemma {:induction false} ThirtyTwoViewersFit(n: nat, now: nat)
    requires n <= 32
    ensures Viewers(Run(Initial, Observations(n, now)), n, now)
    decreases n
  {
    if n == 0 {
      assert Observations(n, now) == [];
    } else {
      var m: nat := n - 1;
      ThirtyTwoViewersFit(m, now);
      ghost var s := Run(Initial, Observations(m, now));
      OneMoreObservation(m, now);
      OneMoreViewer(s, m, now);
    }
  }

  lemma OneMoreObservation(n: nat, now: nat)
    ensures Run(Initial, Observations(n + 1, now)) == Next(Run(Initial, Observations(n, now)), Asked(ObserveSystem, false, now, now))
  {
    var last := [Asked(ObserveSystem, false, now, now)];
    assert Observations(n + 1, now) == Observations(n, now) + last && last[1..] == [];
    RunJoined(Initial, Observations(n, now), last);
  }

  lemma AllFresh(s: State, now: nat)
    requires forall id | id in s.sessions :: s.sessions[id].polled == now
    ensures Expired(s, now) == s
  {
    assert Kept(s.sessions, now) == s.sessions;
    assert SystemIds(s.sessions) - SystemIds(s.sessions) == {};
  }

  lemma {:induction false} RunJoined(s: State, a: seq<Step>, b: seq<Step>)
    ensures Run(s, a + b) == Run(Run(s, a), b)
    decreases |a|
  {
    if a == [] {
      assert a + b == b;
    } else {
      assert (a + b)[0] == a[0] && (a + b)[1..] == a[1..] + b;
      RunJoined(Next(s, a[0]), a[1..], b);
    }
  }
}
