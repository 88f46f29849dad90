/**
 The sessions an agent serves for its hub (src/http_server/hosts/connector.rs).  Several links,
 with several requests each in progress, and this host's own viewers share one helper.
 */
module AgentSessions {
  import opened Basics
  import H = HelperSessions

  predicate Ends(reply: H.Reply) { reply == H.Event(true) || reply.Failed? }

  /** The sessions of a link after a reply to a request that used `used`. */
  function Updated(owned: set<nat>, used: Option<nat>, closing: bool, reply: H.Reply): set<nat> {
    var grown := if reply.Started? then owned + {reply.session} else owned;
    if used.Some? && (closing || Ends(reply)) then grown - {used.value} else grown
  }

  function Used(request: H.Request): Option<nat> {
    match request
    case Poll(session) => Some(session)
    case Close(session) => Some(session)
    case _ => None
  }

  class Sessions {
    var owned: set<nat>

    constructor ()
      ensures owned == {}
    {
      owned := {};
    }

    /** What a reply means for the link: one more session, or one less when `used` is over. */
    method Update(used: Option<nat>, closing: bool, reply: H.Reply)
      modifies this
      ensures owned == Updated(old(owned), used, closing, reply)
    {
      if reply.Started? {
        owned := owned + {reply.session};
      }
      var ended := closing || reply == H.Event(true) || reply.Failed?;
      if used.Some? && ended {
        owned := owned - {used.value};
      }
    }

    method Drain() returns (sessions: set<nat>)
      modifies this
      ensures owned == {} && sessions == old(owned)
    {
      sessions := owned;
      owned := {};
    }
  }

  /******* All links and viewers *******/

  datatype Owner = Agent(link: nat) | Viewer

  datatype Phase = Waiting | Replied(reply: H.Reply) | Finished

  /** A request of a link that was passed on to the helper. */
  datatype Task = Task(link: nat, request: H.Request, phase: Phase)

  /**
   `owned` are the sessions of each link and `viewed` those of local viewers; `queued` are the
   tasks whose request the helper has not served; `closing` the sessions of ended links about to
   be closed.  `owners` and `heard` are history: for whom the helper started each session, and
   which sessions were started in a reply on each link.
   */
  datatype State = State(helper: H.State, owned: map<nat, set<nat>>, viewed: set<nat>, tasks: map<nat, Task>,
                         queued: set<nat>, closing: set<(nat, nat)>, owners: map<nat, Owner>, heard: map<nat, set<nat>>)

  datatype Action =
    | Link(l: nat)
    | Ask(t: nat, l: nat, request: H.Request)
    | Serve(t: nat, world: bool, now: nat, later: nat)
    | Fail(t: nat)
    | Finish(t: nat)
    | End(l: nat)
    | CloseEnded(l: nat, session: nat, now: nat, later: nat)
    | View(kind: H.Kind, world: bool, now: nat, later: nat)
    | Use(request: H.Request, world: bool, now: nat, later: nat)
    | Idle(now: nat)

  const Initial: State := State(H.Initial, map[], {}, map[], {}, {}, map[], map[])

  predicate Enabled(s: State, a: Action) {
    match a
    case Link(l) => l !in s.owned && l !in s.heard
    case Ask(t, l, _) => t !in s.tasks && l in s.owned
    case Serve(t, _, _, _) => t in s.queued && t in s.tasks
    case Fail(t) => t in s.tasks && !s.tasks[t].phase.Finished?
    case Finish(t) => t in s.tasks && s.tasks[t].phase.Replied? && s.tasks[t].link in s.owned && s.tasks[t].link in s.heard
    case End(l) => l in s.owned
    case CloseEnded(l, session, _, _) => (l, session) in s.closing
    case View(_, _, _, _) => true
    case Use(request, _, _, _) => Used(request).Some? && Used(request).value in s.viewed
    case Idle(_) => true
  }

  function Observe(kind: H.Kind): H.Request { if kind.System? then H.ObserveSystem else H.ObserveProcess }

  /** The owners after a reply that may have started a session for `who`. */
  function Recorded(owners: map<nat, Owner>, reply: H.Reply, who: Owner): map<nat, Owner> {
    if reply.Started? then owners[reply.session := who] else owners
  }

  function Do(s: State, a: Action): State
    requires Enabled(s, a)
  {
    match a
    case Link(l) => s.(owned := s.owned[l := {}], heard := s.heard[l := {}])
    case Ask(t, l, request) =>
      if Used(request).Some? && Used(request).value !in s.owned[l] then s
      else s.(tasks := s.tasks[t := Task(l, request, Waiting)], queued := s.queued + {t})
    case Serve(t, world, now, later) =>
      var k := s.tasks[t];
      var (helper, reply) := H.Dispatch(s.helper, k.request, world, now, later);
      s.(helper := helper, queued := s.queued - {t}, owners := Recorded(s.owners, reply, Agent(k.link)),
         tasks := if k.phase.Waiting? then s.tasks[t := k.(phase := Replied(reply))] else s.tasks)
    case Fail(t) => s.(tasks := s.tasks[t := s.tasks[t].(phase := Replied(H.Failed(H.Unavailable)))])
    case Finish(t) =>
      var k := s.tasks[t];
      var reply := k.phase.reply;
      s.(tasks := s.tasks[t := k.(phase := Finished)],
         owned := s.owned[k.link := Updated(s.owned[k.link], Used(k.request), k.request.Close?, reply)],
         heard := s.heard[k.link := s.heard[k.link] + if reply.Started? then {reply.session} else {}])
    case End(l) =>
      s.(owned := s.owned[l := {}], closing := s.closing + set session | session in s.owned[l] :: (l, session))
    case CloseEnded(l, session, now, later) =>
      s.(helper := H.Dispatch(s.helper, H.Close(session), false, now, later).0, closing := s.closing - {(l, session)})
    case View(kind, world, now, later) =>
      var (helper, reply) := H.Dispatch(s.helper, Observe(kind), world, now, later);
      s.(helper := helper, owners := Recorded(s.owners, reply, Viewer),
         viewed := s.viewed + if reply.Started? then {reply.session} else {})
    case Use(request, world, now, later) =>
      s.(helper := H.Dispatch(s.helper, request, world, now, later).0)
    case Idle(now) => s.(helper := H.Expired(s.helper, now))
  }

  /******* Ownership *******/

  predicate OwnedBy(owners: map<nat, Owner>, session: nat, who: Owner) { session in owners && owners[session] == who }

  /** The request names a session that was started in a reply on its link. */
  ghost predicate NamesOwn(s: State, k: Task) {
    Used(k.request).Some? ==>
      && OwnedBy(s.owners, Used(k.request).value, Agent(k.link))
      && k.link in s.heard && Used(k.request).value in s.heard[k.link]
  }

  ghost predicate TaskOk(s: State, k: Task) {
    && NamesOwn(s, k) && k.link in s.heard
    && (k.phase.Replied? && k.phase.reply.Started? ==> OwnedBy(s.owners, k.phase.reply.session, Agent(k.link)))
  }

  ghost predicate OwnersOk(s: State) {
    forall id | id in s.owners :: id <= s.helper.next
  }

  /** A link has only sessions it heard of, and hears only of its own. */
  ghost predicate LinksOk(s: State) {
    && (forall l | l in s.owned :: l in s.heard && s.owned[l] <= s.heard[l])
    && (forall l, id | l in s.heard && id in s.heard[l] :: OwnedBy(s.owners, id, Agent(l)))
    && (forall c | c in s.closing :: c.0 in s.heard && c.1 in s.heard[c.0])
  }

  ghost predicate ViewersOk(s: State) {
    forall id | id in s.viewed :: OwnedBy(s.owners, id, Viewer)
  }

  ghost predicate TasksOk(s: State) {
    forall t | t in s.tasks :: TaskOk(s, s.tasks[t])
  }

  ghost predicate Good(s: State) { OwnersOk(s) && LinksOk(s) && ViewersOk(s) && TasksOk(s) }

  /** What was started and heard stays so. */
  ghost predicate Extends(n: State, s: State) {
    && (forall id | id in s.owners :: OwnedBy(n.owners, id, s.owners[id]))
    && (forall l | l in s.heard :: l in n.heard && s.heard[l] <= n.heard[l])
  }

  /** A started session has a new id, so its owner is settled once and for all. */
  lemma RecordedExtends(owners: map<nat, Owner>, reply: H.Reply, who: Owner, was: nat, now: nat)
    requires was <= now && (forall id | id in owners :: id <= was) && (reply.Started? ==> was < reply.session <= now)
    ensures forall id | id in owners :: OwnedBy(Recorded(owners, reply, who), id, owners[id])
    ensures forall id | id in Recorded(owners, reply, who) :: id <= now
  {
  }

  lemma OwnerIsFixed(s: State, a: Action)
    requires OwnersOk(s) && Enabled(s, a)
    ensures Extends(Do(s, a), s) && OwnersOk(Do(s, a))
  {
    match a
    case Serve(t, world, now, later) =>
      var k := s.tasks[t];
      H.StartIsNew(s.helper, k.request, world, now, later);
      var (helper, reply) := H.Dispatch(s.helper, k.request, world, now, later);
      RecordedExtends(s.owners, reply, Agent(k.link), s.helper.next, helper.next);
    case View(kind, world, now, later) =>
      H.StartIsNew(s.helper, Observe(kind), world, now, later);
      var (helper, reply) := H.Dispatch(s.helper, Observe(kind), world, now, later);
      RecordedExtends(s.owners, reply, Viewer, s.helper.next, helper.next);
    case Use(request, world, now, later) => H.StartIsNew(s.helper, request, world, now, later);
    case CloseEnded(_, session, now, later) => H.StartIsNew(s.helper, H.Close(session), false, now, later);
    case _ =>
  }

  lemma LinksStay(s: State, a: Action)
    requires Good(s) && Enabled(s, a)
    ensures LinksOk(Do(s, a))
  {
    OwnerIsFixed(s, a);
    if a.Finish? {
      assert TaskOk(s, s.tasks[a.t]);
    } else {
      assert a.Link? || Do(s, a).heard == s.heard;
    }
  }

  lemma ViewersStay(s: State, a: Action)
    requires Good(s) && Enabled(s, a)
    ensures ViewersOk(Do(s, a))
  {
    OwnerIsFixed(s, a);
    if !a.View? {
      assert Do(s, a).viewed == s.viewed;
    }
  }

  lemma TaskStaysOk(s: State, n: State, k: Task)
    requires TaskOk(s, k) && Extends(n, s)
    ensures TaskOk(n, k)
  {
  }

  lemma TasksStay(s: State, a: Action)
    requires Good(s) && Enabled(s, a)
    ensures TasksOk(Do(s, a))
  {
    OwnerIsFixed(s, a);
    var n := Do(s, a);
    forall t | t in n.tasks
      ensures TaskOk(n, n.tasks[t])
    {
      if t in s.tasks {
        TaskStaysOk(s, n, s.tasks[t]);
      }
    }
  }

  predicate Possible(s: State, run: seq<Action>)
    decreases |run|
  {
    run == [] || (Enabled(s, run[0]) && Possible(Do(s, run[0]), run[1..]))
  }

  function After(s: State, run: seq<Action>): State
    requires Possible(s, run)
    decreases |run|
  {
    if run == [] then s else After(Do(s, run[0]), run[1..])
  }

  lemma {:induction false} RunStaysGood(s: State, run: seq<Action>)
    requires Good(s) && Possible(s, run)
    ensures Good(After(s, run))
    decreases |run|
  {
    if run != [] {
      OwnerIsFixed(s, run[0]);
      LinksStay(s, run[0]);
      ViewersStay(s, run[0]);
      TasksStay(s, run[0]);
      RunStaysGood(Do(s, run[0]), run[1..]);
    }
  }

  /** In every interleaving the sessions of different links, and of local viewers, are disjoint. */
  lemma SessionsAreDisjoint(run: seq<Action>, l: nat, m: nat)
    requires Possible(Initial, run)
    requires l in After(Initial, run).owned && m in After(Initial, run).owned && l != m
    ensures After(Initial, run).owned[l] !! After(Initial, run).owned[m]
    ensures After(Initial, run).owned[l] !! After(Initial, run).viewed
  {
    RunStaysGood(Initial, run);
    var s := After(Initial, run);
    forall id | id in s.owned[l]
      ensures id !in s.owned[m] && id !in s.viewed
    {
      assert id in s.heard[l] && OwnedBy(s.owners, id, Agent(l));
    }
  }

  /** Every poll or close a link passes on names a session started in a reply on that link. */
  lemma ForwardedNamesOwnSession(run: seq<Action>, t: nat)
    requires Possible(Initial, run) && t in After(Initial, run).tasks
    requires Used(After(Initial, run).tasks[t].request).Some?
    ensures var s := After(Initial, run); var k := s.tasks[t];
            k.link in s.heard && Used(k.request).value in s.heard[k.link]
  {
    RunStaysGood(Initial, run);
    var s := After(Initial, run);
    assert TaskOk(s, s.tasks[t]);
  }

  /** Serving a link leaves the sessions of all others alone: they end only when their lease runs out. */
  lemma LinkDisturbsNobody(run: seq<Action>, t: nat, world: bool, now: nat, later: nat, id: nat)
    requires Possible(Initial, run) && Enabled(After(Initial, run), Serve(t, world, now, later))
    requires var s := After(Initial, run); id in s.owners && s.owners[id] != Agent(s.tasks[t].link)
    ensures var s := After(Initial, run);
            var before := H.FateOf(s.helper, id);
            H.FateOf(Do(s, Serve(t, world, now, later)).helper, id)
            == if before.Live? && now < before.polled + 15_000 then before else H.Gone
  {
    RunStaysGood(Initial, run);
    var s := After(Initial, run);
    assert TaskOk(s, s.tasks[t]);
    H.StepFate(s.helper, H.Asked(s.tasks[t].request, world, now, later), id);
  }

  /** The same for the closes that follow the end of a link. */
  lemma EndedLinkDisturbsNobody(run: seq<Action>, l: nat, session: nat, now: nat, later: nat, id: nat)
    requires Possible(Initial, run) && Enabled(After(Initial, run), CloseEnded(l, session, now, later))
    requires var s := After(Initial, run); id in s.owners && s.owners[id] != Agent(l)
    ensures var s := After(Initial, run);
            var before := H.FateOf(s.helper, id);
            H.FateOf(Do(s, CloseEnded(l, session, now, later)).helper, id)
            == if before.Live? && now < before.polled + 15_000 then before else H.Gone
  {
    RunStaysGood(Initial, run);
    var s := After(Initial, run);
    assert (l, session) in s.closing && OwnedBy(s.owners, session, Agent(l));
    H.StepFate(s.helper, H.Asked(H.Close(session), false, now, later), id);
  }

  /******* That a link can use its sessions *******/

  /** A link has a session from the reply that started it until one that closed, ended or failed it. */
  lemma UpdatedMeans(owned: set<nat>, request: H.Request, reply: H.Reply, id: nat)
    ensures id in Updated(owned, Used(request), request.Close?, reply) <==>
            && (id in owned || reply == H.Started(id))
            && !(request == H.Close(id)) && !(request == H.Poll(id) && (reply == H.Event(true) || reply.Failed?))
  {
  }

  /** A poll or close is passed on exactly when the link has the session; other requests always are. */
  lemma AskExactlyWhen(s: State, t: nat, l: nat, request: H.Request)
    requires Enabled(s, Ask(t, l, request))
    ensures var n := Do(s, Ask(t, l, request));
            if request.Poll? || request.Close? ==> request.session in s.owned[l]
            then t in n.queued && t in n.tasks && n.tasks[t] == Task(l, request, Waiting)
            else n == s
  {
  }

  /** The end of a link leaves each of its sessions to be closed, and the helper then has it no more. */
  lemma EndClosesSessions(s: State, l: nat, id: nat, now: nat, later: nat)
    requires Enabled(s, End(l)) && id in s.owned[l]
    ensures var n := Do(s, End(l));
            && n.owned[l] == {} && Enabled(n, CloseEnded(l, id, now, later))
            && id !in Do(n, CloseEnded(l, id, now, later)).helper.sessions
  {
    assert (l, id) in Do(s, End(l)).closing;
    H.PollExactlyWhen(s.helper, id, false, now, later);
  }

  /** The state after link 0 came up and asked for a system observation. */
  const Observing: State := State(H.Initial, map[0 := {}], {}, map[0 := Task(0, H.ObserveSystem, Waiting)], {0}, {}, map[], map[0 := {}])

  /** A link that starts an observation can poll it, and the helper then answers with an event. */
  lemma StartedCanBePolled(now: nat, later: nat, soon: nat)
    requires now <= later <= soon < later + 15_000
    ensures var run := [Link(0), Ask(0, 0, H.ObserveSystem), Serve(0, false, now, later), Finish(0)];
            && Possible(Initial, run)
            && var s := After(Initial, run);
            && 0 in s.owned && s.owned[0] == {1} && Enabled(s, Ask(1, 0, H.Poll(1))) && 1 in Do(s, Ask(1, 0, H.Poll(1))).queued
            && H.Dispatch(s.helper, H.Poll(1), false, soon, soon).1 == H.Event(false)
  {
    StartIsReached(now, later);
    H.PollExactlyWhen(FinishedState(later).helper, 1, false, soon, soon);
  }

  lemma StartIsReached(now: nat, later: nat)
    ensures var run := [Link(0), Ask(0, 0, H.ObserveSystem), Serve(0, false, now, later), Finish(0)];
            Possible(Initial, run) && After(Initial, run) == FinishedState(later)
  {
    var run := [Link(0), Ask(0, 0, H.ObserveSystem), Serve(0, false, now, later), Finish(0)];
    var linked, served, finished := Do(Initial, Link(0)), ServedState(later), FinishedState(later);
    assert {} + {0} == {0};
    assert Do(linked, Ask(0, 0, H.ObserveSystem)) == Observing;
    FirstIsServed(now, later);
    FirstIsFinished(later);
    var second, third, last := run[1..], run[1..][1..], run[1..][1..][1..];
    assert last[1..] == [] && Possible(finished, []) && After(finished, []) == finished;
    assert last[0] == Finish(0) && Possible(served, last) && After(served, last) == finished;
    assert third[0] == Serve(0, false, now, later) && Possible(Observing, third) && After(Observing, third) == finished;
    assert second[0] == Ask(0, 0, H.ObserveSystem) && Possible(linked, second) && After(linked, second) == finished;
  }

  function OneSession(later: nat): H.State { H.State(map[1 := H.Lease(H.System, later)], 1, 1, false, false) }

  function ServedState(later: nat): State {
    State(OneSession(later), map[0 := {}], {}, map[0 := Task(0, H.ObserveSystem, Replied(H.Started(1)))], {}, {},
          map[1 := Agent(0)], map[0 := {}])
  }

  function FinishedState(later: nat): State {
    State(OneSession(later), map[0 := {1}], {}, map[0 := Task(0, H.ObserveSystem, Finished)], {}, {},
          map[1 := Agent(0)], map[0 := {1}])
  }

  lemma FirstIsServed(now: nat, later: nat)
    ensures Enabled(Observing, Serve(0, false, now, later)) && Do(Observing, Serve(0, false, now, later)) == ServedState(later)
  {
    H.AllFresh(H.Initial, now);
    assert H.Dispatch(H.Initial, H.ObserveSystem, false, now, later) == (OneSession(later), H.Started(1));
    assert {0} - {0} == {};
  }

  lemma FirstIsFinished(later: nat)
    ensures Enabled(ServedState(later), Finish(0)) && Do(ServedState(later), Finish(0)) == FinishedState(later)
  {
    assert {} + {1} == {1};
  }
}
